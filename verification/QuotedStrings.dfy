/** Quoted strings of the script language: escapestring writes them, cutstring reads them. */
module QuotedStrings {
  const NUL := '\0'
  const FORM_FEED := '\U{000C}'

  // ---- as functions

  function EscapeChar(c: char): (e: string) {
    if c == '\n' then "^n"
    else if c == '\t' then "^t"
    else if c == FORM_FEED then "^f"
    else if c == '"' then "^\""
    else if c == '^' then "^^"
    else [c]
  }

  function Escaped(s: string): string {
    if s == "" then "" else EscapeChar(s[0]) + Escaped(s[1..])
  }

  function Unescaped(s: string): (u: string)
    ensures |u| <= |s|
  {
    if s == "" then ""
    else if s[0] != '^' then [s[0]] + Unescaped(s[1..])
    else if |s| == 1 then ""
    else [UnescapeChar(s[1])] + Unescaped(s[2..])
  }

  function UnescapeChar(e: char): char {
    if e == 'n' then '\n' else if e == 't' then '\t' else if e == 'f' then FORM_FEED else e
  }

  /** The character at p; the text ends with a NUL. */
  function At(text: string, p: nat): char {
    if p < |text| then text[p] else NUL
  }

  /** Where a quoted string that goes on at p ends: at the closing quote, the end of the line or of the text. */
  function End(text: string, p: nat): (e: nat)
    requires p <= |text|
    ensures p <= e <= |text|
    decreases |text| - p
  {
    var c := At(text, p);
    if c == NUL || c == '\r' || c == '\n' || c == '"' then p
    else if c == '^' then if At(text, p + 1) == NUL then p + 1 else End(text, p + 2)
    else End(text, p + 1)
  }

  // ---- as loops

  method EscapeString(s: string) returns (buf: string)
    requires NUL !in s
    ensures buf == "\"" + Escaped(s) + "\""
  {
    buf := "\"";
    var p := 0;
    while At(s, p) != NUL
      invariant 0 <= p <= |s| && buf + Escaped(s[p..]) == "\"" + Escaped(s)
      decreases |s| - p
    {
      var c := s[p];
      assert s[p..][1..] == s[p + 1..];
      assert buf + (EscapeChar(c) + Escaped(s[p + 1..])) == buf + EscapeChar(c) + Escaped(s[p + 1..]);
      if c == '\n' {
        buf := buf + "^n";
      } else if c == '\t' {
        buf := buf + "^t";
      } else if c == FORM_FEED {
        buf := buf + "^f";
      } else if c == '"' {
        buf := buf + "^\"";
      } else if c == '^' {
        buf := buf + "^^";
      } else {
        buf := buf + [c];
      }
      p := p + 1;
    }
    assert s[p..] == "";
    buf := buf + "\"";
  }

  method ParseString(text: string, start: nat) returns (p: nat)
    requires start <= |text|
    ensures p == End(text, start)
  {
    p := start;
    while At(text, p) != NUL
      invariant p <= |text| && End(text, p) == End(text, start)
      decreases |text| - p
    {
      if text[p] == '\r' || text[p] == '\n' || text[p] == '"' {
        return;
      }
      if text[p] == '^' {
        p := p + 1;
        if At(text, p) == NUL {
          return;
        }
      }
      p := p + 1;
    }
  }

  /** What is written to dst, which has room for as many characters as there are between src and end. */
  method UnescapeString(text: string, start: nat, end: nat) returns (dst: string)
    requires start <= end <= |text|
    ensures dst == Unescaped(text[start..end]) && |dst| <= end - start
  {
    hide Unescaped;
    var src := start;
    dst := "";
    Nothing(text, end);
    while src < end
      invariant start <= src <= end && dst + Unescaped(text[src..end]) == Unescaped(text[start..end])
    {
      UnescapedStep(text[src..end]);
      var c := text[src];
      assert text[src..end][1..] == text[src + 1..end];
      src := src + 1;
      if c == '^' {
        if src >= end {
          break;
        }
        var e := text[src];
        assert text[src - 1..end][2..] == text[src + 1..end];
        src := src + 1;
        if e == 'n' {
          dst := dst + ['\n'];
        } else if e == 't' {
          dst := dst + ['\t'];
        } else if e == 'f' {
          dst := dst + [FORM_FEED];
        } else {
          dst := dst + [e];
        }
      } else {
        dst := dst + [c];
      }
    }
  }

  lemma Nothing(text: string, end: nat)
    requires end <= |text|
    ensures Unescaped(text[end..end]) == ""
  {
  }

  lemma UnescapedStep(s: string)
    requires s != ""
    ensures s[0] != '^' ==> Unescaped(s) == [s[0]] + Unescaped(s[1..])
    ensures s[0] == '^' && |s| == 1 ==> Unescaped(s) == ""
    ensures s[0] == '^' && |s| > 1 ==> Unescaped(s) == [UnescapeChar(s[1])] + Unescaped(s[2..])
  {
  }

  /** cutstring: the string that begins with the quote at p, and where the text goes on. */
  method CutString(text: string, p: nat) returns (s: string, next: nat)
    requires p < |text|
    ensures (s, next) == Cut(text, p)
  {
    var end := ParseString(text, p + 1);
    s := UnescapeString(text, p + 1, end);
    next := end;
    if At(text, end) == '"' {
      next := next + 1;
    }
  }

  function Cut(text: string, p: nat): (string, nat)
    requires p < |text|
  {
    var end := End(text, p + 1);
    (Unescaped(text[p + 1..end]), if At(text, end) == '"' then end + 1 else end)
  }

  // ---- the round trip

  lemma UnescapeOne(c: char, t: string)
    ensures Unescaped(EscapeChar(c) + t) == [c] + Unescaped(t)
  {
    var e := EscapeChar(c);
    assert (e + t)[|e|..] == t;
  }

  lemma {:induction false} UnescapeEscape(s: string, t: string)
    ensures Unescaped(Escaped(s) + t) == s + Unescaped(t)
    decreases |s|
  {
    hide EscapeChar, Unescaped;
    if s == "" {
      assert Escaped(s) + t == t;
    } else {
      UnescapeEscape(s[1..], t);
      UnescapeOne(s[0], Escaped(s[1..]) + t);
      assert Escaped(s) + t == EscapeChar(s[0]) + (Escaped(s[1..]) + t);
      assert s + Unescaped(t) == [s[0]] + (s[1..] + Unescaped(t));
    }
  }

  lemma EndOne(text: string, p: nat, c: char)
    requires c != NUL && c != '\r' && p + |EscapeChar(c)| <= |text| && text[p..p + |EscapeChar(c)|] == EscapeChar(c)
    ensures End(text, p) == End(text, p + |EscapeChar(c)|)
  {
    var e := EscapeChar(c);
    assert text[p] == text[p..p + |e|][0];
    if |e| == 2 {
      assert text[p + 1] == text[p..p + |e|][1];
    }
  }

  lemma Slices(text: string, p: nat, a: string, b: string)
    requires p + |a + b| <= |text| && text[p..p + |a + b|] == a + b
    ensures text[p..p + |a|] == a && text[p + |a|..p + |a| + |b|] == b
  {
    assert text[p..p + |a|] == text[p..p + |a + b|][..|a|];
    assert text[p + |a|..p + |a| + |b|] == text[p..p + |a + b|][|a|..];
  }

  /** The reader passes over an escaped string that has no carriage return. */
  lemma {:induction false} EndPasses(text: string, p: nat, s: string)
    requires NUL !in s && '\r' !in s && p + |Escaped(s)| <= |text| && text[p..p + |Escaped(s)|] == Escaped(s)
    ensures End(text, p) == End(text, p + |Escaped(s)|)
    decreases |s|
  {
    hide EscapeChar, End;
    if s != "" {
      Slices(text, p, EscapeChar(s[0]), Escaped(s[1..]));
      EndOne(text, p, s[0]);
      EndPasses(text, p + |EscapeChar(s[0])|, s[1..]);
    }
  }

  lemma {:induction false} EscapedJoin(a: string, b: string)
    ensures Escaped(a + b) == Escaped(a) + Escaped(b)
    decreases |a|
  {
    if a == "" {
      assert a + b == b;
    } else {
      EscapedJoin(a[1..], b);
      assert (a + b)[1..] == a[1..] + b;
      assert EscapeChar(a[0]) + (Escaped(a[1..]) + Escaped(b)) == EscapeChar(a[0]) + Escaped(a[1..]) + Escaped(b);
    }
  }

  /** Up to its first carriage return. */
  function Line(s: string): (l: string)
    ensures |l| <= |s| && l == s[..|l|] && '\r' !in l && (|l| < |s| ==> s[|l|] == '\r')
  {
    if s == "" || s[0] == '\r' then "" else [s[0]] + Line(s[1..])
  }

  /** What is read back from an escaped string, whatever text follows: the string up to its first
      carriage return. */
  lemma CutReads(s: string, rest: string)
    requires NUL !in s
    ensures var text := "\"" + Escaped(s) + "\"" + rest;
      Cut(text, 0) == (Line(s), if Line(s) == s then |Escaped(s)| + 2 else |Escaped(Line(s))| + 1)
  {
    hide *;
    LineIs(s);
    var l := Line(s);
    var tail := s[|l|..];
    assert s == l + tail;
    EscapedJoin(l, tail);
    FirstOfTail(tail);
    var after := Escaped(tail) + "\"" + rest;
    Regroup("\"", Escaped(l), Escaped(tail), "\"", rest);
    FirstAfter(Escaped(tail), rest);
    CutUpTo(l, after);
  }

  lemma Regroup(q: string, a: string, b: string, c: string, d: string)
    ensures q + (a + b) + c + d == q + a + (b + c + d)
  {
  }

  lemma FirstAfter(e: string, rest: string)
    ensures (e + "\"" + rest)[0] == if e == "" then '"' else e[0]
  {
  }

  /** A string without a carriage return is read up to what ends it. */
  lemma CutUpTo(l: string, after: string)
    requires NUL !in l && '\r' !in l && after != "" && (after[0] == '"' || after[0] == '\r')
    ensures Cut("\"" + Escaped(l) + after, 0) == (l, |Escaped(l)| + if after[0] == '"' then 2 else 1)
  {
    hide Escaped, Unescaped, End, EscapeChar;
    var text, n := "\"" + Escaped(l) + after, |Escaped(l)|;
    assert text[1..1 + n] == Escaped(l);
    EndPasses(text, 1, l);
    assert text[1 + n] == after[0];
    EndHere(text, 1 + n);
    FirstOfTail("");
    UnescapeEscape(l, "");
    assert Escaped(l) + "" == Escaped(l);
    assert l + "" == l;
  }

  lemma LineIs(s: string)
    ensures Line(s) == s <==> s[|Line(s)|..] == ""
    ensures s[|Line(s)|..] != "" ==> s[|Line(s)|..][0] == '\r'
  {
  }

  lemma FirstOfTail(tail: string)
    requires tail != "" ==> tail[0] == '\r'
    ensures Escaped("") == "" && Unescaped("") == ""
    ensures tail != "" ==> Escaped(tail) != "" && Escaped(tail)[0] == '\r'
  {
  }

  lemma EndHere(text: string, p: nat)
    requires p < |text| && (text[p] == '"' || text[p] == '\r')
    ensures End(text, p) == p
  {
  }

  /** escapestring and cutstring undo each other, and the reader stops right behind the closing quote,
      exactly for the strings without a carriage return. */
  lemma RoundTrip(s: string, rest: string)
    requires NUL !in s
    ensures Cut("\"" + Escaped(s) + "\"" + rest, 0) == (s, |Escaped(s)| + 2) <==> '\r' !in s
  {
    CutReads(s, rest);
    if '\r' in s {
      assert Line(s) != s;
    } else {
      assert |Line(s)| == |s|;
    }
  }

  // ---- what is written, character by character

  lemma {:induction false} EscapedSplit(s: string, k: nat)
    requires k < |s|
    ensures Escaped(s) == Escaped(s[..k]) + EscapeChar(s[k]) + Escaped(s[k + 1..])
  {
    hide EscapeChar, Escaped;
    assert s == s[..k] + s[k..];
    EscapedJoin(s[..k], s[k..]);
    EscapedFirst(s[k..]);
    assert s[k..][1..] == s[k + 1..];
    assert Escaped(s[..k]) + (EscapeChar(s[k]) + Escaped(s[k + 1..])) == Escaped(s[..k]) + EscapeChar(s[k]) + Escaped(s[k + 1..]);
  }

  lemma EscapedFirst(s: string)
    requires s != ""
    ensures Escaped(s) == EscapeChar(s[0]) + Escaped(s[1..])
  {
  }

  /** A newline is written as ^n, a tab as ^t, a form feed as ^f, a quote and a caret behind a caret, and
      any other character as itself. */
  lemma WrittenAs(s: string, k: nat)
    requires k < |s|
    ensures var e, p := Escaped(s), |Escaped(s[..k])|;
      && (s[k] !in "\n\t\U{000C}\"^" ==> p < |e| && e[p] == s[k] && e[p + 1..] == Escaped(s[k + 1..]))
      && (s[k] in "\n\t\U{000C}\"^" ==>
          && p + 2 <= |e| && e[p] == '^' && e[p + 2..] == Escaped(s[k + 1..])
          && (s[k] == '\n' ==> e[p + 1] == 'n') && (s[k] == '\t' ==> e[p + 1] == 't') && (s[k] == '\U{000C}' ==> e[p + 1] == 'f')
          && (s[k] == '"' ==> e[p + 1] == '"') && (s[k] == '^' ==> e[p + 1] == '^'))
  {
    hide Escaped;
    EscapedSplit(s, k);
    var a, c, b := Escaped(s[..k]), EscapeChar(s[k]), Escaped(s[k + 1..]);
    assert (a + c + b)[|a| + |c|..] == b;
    assert forall i :: 0 <= i < |c| ==> (a + c + b)[|a| + i] == c[i];
  }

  /** What is read behind a caret: a newline for n, a tab for t, a form feed for f, any other character for
      itself; a caret at the end is dropped. */
  lemma ReadAs(c: char, t: string)
    ensures c != '^' ==> Unescaped([c] + t) == [c] + Unescaped(t)
    ensures Unescaped("^n" + t) == "\n" + Unescaped(t) && Unescaped("^t" + t) == "\t" + Unescaped(t)
    ensures Unescaped("^f" + t) == "\U{000C}" + Unescaped(t)
    ensures c !in "ntf" ==> Unescaped("^" + [c] + t) == [c] + Unescaped(t)
    ensures Unescaped("^") == ""
  {
    hide Unescaped;
    UnescapedStep("^");
    UnescapedStep([c] + t);
    assert ([c] + t)[1..] == t;
    forall e: char ensures Unescaped("^" + [e] + t) == [UnescapeChar(e)] + Unescaped(t) {
      UnescapedStep("^" + [e] + t);
      assert ("^" + [e] + t)[2..] == t;
    }
    assert "^" + ['n'] + t == "^n" + t && "^" + ['t'] + t == "^t" + t && "^" + ['f'] + t == "^f" + t;
  }

  /** A quoted string ends at the first quote or end of a line that no caret protects, and at the latest at
      the end of the text. */
  lemma {:induction false} EndsAt(text: string, p: nat)
    requires p <= |text|
    ensures var e := End(text, p);
      && (e == |text| || text[e] == '\0' || text[e] == '\r' || text[e] == '\n' || text[e] == '"')
      && forall q :: p <= q < e ==> text[q] != '\0' && (text[q] in "\r\n\"" ==> p < q && text[q - 1] == '^')
    decreases |text| - p
  {
    var c := At(text, p);
    if c == NUL || c == '\r' || c == '\n' || c == '"' {
    } else if c == '^' {
      if At(text, p + 1) != NUL {
        EndsAt(text, p + 2);
      }
    } else {
      EndsAt(text, p + 1);
    }
  }
}
