/** The server's bots: which client runs which bot, and how they are shared out among the clients. */
module BotAssignment {
  import opened Words
  import opened Sums

  const MAXBOTS := 32

  /** A connected client that is a player: eligible is what validaiclient says of it, bots are slots. */
  datatype Player = Player(clientnum: nat, eligible: bool, bots: seq<nat>)

  /** A place in the table of bots; owner is a client number, -1 for a bot that is to be removed. */
  datatype Slot = Empty | Bot(owner: int, reinit: int)

  ghost predicate NoRepeats(s: seq<nat>) {
    forall i, j :: 0 <= i < j < |s| ==> s[i] != s[j]
  }

  ghost predicate Distinct(players: seq<Player>) {
    forall i, j :: 0 <= i < |players| && 0 <= j < |players| && i != j ==> players[i].clientnum != players[j].clientnum
  }

  predicate Owned(slot: Slot, p: Player) { slot.Bot? && slot.owner == p.clientnum }

  /** A bot is in a player's list, and once, just when it names that player as its owner; and every
      owner is a player. */
  ghost predicate Assigned(players: seq<Player>, slots: seq<Slot>) {
    && Distinct(players)
    && (forall i :: 0 <= i < |players| ==> NoRepeats(players[i].bots))
    && (forall i, b: nat :: 0 <= i < |players| ==> Agree(players[i], slots, b))
    && forall b :: 0 <= b < |slots| && slots[b].Bot? && slots[b].owner >= 0 ==> HasOwner(players, slots[b])
  }

  /** The player's list and the bot's slot say the same. */
  ghost predicate Agree(p: Player, slots: seq<Slot>, b: nat) {
    b in p.bots <==> b < |slots| && Owned(slots[b], p)
  }

  ghost predicate HasOwner(players: seq<Player>, slot: Slot) {
    exists i :: 0 <= i < |players| && Owned(slot, players[i])
  }

  // ---- lists

  /** vector::removeobj */
  function Remove(s: seq<nat>, b: nat): (r: seq<nat>)
    ensures forall x :: x in r <==> x in s && x != b
  {
    if s == [] then [] else (if s[0] == b then [] else [s[0]]) + Remove(s[1..], b)
  }

  lemma {:induction false} RemoveKeeps(s: seq<nat>, b: nat)
    requires NoRepeats(s)
    ensures NoRepeats(Remove(s, b)) && |Remove(s, b)| == |s| - if b in s then 1 else 0
  {
    if s != [] {
      RemoveKeeps(s[1..], b);
      assert forall i :: 1 <= i < |s| ==> s[i] != s[0];
      assert s[0] !in s[1..];
      NoRepeatsFront(s[0], Remove(s[1..], b));
    }
  }

  lemma NoRepeatsFront(x: nat, s: seq<nat>)
    requires NoRepeats(s) && x !in s
    ensures NoRepeats([x] + s)
  {
  }

  // ---- moving one bot

  /** A bot leaves the list of the player that owns it. */
  function Released(players: seq<Player>, h: nat, b: nat): seq<Player>
    requires h < |players|
  {
    players[h := players[h].(bots := Remove(players[h].bots, b))]
  }

  function Given(players: seq<Player>, g: nat, b: nat): seq<Player>
    requires g < |players|
  {
    players[g := players[g].(bots := players[g].bots + [b])]
  }

  /** Nobody's list has the bot, whatever its slot says. */
  ghost predicate AssignedBut(players: seq<Player>, slots: seq<Slot>, b: nat) {
    && Distinct(players) && b < |slots|
    && (forall i :: 0 <= i < |players| ==> NoRepeats(players[i].bots) && b !in players[i].bots)
    && (forall i, x: nat :: 0 <= i < |players| && x != b ==> Agree(players[i], slots, x))
    && forall x :: 0 <= x < |slots| && x != b && slots[x].Bot? && slots[x].owner >= 0 ==> HasOwner(players, slots[x])
  }

  lemma OwnerSame(players: seq<Player>, players': seq<Player>, slot: Slot)
    requires HasOwner(players, slot) && |players'| == |players|
    requires forall i :: 0 <= i < |players| ==> players'[i].clientnum == players[i].clientnum
    ensures HasOwner(players', slot)
  {
    var i :| 0 <= i < |players| && Owned(slot, players[i]);
    assert Owned(slot, players'[i]);
  }

  lemma ReleaseKeeps(players: seq<Player>, slots: seq<Slot>, h: nat, b: nat)
    requires Assigned(players, slots) && h < |players| && b < |slots| && Owned(slots[b], players[h])
    ensures AssignedBut(Released(players, h, b), slots, b)
  {
    var p := Released(players, h, b);
    RemoveKeeps(players[h].bots, b);
    forall i, x: nat | 0 <= i < |p| ensures x != b ==> Agree(p[i], slots, x) {
      assert Agree(players[i], slots, x);
    }
    forall i | 0 <= i < |p| ensures NoRepeats(p[i].bots) && b !in p[i].bots {
      assert NoRepeats(players[i].bots) && Agree(players[i], slots, b);
      assert i != h ==> players[i].clientnum != players[h].clientnum;
    }
    forall x | 0 <= x < |slots| && slots[x].Bot? && slots[x].owner >= 0 ensures HasOwner(p, slots[x]) {
      OwnerSame(players, p, slots[x]);
    }
  }

  lemma NobodysBot(players: seq<Player>, slots: seq<Slot>, b: nat)
    requires Assigned(players, slots) && b < |slots| && (slots[b].Bot? ==> slots[b].owner < 0)
    ensures AssignedBut(players, slots, b)
  {
    forall i | 0 <= i < |players| ensures b !in players[i].bots {
      assert Agree(players[i], slots, b);
    }
  }

  /** The bot without an owner, or no bot at all. */
  lemma DropKeeps(players: seq<Player>, slots: seq<Slot>, b: nat, slot: Slot)
    requires AssignedBut(players, slots, b) && (slot.Bot? ==> slot.owner < 0)
    ensures Assigned(players, slots[b := slot])
  {
    var s := slots[b := slot];
    forall i, x: nat | 0 <= i < |players| ensures Agree(players[i], s, x) {
      assert b !in players[i].bots;
      assert x != b ==> Agree(players[i], slots, x);
    }
    forall x | 0 <= x < |s| && s[x].Bot? && s[x].owner >= 0 ensures HasOwner(players, s[x]) {
    }
  }

  lemma GiveKeeps(players: seq<Player>, slots: seq<Slot>, b: nat, g: nat, slot: Slot)
    requires AssignedBut(players, slots, b) && g < |players| && Owned(slot, players[g])
    ensures Assigned(Given(players, g, b), slots[b := slot])
  {
    var p, s := Given(players, g, b), slots[b := slot];
    forall i, x: nat | 0 <= i < |p| ensures Agree(p[i], s, x) {
      assert b !in players[i].bots;
      if x != b {
        assert Agree(players[i], slots, x);
      } else if i != g {
        assert players[i].clientnum != players[g].clientnum;
      }
    }
    forall x | 0 <= x < |s| && s[x].Bot? && s[x].owner >= 0 ensures HasOwner(p, s[x]) {
      if x == b {
        assert Owned(s[b], p[g]);
      } else {
        OwnerSame(players, p, s[x]);
      }
    }
  }

  // ---- the shares

  function Squares(players: seq<Player>): (s: seq<nat>)
    ensures |s| == |players|
  {
    seq(|players|, i requires 0 <= i < |players| => |players[i].bots| * |players[i].bots|)
  }

  /** Moving a bot from a longer list to one shorter by two or more makes the sum of the squares smaller. */
  lemma MoveShrinks(players: seq<Player>, hi: nat, lo: nat, after: seq<Player>)
    requires hi < |players| && lo < |players| && |players[hi].bots| > |players[lo].bots| + 1 && |after| == |players|
    requires |after[hi].bots| == |players[hi].bots| - 1 && |after[lo].bots| == |players[lo].bots| + 1
    requires forall i :: 0 <= i < |players| && i != hi && i != lo ==> |after[i].bots| == |players[i].bots|
    ensures Sum(Squares(after)) < Sum(Squares(players))
  {
    hide Sum;
    var a, b := |players[hi].bots|, |players[lo].bots|;
    var s := Squares(players);
    var x: nat, y: nat := (a - 1) * (a - 1), (b + 1) * (b + 1);
    SumUpdate(s, hi, x);
    var t: seq<nat> := s[hi := x];
    SumUpdate(t, lo, y);
    assert Squares(after) == t[lo := y];
    SquaresShrink(a, b);
  }

  lemma SquaresShrink(a: int, b: int)
    requires a > b + 1
    ensures (a - 1) * (a - 1) + (b + 1) * (b + 1) < a * a + b * b
  {
    assert (a - 1) * (a - 1) == a * a - 2 * a + 1;
    assert (b + 1) * (b + 1) == b * b + 2 * b + 1;
  }

  /** The lists of the eligible players differ in length by at most one. */
  ghost predicate Balanced(players: seq<Player>) {
    forall i, j :: 0 <= i < |players| && 0 <= j < |players| && players[i].eligible && players[j].eligible ==>
      |players[i].bots| <= |players[j].bots| + 1
  }

  /** Of the first n players, the eligible one with the fewest bots, and of several the first; -1 for none. */
  ghost predicate FewestBots(players: seq<Player>, n: nat, exclude: int, least: int) {
    && n <= |players|
    && if least == -1 then forall i :: 0 <= i < n && players[i].eligible ==> i == exclude
       else
         && 0 <= least < n && players[least].eligible && least != exclude
         && forall i :: 0 <= i < n && players[i].eligible && i != exclude ==>
           if i < least then |players[least].bots| < |players[i].bots| else |players[least].bots| <= |players[i].bots|
  }

  /** The last bot of the first eligible player with the most bots has gone to the first one with the fewest. */
  ghost predicate Moved(players: seq<Player>, slots: seq<Slot>, players': seq<Player>, slots': seq<Slot>, hi: int, lo: int) {
    && 0 <= hi < |players| && 0 <= lo < |players| == |players'| && players[hi].eligible && players[lo].eligible
    && (forall i :: 0 <= i < |players| && players[i].eligible ==> |players[lo].bots| <= |players[i].bots| <= |players[hi].bots|)
    && (forall i :: 0 <= i < hi && players[i].eligible ==> |players[i].bots| < |players[hi].bots|)
    && (forall i :: 0 <= i < lo && players[i].eligible ==> |players[lo].bots| < |players[i].bots|)
    && |players[hi].bots| > |players[lo].bots| + 1
    && var last := |players[hi].bots| - 1;
    var b := players[hi].bots[last];
    && players' == players[hi := players[hi].(bots := players[hi].bots[..last])][lo := players[lo].(bots := players[lo].bots + [b])]
    && b < |slots| && slots' == slots[b := Bot(players[lo].clientnum, 2)]
  }

  /** What sharing out does not change: the players, the lists of those that take no part, and which bots
      have an owner; a bot that has moved is to be announced. */
  ghost predicate SharedOut(players: seq<Player>, slots: seq<Slot>, players': seq<Player>, slots': seq<Slot>) {
    && |players'| == |players| && |slots'| == |slots|
    && (forall i :: 0 <= i < |players| ==>
      && players'[i].clientnum == players[i].clientnum && players'[i].eligible == players[i].eligible
      && (!players[i].eligible ==> players'[i].bots == players[i].bots))
    && forall b :: 0 <= b < |slots| ==>
      slots'[b] == slots[b] || (slots[b].Bot? && slots[b].owner >= 0 && slots'[b].Bot? && slots'[b].owner >= 0 && slots'[b].reinit == 2)
  }

  /** One move after another, from the first of these states to the last. */
  ghost predicate Moves(trail: seq<(seq<Player>, seq<Slot>)>) {
    trail != [] && forall k :: 0 < k < |trail| ==> MovesOne(trail[k - 1], trail[k])
  }

  ghost predicate MovesOne(was: (seq<Player>, seq<Slot>), now: (seq<Player>, seq<Slot>)) {
    exists hi, lo :: Moved(was.0, was.1, now.0, now.1, hi, lo)
  }

  lemma OneMoreMove(trail: seq<(seq<Player>, seq<Slot>)>, now: (seq<Player>, seq<Slot>), hi: int, lo: int)
    requires Moves(trail) && var was := trail[|trail| - 1]; Moved(was.0, was.1, now.0, now.1, hi, lo)
    ensures Moves(trail + [now])
  {
    hide Moved;
    assert MovesOne(trail[|trail| - 1], now);
  }

  lemma NothingShared(players: seq<Player>, slots: seq<Slot>)
    ensures SharedOut(players, slots, players, slots)
  {
  }

  lemma MoveShares(players: seq<Player>, slots: seq<Slot>, was: seq<Player>, were: seq<Slot>, now: seq<Player>, slots': seq<Slot>,
                   hi: int, lo: int)
    requires Assigned(was, were) && SharedOut(players, slots, was, were) && Moved(was, were, now, slots', hi, lo)
    ensures SharedOut(players, slots, now, slots')
  {
    InList(was, were, hi, |was[hi].bots| - 1);
    hide Assigned;
  }

  /** What findaiclient returns for the first n players. */
  function Fewest(players: seq<Player>, n: nat, exclude: int): (least: int)
    requires n <= |players|
    ensures FewestBots(players, n, exclude, least)
  {
    if n == 0 then -1
    else
      var least := Fewest(players, n - 1, exclude);
      if !players[n - 1].eligible || n - 1 == exclude then least
      else if least == -1 || |players[n - 1].bots| < |players[least].bots| then n - 1
      else least
  }

  /** Bot b goes to the player at position owner, or to nobody. */
  function Shifted(players: seq<Player>, b: nat, owner: int): (r: seq<Player>)
    ensures |r| == |players|
  {
    seq(|players|, i requires 0 <= i < |players| =>
      players[i].(bots := if i == owner then players[i].bots + [b] else Remove(players[i].bots, b)))
  }

  /** The bots bs of player h go on, from the last to the first, each to whoever has the fewest bots by then. */
  function HandedOn(players: seq<Player>, slots: seq<Slot>, h: nat, bs: seq<nat>): (seq<Player>, seq<Slot>)
    requires forall k :: 0 <= k < |bs| ==> bs[k] < |slots|
    decreases |bs|
  {
    if bs == [] then (players, slots)
    else
      var b, owner := bs[|bs| - 1], Fewest(players, |players|, h);
      HandedOn(Shifted(players, b, owner), slots[b := NewOwner(players, owner)], h, bs[..|bs| - 1])
  }

  function NewOwner(players: seq<Player>, owner: int): Slot
    requires owner < |players|
  {
    if owner < 0 then Bot(-1, 0) else Bot(players[owner].clientnum, 2)
  }

  class BotManager {
    var players: seq<Player>
    var slots: seq<Slot>
    var dorefresh: bool

    ghost predicate Valid()
      reads this
    {
      Assigned(players, slots) && |slots| <= MAXBOTS
    }

    constructor ()
      ensures Valid() && players == [] && slots == []
    {
      players, slots, dorefresh := [], [], false;
    }

    /** findaiclient: the eligible player with the fewest bots, the first of them; -1 if there is none. */
    method FindAiClient(exclude: int) returns (least: int)
      ensures FewestBots(players, |players|, exclude, least) && least == Fewest(players, |players|, exclude)
    {
      least := -1;
      for n := 0 to |players|
        invariant least == Fewest(players, n, exclude)
      {
        if !players[n].eligible || n == exclude {
          continue;
        }
        if least == -1 || |players[n].bots| < |players[least].bots| {
          least := n;
        }
      }
    }

    /** getclientinfo among the players; -1 if there is no such client. */
    method FindPlayer(clientnum: int) returns (h: int)
      ensures h == -1 ==> forall i :: 0 <= i < |players| ==> players[i].clientnum != clientnum
      ensures h != -1 ==> 0 <= h < |players| && players[h].clientnum == clientnum
    {
      h := 0;
      while h < |players|
        invariant 0 <= h <= |players| && forall i :: 0 <= i < h ==> players[i].clientnum != clientnum
      {
        if players[h].clientnum == clientnum {
          return;
        }
        h := h + 1;
      }
      h := -1;
    }

    /** shiftai: bot b goes to the player at position owner, or loses its owner. Nothing puts the bot back
        into the list of the player that has it already, so that it must not be given to that one. Both
        callers see to that: removeai leaves the owner out of the search, and reassignai moves a bot from a
        longer list to a shorter one. */
    method ShiftAi(b: nat, owner: int)
      requires Valid() && b < |slots| && slots[b].Bot? && -1 <= owner < |players|
      modifies this
      ensures Valid() <==> !(owner >= 0 && Owned(old(slots)[b], old(players)[owner]))
      ensures var has := owner >= 0 && Owned(old(slots)[b], old(players)[owner]);
        && slots == (if has then old(slots) else old(slots)[b := if owner < 0 then Bot(-1, 0) else Bot(old(players)[owner].clientnum, 2)])
        && |players| == |old(players)| && forall i :: 0 <= i < |players| ==>
          && players[i].clientnum == old(players)[i].clientnum && players[i].eligible == old(players)[i].eligible
          && players[i].bots == if i == owner && !has then old(players)[i].bots + [b] else Remove(old(players)[i].bots, b)
      ensures dorefresh
    {
      hide Assigned, AssignedBut, Remove;
      var ci := slots[b];
      OnlyOwnerHas(players, slots, b);
      var prev := FindPlayer(ci.owner);
      if prev != -1 {
        NotOwned(players, slots, prev, b);
        ReleaseKeeps(players, slots, prev, b);
        players := Released(players, prev, b);
      } else {
        OwnerKnown(players, slots, b);
        NobodysBot(players, slots, b);
      }
      if owner < 0 {
        DropKeeps(players, slots, b, Bot(-1, 0));
        slots := slots[b := Bot(-1, 0)];
      } else if slots[b].owner == players[owner].clientnum {
        OnlyOwner(old(players), slots, owner, prev, b);
        ShiftToItsOwner(old(players), slots, owner, b, ci.reinit);
        assert slots[b := Bot(players[owner].clientnum, ci.reinit)] == slots;
      } else {
        var slot := Bot(players[owner].clientnum, 2);
        GiveKeeps(players, slots, b, owner, slot);
        slots := slots[b := slot];
        players := Given(players, owner, b);
      }
      dorefresh := true;
    }

    /** removeai: the bots of a player that leaves go to the others, one by one from the last, or lose their owner. */
    method RemoveAi(h: nat)
      requires Valid() && h < |players|
      modifies this
      ensures Valid() && |players| == |old(players)| && players[h].bots == []
      ensures forall i :: 0 <= i < |players| ==>
        players[i].clientnum == old(players)[i].clientnum && players[i].eligible == old(players)[i].eligible
      ensures |slots| == |old(slots)| && forall b :: 0 <= b < |slots| ==>
        if b in old(players)[h].bots then Rehoused(old(players), h, slots[b]) else slots[b] == old(slots)[b]
      // each goes to whoever has the fewest bots at that moment
      ensures forall k :: 0 <= k < |old(players)[h].bots| ==> old(players)[h].bots[k] < |slots|
      ensures (players, slots) == HandedOn(old(players), old(slots), h, old(players)[h].bots)
    {
      hide Assigned, Remove, FewestBots, Fewest, Shifted, HandedOn, Rehoused, NewOwner;
      AllInRange(players, slots, h);
      ghost var was, before := players[h].bots, slots;
      var i := |players[h].bots|;
      assert was[..i] == was;
      while i > 0
        invariant Valid() && |players| == |old(players)| && 0 <= i <= |was| && players[h].bots == was[..i]
        invariant forall k :: 0 <= k < |players| ==>
          players[k].clientnum == old(players)[k].clientnum && players[k].eligible == old(players)[k].eligible
        invariant |slots| == |before| && forall b :: 0 <= b < |slots| ==>
          if b in was[i..] then Rehoused(old(players), h, slots[b]) else slots[b] == before[b]
        invariant HandedOn(players, slots, h, was[..i]) == HandedOn(old(players), before, h, was)
      {
        i := i - 1;
        HandOne(players, slots, h, was[..i + 1]);
        assert was[..i + 1][..i] == was[..i] && was[i..] == [was[i]] + was[i + 1..];
        ghost var now := players;
        ghost var owner := RemoveLast(h);
        GoesOn(old(players), now, h, owner);
      }
      HandNone(players, slots, h, was[..i]);
    }

    /** One turn of removeai: the last bot of player h goes on. */
    method RemoveLast(h: nat) returns (ghost owner: int)
      requires Valid() && h < |players| && players[h].bots != []
      modifies this
      ensures Valid()
      ensures var p := old(players);
        var b := p[h].bots[|p[h].bots| - 1];
        && owner == Fewest(p, |p|, h) && FewestBots(p, |p|, h, owner) && players == Shifted(p, b, owner)
        && b < |old(slots)| && slots == old(slots)[b := NewOwner(p, owner)]
        && |players| == |p| && players[h].bots == p[h].bots[..|p[h].bots| - 1]
        && forall k :: 0 <= k < |p| ==> players[k].clientnum == p[k].clientnum && players[k].eligible == p[k].eligible
    {
      hide Assigned, Remove, Fewest, Shifted;
      var i := |players[h].bots| - 1;
      var b := players[h].bots[i];
      InList(players, slots, h, i);
      var next := FindAiClient(h);
      owner := next;
      if next >= 0 {
        Different(players, slots, h, next);
      }
      LastOut(players[h].bots);
      ShiftAi(b, next);
      IsShifted(old(players), players, b, next);
    }

    /** reassignai: one bot goes from the eligible player with the most bots to the one with the fewest,
        if they differ by more than one. */
    method ReassignAi() returns (moved: bool, hi: int, lo: int)
      requires Valid()
      modifies this
      ensures Valid() && |players| == |old(players)|
      ensures if moved then Moved(old(players), old(slots), players, slots, hi, lo) && Sum(Squares(players)) < Sum(Squares(old(players)))
              else players == old(players) && slots == old(slots) && Balanced(players)
      ensures dorefresh == (moved || old(dorefresh))
    {
      hide Assigned, Remove, Sum, Squares;
      hi, lo := -1, -1;
      for n := 0 to |players|
        invariant -1 <= hi < n && -1 <= lo < n
        invariant forall i :: 0 <= i < n && players[i].eligible ==> hi >= 0 && lo >= 0
        invariant hi >= 0 ==> players[hi].eligible && forall i :: 0 <= i < n && players[i].eligible ==> |players[i].bots| <= |players[hi].bots|
        invariant lo >= 0 ==> players[lo].eligible && forall i :: 0 <= i < n && players[i].eligible ==> |players[lo].bots| <= |players[i].bots|
        invariant forall i :: 0 <= i < hi && players[i].eligible ==> |players[i].bots| < |players[hi].bots|
        invariant forall i :: 0 <= i < lo && players[i].eligible ==> |players[lo].bots| < |players[i].bots|
      {
        if !players[n].eligible {
          continue;
        }
        if lo == -1 || |players[n].bots| < |players[lo].bots| {
          lo := n;
        }
        if hi == -1 || |players[n].bots| > |players[hi].bots| {
          hi := n;
        }
      }
      moved := false;
      if hi >= 0 && lo >= 0 && |players[hi].bots| - |players[lo].bots| > 1 {
        var b := players[hi].bots[|players[hi].bots| - 1];
        InList(players, slots, hi, |players[hi].bots| - 1);
        Different(players, slots, hi, lo);
        LastOut(players[hi].bots);
        OnlyOwnerHas(players, slots, b);
        NotOwned(players, slots, hi, b);
        ShiftAi(b, lo);
        MoveShrinks(old(players), hi, lo, players);
        assert players == old(players)[hi := old(players)[hi].(bots := players[hi].bots)][lo := old(players)[lo].(bots := players[lo].bots)];
        moved := true;
      }
    }

    /** The loop of checkai comes to an end, with the bots shared out evenly. */
    method Rebalance() returns (ghost trail: seq<(seq<Player>, seq<Slot>)>)
      requires Valid()
      modifies this
      ensures Valid() && Balanced(players) && SharedOut(old(players), old(slots), players, slots)
      ensures dorefresh || slots == old(slots)
      // what it took were moves of reassignai, one after another
      ensures Moves(trail) && trail[0] == (old(players), old(slots)) && trail[|trail| - 1] == (players, slots)
    {
      hide Assigned, Moved, SharedOut, Sum, Squares;
      NothingShared(players, slots);
      trail := [(players, slots)];
      var moved := true;
      while moved
        invariant Valid() && (!moved ==> Balanced(players)) && SharedOut(old(players), old(slots), players, slots)
        invariant dorefresh || slots == old(slots)
        invariant Moves(trail) && trail[0] == (old(players), old(slots)) && trail[|trail| - 1] == (players, slots)
        decreases Sum(Squares(players)), moved
      {
        ghost var was, were := players, slots;
        var hi, lo;
        moved, hi, lo := ReassignAi();
        if moved {
          MoveShares(old(players), old(slots), was, were, players, slots, hi, lo);
          OneMoreMove(trail, (players, slots), hi, lo);
          trail := trail + [(players, slots)];
        }
      }
    }

    /** addai: a bot with the least loaded player as its owner, in the first slot that is free or was
        going to be, as long as there are fewer bots than allowed. */
    method AddAi(limit: int) returns (added: bool, ghost cn: nat)
      requires Valid()
      modifies this
      ensures Valid() && added == (|OwnedBots(old(slots))| < if 0 <= limit < 32 then limit else 32)
      ensures !added ==> players == old(players) && slots == old(slots)
      ensures added ==> Placed(old(players), old(slots), players, slots, cn)
    {
      hide Assigned, Sum, OwnedCounts, OwnedBelow, FewestBots, Placed, TakenOn;
      var numai, free, maxai := 0, -1, Allowed(limit);
      NoSlots();
      ghost var was, had := slots, players;
      for i := 0 to |slots|
        invariant players == old(players) && slots == old(slots)
        invariant numai == Sum(OwnedCounts(slots[..i])) && -1 <= free < i
        invariant free >= 0 ==> Free(slots[free]) && forall k :: 0 <= k < free ==> !Free(slots[k])
        invariant free == -1 ==> numai == i && forall k :: 0 <= k < i ==> !Free(slots[k])
      {
        OneMoreSlot(slots, i);
        if Free(slots[i]) {
          if free < 0 {
            free := i;
          }
          continue;
        }
        numai := numai + 1;
      }
      assert slots[..|slots|] == slots;
      OwnedCount(slots, |slots|);
      cn := if free >= 0 then free else |slots|;
      if numai >= maxai {
        return false, cn;
      }
      if free < 0 {
        SlotAppended(players, slots);
        free := |slots|;
        slots := slots + [Empty];
      }
      NobodysBot(players, slots, free);
      var owner := FindAiClient(-1);
      if owner < 0 {
        DropKeeps(players, slots, free, Bot(-1, 2));
        slots := slots[free := Bot(-1, 2)];
      } else {
        var slot := Bot(players[owner].clientnum, 2);
        GiveKeeps(players, slots, free, owner, slot);
        players := Given(players, owner, free);
        slots := slots[free := slot];
      }
      dorefresh := true;
      added := true;
      IsPlaced(had, was, players, slots, cn, owner);
    }

    /** deleteai of one bot */
    method DeleteAi(b: nat)
      requires Valid() && b < |slots| && slots[b].Bot?
      modifies this
      ensures Valid() && slots == old(slots)[b := Empty] && |players| == |old(players)|
      ensures forall i :: 0 <= i < |players| ==>
        && players[i].clientnum == old(players)[i].clientnum && players[i].eligible == old(players)[i].eligible
        && players[i].bots == Remove(old(players)[i].bots, b)
    {
      hide Assigned, AssignedBut, Remove;
      OnlyOwnerHas(players, slots, b);
      var owner := FindPlayer(slots[b].owner);
      if owner != -1 {
        NotOwned(players, slots, owner, b);
        ReleaseKeeps(players, slots, owner, b);
        players := Released(players, owner, b);
      } else {
        OwnerKnown(players, slots, b);
        NobodysBot(players, slots, b);
      }
      DropKeeps(players, slots, b, Empty);
      slots := slots[b := Empty];
      dorefresh := true;
    }

    /** reinitai of every bot: those without an owner go, the others are announced. */
    method ReinitAll()
      requires Valid()
      modifies this
      ensures Valid() && players == old(players) && |slots| == |old(slots)|
      // a bot without an owner is gone, and one that was to be announced has been
      ensures forall b :: 0 <= b < |slots| ==>
        var was := old(slots)[b];
        slots[b] == if was.Bot? && was.owner < 0 then Empty
                    else if was.Bot? && was.reinit >= 1 then Bot(was.owner, 0)
                    else was
    {
      hide Assigned, Remove;
      var i := |slots|;
      while i > 0
        invariant Valid() && players == old(players) && 0 <= i <= |slots| == |old(slots)|
        invariant forall b :: 0 <= b < |slots| ==> slots[b] == if b < i then old(slots)[b] else Reinited(old(slots)[b])
      {
        i := i - 1;
        if slots[i].Bot? {
          if slots[i].owner < 0 {
            OnlyOwnerHas(players, slots, i);
            DeleteAi(i);
            assert players == old(players);
          } else if slots[i].reinit >= 1 {
            Announced(players, slots, i);
            slots := slots[i := slots[i].(reinit := 0)];
          }
        }
      }
    }

    /** clearai */
    method ClearAi()
      requires Valid()
      modifies this
      ensures Valid() && |slots| == |old(slots)| && (forall b :: 0 <= b < |slots| ==> slots[b] == Empty)
      ensures |players| == |old(players)| && forall i :: 0 <= i < |players| ==> players[i] == old(players)[i].(bots := [])
    {
      hide Assigned, Remove;
      var i := |slots|;
      while i > 0
        invariant Valid() && 0 <= i <= |slots| == |old(slots)| && forall b :: i <= b < |slots| ==> slots[b] == Empty
        invariant |players| == |old(players)| && forall k :: 0 <= k < |players| ==> players[k] == old(players)[k].(bots := players[k].bots)
      {
        i := i - 1;
        if slots[i].Bot? {
          DeleteAi(i);
        }
      }
      NoBots(players, slots);
    }

    /** checkai: after it, in a mode with bots, every bot has an owner and the eligible players share
        them evenly; otherwise there are none. */
    method CheckAi(botmode: bool) returns (ghost trail: seq<(seq<Player>, seq<Slot>)>)
      requires Valid()
      modifies this
      ensures Valid()
      ensures !old(dorefresh) ==> players == old(players) && slots == old(slots)
      ensures |slots| == |old(slots)|
      ensures |players| == |old(players)| && forall i :: 0 <= i < |players| ==>
        && players[i].clientnum == old(players)[i].clientnum && players[i].eligible == old(players)[i].eligible
      ensures old(dorefresh) && botmode ==>
        && Balanced(players) && (forall i :: 0 <= i < |players| && !players[i].eligible ==> players[i].bots == old(players)[i].bots)
        && forall b :: 0 <= b < |slots| ==> (slots[b].Bot? <==> old(slots)[b].Bot? && old(slots)[b].owner >= 0)
      // a bot that stays is announced if it was to be; one that has moved will be, by the next call
      ensures old(dorefresh) && botmode ==> forall b :: 0 <= b < |slots| && slots[b].Bot? ==>
        || slots[b] == Bot(old(slots)[b].owner, if old(slots)[b].reinit >= 1 then 0 else old(slots)[b].reinit)
        || (slots[b].owner >= 0 && slots[b].reinit == 2 && dorefresh)
      ensures old(dorefresh) && botmode ==>
        && Moves(trail) && trail[0] == (old(players), Announce(old(slots))) && trail[|trail| - 1] == (players, slots)
      ensures old(dorefresh) && !botmode ==>
        && (forall b :: 0 <= b < |slots| ==> slots[b] == Empty)
        && forall i :: 0 <= i < |players| ==> players[i].bots == []
    {
      hide Assigned, Balanced, Moves;
      trail := [];
      if !dorefresh {
        return;
      }
      dorefresh := false;
      if botmode {
        ReinitAll();
        assert slots == Announce(old(slots));
        trail := Rebalance();
      } else {
        ClearAi();
      }
    }
  }

  function Allowed(limit: int): int {
    if 0 <= limit < MAXBOTS then limit else MAXBOTS
  }

  predicate Free(slot: Slot) { slot.Empty? || slot.owner < 0 }

  predicate Unowned(slot: Slot) { slot.Bot? && slot.owner < 0 }

  /** A bot without an owner is gone, and one that was to be announced has been. */
  function Reinited(slot: Slot): Slot {
    if Unowned(slot) then Empty else if slot.Bot? && slot.reinit >= 1 then slot.(reinit := 0) else slot
  }

  /** Every bot without an owner gone, and every one that was to be announced announced. */
  function Announce(slots: seq<Slot>): seq<Slot> {
    seq(|slots|, b requires 0 <= b < |slots| => Reinited(slots[b]))
  }

  function OwnedCounts(slots: seq<Slot>): (s: seq<nat>)
    ensures |s| == |slots|
  {
    seq(|slots|, i requires 0 <= i < |slots| => if Free(slots[i]) then 0 else 1)
  }

  /** The bots that have an owner. */
  function OwnedBots(slots: seq<Slot>): set<nat> { OwnedBelow(slots, |slots|) }

  function OwnedBelow(slots: seq<Slot>, n: nat): set<nat>
    requires n <= |slots|
  {
    set b: nat | b < n && slots[b].Bot? && slots[b].owner >= 0
  }

  lemma {:induction false} OwnedCount(slots: seq<Slot>, n: nat)
    requires n <= |slots|
    ensures Sum(OwnedCounts(slots[..n])) == |OwnedBelow(slots, n)|
  {
    hide Sum, OwnedCounts, OwnedBelow;
    OwnedMore(slots, n);
    if n == 0 {
      NoSlots();
      assert slots[..0] == [];
    } else {
      OwnedCount(slots, n - 1);
      OneMoreSlot(slots, n - 1);
    }
  }

  lemma OwnedMore(slots: seq<Slot>, n: nat)
    requires n <= |slots|
    ensures |OwnedBelow(slots, n)| == if n == 0 then 0 else |OwnedBelow(slots, n - 1)| + if Free(slots[n - 1]) then 0 else 1
  {
    if n > 0 {
      var was, now := OwnedBelow(slots, n - 1), OwnedBelow(slots, n);
      assert now == was + if Free(slots[n - 1]) then {} else {n - 1};
    } else {
      assert OwnedBelow(slots, 0) == {};
    }
  }

  lemma NoSlots()
    ensures Sum(OwnedCounts([])) == 0
  {
  }

  lemma OneMoreSlot(slots: seq<Slot>, i: nat)
    requires i < |slots|
    ensures Sum(OwnedCounts(slots[..i + 1])) == Sum(OwnedCounts(slots[..i])) + if Free(slots[i]) then 0 else 1
  {
    assert OwnedCounts(slots[..i + 1])[..i] == OwnedCounts(slots[..i]);
  }

  /** Slot cn was free, or is new, and holds a bot of the player who had the fewest. */
  ghost predicate Placed(players: seq<Player>, slots: seq<Slot>, players': seq<Player>, slots': seq<Slot>, cn: nat) {
    && cn <= |slots| && (cn < |slots| ==> slots[cn].Empty? || slots[cn].owner < 0)
    && (forall k :: 0 <= k < cn ==> slots[k].Bot? && slots[k].owner >= 0)
    && |slots'| == (if cn < |slots| then |slots| else |slots| + 1) && (forall k :: 0 <= k < |slots| && k != cn ==> slots'[k] == slots[k])
    && exists owner :: FewestBots(players, |players|, -1, owner) && TakenOn(players, players', slots'[cn], cn, owner)
  }

  ghost predicate TakenOn(players: seq<Player>, players': seq<Player>, slot: Slot, b: nat, owner: int) {
    if owner < 0 then players' == players && slot == Bot(-1, 2)
    else owner < |players| && players' == Given(players, owner, b) && slot == Bot(players[owner].clientnum, 2)
  }

  lemma IsPlaced(players: seq<Player>, slots: seq<Slot>, players': seq<Player>, slots': seq<Slot>, cn: nat, owner: int)
    requires cn <= |slots| && (cn < |slots| ==> Free(slots[cn])) && (forall k :: 0 <= k < cn ==> !Free(slots[k]))
    requires FewestBots(players, |players|, -1, owner) && owner < |players|
    requires players' == if owner < 0 then players else Given(players, owner, cn)
    requires var slot := if owner < 0 then Bot(-1, 2) else Bot(players[owner].clientnum, 2);
      slots' == if cn < |slots| then slots[cn := slot] else slots + [slot]
    ensures Placed(players, slots, players', slots', cn)
  {
    hide FewestBots;
    assert TakenOn(players, players', slots'[cn], cn, owner);
  }

  lemma SlotAppended(players: seq<Player>, slots: seq<Slot>)
    requires Assigned(players, slots)
    ensures Assigned(players, slots + [Empty])
  {
    var s := slots + [Empty];
    forall i, b: nat | 0 <= i < |players| ensures Agree(players[i], s, b) {
      assert Agree(players[i], slots, b);
    }
    forall b | 0 <= b < |s| && s[b].Bot? && s[b].owner >= 0 ensures HasOwner(players, s[b]) {
      assert s[b] == slots[b];
    }
  }

  lemma Announced(players: seq<Player>, slots: seq<Slot>, b: nat)
    requires Assigned(players, slots) && b < |slots| && slots[b].Bot?
    ensures Assigned(players, slots[b := slots[b].(reinit := 0)])
  {
    var s := slots[b := slots[b].(reinit := 0)];
    forall i, x: nat | 0 <= i < |players| ensures Agree(players[i], s, x) {
      assert Agree(players[i], slots, x);
    }
    forall x | 0 <= x < |s| && s[x].Bot? && s[x].owner >= 0 ensures HasOwner(players, s[x]) {
      var i :| 0 <= i < |players| && Owned(slots[x], players[i]);
      assert Owned(s[x], players[i]);
    }
  }

  lemma NoBots(players: seq<Player>, slots: seq<Slot>)
    requires Assigned(players, slots) && forall b :: 0 <= b < |slots| ==> slots[b] == Empty
    ensures forall i :: 0 <= i < |players| ==> players[i].bots == []
  {
    forall i | 0 <= i < |players| ensures players[i].bots == [] {
      assert players[i].bots != [] ==> Agree(players[i], slots, players[i].bots[0]);
    }
  }

  lemma OnlyOwner(players: seq<Player>, slots: seq<Slot>, h: nat, g: int, b: nat)
    requires Assigned(players, slots) && h < |players| && b < |slots| && Owned(slots[b], players[h])
    requires g == -1 ==> forall i :: 0 <= i < |players| ==> players[i].clientnum != slots[b].owner
    requires g != -1 ==> 0 <= g < |players| && players[g].clientnum == slots[b].owner
    ensures g == h
  {
  }

  /** What the callers of shiftai avoid: given to the player that owns it already, a bot would be lost from
      its list. */
  lemma ShiftToItsOwner(players: seq<Player>, slots: seq<Slot>, h: nat, b: nat, reinit: int)
    requires Assigned(players, slots) && h < |players| && b < |slots| && Owned(slots[b], players[h])
    ensures !Assigned(Released(players, h, b), slots[b := Bot(players[h].clientnum, reinit)])
  {
    var p, s := Released(players, h, b), slots[b := Bot(players[h].clientnum, reinit)];
    assert b !in p[h].bots && Owned(s[b], p[h]);
    assert !Agree(p[h], s, b);
  }

  /** The slot of a bot that had to find another owner. */
  ghost predicate Rehoused(players: seq<Player>, h: nat, slot: Slot) {
    slot == Bot(-1, 0) || exists g :: 0 <= g < |players| && g != h && players[g].eligible && slot == Bot(players[g].clientnum, 2)
  }

  lemma InList(players: seq<Player>, slots: seq<Slot>, h: nat, i: nat)
    requires Assigned(players, slots) && h < |players| && i < |players[h].bots|
    ensures players[h].bots[i] < |slots| && Owned(slots[players[h].bots[i]], players[h]) && NoRepeats(players[h].bots)
  {
    var b: nat := players[h].bots[i];
    assert NoRepeats(players[h].bots) && Agree(players[h], slots, b);
  }

  lemma HandOne(players: seq<Player>, slots: seq<Slot>, h: nat, bs: seq<nat>)
    requires bs != [] && forall k :: 0 <= k < |bs| ==> bs[k] < |slots|
    ensures var b, owner := bs[|bs| - 1], Fewest(players, |players|, h);
      HandedOn(players, slots, h, bs)
        == HandedOn(Shifted(players, b, owner), slots[b := NewOwner(players, owner)], h, bs[..|bs| - 1])
  {
    hide Fewest, Shifted;
  }

  lemma IsShifted(players: seq<Player>, players': seq<Player>, b: nat, owner: int)
    requires |players'| == |players| && forall i :: 0 <= i < |players| ==>
      && players'[i].clientnum == players[i].clientnum && players'[i].eligible == players[i].eligible
      && players'[i].bots == if i == owner then players[i].bots + [b] else Remove(players[i].bots, b)
    ensures players' == Shifted(players, b, owner)
  {
    hide Remove;
  }

  /** Whoever has the fewest bots by now is a home for a bot of player h. */
  lemma GoesOn(players: seq<Player>, now: seq<Player>, h: nat, owner: int)
    requires FewestBots(now, |now|, h, owner) && |now| == |players|
    requires forall k :: 0 <= k < |players| ==> now[k].clientnum == players[k].clientnum && now[k].eligible == players[k].eligible
    ensures owner < |now| && Rehoused(players, h, NewOwner(now, owner))
  {
  }

  lemma HandNone(players: seq<Player>, slots: seq<Slot>, h: nat, bs: seq<nat>)
    requires bs == []
    ensures HandedOn(players, slots, h, bs) == (players, slots)
  {
  }

  lemma AllInRange(players: seq<Player>, slots: seq<Slot>, h: nat)
    requires Assigned(players, slots) && h < |players|
    ensures forall k :: 0 <= k < |players[h].bots| ==> players[h].bots[k] < |slots|
  {
    forall k | 0 <= k < |players[h].bots| ensures players[h].bots[k] < |slots| {
      InList(players, slots, h, k);
    }
  }

  lemma Different(players: seq<Player>, slots: seq<Slot>, h: nat, g: nat)
    requires Assigned(players, slots) && h < |players| && g < |players| && h != g
    ensures players[h].clientnum != players[g].clientnum
  {
  }

  lemma NotOwned(players: seq<Player>, slots: seq<Slot>, h: nat, b: nat)
    requires Assigned(players, slots) && h < |players| && b < |slots| && Owned(slots[b], players[h])
    ensures forall i :: 0 <= i < |players| && i != h ==> !Owned(slots[b], players[i])
  {
  }

  lemma {:induction false} LastOut(s: seq<nat>)
    requires NoRepeats(s) && s != []
    ensures Remove(s, s[|s| - 1]) == s[..|s| - 1]
  {
    if |s| > 1 {
      LastOut(s[1..]);
    }
  }

  lemma OwnerKnown(players: seq<Player>, slots: seq<Slot>, b: nat)
    requires Assigned(players, slots) && b < |slots| && slots[b].Bot?
    requires forall i :: 0 <= i < |players| ==> players[i].clientnum != slots[b].owner
    ensures slots[b].owner < 0
  {
    assert slots[b].owner >= 0 ==> HasOwner(players, slots[b]);
  }

  lemma OnlyOwnerHas(players: seq<Player>, slots: seq<Slot>, b: nat)
    requires Assigned(players, slots) && b < |slots|
    ensures forall i :: 0 <= i < |players| && !Owned(slots[b], players[i]) ==> Remove(players[i].bots, b) == players[i].bots
  {
    forall i | 0 <= i < |players| && !Owned(slots[b], players[i]) ensures Remove(players[i].bots, b) == players[i].bots {
      assert Agree(players[i], slots, b);
      NotThere(players[i].bots, b);
    }
  }

  lemma {:induction false} NotThere(s: seq<nat>, b: nat)
    requires b !in s
    ensures Remove(s, b) == s
  {
    if s != [] {
      NotThere(s[1..], b);
    }
  }
}
