/** enet_crc32: the table-driven checksum against the bit-serial CRC-32 of section 8 of RFC 1952. A word
    is the sequence of its bits, lowest first. */
module Crc32 {
  import opened Words
  import opened Arithmetic

  type Word = w: seq<bool> | |w| == 32 witness seq(32, _ => false)

  function Zeros(n: nat): (z: seq<bool>)
    ensures |z| == n && forall i :: 0 <= i < n ==> !z[i]
  {
    seq(n, _ => false)
  }

  function Xor(a: seq<bool>, b: seq<bool>): (c: seq<bool>)
    requires |a| == |b|
    ensures |c| == |a| && forall i :: 0 <= i < |a| ==> c[i] == (a[i] != b[i])
  {
    seq(|a|, i requires 0 <= i < |a| => a[i] != b[i])
  }

  function Not(a: Word): (c: Word)
    ensures forall i :: 0 <= i < 32 ==> c[i] == !a[i]
  {
    seq(32, i requires 0 <= i < 32 => !a[i])
  }

  /** bits as the low bits of a word */
  function Pad(bits: seq<bool>): (w: Word)
    requires |bits| <= 32
  {
    bits + Zeros(32 - |bits|)
  }

  function Reverse(a: seq<bool>): (b: seq<bool>)
    ensures |b| == |a| && forall i :: 0 <= i < |a| ==> b[i] == a[|a| - 1 - i]
  {
    seq(|a|, i requires 0 <= i < |a| => a[|a| - 1 - i])
  }

  /** w >> n */
  function ShiftRight(w: Word, n: nat): (r: Word)
    requires n <= 32
  {
    w[n..] + Zeros(n)
  }

  function ShiftLeft(w: Word, n: nat): (r: Word)
    requires n <= 32
  {
    Zeros(n) + w[..32 - n]
  }

  /** The low k bits of a number, and the number of some bits. */
  function Bits(n: nat, k: nat): (b: seq<bool>)
    ensures |b| == k
  {
    if k == 0 then [] else [n % 2 == 1] + Bits(n / 2, k - 1)
  }

  function Number(b: seq<bool>): nat {
    if b == [] then 0 else (if b[0] then 1 else 0) + 2 * Number(b[1..])
  }

  lemma {:induction false} NumberBits(b: seq<bool>)
    ensures Number(b) < Power(|b|) && Bits(Number(b), |b|) == b
  {
    if b != [] {
      NumberBits(b[1..]);
      assert b == [b[0]] + b[1..];
    }
  }

  lemma PowerOfEight()
    ensures Power(8) == 256
  {
    assert Power(4) == 16;
    assert Power(8) == 16 * Power(4);
  }

  /** The generator polynomial with the highest power in the highest bit, 0x04c11db7, and mirrored, 0xedb88320. */
  function Polynomial(): (w: Word) {
    [true, true, true, false, true, true, false, true,
     true, false, true, true, true, false, false, false,
     true, false, false, false, false, false, true, true,
     false, false, true, false, false, false, false, false]
  }

  function Mirrored(): (w: Word) {
    [false, false, false, false, false, true, false, false,
     true, true, false, false, false, false, false, true,
     false, false, false, true, true, true, false, true,
     true, false, true, true, false, true, true, true]
  }

  lemma PolynomialMirrored()
    ensures Reverse(Polynomial()) == Mirrored()
  {
  }

  // ---- the bit-serial checksum

  /** One step of the mirrored division. */
  function Step(w: Word): (r: Word) {
    if w[0] then Xor(ShiftRight(w, 1), Mirrored()) else ShiftRight(w, 1)
  }

  function Feed(w: Word, bit: bool): Word {
    Step(w[0 := w[0] != bit])
  }

  /** The remainder after the bits of a message. */
  function BitSerial(w: Word, bits: seq<bool>): Word
    decreases |bits|
  {
    if bits == [] then w else BitSerial(Feed(w, bits[0]), bits[1..])
  }

  /** A message, each byte's lowest bit first. */
  function MessageBits(data: seq<byte>): seq<bool> {
    if data == [] then [] else Bits(data[0], 8) + MessageBits(data[1..])
  }

  function Ones(): (w: Word) { Not(Zeros(32)) }

  function Checksum(data: seq<byte>): Word {
    Not(BitSerial(Ones(), MessageBits(data)))
  }

  // ---- linearity

  function Steps(w: Word, n: nat): Word
    decreases n
  {
    if n == 0 then w else Steps(Step(w), n - 1)
  }

  lemma StepXor(a: Word, b: Word)
    ensures Step(Xor(a, b)) == Xor(Step(a), Step(b))
  {
    hide Mirrored;
  }

  lemma {:induction false} StepsXor(a: Word, b: Word, n: nat)
    ensures Steps(Xor(a, b), n) == Xor(Steps(a, n), Steps(b, n))
    decreases n
  {
    hide Step;
    if n > 0 {
      StepXor(a, b);
      StepsXor(Step(a), Step(b), n - 1);
    }
  }

  /** Steps that meet no bit that is set only shift. */
  lemma {:induction false} StepsShift(w: Word, n: nat)
    requires n <= 32 && forall i :: 0 <= i < n ==> !w[i]
    ensures Steps(w, n) == ShiftRight(w, n)
    decreases n
  {
    hide Mirrored;
    if n == 0 {
      assert ShiftRight(w, 0) == w;
    } else {
      assert Step(w) == ShiftRight(w, 1);
      StepsShift(ShiftRight(w, 1), n - 1);
      assert ShiftRight(ShiftRight(w, 1), n - 1) == ShiftRight(w, n);
    }
  }

  /** n steps depend on the lowest n bits; the others are shifted. */
  lemma StepsSplit(w: Word, n: nat)
    requires n <= 32
    ensures Steps(w, n) == Xor(ShiftRight(w, n), Steps(Pad(w[..n]), n))
  {
    hide Step;
    var high: Word := Zeros(n) + w[n..];
    assert w == Xor(high, Pad(w[..n]));
    StepsXor(high, Pad(w[..n]), n);
    StepsShift(high, n);
    assert ShiftRight(high, n) == ShiftRight(w, n);
  }

  /** Feeding bits one by one is feeding them together and then stepping. */
  lemma {:induction false} FeedTogether(w: Word, bits: seq<bool>)
    requires |bits| <= 32
    ensures BitSerial(w, bits) == Steps(Xor(w, Pad(bits)), |bits|)
    decreases |bits|
  {
    if bits == [] {
      assert Xor(w, Pad(bits)) == w;
    } else {
      FeedTogether(Feed(w, bits[0]), bits[1..]);
      FirstStep(w, bits);
    }
  }

  lemma FirstStep(w: Word, bits: seq<bool>)
    requires 0 < |bits| <= 32
    ensures Step(Xor(w, Pad(bits))) == Xor(Feed(w, bits[0]), Pad(bits[1..]))
  {
    var first, rest: Word := w[0 := w[0] != bits[0]], [false] + Pad(bits[1..])[..31];
    assert Xor(w, Pad(bits)) == Xor(first, rest);
    StepXor(first, rest);
    assert Step(rest) == ShiftRight(rest, 1) == Pad(bits[1..]);
  }

  // ---- the table

  /** The shift register of the table's construction, highest power first. */
  function TableStep(w: Word): Word {
    if w[31] then Xor(ShiftLeft(w, 1), Polynomial()) else ShiftLeft(w, 1)
  }

  lemma TableStepMirrors(w: Word)
    ensures TableStep(Reverse(w)) == Reverse(Step(w))
  {
    hide Polynomial, Mirrored;
    PolynomialMirrored();
    assert ShiftLeft(Reverse(w), 1) == Reverse(ShiftRight(w, 1));
  }

  function Entry(k: nat): Word { Steps(Pad(Bits(k, 8)), 8) }

  /** reflect_crc on the lowest bits of a word; its shift to the right keeps the sign. */
  method ReflectCrc(value: Word, bits: nat) returns (result: Word)
    requires bits <= 32
    ensures result == Pad(Reverse(value[..bits]))
  {
    hide Pad, Reverse, Zeros, Reflected, Shifted;
    NothingReflected(value, bits);
    var val: Word := value;
    result := Zeros(32);
    for bit := 0 to bits
      invariant Shifted(value, bit, val) && Reflected(value, bits, bit, result)
    {
      ReflectedMore(value, bits, bit, val, result);
      if val[0] {
        result := result[bits - 1 - bit := true];
      }
      val := val[1..] + [val[31]];
    }
    ReflectedAll(value, bits, result);
  }

  /** The lowest n of the bits are in their places, and no others. */
  ghost predicate Reflected(value: Word, bits: nat, n: nat, result: Word) {
    bits <= 32 && forall i :: 0 <= i < 32 ==> result[i] == (bits - n <= i < bits && value[bits - 1 - i])
  }

  ghost predicate Shifted(value: Word, n: nat, val: Word) {
    forall i :: 0 <= i < 32 - n ==> val[i] == value[n + i]
  }

  lemma NothingReflected(value: Word, bits: nat)
    requires bits <= 32
    ensures Shifted(value, 0, value) && Reflected(value, bits, 0, Zeros(32))
  {
  }

  lemma ReflectedMore(value: Word, bits: nat, n: nat, val: Word, result: Word)
    requires n < bits && Shifted(value, n, val) && Reflected(value, bits, n, result)
    ensures Shifted(value, n + 1, val[1..] + [val[31]])
    ensures Reflected(value, bits, n + 1, if val[0] then result[bits - 1 - n := true] else result)
  {
  }

  lemma ReflectedAll(value: Word, bits: nat, result: Word)
    requires Reflected(value, bits, bits, result)
    ensures result == Pad(Reverse(value[..bits]))
  {
  }

  /** The entry for one byte, as initialize_crc32 computes it. */
  method ComputeEntry(number: byte) returns (entry: Word)
    ensures entry == Entry(number)
  {
    hide Entry, Step, TableStep, Pad, ShiftLeft, Reverse, Bits;
    var start := Pad(Bits(number, 8));
    var crc := ReflectCrc(start, 8);
    crc := ShiftLeft(crc, 24);
    Aligned(Bits(number, 8));
    ghost var w := start;
    for offset := 0 to 8
      invariant crc == Reverse(w) && Steps(w, 8 - offset) == Steps(start, 8)
    {
      TableStepMirrors(w);
      crc := NextTableStep(crc);
      w := Step(w);
    }
    entry := ReflectCrc(crc, 32);
    Mirrors(w);
    EntryIs(number);
  }

  lemma Aligned(bits: seq<bool>)
    requires |bits| == 8
    ensures ShiftLeft(Pad(Reverse(Pad(bits)[..8])), 24) == Reverse(Pad(bits))
  {
  }

  lemma Mirrors(w: Word)
    ensures Pad(Reverse(Reverse(w)[..32])) == w
  {
  }

  /** initialize_crc32 */
  method InitializeCrc32() returns (crcTable: array<Word>)
    ensures fresh(crcTable) && crcTable.Length == 256
    ensures forall k :: 0 <= k < 256 ==> crcTable[k] == Entry(k)
  {
    hide Entry;
    crcTable := new Word[256](_ => Zeros(32));
    for number := 0 to 256
      invariant forall k :: 0 <= k < number ==> crcTable[k] == Entry(k)
    {
      crcTable[number] := ComputeEntry(number);
    }
  }

  lemma EntryIs(k: nat)
    ensures Entry(k) == Steps(Pad(Bits(k, 8)), 8)
  {
  }

  method NextTableStep(w: Word) returns (crc: Word)
    ensures crc == TableStep(w)
  {
    if w[31] {
      crc := Xor(ShiftLeft(w, 1), Polynomial());
    } else {
      crc := ShiftLeft(w, 1);
    }
  }

  // ---- the checksum

  /** One look-up is eight bits of the serial checksum. */
  lemma LookUp(crc: Word, b: byte)
    ensures var k := Number(Xor(crc[..8], Bits(b, 8)));
      k < 256 && BitSerial(crc, Bits(b, 8)) == Xor(ShiftRight(crc, 8), Entry(k))
  {
    hide Steps, BitSerial, Bits, Number, Power;
    var bits := Bits(b, 8);
    var low := Xor(crc[..8], bits);
    PowerOfEight();
    NumberBits(low);
    FeedTogether(crc, bits);
    var fed: Word := Xor(crc, Pad(bits));
    StepsSplit(fed, 8);
    assert fed[..8] == low;
    assert ShiftRight(fed, 8) == ShiftRight(crc, 8);
  }

  function Joined(buffers: seq<seq<byte>>): seq<byte> {
    if buffers == [] then [] else Joined(buffers[..|buffers| - 1]) + buffers[|buffers| - 1]
  }

  lemma {:induction false} MessageAppends(a: seq<byte>, b: byte)
    ensures MessageBits(a + [b]) == MessageBits(a) + Bits(b, 8)
  {
    hide Bits;
    if a == [] {
      assert [b][1..] == [] && a + [b] == [b];
      assert MessageBits([b]) == Bits(b, 8) + MessageBits([]);
    } else {
      MessageAppends(a[1..], b);
      assert (a + [b])[1..] == a[1..] + [b];
    }
  }

  lemma {:induction false} SerialAppends(w: Word, a: seq<bool>, b: seq<bool>)
    ensures BitSerial(w, a + b) == BitSerial(BitSerial(w, a), b)
    decreases |a|
  {
    hide Feed;
    if a == [] {
      assert a + b == b;
    } else {
      SerialAppends(Feed(w, a[0]), a[1..], b);
      assert (a + b)[1..] == a[1..] + b;
    }
  }

  /** enet_crc32, before the result is put into network byte order: whatever the split into buffers, it
      is the serial checksum of the bytes. */
  method Crc32(buffers: seq<seq<byte>>) returns (result: Word)
    ensures result == Checksum(Joined(buffers))
  {
    hide BitSerial, MessageBits, Entry, Number, Bits;
    var crcTable := InitializeCrc32();
    var crc: Word := Ones();
    SerialOfNothing();
    for n := 0 to |buffers|
      invariant forall k :: 0 <= k < 256 ==> crcTable[k] == Entry(k)
      invariant crc == BitSerial(Ones(), MessageBits(Joined(buffers[..n])))
    {
      var data := buffers[n];
      ghost var before := Joined(buffers[..n]);
      assert before + data[..0] == before;
      for i := 0 to |data|
        invariant crc == BitSerial(Ones(), MessageBits(before + data[..i]))
        invariant forall k :: 0 <= k < 256 ==> crcTable[k] == Entry(k)
      {
        LookUp(crc, data[i]);
        MessageAppends(before + data[..i], data[i]);
        SerialAppends(Ones(), MessageBits(before + data[..i]), Bits(data[i], 8));
        assert before + data[..i] + [data[i]] == before + data[..i + 1];
        crc := Xor(ShiftRight(crc, 8), crcTable[Number(Xor(crc[..8], Bits(data[i], 8)))]);
      }
      assert data[..|data|] == data;
      assert buffers[..n + 1][..n] == buffers[..n];
    }
    assert buffers[..|buffers|] == buffers;
    result := Not(crc);
  }

  lemma SerialOfNothing()
    ensures BitSerial(Ones(), MessageBits(Joined([]))) == Ones()
  {
  }

  // ---- the standard's polynomial, register and order of bits, written out

  /** x^26 + x^23 + x^22 + x^16 + x^12 + x^11 + x^10 + x^8 + x^7 + x^5 + x^4 + x^2 + x + 1, below x^32 */
  predicate Exponent(i: int) {
    (0 <= i <= 12 && i != 3 && i != 6 && i != 9) || i == 16 || i == 22 || i == 23 || i == 26
  }

  lemma PolynomialIs()
    ensures forall i :: 0 <= i < 32 ==> (Polynomial()[i] <==> Exponent(i))
    ensures forall i :: 0 <= i < 32 ==> (Mirrored()[i] <==> Exponent(31 - i))
  {
    hide Mirrored, Exponent;
    PolynomialMirrored();
    forall i | 0 <= i < 32 ensures Polynomial()[i] <==> Exponent(i) {
      PolynomialBit(i);
    }
    forall i | 0 <= i < 32 ensures Mirrored()[i] <==> Exponent(31 - i) {
      assert Mirrored()[i] == Polynomial()[31 - i];
    }
  }

  lemma PolynomialBit(i: nat)
    requires i < 32
    ensures Polynomial()[i] <==> Exponent(i)
  {
    var p := Polynomial();
    if i < 8 {
    } else if i < 16 {
    } else if i < 24 {
    } else {
    }
  }

  /** The register shifts towards its low end; what leaves it, with the bit of the message, decides whether
      the polynomial is added. */
  lemma FeedIs(w: Word, bit: bool)
    ensures var r, leaves := Feed(w, bit), w[0] != bit;
      r[31] == leaves && forall i :: 0 <= i < 31 ==> r[i] == (w[i + 1] != (leaves && Exponent(31 - i)))
  {
    hide Mirrored, Exponent;
    PolynomialIs();
    assert Exponent(0) by {
      LastExponent();
    }
  }

  lemma LastExponent()
    ensures Exponent(0)
  {
  }

  lemma {:induction false} BitIs(n: nat, k: nat, j: nat)
    requires j < k
    ensures Bits(n, k)[j] <==> n / Power(j) % 2 == 1
  {
    if j > 0 {
      BitIs(n / 2, k - 1, j - 1);
      DivideTwice(n, Power(j - 1));
    }
  }

  lemma DivideTwice(n: nat, p: nat)
    requires p > 0
    ensures n / 2 / p == n / (2 * p)
  {
    var h := n / 2;
    DivMod(h, p);
    var q, r := h / p, h % p;
    assert q * (2 * p) == 2 * (q * p) && (q + 1) * (2 * p) == 2 * (q * p) + 2 * p;
    QuotientBetween(n, 2 * p, q, q + 1);
  }

  /** The message is read byte by byte, and of each byte the lowest bit first. */
  lemma {:induction false} MessageBitIs(data: seq<byte>, i: nat, j: nat)
    requires i < |data| && j < 8
    ensures |MessageBits(data)| == 8 * |data| && (MessageBits(data)[8 * i + j] <==> data[i] / Power(j) % 2 == 1)
  {
    hide Bits, Power;
    if i == 0 {
      BitIs(data[0], 8, j);
      MessageLength(data);
    } else {
      MessageBitIs(data[1..], i - 1, j);
    }
  }

  lemma {:induction false} MessageLength(data: seq<byte>)
    ensures |MessageBits(data)| == 8 * |data|
  {
    hide Bits;
    if data != [] {
      MessageLength(data[1..]);
    }
  }

  /** The register begins with ones, takes in the bits of the message in order, and is complemented at the end. */
  lemma ChecksumIs(data: seq<byte>, registers: seq<Word>)
    requires |registers| == 8 * |data| + 1 && (forall i :: 0 <= i < 32 ==> registers[0][i])
    requires |MessageBits(data)| == 8 * |data|
    requires forall k :: 0 <= k < 8 * |data| ==> registers[k + 1] == Feed(registers[k], MessageBits(data)[k])
    ensures forall i :: 0 <= i < 32 ==> Checksum(data)[i] == !registers[8 * |data|][i]
  {
    hide Feed, BitSerial;
    assert registers[0] == Ones();
    SerialIs(registers, MessageBits(data));
  }

  lemma {:induction false} SerialIs(registers: seq<Word>, bits: seq<bool>)
    requires |registers| == |bits| + 1 && forall k :: 0 <= k < |bits| ==> registers[k + 1] == Feed(registers[k], bits[k])
    ensures BitSerial(registers[0], bits) == registers[|bits|]
    decreases |bits|
  {
    hide Feed;
    if bits != [] {
      forall k | 0 <= k < |bits| - 1 ensures registers[1..][k + 1] == Feed(registers[1..][k], bits[1..][k]) {
        assert registers[k + 2] == Feed(registers[k + 1], bits[k + 1]);
      }
      assert registers[1] == Feed(registers[0], bits[0]);
      SerialIs(registers[1..], bits[1..]);
    }
  }
}
