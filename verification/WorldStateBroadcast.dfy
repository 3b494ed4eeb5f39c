/** The server's broadcast of positions and messages: every client is sent what all the others said,
    out of one buffer in which each chunk stands twice. */
module WorldStateBroadcast {
  import opened Words
  import opened Sums
  import opened Arithmetic

  /** What client owner, or a bot of its, has to say. */
  datatype Block = Block(owner: nat, data: seq<byte>)

  function Bytes(blocks: seq<Block>): seq<byte> {
    if blocks == [] then [] else Bytes(blocks[..|blocks| - 1]) + blocks[|blocks| - 1].data
  }

  lemma {:induction false} BytesJoin(a: seq<Block>, b: seq<Block>)
    ensures Bytes(a + b) == Bytes(a) + Bytes(b)
    decreases |b|
  {
    if b == [] {
      assert a + b == a;
    } else {
      var init, x := b[..|b| - 1], b[|b| - 1].data;
      BytesJoin(a, init);
      assert (a + b)[..|a + b| - 1] == a + init;
      assert Bytes(a) + Bytes(init) + x == Bytes(a) + (Bytes(init) + x);
    }
  }

  datatype Side = Before | Mine | After

  function SideOf(x: Block, c: nat): Side {
    if x.owner < c then Before else if x.owner == c then Mine else After
  }

  /** The blocks of a chunk that come from clients before c, from c itself, or from clients after it. */
  function Pick(chunk: seq<Block>, c: nat, side: Side): seq<Block> {
    if chunk == [] then []
    else
      var x := chunk[|chunk| - 1];
      Pick(chunk[..|chunk| - 1], c, side) + if SideOf(x, c) == side then [x] else []
  }

  /** Blocks are added client by client. */
  ghost predicate Ordered(chunk: seq<Block>) {
    forall j, k :: 0 <= j < k < |chunk| ==> chunk[j].owner <= chunk[k].owner
  }

  lemma OrderedFront(chunk: seq<Block>)
    requires Ordered(chunk) && chunk != []
    ensures Ordered(chunk[..|chunk| - 1]) && forall k :: 0 <= k < |chunk| - 1 ==> chunk[k].owner <= chunk[|chunk| - 1].owner
  {
  }

  lemma PickLast(chunk: seq<Block>, c: nat, side: Side)
    requires chunk != []
    ensures Pick(chunk, c, side) == Pick(chunk[..|chunk| - 1], c, side)
                                    + if SideOf(chunk[|chunk| - 1], c) == side then [chunk[|chunk| - 1]] else []
  {
  }

  lemma {:induction false} Split(chunk: seq<Block>, c: nat)
    requires Ordered(chunk)
    ensures chunk == Pick(chunk, c, Before) + Pick(chunk, c, Mine) + Pick(chunk, c, After)
  {
    hide Pick, Ordered;
    if chunk == [] {
      PickNothing(c);
    } else {
      var init, x := chunk[..|chunk| - 1], chunk[|chunk| - 1];
      OrderedFront(chunk);
      Split(init, c);
      NoneLater(init, x.owner, c);
      PickLast(chunk, c, Before);
      PickLast(chunk, c, Mine);
      PickLast(chunk, c, After);
      assert chunk == init + [x];
    }
  }

  lemma PickNothing(c: nat)
    ensures forall side: Side :: Pick([], c, side) == []
  {
  }

  lemma {:induction false} NoneLater(chunk: seq<Block>, last: nat, c: nat)
    requires forall k :: 0 <= k < |chunk| ==> chunk[k].owner <= last
    ensures last <= c ==> Pick(chunk, c, After) == []
    ensures last < c ==> Pick(chunk, c, Mine) == []
  {
    if chunk != [] {
      NoneLater(chunk[..|chunk| - 1], last, c);
    }
  }

  /** What client c gets of a chunk: the blocks after its own, then those before; all of them, if none is its own. */
  function Others(chunk: seq<Block>, c: nat): seq<Block> {
    if Pick(chunk, c, Mine) == [] then chunk else Pick(chunk, c, After) + Pick(chunk, c, Before)
  }

  /** The doubled chunk holds them in one piece, after the client's own bytes. */
  lemma Rotated(chunk: seq<Block>, c: nat)
    requires Ordered(chunk)
    ensures var d, off, n := Bytes(chunk), |Bytes(Pick(chunk, c, Before))|, |Bytes(Pick(chunk, c, Mine))|;
      off + n <= |d| && (d + d)[off + n..off + |d|] == Bytes(Pick(chunk, c, After) + Pick(chunk, c, Before))
  {
    hide Pick, Bytes, Ordered;
    var a, b, e := Pick(chunk, c, Before), Pick(chunk, c, Mine), Pick(chunk, c, After);
    Split(chunk, c);
    BytesJoin(a + b, e);
    BytesJoin(a, b);
    BytesJoin(e, a);
    RotatedBytes(Bytes(a), Bytes(b), Bytes(e));
  }

  lemma RotatedBytes(a: seq<byte>, b: seq<byte>, e: seq<byte>)
    ensures var d := a + b + e; (d + d)[|a| + |b|..|a| + |d|] == e + a
  {
  }

  // ---- how the blocks are packed into chunks

  /** The chunks that are full, and the one being filled. */
  datatype Packing = Packing(full: seq<seq<Block>>, open: seq<Block>)

  function Sealed(p: Packing): seq<seq<Block>> {
    if p.open == [] then p.full else p.full + [p.open]
  }

  /** One more block, of which need bytes are reckoned. */
  function PackOne(p: Packing, x: Block, need: nat, limit: int): Packing {
    if |Bytes(p.open)| + need > limit then Packing(Sealed(p), [x]) else Packing(p.full, p.open + [x])
  }

  function Pack(p: Packing, blocks: seq<Block>, needs: seq<nat>, limit: int): Packing
    requires |needs| == |blocks|
    decreases |blocks|
  {
    if blocks == [] then p
    else
      var n := |blocks| - 1;
      PackOne(Pack(p, blocks[..n], needs[..n], limit), blocks[n], needs[n], limit)
  }

  lemma {:induction false} PackJoin(p: Packing, a: seq<Block>, na: seq<nat>, b: seq<Block>, nb: seq<nat>, limit: int)
    requires |na| == |a| && |nb| == |b|
    ensures Pack(Pack(p, a, na, limit), b, nb, limit) == Pack(p, a + b, na + nb, limit)
    decreases |b|
  {
    hide PackOne;
    if b == [] {
      assert a + b == a && na + nb == na;
    } else {
      var n := |b| - 1;
      PackJoin(p, a, na, b[..n], nb[..n], limit);
      assert (a + b)[..|a| + n] == a + b[..n] && (na + nb)[..|a| + n] == na + nb[..n];
    }
  }

  lemma PackNothing(p: Packing, limit: int)
    ensures Pack(p, [], [], limit) == p
  {
  }

  lemma PackSaid(p: Packing, x: Block, need: nat, limit: int)
    ensures Pack(p, [x], [need], limit) == PackOne(p, x, need, limit)
  {
    hide PackOne;
    assert [x][..0] == [] && [need][..0] == [];
  }

  /** What was full before stays in front. */
  lemma {:induction false} PackBehind(from: seq<seq<Block>>, blocks: seq<Block>, needs: seq<nat>, limit: int)
    requires |needs| == |blocks|
    ensures var p, q := Pack(Packing(from, []), blocks, needs, limit), Pack(Packing([], []), blocks, needs, limit);
      p.open == q.open && p.full == from + q.full && Sealed(p) == from + Sealed(q)
  {
    hide Bytes;
    if blocks != [] {
      var n := |blocks| - 1;
      PackBehind(from, blocks[..n], needs[..n], limit);
    }
  }

  function Flat(chunks: seq<seq<Block>>): seq<Block> {
    if chunks == [] then [] else Flat(chunks[..|chunks| - 1]) + chunks[|chunks| - 1]
  }

  lemma FlatMore(chunks: seq<seq<Block>>, chunk: seq<Block>)
    ensures Flat(chunks + [chunk]) == Flat(chunks) + chunk
  {
    assert (chunks + [chunk])[..|chunks|] == chunks;
  }

  /** The number of the first block of chunk k. */
  function First(chunks: seq<seq<Block>>, k: nat): nat
    requires k <= |chunks|
  {
    |Flat(chunks[..k])|
  }

  lemma FirstMore(chunks: seq<seq<Block>>, chunk: seq<Block>, k: nat)
    requires k <= |chunks|
    ensures First(chunks + [chunk], k) == First(chunks, k)
  {
    assert (chunks + [chunk])[..k] == chunks[..k];
  }

  lemma {:induction false} FlatAt(chunks: seq<seq<Block>>, k: nat, j: nat)
    requires k < |chunks| && j < |chunks[k]|
    ensures First(chunks, k) + j < |Flat(chunks)| && Flat(chunks)[First(chunks, k) + j] == chunks[k][j]
  {
    var n := |chunks| - 1;
    if k < n {
      FlatAt(chunks[..n], k, j);
      assert chunks[..n][..k] == chunks[..k];
    }
  }

  /** The chunks hold all the blocks in order; a chunk goes on just as long as the next block, as it is
      reckoned, does not make it longer than the limit. */
  ghost predicate Packed(chunks: seq<seq<Block>>, blocks: seq<Block>, needs: seq<nat>, limit: int) {
    && |needs| == |blocks| && Flat(chunks) == blocks && (forall k :: 0 <= k < |chunks| ==> chunks[k] != [])
    && (forall k, j :: 0 <= k < |chunks| && 0 < j < |chunks[k]| ==> StillFits(chunks, k, j, needs, limit))
    && forall k :: 0 < k < |chunks| ==> IsFull(chunks, k, needs, limit)
  }

  ghost predicate StillFits(chunks: seq<seq<Block>>, k: nat, j: nat, needs: seq<nat>, limit: int)
    requires k < |chunks| && j < |chunks[k]|
  {
    First(chunks, k) + j < |needs| && |Bytes(chunks[k][..j])| + needs[First(chunks, k) + j] <= limit
  }

  /** What begins chunk k did not fit into the chunk before. */
  ghost predicate IsFull(chunks: seq<seq<Block>>, k: nat, needs: seq<nat>, limit: int)
    requires 0 < k < |chunks|
  {
    First(chunks, k) < |needs| && |Bytes(chunks[k - 1])| + needs[First(chunks, k)] > limit
  }

  lemma PackedNothing(limit: int)
    ensures Packed([], [], [], limit)
  {
  }

  lemma {:induction false} PackIs(blocks: seq<Block>, needs: seq<nat>, limit: int)
    requires |needs| == |blocks|
    ensures var p := Pack(Packing([], []), blocks, needs, limit);
      && Packed(Sealed(p), blocks, needs, limit) && (blocks != [] ==> p.open != []) && (p.open == [] ==> p.full == [])
  {
    hide PackOne, Packed, Flat;
    if blocks == [] {
      PackedNothing(limit);
    } else {
      var n := |blocks| - 1;
      PackIs(blocks[..n], needs[..n], limit);
      PackedMore(Pack(Packing([], []), blocks[..n], needs[..n], limit), blocks[..n], needs[..n], blocks[n], needs[n], limit);
      assert blocks[..n] + [blocks[n]] == blocks && needs[..n] + [needs[n]] == needs;
    }
  }

  lemma PackedMore(p: Packing, blocks: seq<Block>, needs: seq<nat>, x: Block, need: nat, limit: int)
    requires |needs| == |blocks| && Packed(Sealed(p), blocks, needs, limit)
    requires (blocks != [] ==> p.open != []) && (p.open == [] ==> p.full == [])
    ensures var q := PackOne(p, x, need, limit);
      Packed(Sealed(q), blocks + [x], needs + [need], limit) && q.open != []
  {
    hide Packed;
    if p.open == [] {
      PackedFirst(x, need, limit, blocks, needs);
      assert [] + [[x]] == [[x]] && p.open + [x] == [x];
    } else if |Bytes(p.open)| + need > limit {
      PackedNext(p.full, p.open, blocks, needs, x, need, limit);
    } else {
      PackedInto(p.full, p.open, blocks, needs, x, need, limit);
    }
  }

  lemma PackedFirst(x: Block, need: nat, limit: int, blocks: seq<Block>, needs: seq<nat>)
    requires Packed([], blocks, needs, limit)
    ensures Packed([[x]], blocks + [x], needs + [need], limit)
  {
    FlatMore([], [x]);
    assert [] + [[x]] == [[x]];
  }

  lemma PackedNext(full: seq<seq<Block>>, open: seq<Block>, blocks: seq<Block>, needs: seq<nat>, x: Block, need: nat, limit: int)
    requires Packed(full + [open], blocks, needs, limit) && |Bytes(open)| + need > limit
    ensures Packed(full + [open] + [[x]], blocks + [x], needs + [need], limit)
  {
    hide Bytes, Flat, First;
    var chunks := full + [open];
    var next := chunks + [[x]];
    FlatMore(chunks, [x]);
    FirstIs(chunks);
    forall k | 0 <= k <= |chunks| ensures First(next, k) == First(chunks, k) {
      FirstMore(chunks, [x], k);
    }
    forall k, j | 0 <= k < |next| && 0 < j < |next[k]| ensures StillFits(next, k, j, needs + [need], limit) {
      assert StillFits(chunks, k, j, needs, limit);
    }
    forall k | 0 < k < |next| ensures IsFull(next, k, needs + [need], limit) {
      if k < |chunks| {
        assert IsFull(chunks, k, needs, limit);
      }
    }
  }

  lemma FirstIs(chunks: seq<seq<Block>>)
    ensures First(chunks, |chunks|) == |Flat(chunks)|
  {
    assert chunks[..|chunks|] == chunks;
  }

  lemma PackedInto(full: seq<seq<Block>>, open: seq<Block>, blocks: seq<Block>, needs: seq<nat>, x: Block, need: nat, limit: int)
    requires Packed(full + [open], blocks, needs, limit) && |Bytes(open)| + need <= limit
    ensures Packed(full + [open + [x]], blocks + [x], needs + [need], limit)
  {
    hide Bytes, Flat, First;
    var chunks, next := full + [open], full + [open + [x]];
    FlatMore(full, open);
    FlatMore(full, open + [x]);
    assert Flat(full) + (open + [x]) == Flat(full) + open + [x];
    FirstIs(full);
    assert chunks[|full|] == open && next[|full|] == open + [x] && Flat(next) == blocks + [x];
    forall k | 0 <= k < |full| ensures next[k] == chunks[k] != [] {
    }
    forall k | 0 <= k <= |full| ensures First(next, k) == First(chunks, k) == First(full, k) {
      FirstMore(full, open, k);
      FirstMore(full, open + [x], k);
    }
    forall k, j | 0 <= k < |next| && 0 < j < |next[k]| ensures StillFits(next, k, j, needs + [need], limit) {
      if k < |full| || j < |open| {
        assert StillFits(chunks, k, j, needs, limit);
        assert next[k][..j] == chunks[k][..j];
      } else {
        assert next[k][..j] == open;
      }
    }
    forall k | 0 < k < |next| ensures IsFull(next, k, needs + [need], limit) {
      assert IsFull(chunks, k, needs, limit);
    }
  }

  /** If no less is reckoned than a block has, a chunk is longer than the limit only if it is one block. */
  lemma PackedFits(chunks: seq<seq<Block>>, blocks: seq<Block>, needs: seq<nat>, limit: int, k: nat)
    requires Packed(chunks, blocks, needs, limit) && k < |chunks|
    requires forall i :: 0 <= i < |blocks| ==> needs[i] >= |blocks[i].data|
    ensures |chunks[k]| == 1 || |Bytes(chunks[k])| <= limit
  {
    hide First, Flat;
    var j := |chunks[k]| - 1;
    if j > 0 {
      assert StillFits(chunks, k, j, needs, limit);
      FlatAt(chunks, k, j);
    }
  }

  /** Blocks of one length: as many as fit in each chunk but the last, 26 of 50 bytes with 1300. */
  lemma EqualBlocks(chunks: seq<seq<Block>>, blocks: seq<Block>, needs: seq<nat>, limit: nat, n: nat, k: nat)
    requires Packed(chunks, blocks, needs, limit) && 0 < n <= limit && k + 1 < |chunks|
    requires forall i :: 0 <= i < |blocks| ==> needs[i] == |blocks[i].data| == n
    ensures |chunks[k]| == limit / n && (n == 50 && limit == 1300 ==> |chunks[k]| == 26)
  {
    hide First, Flat, Bytes;
    var c := |chunks[k]|;
    forall j | 0 <= j < c ensures |chunks[k][j].data| == n {
      FlatAt(chunks, k, j);
    }
    EqualBytes(chunks[k], n);
    EqualBytes(chunks[k][..c - 1], n);
    assert IsFull(chunks, k + 1, needs, limit);
    assert c * n + n == (c + 1) * n && (c - 1) * n + n == c * n;
    if c > 1 {
      assert StillFits(chunks, k, c - 1, needs, limit);
    }
    QuotientBetween(limit, n, c, c + 1);
  }

  lemma {:induction false} EqualBytes(chunk: seq<Block>, n: nat)
    requires forall j :: 0 <= j < |chunk| ==> |chunk[j].data| == n
    ensures |Bytes(chunk)| == |chunk| * n
  {
    if chunk != [] {
      EqualBytes(chunk[..|chunk| - 1], n);
      assert (|chunk| - 1) * n + n == |chunk| * n;
    }
  }

  // ---- the header of a client's messages

  const N_CLIENT := 88

  function PutInt(n: int): (b: seq<byte>)
    ensures |b| <= 5 && (-127 < n < 128 ==> |b| == 1)
  {
    if -127 < n < 128 then [n % 256]
    else if -0x8000 <= n < 0x8000 then [0x80, n % 256, n / 256 % 256]
    else [0x81, n % 256, n / 256 % 256, n / 0x10000 % 256, n / 0x100_0000 % 256]
  }

  function PutUint(n: nat): (b: seq<byte>)
    ensures |b| <= 4
  {
    if n >= 0x20_0000 then [0x80 + n % 128, 0x80 + n / 128 % 128, 0x80 + n / 0x4000 % 128, n / 0x20_0000 % 256]
    else if n < 128 then [n]
    else if n < 0x4000 then [0x80 + n % 128, n / 128]
    else [0x80 + n % 128, 0x80 + n / 128 % 128, n / 0x4000]
  }

  function Header(clientnum: int, length: nat): (b: seq<byte>)
    ensures |b| <= 10
  {
    PutInt(N_CLIENT) + PutInt(clientnum) + PutUint(length)
  }

  /** A number read from a buffer, and how many bytes it took. */
  datatype Number = Number(value: int, size: nat)

  /** p.get(): 0 behind the end */
  function At(b: seq<byte>, k: nat): byte { if k < |b| then b[k] else 0 }

  function Signed(b: byte): int { if b < 0x80 then b else b - 0x100 }

  /** getint */
  function GetInt(b: seq<byte>): Number {
    var c := Signed(At(b, 0));
    if c == -128 then Number(At(b, 1) + Signed(At(b, 2)) * 0x100, 3)
    else if c == -127 then Number(At(b, 1) + At(b, 2) * 0x100 + At(b, 3) * 0x1_0000 + Signed(At(b, 4)) * 0x100_0000, 5)
    else Number(c, 1)
  }

  /** getuint: each byte goes on top of the bits before it, in place of the flag that announced it. */
  function GetUint(b: seq<byte>): Number {
    if At(b, 0) < 0x80 then Number(At(b, 0), 1)
    else
      var n := At(b, 0) + At(b, 1) * 0x80 - 0x80;
      if n / 0x4000 % 2 == 0 then Number(n, 2)
      else
        var m := n + At(b, 2) * 0x4000 - 0x4000;
        if m / 0x20_0000 % 2 == 0 then Number(m, 3)
        else
          var l := m + At(b, 3) * 0x20_0000 - 0x20_0000;
          Number(if l / 0x1000_0000 % 2 == 0 then l else l - 0x2000_0000, 4)
  }

  lemma ShortInt(n: int)
    requires -0x8000 <= n < 0x8000
    ensures n % 0x100 + Signed(n / 0x100 % 0x100) * 0x100 == n
  {
  }

  lemma LongInt(n: int)
    requires -0x8000_0000 <= n < 0x8000_0000
    ensures n % 0x100 + n / 0x100 % 0x100 * 0x100 + n / 0x1_0000 % 0x100 * 0x1_0000 + Signed(n / 0x100_0000 % 0x100) * 0x100_0000 == n
  {
    var q := n / 0x100;
    var r := q / 0x100;
    assert r == n / 0x1_0000 && r / 0x100 == n / 0x100_0000;
    ShortInt(r);
  }

  lemma IntReads(n: int, rest: seq<byte>)
    requires -0x8000_0000 <= n < 0x8000_0000
    ensures GetInt(PutInt(n) + rest) == Number(n, |PutInt(n)|) && (PutInt(n) + rest)[|PutInt(n)|..] == rest
  {
    hide GetInt, Signed;
    var b := PutInt(n) + rest;
    GetIntIs(b);
    if -127 < n < 128 {
      assert b[0] == n % 256;
    } else if -0x8000 <= n < 0x8000 {
      assert b[0] == 0x80 && b[1] == n % 256 && b[2] == n / 256 % 256;
      ShortInt(n);
    } else {
      assert b[0] == 0x81 && b[1] == n % 256 && b[2] == n / 256 % 256 && b[3] == n / 0x10000 % 256 && b[4] == n / 0x100_0000 % 256;
      LongInt(n);
    }
  }

  lemma GetIntIs(b: seq<byte>)
    requires b != []
    ensures b[0] < 0x80 ==> GetInt(b) == Number(b[0], 1)
    ensures b[0] > 0x81 ==> GetInt(b) == Number((b[0] as int) - 0x100, 1)
    ensures b[0] == 0x80 && |b| >= 3 ==> GetInt(b) == Number(b[1] + Signed(b[2]) * 0x100, 3)
    ensures b[0] == 0x81 && |b| >= 5 ==> GetInt(b) == Number(b[1] + b[2] * 0x100 + b[3] * 0x1_0000 + Signed(b[4]) * 0x100_0000, 5)
  {
  }

  /** A length is read as it was written if and only if it has at most 28 bits. */
  lemma UintReads(n: nat, rest: seq<byte>)
    requires n < 0x8000_0000
    ensures GetUint(PutUint(n) + rest).value == n <==> n < 0x1000_0000
    ensures GetUint(PutUint(n) + rest).size == |PutUint(n)| && (PutUint(n) + rest)[|PutUint(n)|..] == rest
  {
    hide GetUint;
    var b := PutUint(n) + rest;
    if n < 128 {
      assert b[0] == n;
      GetUint1(b);
    } else if n < 0x4000 {
      assert b[0] == 0x80 + n % 128 && b[1] == n / 128;
      GetUint2(b, n % 128, n / 128);
    } else {
      var q := n / 128;
      var r := q / 128;
      assert r == n / 0x4000;
      if n < 0x20_0000 {
        assert b[0] == 0x80 + n % 128 && b[1] == 0x80 + q % 128 && b[2] == r;
        GetUint3(b, n % 128, q % 128, r);
      } else {
        assert r / 128 == n / 0x20_0000;
        assert b[0] == 0x80 + n % 128 && b[1] == 0x80 + q % 128 && b[2] == 0x80 + r % 128 && b[3] == r / 128 % 256;
        GetUint4(b, n % 128, q % 128, r % 128, r / 128 % 256);
      }
    }
  }

  lemma GetUint1(b: seq<byte>)
    requires b != [] && b[0] < 0x80
    ensures GetUint(b) == Number(b[0], 1)
  {
  }

  lemma GetUint2(b: seq<byte>, x: nat, y: nat)
    requires x < 0x80 && y < 0x80 && |b| >= 2 && b[0] == 0x80 + x && b[1] == y
    ensures GetUint(b) == Number(x + y * 0x80, 2)
  {
    assert (x + y * 0x80) / 0x4000 == 0;
  }

  lemma GetUint3(b: seq<byte>, x: nat, y: nat, z: nat)
    requires x < 0x80 && y < 0x80 && z < 0x80 && |b| >= 3 && b[0] == 0x80 + x && b[1] == 0x80 + y && b[2] == z
    ensures GetUint(b) == Number(x + y * 0x80 + z * 0x4000, 3)
  {
    assert (x + y * 0x80 + 0x4000) / 0x4000 == 1;
    assert (x + y * 0x80 + z * 0x4000) / 0x20_0000 == 0;
  }

  lemma GetUint4(b: seq<byte>, x: nat, y: nat, z: nat, u: nat)
    requires x < 0x80 && y < 0x80 && z < 0x80 && u < 0x100
    requires |b| >= 4 && b[0] == 0x80 + x && b[1] == 0x80 + y && b[2] == 0x80 + z && b[3] == u
    ensures GetUint(b) == Number(x + y * 0x80 + z * 0x4000 + u * 0x20_0000 - if u < 0x80 then 0 else 0x2000_0000, 4)
  {
    assert (x + y * 0x80 + 0x4000) / 0x4000 == 1;
    assert (x + y * 0x80 + z * 0x4000 + 0x20_0000) / 0x20_0000 == 1;
    assert (x + y * 0x80 + z * 0x4000 + u * 0x20_0000) / 0x1000_0000 == if u < 0x80 then 0 else 1;
  }

  /** Whoever gets a client's messages reads N_CLIENT, the client's number, their length, and then the messages. */
  lemma FramedReads(ci: ClientInfo, rest: seq<byte>)
    requires ci.messages != [] && |ci.messages| < 0x1000_0000 && -0x8000_0000 <= ci.clientnum < 0x8000_0000
    ensures var b := Framed(ci) + rest;
      var x := GetInt(b);
      && x.value == 88 && x.size <= |b|
      && var y := GetInt(b[x.size..]);
      && y.value == ci.clientnum && x.size + y.size <= |b|
      && var z := GetUint(b[x.size + y.size..]);
      && z.value == |ci.messages| && x.size + y.size + z.size <= |b| && b[x.size + y.size + z.size..] == ci.messages + rest
  {
    hide PutInt, PutUint, GetInt, GetUint;
    var b, c, d := PutInt(N_CLIENT), PutInt(ci.clientnum), PutUint(|ci.messages|);
    var tail := ci.messages + rest;
    assert Framed(ci) + rest == b + (c + (d + tail));
    IntReads(N_CLIENT, c + (d + tail));
    IntReads(ci.clientnum, d + tail);
    UintReads(|ci.messages|, tail);
    assert (b + (c + (d + tail)))[|b| + |c|..] == d + tail;
    assert (b + (c + (d + tail)))[|b| + |c| + |d|..] == tail;
  }

  // ---- the clients

  /** wsdata is a position in the buffer, -1 for no pointer; bots are positions among the clients. */
  datatype ClientInfo = ClientInfo(clientnum: nat, ai: bool, bots: seq<nat>, position: seq<byte>, messages: seq<byte>, wsdata: int, wslen: nat)

  /** A packet that shares the buffer: size bytes from start on, sent to a client on a channel. */
  datatype Sending = Sending(client: nat, channel: nat, start: nat, size: nat)

  /** What was sent since then went out on this channel. */
  ghost predicate SentOn(was: seq<Sending>, sent: seq<Sending>, channel: nat) {
    was <= sent && forall k :: |was| <= k < |sent| ==> sent[k].channel == channel
  }

  lemma SentNothing(sent: seq<Sending>, channel: nat)
    ensures SentOn(sent, sent, channel)
  {
  }

  lemma SentOneMore(was: seq<Sending>, sent: seq<Sending>, x: Sending)
    requires SentOn(was, sent, x.channel)
    ensures SentOn(was, sent + [x], x.channel)
  {
  }

  lemma SentFurther(was: seq<Sending>, mid: seq<Sending>, sent: seq<Sending>, channel: nat)
    requires SentOn(was, mid, channel) && SentOn(mid, sent, channel)
    ensures SentOn(was, sent, channel)
  {
  }

  ghost predicate InBuffer(sent: seq<Sending>, n: nat) {
    forall k :: 0 <= k < |sent| ==> 0 < sent[k].size && sent[k].start + sent[k].size <= n
  }

  /** The bytes that client c was sent, read from the buffer. */
  function Received(sent: seq<Sending>, data: seq<byte>, c: nat): seq<byte>
    requires InBuffer(sent, |data|)
  {
    if sent == [] then []
    else
      var x := sent[|sent| - 1];
      Received(sent[..|sent| - 1], data, c) + if x.client == c then data[x.start..x.start + x.size] else []
  }

  /** What is written behind a packet's bytes does not change them. */
  lemma {:induction false} ReceivedKept(sent: seq<Sending>, data: seq<byte>, data': seq<byte>, n: nat, c: nat)
    requires n <= |data| && n <= |data'| && data[..n] == data'[..n] && InBuffer(sent, n)
    ensures Received(sent, data', c) == Received(sent, data, c)
  {
    if sent != [] {
      var x := sent[|sent| - 1];
      ReceivedKept(sent[..|sent| - 1], data, data', n, c);
      assert data[x.start..x.start + x.size] == data[..n][x.start..x.start + x.size];
      assert data'[x.start..x.start + x.size] == data'[..n][x.start..x.start + x.size];
    }
  }

  lemma ReceivedMore(sent: seq<Sending>, x: Sending, data: seq<byte>, c: nat)
    requires InBuffer(sent, |data|) && 0 < x.size && x.start + x.size <= |data|
    ensures InBuffer(sent + [x], |data|)
    ensures Received(sent + [x], data, c) == Received(sent, data, c) + if x.client == c then data[x.start..x.start + x.size] else []
  {
    assert (sent + [x])[..|sent|] == sent;
  }

  ghost predicate AllOrdered(chunks: seq<seq<Block>>) {
    forall k :: 0 <= k < |chunks| ==> Ordered(chunks[k])
  }

  /** Each packet is all that its client gets of one chunk, and no client gets two of the same chunk. */
  ghost predicate Shares(sent: seq<Sending>, chunkOf: seq<nat>, full: seq<seq<Block>>) {
    && |chunkOf| == |sent|
    && (forall k :: 0 <= k < |sent| ==> chunkOf[k] < |full| && sent[k].size == |Bytes(Others(full[chunkOf[k]], sent[k].client))|)
    && forall j, k :: 0 <= j < k < |sent| ==> chunkOf[j] < chunkOf[k] || (chunkOf[j] == chunkOf[k] && sent[j].client < sent[k].client)
  }

  /** The packets of the last chunk went to clients before i. */
  ghost predicate LastBefore(sent: seq<Sending>, chunkOf: seq<nat>, last: nat, i: nat) {
    |chunkOf| == |sent| && forall k :: 0 <= k < |sent| ==> chunkOf[k] < last || sent[k].client < i
  }

  /** A packet is longer than the limit only if its chunk is one block. */
  ghost predicate ShortOrSingle(sent: seq<Sending>, chunkOf: seq<nat>, full: seq<seq<Block>>, limit: int) {
    && |chunkOf| == |sent|
    && forall k :: 0 <= k < |sent| ==> chunkOf[k] < |full| && (sent[k].size <= limit || |full[chunkOf[k]]| == 1)
  }

  lemma SharesMore(sent: seq<Sending>, chunkOf: seq<nat>, full: seq<seq<Block>>, chunk: seq<Block>)
    requires Shares(sent, chunkOf, full)
    ensures Shares(sent, chunkOf, full + [chunk]) && LastBefore(sent, chunkOf, |full|, 0)
  {
    hide Bytes, Others;
  }

  lemma OneShare(sent: seq<Sending>, chunkOf: seq<nat>, full: seq<seq<Block>>, chunk: seq<Block>, x: Sending)
    requires Shares(sent, chunkOf, full + [chunk]) && LastBefore(sent, chunkOf, |full|, x.client)
    requires x.size == |Bytes(Others(chunk, x.client))|
    ensures Shares(sent + [x], chunkOf + [|full|], full + [chunk]) && LastBefore(sent + [x], chunkOf + [|full|], |full|, x.client + 1)
  {
    hide Bytes, Others;
  }

  lemma NextClient(sent: seq<Sending>, chunkOf: seq<nat>, last: nat, i: nat)
    requires LastBefore(sent, chunkOf, last, i)
    ensures LastBefore(sent, chunkOf, last, i + 1)
  {
  }

  lemma NoShares()
    ensures Shares([], [], [])
  {
  }

  lemma OthersFewer(chunk: seq<Block>, c: nat)
    requires Ordered(chunk)
    ensures |Bytes(Others(chunk, c))| <= |Bytes(chunk)|
  {
    hide Pick, Bytes, Ordered;
    Rotated(chunk, c);
  }

  /** How many of the packets a connection took. */
  function Taken(sent: seq<Sending>, takes: seq<bool>): nat {
    if sent == [] then 0
    else
      var x := sent[|sent| - 1];
      Taken(sent[..|sent| - 1], takes) + if x.client < |takes| && takes[x.client] then 1 else 0
  }

  lemma NothingSent(takes: seq<bool>, n: nat)
    ensures InBuffer([], n) && Taken([], takes) == 0
  {
  }

  lemma TakenMore(sent: seq<Sending>, takes: seq<bool>, x: Sending)
    ensures Taken(sent + [x], takes) == Taken(sent, takes) + if x.client < |takes| && takes[x.client] then 1 else 0
  {
    assert (sent + [x])[..|sent|] == sent;
  }

  ghost predicate Filled(blocks: seq<Block>) {
    forall k :: 0 <= k < |blocks| ==> blocks[k].data != []
  }

  lemma FilledBytes(blocks: seq<Block>)
    requires Filled(blocks)
    ensures Bytes(blocks) == [] <==> blocks == []
  {
  }

  lemma {:induction false} PickFilled(blocks: seq<Block>, c: nat, side: Side)
    requires Filled(blocks)
    ensures Filled(Pick(blocks, c, side))
  {
    if blocks != [] {
      PickFilled(blocks[..|blocks| - 1], c, side);
    }
  }

  /** Where the client's own bytes stand in the chunk that begins at base. */
  ghost predicate Marked(ci: ClientInfo, chunk: seq<Block>, base: nat, c: nat) {
    if Pick(chunk, c, Mine) == [] then ci.wsdata < base
    else ci.wsdata == base + |Bytes(Pick(chunk, c, Before))| && ci.wslen == |Bytes(Pick(chunk, c, Mine))|
  }

  lemma MarksKept(before: seq<ClientInfo>, after: seq<ClientInfo>, chunk: seq<Block>, base: nat)
    requires |before| == |after|
    requires forall c :: 0 <= c < |before| ==> after[c].wsdata == before[c].wsdata && after[c].wslen == before[c].wslen
    requires forall c :: 0 <= c < |before| ==> Marked(before[c], chunk, base, c)
    ensures forall c :: 0 <= c < |before| ==> Marked(after[c], chunk, base, c)
  {
    hide Pick, Bytes;
  }

  /** c was sent nothing of its own, and of every other client just what it said, each block once and in order. */
  ghost predicate Complete(received: seq<Block>, done: seq<Block>, c: nat) {
    forall o: nat :: Pick(received, o, Mine) == if o == c then [] else Pick(done, o, Mine)
  }

  lemma {:induction false} PickJoin(a: seq<Block>, b: seq<Block>, c: nat, side: Side)
    ensures Pick(a + b, c, side) == Pick(a, c, side) + Pick(b, c, side)
    decreases |b|
  {
    hide SideOf;
    if b == [] {
      assert a + b == a;
    } else {
      PickJoin(a, b[..|b| - 1], c, side);
      assert (a + b)[..|a + b| - 1] == a + b[..|b| - 1];
    }
  }

  lemma CompleteMore(received: seq<Block>, done: seq<Block>, chunk: seq<Block>, c: nat)
    requires Complete(received, done, c) && Ordered(chunk)
    ensures Complete(received + Others(chunk, c), done + chunk, c)
  {
    hide Pick, Ordered;
    forall o: nat ensures Pick(received + Others(chunk, c), o, Mine) == if o == c then [] else Pick(done + chunk, o, Mine) {
      PickJoin(received, Others(chunk, c), o, Mine);
      PickJoin(done, chunk, o, Mine);
      PickJoin(Pick(chunk, c, After), Pick(chunk, c, Before), o, Mine);
      PickPick(chunk, c, After, o);
      PickPick(chunk, c, Before, o);
    }
  }

  lemma {:induction false} PickPick(chunk: seq<Block>, c: nat, side: Side, o: nat)
    ensures Pick(Pick(chunk, c, side), o, Mine) == if SideOf(Block(o, []), c) == side then Pick(chunk, o, Mine) else []
    decreases |chunk|
  {
    hide Pick;
    if chunk == [] {
      PickNothing(o);
      PickNothing(c);
    } else {
      var init, x := chunk[..|chunk| - 1], chunk[|chunk| - 1];
      PickPick(init, c, side, o);
      PickLast(chunk, c, side);
      PickLast(chunk, o, Mine);
      PickOne(x, o);
      if SideOf(x, c) == side {
        PickJoin(Pick(init, c, side), [x], o, Mine);
      }
      assert Pick(init, c, side) + [] == Pick(init, c, side) && Pick(init, o, Mine) + [] == Pick(init, o, Mine);
    }
  }

  /** In particular nothing is sent that nobody said, and nothing is sent twice. */
  lemma CompleteIsExact(received: seq<Block>, done: seq<Block>, c: nat)
    requires Complete(received, done, c)
    ensures multiset(received) + multiset(Pick(done, c, Mine)) == multiset(done)
  {
    forall x: Block ensures multiset(received)[x] + multiset(Pick(done, c, Mine))[x] == multiset(done)[x] {
      PickCounts(received, x);
      PickCounts(done, x);
      PickOwners(done, c);
      assert Pick(received, x.owner, Mine) == if x.owner == c then [] else Pick(done, x.owner, Mine);
    }
  }

  lemma {:induction false} PickCounts(blocks: seq<Block>, x: Block)
    ensures multiset(Pick(blocks, x.owner, Mine))[x] == multiset(blocks)[x]
  {
    if blocks != [] {
      var init, y := blocks[..|blocks| - 1], blocks[|blocks| - 1];
      PickCounts(init, x);
      assert blocks == init + [y];
    }
  }

  lemma {:induction false} PickOwners(blocks: seq<Block>, c: nat)
    ensures forall x :: x in Pick(blocks, c, Mine) ==> x.owner == c
  {
    if blocks != [] {
      PickOwners(blocks[..|blocks| - 1], c);
    }
  }

  function Said(o: nat, data: seq<byte>): seq<Block> {
    if data == [] then [] else [Block(o, data)]
  }

  /** A client's messages with their header. */
  function Framed(ci: ClientInfo): seq<byte> {
    if ci.messages == [] then [] else Header(ci.clientnum, |ci.messages|) + ci.messages
  }

  /** What buildworldstate reckons for a client. */
  function Cost(ci: ClientInfo): nat {
    |ci.position| + if ci.messages == [] then 0 else 10 + |ci.messages|
  }

  function Costs(cs: seq<ClientInfo>): (s: seq<nat>)
    ensures |s| == |cs|
  {
    seq(|cs|, i requires 0 <= i < |cs| => Cost(cs[i]))
  }

  lemma CostAtLeast(cs: seq<ClientInfo>, b: nat)
    requires b < |cs|
    ensures |cs[b].position| <= Sum(Costs(cs)) && |Framed(cs[b])| <= Sum(Costs(cs))
  {
    SumLeast(Costs(cs), b);
  }

  lemma CostsKept(cs: seq<ClientInfo>, cs': seq<ClientInfo>)
    requires |cs| == |cs'| && forall c :: 0 <= c < |cs| ==> cs'[c].position == cs[c].position && cs'[c].messages == cs[c].messages
    ensures Costs(cs') == Costs(cs)
  {
  }

  lemma CostsDrop(cs: seq<ClientInfo>, b: nat, ci: ClientInfo)
    requires b < |cs|
    ensures Sum(Costs(cs[b := ci])) == Sum(Costs(cs)) - Cost(cs[b]) + Cost(ci)
  {
    SumUpdate(Costs(cs), b, Cost(ci));
    assert Costs(cs[b := ci]) == Costs(cs)[b := Cost(ci)];
  }

  /** Each bot is in the list of one client at most, and there once; no bot has bots of its own to speak for. */
  ghost predicate Assigned(cs: seq<ClientInfo>) {
    && (forall i, j :: 0 <= i < |cs| && 0 <= j < |cs[i].bots| ==> cs[i].bots[j] < |cs| && cs[cs[i].bots[j]].ai)
    && (forall i, j, k, l :: 0 <= i < |cs| && 0 <= j < |cs[i].bots| && 0 <= k < |cs| && 0 <= l < |cs[k].bots| ==>
        cs[i].bots[j] != cs[k].bots[l] || (i == k && j == l))
  }

  datatype Kind = Positions | Messages

  function ChannelOf(kind: Kind): nat { if kind == Positions then 0 else 1 }

  function Speech(ci: ClientInfo, kind: Kind): seq<byte> {
    if kind == Positions then ci.position else Framed(ci)
  }

  /** What client i says, and then the first m of its bots. */
  function SpeechOf(cs: seq<ClientInfo>, kind: Kind, i: nat, m: nat): seq<Block>
    requires Assigned(cs) && i < |cs| && m <= |cs[i].bots|
  {
    if m == 0 then Said(i, Speech(cs[i], kind))
    else SpeechOf(cs, kind, i, m - 1) + Said(i, Speech(cs[cs[i].bots[m - 1]], kind))
  }

  /** What is said in the turn of client i. */
  function TurnSpeech(cs: seq<ClientInfo>, kind: Kind, i: nat): seq<Block>
    requires Assigned(cs) && i < |cs|
  {
    if cs[i].ai then [] else SpeechOf(cs, kind, i, |cs[i].bots|)
  }

  /** What the first n clients have to say, those that are bots through their owners. */
  function Speeches(cs: seq<ClientInfo>, kind: Kind, n: nat): seq<Block>
    requires Assigned(cs) && n <= |cs|
  {
    if n == 0 then []
    else Speeches(cs, kind, n - 1) + TurnSpeech(cs, kind, n - 1)
  }

  /** What is reckoned for a client's block: with messages 10 bytes for the header. */
  function NeedOf(ci: ClientInfo, kind: Kind): seq<nat> {
    if kind == Positions then if ci.position == [] then [] else [|ci.position|]
    else if ci.messages == [] then [] else [10 + |ci.messages|]
  }

  function NeedsOf(cs: seq<ClientInfo>, kind: Kind, i: nat, m: nat): (r: seq<nat>)
    requires Assigned(cs) && i < |cs| && m <= |cs[i].bots|
    ensures |r| == |SpeechOf(cs, kind, i, m)|
  {
    NeedPerBlock(i, cs[i], kind);
    if m == 0 then NeedOf(cs[i], kind)
    else
      NeedPerBlock(i, cs[cs[i].bots[m - 1]], kind);
      NeedsOf(cs, kind, i, m - 1) + NeedOf(cs[cs[i].bots[m - 1]], kind)
  }

  function TurnNeeds(cs: seq<ClientInfo>, kind: Kind, i: nat): (r: seq<nat>)
    requires Assigned(cs) && i < |cs|
    ensures |r| == |TurnSpeech(cs, kind, i)|
  {
    if cs[i].ai then [] else NeedsOf(cs, kind, i, |cs[i].bots|)
  }

  /** What is reckoned for each of the blocks of the first n clients. */
  function Needs(cs: seq<ClientInfo>, kind: Kind, n: nat): (r: seq<nat>)
    requires Assigned(cs) && n <= |cs|
    ensures |r| == |Speeches(cs, kind, n)|
  {
    if n == 0 then []
    else Needs(cs, kind, n - 1) + TurnNeeds(cs, kind, n - 1)
  }

  /** No less is reckoned than the block has. */
  lemma NeedPerBlock(o: nat, ci: ClientInfo, kind: Kind)
    ensures |NeedOf(ci, kind)| == |Said(o, Speech(ci, kind))|
    ensures forall k :: 0 <= k < |NeedOf(ci, kind)| ==> NeedOf(ci, kind)[k] >= |Said(o, Speech(ci, kind))[k].data|
  {
  }

  lemma {:induction false} NeedsOfEnough(cs: seq<ClientInfo>, kind: Kind, i: nat, m: nat)
    requires Assigned(cs) && i < |cs| && m <= |cs[i].bots|
    ensures forall k :: 0 <= k < |NeedsOf(cs, kind, i, m)| ==> NeedsOf(cs, kind, i, m)[k] >= |SpeechOf(cs, kind, i, m)[k].data|
  {
    hide Assigned, Said, Speech, NeedOf;
    NeedPerBlock(i, cs[i], kind);
    if m > 0 {
      NeedsOfEnough(cs, kind, i, m - 1);
      BotInRange(cs, i, m - 1);
      NeedPerBlock(i, cs[cs[i].bots[m - 1]], kind);
    }
  }

  lemma {:induction false} NeedsEnough(cs: seq<ClientInfo>, kind: Kind, n: nat)
    requires Assigned(cs) && n <= |cs|
    ensures forall k :: 0 <= k < |Needs(cs, kind, n)| ==> Needs(cs, kind, n)[k] >= |Speeches(cs, kind, n)[k].data|
  {
    hide Assigned, NeedsOf, SpeechOf;
    if n > 0 {
      NeedsEnough(cs, kind, n - 1);
      NeedsOfEnough(cs, kind, n - 1, |cs[n - 1].bots|);
    }
  }

  /** Neither one of the clients before i nor one of their bots. */
  ghost predicate Unheard(cs: seq<ClientInfo>, x: nat, i: nat) {
    forall o :: 0 <= o < i && o < |cs| && !cs[o].ai ==> x != o && x !in cs[o].bots
  }

  lemma NotYetHeard(cs: seq<ClientInfo>, i: nat, m: nat)
    requires Assigned(cs) && i < |cs| && !cs[i].ai
    ensures Unheard(cs, i, i)
    ensures m < |cs[i].bots| ==> cs[i].bots[m] < |cs| && Unheard(cs, cs[i].bots[m], i) && cs[i].bots[m] != i && cs[i].bots[m] !in cs[i].bots[..m]
  {
    if m < |cs[i].bots| {
      var b := cs[i].bots[m];
      forall o | 0 <= o < i && !cs[o].ai ensures b != o && b !in cs[o].bots {
      }
    }
  }

  function Unsaid(ci: ClientInfo, kind: Kind): seq<byte> {
    if kind == Positions then ci.position else ci.messages
  }

  /** What a stage leaves alone. */
  ghost predicate SameBut(ci: ClientInfo, ci': ClientInfo, kind: Kind) {
    && ci'.clientnum == ci.clientnum && ci'.ai == ci.ai && ci'.bots == ci.bots
    && (if kind == Positions then ci'.messages == ci.messages else ci'.position == ci.position)
  }

  ghost predicate AllSame(cs: seq<ClientInfo>, now: seq<ClientInfo>, kind: Kind, i: nat, heard: set<nat>) {
    && |now| == |cs|
    && forall x :: 0 <= x < |cs| ==>
      && SameBut(cs[x], now[x], kind)
      && Unsaid(now[x], kind) == if Unheard(cs, x, i) && x !in heard then Unsaid(cs[x], kind) else []
  }

  lemma BotsSame(cs: seq<ClientInfo>, now: seq<ClientInfo>, kind: Kind, i: nat, heard: set<nat>, x: nat)
    requires AllSame(cs, now, kind, i, heard) && x < |cs|
    ensures |now| == |cs| && now[x].bots == cs[x].bots && now[x].ai == cs[x].ai
  {
  }

  /** A stage's bytes of one client are gone; nothing else has changed. */
  lemma SameSpeech(cs: seq<ClientInfo>, was: seq<ClientInfo>, now: seq<ClientInfo>, kind: Kind, i: nat, heard: set<nat>, b: nat)
    requires AllSame(cs, was, kind, i, heard) && |now| == |was|
    requires forall c :: 0 <= c < |was| ==>
      && now[c].clientnum == was[c].clientnum && now[c].ai == was[c].ai && now[c].bots == was[c].bots
      && (kind == Positions || c != b ==> now[c].messages == was[c].messages)
      && (kind == Messages || c != b ==> now[c].position == was[c].position)
      && (c == b ==> Unsaid(now[c], kind) == [])
    ensures AllSame(cs, now, kind, i, heard + {b})
  {
    forall x | 0 <= x < |cs|
      ensures SameBut(cs[x], now[x], kind)
      ensures Unsaid(now[x], kind) == if Unheard(cs, x, i) && x !in heard + {b} then Unsaid(cs[x], kind) else []
    {
      assert SameBut(cs[x], was[x], kind);
    }
  }

  /** Client i and its first m bots. */
  ghost predicate Heard(cs: seq<ClientInfo>, i: nat, m: nat, heard: set<nat>) {
    i < |cs| && m <= |cs[i].bots| && forall x :: x in heard <==> x == i || x in cs[i].bots[..m]
  }

  lemma FirstSpeech(cs: seq<ClientInfo>, kind: Kind, i: nat)
    requires Assigned(cs) && i < |cs|
    ensures SpeechOf(cs, kind, i, 0) == Said(i, Speech(cs[i], kind)) && Heard(cs, i, 0, {i})
  {
  }

  lemma FirstNeed(cs: seq<ClientInfo>, kind: Kind, i: nat)
    requires Assigned(cs) && i < |cs|
    ensures NeedsOf(cs, kind, i, 0) == NeedOf(cs[i], kind)
  {
  }

  lemma MoreSpeech(cs: seq<ClientInfo>, kind: Kind, i: nat, m: nat, start: seq<Block>, heard: set<nat>)
    requires Assigned(cs) && i < |cs| && m < |cs[i].bots| && cs[i].bots[m] < |cs| && Heard(cs, i, m, heard)
    requires cs[i].bots[m] != i && cs[i].bots[m] !in cs[i].bots[..m]
    ensures start + SpeechOf(cs, kind, i, m + 1) == start + SpeechOf(cs, kind, i, m) + Said(i, Speech(cs[cs[i].bots[m]], kind))
    ensures cs[i].bots[m] !in heard && Heard(cs, i, m + 1, heard + {cs[i].bots[m]})
  {
    hide Assigned, Speech;
    assert cs[i].bots[..m + 1] == cs[i].bots[..m] + [cs[i].bots[m]];
  }

  /** A client's block is packed, if it has one. */
  lemma PackSpeech(p: Packing, o: nat, ci: ClientInfo, kind: Kind, limit: int)
    ensures |NeedOf(ci, kind)| == |Said(o, Speech(ci, kind))|
    ensures Pack(p, Said(o, Speech(ci, kind)), NeedOf(ci, kind), limit) ==
      if Speech(ci, kind) == [] then p
      else PackOne(p, Block(o, Speech(ci, kind)), if kind == Positions then |ci.position| else 10 + |ci.messages|, limit)
    ensures Speech(ci, Messages) == [] <==> ci.messages == []
  {
    hide PackOne, Pack;
    PackNothing(p, limit);
    if Speech(ci, kind) != [] {
      PackSaid(p, Block(o, Speech(ci, kind)), if kind == Positions then |ci.position| else 10 + |ci.messages|, limit);
    }
  }

  lemma MorePacked(cs: seq<ClientInfo>, kind: Kind, i: nat, m: nat, p: Packing, limit: int)
    requires Assigned(cs) && i < |cs| && m < |cs[i].bots| && cs[i].bots[m] < |cs|
    ensures |NeedOf(cs[cs[i].bots[m]], kind)| == |Said(i, Speech(cs[cs[i].bots[m]], kind))|
    ensures var ci := cs[cs[i].bots[m]];
      Pack(Pack(p, SpeechOf(cs, kind, i, m), NeedsOf(cs, kind, i, m), limit), Said(i, Speech(ci, kind)), NeedOf(ci, kind), limit)
      == Pack(p, SpeechOf(cs, kind, i, m + 1), NeedsOf(cs, kind, i, m + 1), limit)
  {
    hide Assigned, Speech, Said, NeedOf, Pack;
    var ci := cs[cs[i].bots[m]];
    NeedPerBlock(i, ci, kind);
    PackJoin(p, SpeechOf(cs, kind, i, m), NeedsOf(cs, kind, i, m), Said(i, Speech(ci, kind)), NeedOf(ci, kind), limit);
  }

  lemma TurnPacked(cs: seq<ClientInfo>, kind: Kind, i: nat, p: Packing, limit: int)
    requires Assigned(cs) && i < |cs| && !cs[i].ai
    ensures var n := |cs[i].bots|;
      Pack(Pack(p, Speeches(cs, kind, i), Needs(cs, kind, i), limit), SpeechOf(cs, kind, i, n), NeedsOf(cs, kind, i, n), limit)
      == Pack(p, Speeches(cs, kind, i + 1), Needs(cs, kind, i + 1), limit)
  {
    hide Assigned, SpeechOf, NeedsOf, Pack;
    var n := |cs[i].bots|;
    PackJoin(p, Speeches(cs, kind, i), Needs(cs, kind, i), SpeechOf(cs, kind, i, n), NeedsOf(cs, kind, i, n), limit);
  }

  /** What is packed in a stage, behind what was full before. */
  lemma StagePacked(cs: seq<ClientInfo>, kind: Kind, from: seq<seq<Block>>, limit: int, chunks: seq<seq<Block>>)
    requires Assigned(cs) && chunks == Sealed(Pack(Packing(from, []), Speeches(cs, kind, |cs|), Needs(cs, kind, |cs|), limit))
    ensures from <= chunks && Packed(chunks[|from|..], Speeches(cs, kind, |cs|), Needs(cs, kind, |cs|), limit)
  {
    hide Assigned, Speeches, Needs, Pack, Sealed, Packed;
    var blocks, needs := Speeches(cs, kind, |cs|), Needs(cs, kind, |cs|);
    PackBehind(from, blocks, needs, limit);
    PackIs(blocks, needs, limit);
    var rest := Sealed(Pack(Packing([], []), blocks, needs, limit));
    assert (from + rest)[|from|..] == rest;
  }

  lemma TurnEnds(cs: seq<ClientInfo>, kind: Kind, i: nat, before: seq<Block>)
    requires Assigned(cs) && i < |cs| && !cs[i].ai
    ensures before + Speeches(cs, kind, i + 1) == before + Speeches(cs, kind, i) + SpeechOf(cs, kind, i, |cs[i].bots|)
  {
    hide Assigned, SpeechOf;
  }

  lemma HeardAll(cs: seq<ClientInfo>, now: seq<ClientInfo>, kind: Kind, i: nat, heard: set<nat>)
    requires AllSame(cs, now, kind, i, heard) && i < |cs| && !cs[i].ai && Heard(cs, i, |cs[i].bots|, heard)
    ensures AllSame(cs, now, kind, i + 1, {})
  {
    forall x | 0 <= x < |cs| ensures Unheard(cs, x, i + 1) <==> Unheard(cs, x, i) && x !in heard {
    }
  }

  /** A bot's own turn is its owner's. */
  lemma PassBot(cs: seq<ClientInfo>, now: seq<ClientInfo>, kind: Kind, i: nat, before: seq<Block>)
    requires Assigned(cs) && AllSame(cs, now, kind, i, {}) && i < |cs| && cs[i].ai
    ensures Speeches(cs, kind, i + 1) == Speeches(cs, kind, i) && Needs(cs, kind, i + 1) == Needs(cs, kind, i)
    ensures AllSame(cs, now, kind, i + 1, {})
  {
    hide Assigned;
    forall x | 0 <= x < |cs| ensures Unheard(cs, x, i + 1) <==> Unheard(cs, x, i) {
    }
  }

  /** The second stage begins with all the messages still there. */
  lemma NextStage(cs: seq<ClientInfo>, now: seq<ClientInfo>)
    requires Assigned(cs) && AllSame(cs, now, Positions, |cs|, {})
    ensures Assigned(now) && AllSame(now, now, Messages, 0, {})
    ensures Speeches(now, Messages, |now|) == Speeches(cs, Messages, |cs|) && Needs(now, Messages, |now|) == Needs(cs, Messages, |cs|)
  {
    hide Assigned, Speeches, Needs, Unheard, Speech, Header;
    forall x | 0 <= x < |cs|
      ensures now[x].bots == cs[x].bots && now[x].ai == cs[x].ai && Framed(now[x]) == Framed(cs[x]) && now[x].messages == cs[x].messages
    {
      assert SameBut(cs[x], now[x], Positions);
    }
    AssignedSame(cs, now);
    SameSpeeches(cs, now, |cs|);
    SameNeeds(cs, now, |cs|);
    NobodyYet(now);
  }

  lemma NobodyYet(cs: seq<ClientInfo>)
    ensures forall x: nat :: Unheard(cs, x, 0)
  {
  }

  lemma AssignedSame(cs: seq<ClientInfo>, now: seq<ClientInfo>)
    requires Assigned(cs) && |now| == |cs| && forall x :: 0 <= x < |cs| ==> now[x].bots == cs[x].bots && now[x].ai == cs[x].ai
    ensures Assigned(now)
  {
  }

  lemma {:induction false} SameSpeeches(cs: seq<ClientInfo>, now: seq<ClientInfo>, n: nat)
    requires Assigned(cs) && Assigned(now) && |now| == |cs| && n <= |cs|
    requires forall x :: 0 <= x < |cs| ==> now[x].bots == cs[x].bots && now[x].ai == cs[x].ai && Framed(now[x]) == Framed(cs[x])
    ensures Speeches(now, Messages, n) == Speeches(cs, Messages, n)
  {
    hide Assigned, Framed, SpeechOf;
    if n > 0 {
      SameSpeeches(cs, now, n - 1);
      SameSpeechesOf(cs, now, n - 1, |cs[n - 1].bots|);
    }
  }

  lemma {:induction false} SameSpeechesOf(cs: seq<ClientInfo>, now: seq<ClientInfo>, i: nat, m: nat)
    requires Assigned(cs) && Assigned(now) && |now| == |cs| && i < |cs| && m <= |cs[i].bots| == |now[i].bots|
    requires forall x :: 0 <= x < |cs| ==> now[x].bots == cs[x].bots && Framed(now[x]) == Framed(cs[x])
    ensures SpeechOf(now, Messages, i, m) == SpeechOf(cs, Messages, i, m)
  {
    hide Assigned, Framed;
    if m > 0 {
      SameSpeechesOf(cs, now, i, m - 1);
      BotInRange(cs, i, m - 1);
    }
  }

  ghost predicate SameMessages(cs: seq<ClientInfo>, now: seq<ClientInfo>) {
    |now| == |cs| && forall x :: 0 <= x < |cs| ==> now[x].bots == cs[x].bots && now[x].ai == cs[x].ai && now[x].messages == cs[x].messages
  }

  lemma SameLength(cs: seq<ClientInfo>, now: seq<ClientInfo>)
    requires SameMessages(cs, now)
    ensures |now| == |cs|
  {
  }

  lemma SameAt(cs: seq<ClientInfo>, now: seq<ClientInfo>, x: nat)
    requires SameMessages(cs, now) && x < |cs|
    ensures |now| == |cs| && now[x].bots == cs[x].bots && now[x].ai == cs[x].ai && now[x].messages == cs[x].messages
  {
  }

  lemma NeedsIs(cs: seq<ClientInfo>, n: nat)
    requires Assigned(cs) && n <= |cs|
    ensures Needs(cs, Messages, n) == if n == 0 then []
      else Needs(cs, Messages, n - 1) + if cs[n - 1].ai then [] else NeedsOf(cs, Messages, n - 1, |cs[n - 1].bots|)
  {
    hide Assigned, NeedsOf, Speeches, SpeechOf;
  }

  lemma {:induction false} SameNeeds(cs: seq<ClientInfo>, now: seq<ClientInfo>, n: nat)
    requires Assigned(cs) && Assigned(now) && SameMessages(cs, now) && n <= |cs|
    ensures Needs(now, Messages, n) == Needs(cs, Messages, n)
  {
    hide *;
    SameLength(cs, now);
    NeedsIs(cs, n);
    NeedsIs(now, n);
    if n > 0 {
      SameAt(cs, now, n - 1);
      SameNeeds(cs, now, n - 1);
      SameNeedsOf(cs, now, n - 1, |cs[n - 1].bots|);
    }
  }

  lemma {:induction false} SameNeedsOf(cs: seq<ClientInfo>, now: seq<ClientInfo>, i: nat, m: nat)
    requires Assigned(cs) && Assigned(now) && SameMessages(cs, now) && i < |cs| && m <= |cs[i].bots| == |now[i].bots|
    ensures NeedsOf(now, Messages, i, m) == NeedsOf(cs, Messages, i, m)
  {
    hide Assigned, SpeechOf, SameMessages;
    SameAt(cs, now, i);
    if m > 0 {
      SameNeedsOf(cs, now, i, m - 1);
      BotInRange(cs, i, m - 1);
      SameAt(cs, now, cs[i].bots[m - 1]);
    }
  }

  /** Who has had a turn in both stages has nothing left to say. */
  lemma AllSaid(cs: seq<ClientInfo>, mid: seq<ClientInfo>, now: seq<ClientInfo>)
    requires AllSame(cs, mid, Positions, |cs|, {}) && AllSame(mid, now, Messages, |mid|, {})
    ensures |now| == |cs|
    ensures forall x :: 0 <= x < |cs| && !Unheard(cs, x, |cs|) ==> now[x].position == [] && now[x].messages == []
  {
    forall x | 0 <= x < |cs| && !Unheard(cs, x, |cs|) ensures now[x].position == [] && now[x].messages == [] {
      assert SameBut(cs[x], mid[x], Positions) && SameBut(mid[x], now[x], Messages);
      var o :| 0 <= o < |cs| && !cs[o].ai && !(x != o && x !in cs[o].bots);
      assert SameBut(cs[o], mid[o], Positions);
    }
  }

  lemma NothingYet(c: nat)
    ensures Complete([], [], c) && Bytes([]) == [] && Received([], [], c) == [] && Pick([], c, Mine) == []
    ensures forall data: seq<byte> :: Received([], data, c) == []
  {
  }

  /** If the reckoning comes to nothing, nobody has anything to say. */
  lemma AllSilent(cs: seq<ClientInfo>)
    requires Assigned(cs) && Sum(Costs(cs)) == 0
    ensures Speeches(cs, Positions, |cs|) + Speeches(cs, Messages, |cs|) == []
    ensures forall x :: 0 <= x < |cs| ==> cs[x].position == [] && cs[x].messages == []
  {
    hide Assigned, Speeches, Header, Sum;
    NoCost(cs);
    NoSpeech(cs, Positions, |cs|);
    NoSpeech(cs, Messages, |cs|);
  }

  lemma NoCost(cs: seq<ClientInfo>)
    requires Sum(Costs(cs)) == 0
    ensures forall x :: 0 <= x < |cs| ==> cs[x].position == [] && cs[x].messages == []
  {
    SumZero(Costs(cs));
    forall x | 0 <= x < |cs| ensures cs[x].position == [] && cs[x].messages == [] {
      assert Costs(cs)[x] == 0;
    }
  }

  ghost predicate AllMute(cs: seq<ClientInfo>, kind: Kind) {
    forall x :: 0 <= x < |cs| ==> Speech(cs[x], kind) == []
  }

  lemma Mute(cs: seq<ClientInfo>, kind: Kind, x: nat, o: nat)
    requires AllMute(cs, kind) && x < |cs|
    ensures Said(o, Speech(cs[x], kind)) == []
  {
  }

  lemma SpeechesIs(cs: seq<ClientInfo>, kind: Kind, n: nat)
    requires Assigned(cs) && n <= |cs|
    ensures Speeches(cs, kind, n) == if n == 0 then []
      else Speeches(cs, kind, n - 1) + if cs[n - 1].ai then [] else SpeechOf(cs, kind, n - 1, |cs[n - 1].bots|)
  {
    hide Assigned, SpeechOf;
  }

  lemma {:induction false} NoSpeech(cs: seq<ClientInfo>, kind: Kind, n: nat)
    requires Assigned(cs) && n <= |cs| && AllMute(cs, kind)
    ensures Speeches(cs, kind, n) == []
  {
    hide *;
    SpeechesIs(cs, kind, n);
    if n > 0 {
      NoSpeech(cs, kind, n - 1);
      NoSpeechOf(cs, kind, n - 1, |cs[n - 1].bots|);
    }
  }

  lemma {:induction false} NoSpeechOf(cs: seq<ClientInfo>, kind: Kind, i: nat, m: nat)
    requires Assigned(cs) && i < |cs| && m <= |cs[i].bots| && AllMute(cs, kind)
    ensures SpeechOf(cs, kind, i, m) == []
  {
    hide Assigned, AllMute, Speech, Said;
    Mute(cs, kind, i, i);
    if m > 0 {
      NoSpeechOf(cs, kind, i, m - 1);
      BotInRange(cs, i, m - 1);
      Mute(cs, kind, cs[i].bots[m - 1], i);
    }
  }

  lemma BotInRange(cs: seq<ClientInfo>, i: nat, m: nat)
    requires Assigned(cs) && i < |cs| && m < |cs[i].bots|
    ensures cs[i].bots[m] < |cs|
  {
  }

  lemma NoneSpoken(cs: seq<ClientInfo>, kind: Kind, done: seq<Block>)
    requires Assigned(cs)
    ensures done + Speeches(cs, kind, 0) == done
  {
  }

  class Broadcast {
    const clients: array<ClientInfo>
    var mtu: int
    var data: array<byte>
    // the part of the buffer that the chunk being filled takes
    var base: nat
    var len: nat
    var sent: seq<Sending>
    // whether each client's connection takes a packet, and how many packets were taken
    var takes: seq<bool>
    var uses: nat
    ghost var chunk: seq<Block>
    ghost var done: seq<Block>
    ghost var received: seq<seq<Block>>
    // the chunks that were sent, and which of them each packet is from
    ghost var full: seq<seq<Block>>
    ghost var chunkOf: seq<nat>

    ghost predicate ChunkOk()
      reads this, data, clients
    {
      && base + len <= data.Length && data[base..base + len] == Bytes(chunk) && Ordered(chunk) && Filled(chunk)
      && (forall k :: 0 <= k < |chunk| ==> chunk[k].owner < clients.Length)
      && forall c :: 0 <= c < clients.Length ==> Marked(clients[c], chunk, base, c)
    }

    ghost predicate SentOk()
      reads this, data, clients
    {
      && base <= data.Length && InBuffer(sent, base) && |received| == |takes| == clients.Length
      && uses == Taken(sent, takes) && Shares(sent, chunkOf, full) && AllOrdered(full)
      && forall c :: 0 <= c < clients.Length && !clients[c].ai ==>
        Complete(received[c], done, c) && Received(sent, data[..base], c) == Bytes(received[c])
    }

    ghost function Now(): Packing
      reads this
    {
      Packing(full, chunk)
    }

    /** sendpositions and sendmessages: the chunk is written a second time, and every client that is not
        a bot is sent the bytes behind its own. */
    method SendChunk(channel: nat)
      requires ChunkOk() && SentOk() && base + 2 * len <= data.Length
      modifies this`base, this`len, this`sent, this`uses, this`chunk, this`done, this`received, this`full, this`chunkOf, data
      ensures ChunkOk() && SentOk() && len == 0 && chunk == [] && done == old(done + chunk)
      ensures base + 2 * len == old(base + 2 * len) && SentOn(old(sent), sent, channel) && full == Sealed(old(Now()))
    {
      hide Pick, Bytes, Ordered, Complete, Received, Marked, Filled, Others, Taken, SentOn, Shares;
      FilledBytes(chunk);
      SentNothing(sent, channel);
      if len == 0 {
        assert done + chunk == done;
        return;
      }
      var wslen := len;
      Double();
      SendToAll(channel, wslen);
      Advance(wslen);
    }

    /** wsbuf.offset(wsbuf.length()): the next chunk begins behind the doubled one. */
    method Advance(wslen: nat)
      requires chunk != [] && Ordered(chunk) && Filled(chunk) && wslen == |Bytes(chunk)| && base + 2 * wslen <= data.Length
      requires forall c :: 0 <= c < clients.Length ==> Marked(clients[c], chunk, base, c)
      requires InBuffer(sent, base + 2 * wslen) && |received| == |takes| == clients.Length && uses == Taken(sent, takes)
      requires Shares(sent, chunkOf, full + [chunk]) && AllOrdered(full)
      requires forall c :: 0 <= c < clients.Length && !clients[c].ai ==>
        Complete(received[c], done, c) && Received(sent, data[..base + 2 * wslen], c) == Bytes(received[c] + Others(chunk, c))
      modifies this`base, this`len, this`chunk, this`done, this`received, this`full
      ensures ChunkOk() && SentOk() && len == 0 && chunk == [] && done == old(done + chunk) && base == old(base) + 2 * wslen
      ensures full == old(full + [chunk])
    {
      hide Pick, Bytes, Ordered, Complete, Received, Marked, Filled, Others, Taken, InBuffer, Shares;
      forall c | 0 <= c < clients.Length && !clients[c].ai {
        CompleteMore(received[c], done, chunk, c);
      }
      forall c | 0 <= c < clients.Length {
        Unmarked(clients[c], chunk, base, base + 2 * wslen, c);
      }
      EmptyChunk();
      ghost var sofar, now := received, chunk;
      received := seq(|sofar|, c requires 0 <= c < |sofar| => sofar[c] + Others(now, c));
      done := done + chunk;
      full := full + [chunk];
      chunk := [];
      base := base + 2 * wslen;
      len := 0;
    }

    /** wsbuf.put(wsbuf.buf, wslen) */
    method Double()
      requires base + 2 * len <= data.Length
      modifies data
      ensures data[..base] == old(data[..base])
      ensures data[base..base + 2 * len] == old(data[base..base + len]) + old(data[base..base + len])
    {
      ghost var front, bytes := data[..base], data[base..base + len];
      for k := 0 to len
        invariant data[..base] == front && data[base..base + len] == bytes
        invariant forall n :: 0 <= n < k ==> data[base + len + n] == bytes[n]
      {
        assert data[base + k] == data[base..base + len][k];
        data[base + len + k] := data[base + k];
      }
      Copied(data[..], base, bytes, bytes);
    }

    /** addposition and addmessages, once the bytes are known: the chunk is sent first if they make it
        longer than the datagram may be; then they are put, and client o's mark is set or moved on. */
    method AddBlock(o: nat, bytes: seq<byte>, needed: nat, channel: nat)
      requires ChunkOk() && SentOk() && o < clients.Length && bytes != []
      requires forall k :: 0 <= k < |chunk| ==> chunk[k].owner <= o
      requires base + 2 * len + 2 * |bytes| <= data.Length
      modifies this`base, this`len, this`sent, this`uses, this`chunk, this`done, this`received, this`full, this`chunkOf, data, clients
      ensures ChunkOk() && SentOk()
      ensures forall k :: 0 <= k < |chunk| ==> chunk[k].owner <= o
      ensures done + chunk == old(done + chunk) + [Block(o, bytes)]
      ensures base + 2 * len == old(base + 2 * len) + 2 * |bytes| && SentOn(old(sent), sent, channel)
      ensures Now() == PackOne(old(Now()), Block(o, bytes), needed, mtu)
      ensures forall c :: 0 <= c < clients.Length ==>
        clients[c] == old(clients[c]).(wsdata := clients[c].wsdata, wslen := clients[c].wslen)
    {
      hide ChunkOk, SentOk, SentOn, Bytes, Sealed;
      SentNothing(sent, channel);
      LengthIs();
      if len + needed > mtu {
        SendChunk(channel);
      }
      Append(o, bytes);
    }

    lemma LengthIs()
      requires ChunkOk()
      ensures len == |Bytes(chunk)|
    {
    }

    /** The bytes are put at the end of the chunk. */
    method Append(o: nat, bytes: seq<byte>)
      requires ChunkOk() && SentOk() && o < clients.Length && bytes != []
      requires forall k :: 0 <= k < |chunk| ==> chunk[k].owner <= o
      requires base + 2 * len + 2 * |bytes| <= data.Length
      modifies this`len, this`chunk, data, clients
      ensures ChunkOk() && SentOk() && len == old(len) + |bytes|
      ensures chunk == old(chunk) + [Block(o, bytes)] && done + chunk == old(done + chunk) + [Block(o, bytes)]
      ensures forall c :: 0 <= c < clients.Length ==>
        clients[c] == old(clients[c]).(wsdata := clients[c].wsdata, wslen := clients[c].wslen)
    {
      hide Pick, Bytes, Ordered, Complete, Received, Marked, Filled, Taken, InBuffer, Shares;
      var offset := len;
      ghost var x, was := Block(o, bytes), chunk;
      PutBytes(bytes);
      MoreBlocks(was, x);
      Mark(o, offset, |bytes|, x);
      assert done + chunk == done + was + [x];
    }

    /** What a client had to say is taken from it. */
    method Silence(b: nat, ci: ClientInfo)
      requires ChunkOk() && SentOk() && b < clients.Length
      requires ci.wsdata == clients[b].wsdata && ci.wslen == clients[b].wslen && ci.ai == clients[b].ai
      modifies clients
      ensures ChunkOk() && SentOk() && clients[..] == old(clients[..])[b := ci]
    {
      hide Pick, Bytes, Ordered, Complete, Received, Marked, Filled, Taken, InBuffer, Shares;
      ghost var marked := clients[..];
      clients[b] := ci;
      MarksKept(marked, clients[..], chunk, base);
    }

    /** Where the client's own bytes begin in this chunk, and how many they are. */
    method Mark(o: nat, offset: nat, n: nat, ghost x: Block)
      requires o < clients.Length && x.owner == o && n == |x.data| && offset == |Bytes(chunk)| && Ordered(chunk) && Filled(chunk)
      requires forall k :: 0 <= k < |chunk| ==> chunk[k].owner <= o
      requires forall c :: 0 <= c < clients.Length ==> Marked(clients[c], chunk, base, c)
      modifies clients, this`chunk
      ensures chunk == old(chunk) + [x] && forall c :: 0 <= c < clients.Length ==> Marked(clients[c], chunk, base, c)
      ensures forall c :: 0 <= c < clients.Length ==>
        clients[c] == old(clients[c]).(wsdata := clients[c].wsdata, wslen := clients[c].wslen)
    {
      hide Pick, Bytes, Ordered, Marked, Filled;
      ghost var before := clients[..];
      if clients[o].wsdata < base {
        clients[o] := clients[o].(wsdata := base + offset, wslen := n);
      } else {
        clients[o] := clients[o].(wslen := clients[o].wslen + n);
      }
      forall c | 0 <= c < clients.Length ensures Marked(clients[c], chunk + [x], base, c) {
        StillMarked(before[c], clients[c], chunk, x, base, c);
      }
      chunk := chunk + [x];
    }

    /** The buffer has room for everything that is left to be said, twice. */
    ghost predicate Fits()
      reads this, data, clients
    {
      base + 2 * len + 2 * Sum(Costs(clients[..])) <= data.Length
    }

    method AddPosition(b: nat, o: nat)
      requires ChunkOk() && SentOk() && Fits() && b < clients.Length && o < clients.Length
      requires forall k :: 0 <= k < |chunk| ==> chunk[k].owner <= o
      modifies this`base, this`len, this`sent, this`uses, this`chunk, this`done, this`received, this`full, this`chunkOf, data, clients
      ensures ChunkOk() && SentOk() && Fits()
      ensures forall k :: 0 <= k < |chunk| ==> chunk[k].owner <= o
      ensures done + chunk == old(done + chunk) + Said(o, old(clients[b]).position) && SentOn(old(sent), sent, 0)
      ensures var was := old(clients[b]).position;
        Now() == if was == [] then old(Now()) else PackOne(old(Now()), Block(o, was), |was|, mtu)
      ensures forall c :: 0 <= c < clients.Length ==>
        clients[c] == old(clients[c]).(wsdata := clients[c].wsdata, wslen := clients[c].wslen,
                                       position := if c == b then [] else old(clients[c]).position)
    {
      hide ChunkOk, SentOk, Sum, SentOn, PackOne;
      SentNothing(sent, 0);
      if clients[b].position == [] {
        return;
      }
      ghost var before := clients[..];
      var bytes := clients[b].position;
      CostAtLeast(before, b);
      AddBlock(o, bytes, |bytes|, 0);
      CostsKept(before, clients[..]);
      CostsDrop(clients[..], b, clients[b].(position := []));
      Silence(b, clients[b].(position := []));
    }

    method AddMessages(b: nat, o: nat)
      requires ChunkOk() && SentOk() && Fits() && b < clients.Length && o < clients.Length
      requires forall k :: 0 <= k < |chunk| ==> chunk[k].owner <= o
      modifies this`base, this`len, this`sent, this`uses, this`chunk, this`done, this`received, this`full, this`chunkOf, data, clients
      ensures ChunkOk() && SentOk() && Fits()
      ensures forall k :: 0 <= k < |chunk| ==> chunk[k].owner <= o
      ensures done + chunk == old(done + chunk) + Said(o, Framed(old(clients[b]))) && SentOn(old(sent), sent, 1)
      ensures var was := old(clients[b]).messages;
        Now() == if was == [] then old(Now()) else PackOne(old(Now()), Block(o, Framed(old(clients[b]))), 10 + |was|, mtu)
      ensures forall c :: 0 <= c < clients.Length ==>
        clients[c] == old(clients[c]).(wsdata := clients[c].wsdata, wslen := clients[c].wslen,
                                       messages := if c == b then [] else old(clients[c]).messages)
    {
      hide ChunkOk, SentOk, Sum, Header, SentOn, PackOne;
      SentNothing(sent, 1);
      var bi := clients[b];
      if bi.messages == [] {
        return;
      }
      ghost var before := clients[..];
      CostAtLeast(before, b);
      AddBlock(o, Header(bi.clientnum, |bi.messages|) + bi.messages, 10 + |bi.messages|, 1);
      CostsKept(before, clients[..]);
      CostsDrop(clients[..], b, clients[b].(messages := []));
      Silence(b, clients[b].(messages := []));
    }

    /** The stage has come to client i: what was said so far is what the clients before it had to say. */
    ghost predicate Reached(cs: seq<ClientInfo>, kind: Kind, before: seq<Block>, from: seq<seq<Block>>, i: nat)
      reads this, data, clients
    {
      && ChunkOk() && SentOk() && Fits() && Assigned(cs) && i <= |cs|
      && done + chunk == before + Speeches(cs, kind, i)
      && Now() == Pack(Packing(from, []), Speeches(cs, kind, i), Needs(cs, kind, i), mtu)
      && (forall k :: 0 <= k < |chunk| ==> chunk[k].owner < i)
      && AllSame(cs, clients[..], kind, i, {})
    }

    method Add(b: nat, o: nat, kind: Kind, ghost cs: seq<ClientInfo>, ghost i: nat, ghost heard: set<nat>)
      requires ChunkOk() && SentOk() && Fits() && b < clients.Length && o < clients.Length && b < |cs|
      requires forall k :: 0 <= k < |chunk| ==> chunk[k].owner <= o
      requires AllSame(cs, clients[..], kind, i, heard) && Unheard(cs, b, i) && b !in heard
      modifies this`base, this`len, this`sent, this`uses, this`chunk, this`done, this`received, this`full, this`chunkOf, data, clients
      ensures ChunkOk() && SentOk() && Fits()
      ensures forall k :: 0 <= k < |chunk| ==> chunk[k].owner <= o
      ensures done + chunk == old(done + chunk) + Said(o, Speech(cs[b], kind)) && SentOn(old(sent), sent, ChannelOf(kind))
      ensures |NeedOf(cs[b], kind)| == |Said(o, Speech(cs[b], kind))|
      ensures Now() == Pack(old(Now()), Said(o, Speech(cs[b], kind)), NeedOf(cs[b], kind), mtu)
      ensures AllSame(cs, clients[..], kind, i, heard + {b})
    {
      hide ChunkOk, SentOk, Fits, Unheard, SentOn, PackOne, Pack, Header;
      NeedPerBlock(o, cs[b], kind);
      PackSpeech(Now(), o, cs[b], kind, mtu);
      assert SameBut(cs[b], clients[..][b], kind) && Unsaid(clients[..][b], kind) == Unsaid(cs[b], kind);
      if kind == Positions {
        AddPosition(b, o);
      } else {
        AddMessages(b, o);
      }
      SameSpeech(cs, old(clients[..]), clients[..], kind, i, heard, b);
    }

    /** One client's turn: its own bytes and those of its bots. */
    method Turn(i: nat, kind: Kind, ghost cs: seq<ClientInfo>, ghost before: seq<Block>, ghost from: seq<seq<Block>>)
      requires Reached(cs, kind, before, from, i) && i < |cs| && !cs[i].ai
      modifies this`base, this`len, this`sent, this`uses, this`chunk, this`done, this`received, this`full, this`chunkOf, data, clients
      ensures Reached(cs, kind, before, from, i + 1) && SentOn(old(sent), sent, ChannelOf(kind))
    {
      hide ChunkOk, SentOk, Fits, Assigned, Unheard, AllSame, Speech, Speeches, SpeechOf, Said, Heard, SentOn, ChannelOf;
      hide Pack, Needs, NeedsOf, NeedOf, Now;
      ghost var begun, heard, start: seq<Block> := Now(), {i}, before + Speeches(cs, kind, i);
      NotYetHeard(cs, i, 0);
      BotsSame(cs, clients[..], kind, i, {}, i);
      Add(i, i, kind, cs, i, {});
      assert {} + {i} == heard;
      BotsSame(cs, clients[..], kind, i, heard, i);
      FirstSpeech(cs, kind, i);
      FirstNeed(cs, kind, i);
      for m := 0 to |clients[i].bots|
        invariant ChunkOk() && SentOk() && Fits() && clients[i].bots == cs[i].bots
        invariant forall k :: 0 <= k < |chunk| ==> chunk[k].owner <= i
        invariant done + chunk == start + SpeechOf(cs, kind, i, m)
        invariant Now() == Pack(begun, SpeechOf(cs, kind, i, m), NeedsOf(cs, kind, i, m), mtu)
        invariant AllSame(cs, clients[..], kind, i, heard) && Heard(cs, i, m, heard) && SentOn(old(sent), sent, ChannelOf(kind))
      {
        NotYetHeard(cs, i, m);
        var b := clients[i].bots[m];
        MoreSpeech(cs, kind, i, m, start, heard);
        MorePacked(cs, kind, i, m, begun, mtu);
        ghost var was := sent;
        Add(b, i, kind, cs, i, heard);
        SentFurther(old(sent), was, sent, ChannelOf(kind));
        heard := heard + {b};
        BotsSame(cs, clients[..], kind, i, heard, i);
      }
      HeardAll(cs, clients[..], kind, i, heard);
      TurnEnds(cs, kind, i, before);
      TurnPacked(cs, kind, i, Packing(from, []), mtu);
    }

    /** The two loops of buildworldstate over the clients, once for each kind. */
    method Stage(kind: Kind, ghost cs: seq<ClientInfo>, ghost before: seq<Block>, ghost from: seq<seq<Block>>)
      requires Reached(cs, kind, before, from, 0) && |cs| == clients.Length
      modifies this`base, this`len, this`sent, this`uses, this`chunk, this`done, this`received, this`full, this`chunkOf, data, clients
      ensures ChunkOk() && SentOk() && Fits() && len == 0 && chunk == []
      ensures done == before + Speeches(cs, kind, |cs|) && SentOn(old(sent), sent, ChannelOf(kind))
      ensures AllSame(cs, clients[..], kind, |cs|, {})
      // chunks as long as they may be, behind those that were sent before
      ensures from <= full && Packed(full[|from|..], Speeches(cs, kind, |cs|), Needs(cs, kind, |cs|), mtu)
    {
      hide ChunkOk, SentOk, Assigned, AllSame, Speeches, Needs, Pack, Packed, Sealed, Sum, Costs, SentOn;
      SentNothing(sent, ChannelOf(kind));
      for i := 0 to clients.Length
        invariant Reached(cs, kind, before, from, i) && SentOn(old(sent), sent, ChannelOf(kind))
      {
        ghost var was := sent;
        BotsSame(cs, clients[..], kind, i, {}, i);
        if clients[i].ai {
          PassBot(cs, clients[..], kind, i, before);
          continue;
        }
        Turn(i, kind, cs, before, from);
        SentFurther(old(sent), was, sent, ChannelOf(kind));
      }
      DoubleFits();
      ghost var was := sent;
      SendChunk(ChannelOf(kind));
      SentFurther(old(sent), was, sent, ChannelOf(kind));
      StagePacked(cs, kind, from, mtu, full);
      assert done + [] == done;
    }

    lemma DoubleFits()
      requires Fits()
      ensures base + 2 * len <= data.Length
    {
    }

    /** buildworldstate: the result says whether any packet was taken. */
    method Build(serverMtu: int, taking: seq<bool>) returns (queued: bool, ghost m: nat, ghost p: nat)
      requires Assigned(clients[..]) && |taking| == clients.Length
      modifies this, clients
      ensures InBuffer(sent, data.Length) && uses == Taken(sent, takes) && takes == taking && queued == (uses > 0)
      ensures sent != [] ==> data.Length == 2 * Sum(Costs(old(clients[..])))
      // every client that is not a bot was sent what all the others had to say, each once, and nothing of its own
      ensures var cs := old(clients[..]);
        var all := Speeches(cs, Positions, |cs|) + Speeches(cs, Messages, |cs|);
        |received| == |cs| && forall c :: 0 <= c < |cs| && !cs[c].ai ==>
          Complete(received[c], all, c) && Received(sent, data[..], c) == Bytes(received[c])
      // the first p chunks hold the positions, the others the messages; they are as long as the datagram allows
      ensures var cs, limit := old(clients[..]), if serverMtu > 100 then serverMtu - 100 else data.Length;
        && p <= |full| && Packed(full[..p], Speeches(cs, Positions, |cs|), Needs(cs, Positions, |cs|), limit)
        && Packed(full[p..], Speeches(cs, Messages, |cs|), Needs(cs, Messages, |cs|), limit)
      ensures Shares(sent, chunkOf, full)
      ensures serverMtu > 100 ==> ShortOrSingle(sent, chunkOf, full, serverMtu - 100)
      // first the positions on their channel, then the messages on theirs; nothing is left to be said
      ensures m <= |sent| && forall k :: 0 <= k < |sent| ==> sent[k].channel == ChannelOf(if k < m then Positions else Messages)
      ensures forall x :: 0 <= x < clients.Length && !Unheard(old(clients[..]), x, clients.Length) ==>
        clients[x].position == [] && clients[x].messages == []
    {
      hide Assigned, Sum, Speeches, AllSame, Speech, Pick, Bytes, Received, Complete, Costs, Unheard, InBuffer, Taken, Reached, ChannelOf;
      hide Needs, Packed, Shares, ShortOrSingle;
      ghost var cs := clients[..];
      NothingSent(taking, data.Length);
      base, len, sent, takes, uses := 0, 0, [], taking, 0;
      chunk, done, received := [], [], seq(clients.Length, _ => []);
      full, chunkOf := [], [];
      NoShares();
      var wsmax := Reckon();
      forall c: nat {
        NothingYet(c);
      }
      if wsmax <= 0 {
        AllSilent(cs);
        assert full[..0] == [] && full[0..] == [];
        NonePacked(cs, if serverMtu > 100 then serverMtu - 100 else data.Length);
        NoneTooLong(serverMtu - 100);
        return false, 0, 0;
      }
      Begin(serverMtu, wsmax, cs);
      m, p := BothStages(cs);
      if serverMtu > 100 {
        PacketsFit(cs, sent, chunkOf, full, p, serverMtu - 100);
      }
      queued := uses > 0;
    }

    /** The buffer has room for everything twice; a chunk may be 100 bytes shorter than the mtu. */
    method Begin(serverMtu: int, wsmax: nat, ghost cs: seq<ClientInfo>)
      requires Assigned(cs) && |cs| == clients.Length && wsmax == Sum(Costs(cs))
      requires forall c :: 0 <= c < clients.Length ==> clients[c] == cs[c].(wsdata := -1)
      requires base == len == uses == 0 && sent == [] && chunk == [] && done == [] && |takes| == clients.Length
      requires received == seq(clients.Length, _ => []) && full == [] && chunkOf == []
      modifies this`data, this`mtu
      ensures Reached(cs, Positions, [], [], 0) && fresh(data) && data.Length == 2 * Sum(Costs(cs))
      ensures mtu == if serverMtu > 100 then serverMtu - 100 else data.Length
    {
      hide Assigned, Reached, Sum, Costs;
      data := new byte[2 * wsmax];
      mtu := serverMtu - 100;
      if mtu <= 0 {
        mtu := data.Length;
      }
      StartsOk(cs);
    }

    /** All the positions, and then all the messages. */
    method BothStages(ghost cs: seq<ClientInfo>) returns (ghost m: nat, ghost p: nat)
      requires Reached(cs, Positions, [], [], 0) && |cs| == clients.Length && sent == []
      modifies this`base, this`len, this`sent, this`uses, this`chunk, this`done, this`received, this`full, this`chunkOf, data, clients
      ensures InBuffer(sent, data.Length) && uses == Taken(sent, takes) && |received| == |cs|
      ensures Shares(sent, chunkOf, full) && AllOrdered(full)
      ensures p <= |full| && Packed(full[..p], Speeches(cs, Positions, |cs|), Needs(cs, Positions, |cs|), mtu)
      ensures Packed(full[p..], Speeches(cs, Messages, |cs|), Needs(cs, Messages, |cs|), mtu)
      ensures var all := Speeches(cs, Positions, |cs|) + Speeches(cs, Messages, |cs|);
        forall c :: 0 <= c < |cs| && !cs[c].ai ==>
          Complete(received[c], all, c) && Received(sent, data[..], c) == Bytes(received[c])
      ensures m <= |sent| && forall k :: 0 <= k < |sent| ==> sent[k].channel == ChannelOf(if k < m then Positions else Messages)
      ensures forall x :: 0 <= x < clients.Length && !Unheard(cs, x, clients.Length) ==>
        clients[x].position == [] && clients[x].messages == []
    {
      hide ChunkOk, Fits, Assigned, Speeches, AllSame, Received, Complete, Bytes, Taken, Unheard, Needs, Packed, Pack, Shares, AllOrdered;
      Stage(Positions, cs, [], []);
      m, p := |sent|, |full|;
      ghost var early := full;
      assert early[0..] == early;
      ghost var mid := clients[..];
      NextStage(cs, mid);
      NoneSpoken(mid, Messages, done);
      assert done + chunk == done;
      PackNothing(Now(), mtu);
      NoNeeds(mid, Messages);
      Stage(Messages, mid, done, full);
      assert full[..p] == early;
      AllSaid(cs, mid, clients[..]);
      assert [] + Speeches(cs, Positions, |cs|) == Speeches(cs, Positions, |cs|);
      forall c | 0 <= c < clients.Length
        ensures clients[c].ai == cs[c].ai && Received(sent, data[..], c) == Received(sent, data[..base], c)
      {
        BotsSame(cs, mid, Positions, |cs|, {}, c);
        BotsSame(mid, clients[..], Messages, |mid|, {}, c);
        ReceivedKept(sent, data[..base], data[..], base, c);
      }
    }

    /** The first loop: the pointers are cleared, and the size of everything is reckoned. */
    method Reckon() returns (wsmax: nat)
      modifies clients
      ensures wsmax == Sum(Costs(old(clients[..])))
      ensures forall c :: 0 <= c < clients.Length ==> clients[c] == old(clients[c]).(wsdata := -1)
    {
      ghost var cs := clients[..];
      wsmax := 0;
      for i := 0 to clients.Length
        invariant wsmax == Sum(Costs(cs)[..i])
        invariant forall c :: 0 <= c < clients.Length ==> clients[c] == if c < i then cs[c].(wsdata := -1) else cs[c]
      {
        assert Costs(cs)[..i + 1][..i] == Costs(cs)[..i];
        clients[i] := clients[i].(wsdata := -1);
        wsmax := wsmax + |clients[i].position|;
        if clients[i].messages != [] {
          wsmax := wsmax + 10 + |clients[i].messages|;
        }
      }
      assert Costs(cs)[..clients.Length] == Costs(cs);
    }

    lemma StartsOk(cs: seq<ClientInfo>)
      requires Assigned(cs) && |cs| == clients.Length && data.Length == 2 * Sum(Costs(cs))
      requires forall c :: 0 <= c < clients.Length ==> clients[c] == cs[c].(wsdata := -1)
      requires base == len == uses == 0 && sent == [] && chunk == [] && done == [] && |takes| == clients.Length
      requires received == seq(clients.Length, _ => [])
      requires full == [] && chunkOf == []
      ensures Reached(cs, Positions, [], [], 0)
    {
      hide Sum;
      NoShares();
      CostsKept(cs, clients[..]);
      EmptyChunk();
      forall c: nat {
        NothingYet(c);
      }
    }

    /** wsbuf.put: there is always room. */
    method PutBytes(bytes: seq<byte>)
      requires base + len + |bytes| <= data.Length
      modifies this`len, data
      ensures len == old(len) + |bytes| && data[..base] == old(data[..base])
      ensures data[base..base + len] == old(data[base..base + len]) + bytes
    {
      ghost var front, chunkBytes := data[..base], data[base..base + len];
      for k := 0 to |bytes|
        modifies data
        invariant data[..base] == front && data[base..base + len] == chunkBytes
        invariant forall n :: 0 <= n < k ==> data[base + len + n] == bytes[n]
      {
        data[base + len + k] := bytes[k];
      }
      Copied(data[..], base, chunkBytes, bytes);
      len := len + |bytes|;
    }

    method SendToAll(channel: nat, wslen: nat)
      requires base + 2 * wslen <= data.Length && Ordered(chunk) && |received| == clients.Length
      requires data[base..base + 2 * wslen] == Bytes(chunk) + Bytes(chunk) && wslen == |Bytes(chunk)|
      requires forall c :: 0 <= c < clients.Length ==> Marked(clients[c], chunk, base, c)
      requires InBuffer(sent, base) && |takes| == clients.Length && uses == Taken(sent, takes) && Shares(sent, chunkOf, full)
      requires forall c :: 0 <= c < clients.Length && !clients[c].ai ==> Received(sent, data[..base], c) == Bytes(received[c])
      modifies this`sent, this`uses, this`chunkOf
      ensures Shares(sent, chunkOf, full + [chunk])
      ensures InBuffer(sent, base + 2 * wslen) && uses == Taken(sent, takes) && SentOn(old(sent), sent, channel)
      ensures forall c :: 0 <= c < clients.Length && !clients[c].ai ==>
        Received(sent, data[..base + 2 * wslen], c) == Bytes(received[c] + Others(chunk, c))
    {
      hide Pick, Bytes, Ordered, Received, Marked, Others, Taken, SentOn, Shares, LastBefore, SentTo;
      SentNothing(sent, channel);
      SharesMore(sent, chunkOf, full, chunk);
      ghost var end := base + 2 * wslen;
      ghost var all := data[..end];
      assert all[..base] == data[..base];
      SentToStarts(clients[..], sent, all, base, received, chunk);
      for i := 0 to clients.Length
        invariant uses == Taken(sent, takes) && SentOn(old(sent), sent, channel) && SentTo(clients[..], sent, all, received, chunk, i)
        invariant Shares(sent, chunkOf, full + [chunk]) && LastBefore(sent, chunkOf, |full|, i)
      {
        var ci := clients[i];
        NextClient(sent, chunkOf, |full|, i);
        if ci.ai {
          SentToNone(clients[..], sent, all, received, chunk, i);
          continue;
        }
        var start: int, size: int := base, wslen;
        if ci.wsdata >= base {
          start := ci.wsdata + ci.wslen;
          size := size - ci.wslen;
        }
        ChunkSlice(ci, chunk, base, i, all, Bytes(chunk), start, size);
        if size <= 0 {
          SentToNone(clients[..], sent, all, received, chunk, i);
          continue;
        }
        ghost var x := Sending(i, channel, start, size);
        SentToMore(clients[..], sent, all, received, chunk, x);
        TakenMore(sent, takes, x);
        SentOneMore(old(sent), sent, x);
        OneShare(sent, chunkOf, full, chunk, x);
        chunkOf := chunkOf + [|full|];
        sent := sent + [Sending(i, channel, start, size)];
        if takes[i] {
          uses := uses + 1;
        }
      }
      SentToAllOf(clients[..], sent, all, received, chunk);
    }
  }

  /** A packet is no longer than the limit, unless its chunk is one block. */
  lemma PacketsFit(cs: seq<ClientInfo>, sent: seq<Sending>, chunkOf: seq<nat>, full: seq<seq<Block>>, p: nat, limit: int)
    requires Assigned(cs) && Shares(sent, chunkOf, full) && AllOrdered(full) && p <= |full|
    requires Packed(full[..p], Speeches(cs, Positions, |cs|), Needs(cs, Positions, |cs|), limit)
    requires Packed(full[p..], Speeches(cs, Messages, |cs|), Needs(cs, Messages, |cs|), limit)
    ensures ShortOrSingle(sent, chunkOf, full, limit)
  {
    hide Assigned, Speeches, Needs, Packed, Bytes, Others, Ordered;
    forall k | 0 <= k < |sent| ensures chunkOf[k] < |full| && (sent[k].size <= limit || |full[chunkOf[k]]| == 1) {
      var n := chunkOf[k];
      OthersFewer(full[n], sent[k].client);
      if n < p {
        NeedsEnough(cs, Positions, |cs|);
        PackedFits(full[..p], Speeches(cs, Positions, |cs|), Needs(cs, Positions, |cs|), limit, n);
      } else {
        NeedsEnough(cs, Messages, |cs|);
        PackedFits(full[p..], Speeches(cs, Messages, |cs|), Needs(cs, Messages, |cs|), limit, n - p);
      }
    }
  }

  lemma NoneTooLong(limit: int)
    ensures ShortOrSingle([], [], [], limit)
  {
  }

  lemma NonePacked(cs: seq<ClientInfo>, limit: int)
    requires Assigned(cs) && Speeches(cs, Positions, |cs|) + Speeches(cs, Messages, |cs|) == []
    ensures Packed([], Speeches(cs, Positions, |cs|), Needs(cs, Positions, |cs|), limit)
    ensures Packed([], Speeches(cs, Messages, |cs|), Needs(cs, Messages, |cs|), limit)
  {
    hide Assigned, Speeches, Packed;
    PackedNothing(limit);
    assert Speeches(cs, Positions, |cs|) == [] && Speeches(cs, Messages, |cs|) == [];
    assert Needs(cs, Positions, |cs|) == [] && Needs(cs, Messages, |cs|) == [];
  }

  lemma NoNeeds(cs: seq<ClientInfo>, kind: Kind)
    requires Assigned(cs)
    ensures Speeches(cs, kind, 0) == [] && Needs(cs, kind, 0) == []
  {
  }

  /** The chunk has gone out to the clients before i. */
  ghost predicate SentTo(cs: seq<ClientInfo>, sent: seq<Sending>, data: seq<byte>, received: seq<seq<Block>>, chunk: seq<Block>, i: nat) {
    && InBuffer(sent, |data|) && |received| == |cs|
    && forall c :: 0 <= c < |cs| && !cs[c].ai ==>
      Received(sent, data, c) == Bytes(received[c]) + if c < i then Bytes(Others(chunk, c)) else []
  }

  lemma SentToMore(cs: seq<ClientInfo>, sent: seq<Sending>, data: seq<byte>, received: seq<seq<Block>>, chunk: seq<Block>, x: Sending)
    requires SentTo(cs, sent, data, received, chunk, x.client) && x.client < |cs| && 0 < x.size && x.start + x.size <= |data|
    requires data[x.start..x.start + x.size] == Bytes(Others(chunk, x.client))
    ensures SentTo(cs, sent + [x], data, received, chunk, x.client + 1)
  {
    hide Received, Bytes, Others;
    forall c | 0 <= c < |cs| && !cs[c].ai
      ensures InBuffer(sent + [x], |data|)
      ensures Received(sent + [x], data, c) == Bytes(received[c]) + if c < x.client + 1 then Bytes(Others(chunk, c)) else []
    {
      ReceivedMore(sent, x, data, c);
    }
    ReceivedMore(sent, x, data, x.client);
  }

  lemma SentToNone(cs: seq<ClientInfo>, sent: seq<Sending>, data: seq<byte>, received: seq<seq<Block>>, chunk: seq<Block>, i: nat)
    requires SentTo(cs, sent, data, received, chunk, i) && i < |cs| && (cs[i].ai || Bytes(Others(chunk, i)) == [])
    ensures SentTo(cs, sent, data, received, chunk, i + 1)
  {
    hide Received, Bytes, Others, InBuffer;
  }

  lemma SentToStarts(cs: seq<ClientInfo>, sent: seq<Sending>, data: seq<byte>, base: nat, received: seq<seq<Block>>, chunk: seq<Block>)
    requires base <= |data| && InBuffer(sent, base) && |received| == |cs|
    requires forall c :: 0 <= c < |cs| && !cs[c].ai ==> Received(sent, data[..base], c) == Bytes(received[c])
    ensures SentTo(cs, sent, data, received, chunk, 0)
  {
    hide Received, Bytes, Others;
    forall c | 0 <= c < |cs| {
      ReceivedKept(sent, data[..base], data, base, c);
    }
  }

  lemma SentToAllOf(cs: seq<ClientInfo>, sent: seq<Sending>, data: seq<byte>, received: seq<seq<Block>>, chunk: seq<Block>)
    requires SentTo(cs, sent, data, received, chunk, |cs|)
    ensures InBuffer(sent, |data|) && |received| == |cs|
    ensures forall c :: 0 <= c < |cs| && !cs[c].ai ==> Received(sent, data, c) == Bytes(received[c] + Others(chunk, c))
  {
    hide Received, Bytes, Others, InBuffer;
    forall c | 0 <= c < |cs| {
      BytesJoin(received[c], Others(chunk, c));
    }
  }

  /** The bytes that a client's pointer and length select are those of the others' blocks. */
  lemma ChunkSlice(ci: ClientInfo, chunk: seq<Block>, base: nat, c: nat, data: seq<byte>, bytes: seq<byte>, start: int, size: int)
    requires Marked(ci, chunk, base, c) && Ordered(chunk) && bytes == Bytes(chunk)
    requires base + 2 * |bytes| <= |data| && data[base..base + 2 * |bytes|] == bytes + bytes
    requires if ci.wsdata >= base then start == ci.wsdata + ci.wslen && size == |bytes| - ci.wslen else start == base && size == |bytes|
    ensures 0 <= size && base <= start && start + size <= base + 2 * |bytes|
    ensures data[start..start + size] == Bytes(Others(chunk, c))
  {
    hide Pick, Ordered, Bytes;
    var doubled := data[base..base + 2 * |bytes|];
    if Pick(chunk, c, Mine) == [] {
      assert doubled[..|bytes|] == bytes;
      SliceOfSlice(data, base, base + 2 * |bytes|, 0, |bytes|);
    } else {
      Rotated(chunk, c);
      SliceOfSlice(data, base, base + 2 * |bytes|, start - base, start - base + size);
    }
  }

  /** What stands behind the bytes of a chunk joins them. */
  lemma Copied(s: seq<byte>, base: nat, bytes: seq<byte>, more: seq<byte>)
    requires base + |bytes| + |more| <= |s| && s[base..base + |bytes|] == bytes
    requires forall n :: 0 <= n < |more| ==> s[base + |bytes| + n] == more[n]
    ensures s[base..base + |bytes| + |more|] == bytes + more
  {
    var b := base + |bytes|;
    assert s[b..b + |more|] == more;
    assert s[base..b + |more|] == s[base..b] + s[b..b + |more|];
  }

  lemma SliceOfSlice(s: seq<byte>, a: nat, b: nat, i: nat, j: nat)
    requires a <= b <= |s| && i <= j <= b - a
    ensures s[a..b][i..j] == s[a + i..a + j]
  {
    assert forall k :: 0 <= k < j - i ==> s[a..b][i..j][k] == s[a + i..a + j][k];
  }

  lemma Unmarked(ci: ClientInfo, chunk: seq<Block>, base: nat, end: nat, c: nat)
    requires Marked(ci, chunk, base, c) && Ordered(chunk) && end == base + 2 * |Bytes(chunk)| && Filled(chunk)
    ensures chunk != [] ==> Marked(ci, [], end, c)
  {
    hide Ordered, Bytes;
    Rotated(chunk, c);
    FilledBytes(chunk);
    if Pick(chunk, c, Mine) != [] {
      PickFilled(chunk, c, Mine);
      FilledBytes(Pick(chunk, c, Mine));
    }
  }

  lemma MoreBlocks(chunk: seq<Block>, x: Block)
    requires Ordered(chunk) && Filled(chunk) && x.data != [] && forall k :: 0 <= k < |chunk| ==> chunk[k].owner <= x.owner
    ensures Ordered(chunk + [x]) && Filled(chunk + [x]) && Bytes(chunk + [x]) == Bytes(chunk) + x.data
  {
    hide Bytes;
    BytesJoin(chunk, [x]);
    BytesOne(x);
  }

  /** The marks after a block of the last client. */
  lemma StillMarked(ci: ClientInfo, ci': ClientInfo, chunk: seq<Block>, x: Block, base: nat, c: nat)
    requires Marked(ci, chunk, base, c) && Ordered(chunk) && Filled(chunk) && forall k :: 0 <= k < |chunk| ==> chunk[k].owner <= x.owner
    requires if c != x.owner then ci' == ci
             else if ci.wsdata < base then ci' == ci.(wsdata := base + |Bytes(chunk)|, wslen := |x.data|)
             else ci' == ci.(wslen := ci.wslen + |x.data|)
    ensures Marked(ci', chunk + [x], base, c)
  {
    hide *;
    Adds(chunk, x, c);
    MarkedMoves(ci, ci', chunk, x, base, c);
  }

  lemma MarkedMoves(ci: ClientInfo, ci': ClientInfo, chunk: seq<Block>, x: Block, base: nat, c: nat)
    requires Marked(ci, chunk, base, c)
    requires if c != x.owner then ci' == ci
             else if ci.wsdata < base then ci' == ci.(wsdata := base + |Bytes(chunk)|, wslen := |x.data|)
             else ci' == ci.(wslen := ci.wslen + |x.data|)
    requires Added(chunk, x, c)
    ensures Marked(ci', chunk + [x], base, c)
  {
    hide Bytes, Pick;
    if c == x.owner {
      BytesJoin(Pick(chunk, c, Mine), [x]);
      BytesOne(x);
      EmptyChunk();
    }
  }

  /** What a block of the last client adds to the parts of the chunk. */
  ghost predicate Added(chunk: seq<Block>, x: Block, c: nat) {
    && (c < x.owner ==> Pick(chunk + [x], c, Before) == Pick(chunk, c, Before) && Pick(chunk + [x], c, Mine) == Pick(chunk, c, Mine))
    && (c > x.owner ==> Pick(chunk + [x], c, Mine) == Pick(chunk, c, Mine) == [])
    && (c == x.owner ==> Pick(chunk + [x], c, Before) == Pick(chunk, c, Before) && Pick(chunk + [x], c, Mine) == Pick(chunk, c, Mine) + [x]
                         && |Bytes(chunk)| == |Bytes(Pick(chunk, c, Before))| + |Bytes(Pick(chunk, c, Mine))|)
  }

  lemma Adds(chunk: seq<Block>, x: Block, c: nat)
    requires Ordered(chunk) && forall k :: 0 <= k < |chunk| ==> chunk[k].owner <= x.owner
    ensures Added(chunk, x, c)
  {
    hide Ordered, Bytes, Pick;
    PickJoin(chunk, [x], c, Before);
    PickJoin(chunk, [x], c, Mine);
    PickOne(x, c);
    NoneLater(chunk, x.owner, c);
    if c == x.owner {
      Split(chunk, c);
      assert chunk == Pick(chunk, c, Before) + Pick(chunk, c, Mine);
      BytesJoin(Pick(chunk, c, Before), Pick(chunk, c, Mine));
    }
  }

  lemma PickOne(x: Block, c: nat)
    ensures Pick([x], c, Before) == if x.owner < c then [x] else []
    ensures Pick([x], c, Mine) == if x.owner == c then [x] else []
  {
    assert [x][..0] == [];
  }

  lemma BytesOne(x: Block)
    ensures Bytes([x]) == x.data
  {
    assert [x][..0] == [];
  }

  lemma EmptyChunk()
    ensures Bytes([]) == [] && Ordered([]) && Filled([])
  {
  }
}

/** The lifetime of the broadcast buffers: each is freed when the last packet that shares it is. */
module WorldStateLifetime {
  import opened Sums
  import opened WorldStateBroadcast

  /** The buffer at addresses start..start + len, and the number of packets that share it. */
  datatype WorldState = WorldState(uses: int, start: nat, len: nat) {
    predicate Contains(p: nat) { start <= p < start + len }
  }

  /** Where the data begins of the packets that connections took, out of a buffer at address a. */
  function Addresses(sent: seq<Sending>, takes: seq<bool>, a: nat): seq<nat> {
    if sent == [] then []
    else
      var x := sent[|sent| - 1];
      Addresses(sent[..|sent| - 1], takes, a) + if x.client < |takes| && takes[x.client] then [a + x.start] else []
  }

  /** The packets that a broadcast hands out share its buffer, and are as many as it counted. */
  lemma {:induction false} HandedOut(sent: seq<Sending>, takes: seq<bool>, a: nat, x: WorldState)
    requires InBuffer(sent, x.len) && x.start == a
    ensures |Addresses(sent, takes, a)| == Taken(sent, takes)
    ensures forall k :: 0 <= k < |Addresses(sent, takes, a)| ==> x.Contains(Addresses(sent, takes, a)[k])
  {
    if sent != [] {
      HandedOut(sent[..|sent| - 1], takes, a, x);
    }
  }

  /** How many of the live packets have their data in the buffer. */
  function Sharing(live: seq<nat>, ws: WorldState): nat {
    if live == [] then 0 else Sharing(live[..|live| - 1], ws) + if ws.Contains(live[|live| - 1]) then 1 else 0
  }

  function Without(live: seq<nat>, k: nat): seq<nat>
    requires k < |live|
  {
    live[..k] + live[k + 1..]
  }

  lemma {:induction false} SharingWithout(live: seq<nat>, ws: WorldState, k: nat)
    requires k < |live|
    ensures Sharing(Without(live, k), ws) == Sharing(live, ws) - if ws.Contains(live[k]) then 1 else 0
    decreases |live|
  {
    var n := |live| - 1;
    if k < n {
      SharingWithout(live[..n], ws, k);
      assert (live[..k] + live[k + 1..])[..n - 1] == live[..n][..k] + live[..n][k + 1..];
    } else {
      assert live[..k] + live[k + 1..] == live[..n];
    }
  }

  lemma {:induction false} SharingJoin(a: seq<nat>, b: seq<nat>, ws: WorldState)
    ensures Sharing(a + b, ws) == Sharing(a, ws) + Sharing(b, ws)
    decreases |b|
  {
    if b == [] {
      assert a + b == a;
    } else {
      SharingJoin(a, b[..|b| - 1], ws);
      assert (a + b)[..|a + b| - 1] == a + b[..|b| - 1];
    }
  }

  lemma {:induction false} SharingSome(live: seq<nat>, ws: WorldState)
    ensures Sharing(live, ws) > 0 <==> exists k :: 0 <= k < |live| && ws.Contains(live[k])
  {
    if live != [] {
      var n := |live| - 1;
      SharingSome(live[..n], ws);
      if k :| 0 <= k < n && ws.Contains(live[..n][k]) {
        assert ws.Contains(live[k]);
      }
    }
  }

  lemma {:induction false} SharingAll(live: seq<nat>, ws: WorldState)
    ensures (forall k :: 0 <= k < |live| ==> ws.Contains(live[k])) ==> Sharing(live, ws) == |live|
    ensures (forall k :: 0 <= k < |live| ==> !ws.Contains(live[k])) ==> Sharing(live, ws) == 0
  {
    if live != [] {
      SharingAll(live[..|live| - 1], ws);
    }
  }

  ghost predicate Apart(a: WorldState, b: WorldState) {
    a.start + a.len <= b.start || b.start + b.len <= a.start
  }

  /** Each buffer counts its packets and has some, no two buffers overlap, and every live packet shares one. */
  ghost predicate Books(ws: seq<WorldState>, live: seq<nat>) {
    && (forall i :: 0 <= i < |ws| ==> ws[i].uses == Sharing(live, ws[i]) > 0)
    && (forall i, j :: 0 <= i < |ws| && 0 <= j < |ws| && i != j ==> Apart(ws[i], ws[j]))
    && forall k :: 0 <= k < |live| ==> Held(ws, live[k])
  }

  ghost predicate Held(ws: seq<WorldState>, p: nat) {
    exists i :: 0 <= i < |ws| && ws[i].Contains(p)
  }

  /** No other buffer contains the address. */
  lemma Alone(ws: seq<WorldState>, n: nat, p: nat)
    requires n < |ws| && ws[n].Contains(p) && forall i :: 0 <= i < |ws| && i != n ==> Apart(ws[i], ws[n])
    ensures forall i :: 0 <= i < |ws| && i != n ==> !ws[i].Contains(p)
  {
  }

  lemma {:induction false} SameRange(live: seq<nat>, a: WorldState, b: WorldState)
    requires a.start == b.start && a.len == b.len
    ensures Sharing(live, a) == Sharing(live, b)
  {
    if live != [] {
      SameRange(live[..|live| - 1], a, b);
    }
  }

  lemma WithoutFrom(live: seq<nat>, k: nat, j: nat)
    requires k < |live| && j < |live| - 1
    ensures Without(live, k)[j] == live[if j < k then j else j + 1]
  {
  }

  /** The packet is freed and others still share its buffer. */
  lemma StillShared(ws: seq<WorldState>, live: seq<nat>, k: nat, n: nat)
    requires Books(ws, live) && k < |live| && n < |ws| && ws[n].Contains(live[k]) && ws[n].uses > 1
    ensures Books(ws[n := ws[n].(uses := ws[n].uses - 1)], Without(live, k))
  {
    hide Sharing, Without;
    var x, rest := ws[n].(uses := ws[n].uses - 1), Without(live, k);
    var next := ws[n := x];
    Alone(ws, n, live[k]);
    SameRange(rest, ws[n], x);
    forall i | 0 <= i < |ws| ensures Sharing(rest, ws[i]) == Sharing(live, ws[i]) - if i == n then 1 else 0 {
      SharingWithout(live, ws[i], k);
    }
    WithoutLength(live, k);
    forall j | 0 <= j < |rest| ensures Held(next, rest[j]) {
      WithoutFrom(live, k, j);
      var i :| 0 <= i < |ws| && ws[i].Contains(rest[j]);
      assert next[i].Contains(rest[j]);
    }
  }

  lemma WithoutLength(live: seq<nat>, k: nat)
    requires k < |live|
    ensures |Without(live, k)| == |live| - 1
  {
  }

  /** removeunordered: the last entry takes the place of the one that goes. */
  function RemoveUnordered(ws: seq<WorldState>, n: nat): (next: seq<WorldState>)
    requires n < |ws|
    ensures |next| == |ws| - 1
    ensures forall i :: 0 <= i < |next| ==> next[i] == if i == n then ws[|ws| - 1] else ws[i]
  {
    var end := |ws| - 1;
    if n < end then ws[..end][n := ws[end]] else ws[..end]
  }

  /** The last packet of a buffer is freed, and the buffer with it. */
  lemma LastReleased(ws: seq<WorldState>, live: seq<nat>, k: nat, n: nat)
    requires Books(ws, live) && k < |live| && n < |ws| && ws[n].Contains(live[k]) && ws[n].uses <= 1
    ensures Books(RemoveUnordered(ws, n), Without(live, k)) && Sharing(Without(live, k), ws[n]) == 0
  {
    hide Sharing, Without, RemoveUnordered;
    var rest, next := Without(live, k), RemoveUnordered(ws, n);
    Alone(ws, n, live[k]);
    forall i | 0 <= i < |ws| ensures Sharing(rest, ws[i]) == Sharing(live, ws[i]) - if i == n then 1 else 0 {
      SharingWithout(live, ws[i], k);
    }
    WithoutLength(live, k);
    SharingSome(rest, ws[n]);
    forall j | 0 <= j < |rest| ensures Held(next, rest[j]) {
      WithoutFrom(live, k, j);
      assert !ws[n].Contains(rest[j]);
      var i :| 0 <= i < |ws| && ws[i].Contains(rest[j]);
      assert next[if i == |ws| - 1 then n else i].Contains(rest[j]);
    }
  }

  /** A new buffer apart from the others, with all its packets. */
  lemma Kept(ws: seq<WorldState>, live: seq<nat>, x: WorldState, packets: seq<nat>)
    requires Books(ws, live) && forall k :: 0 <= k < |packets| ==> x.Contains(packets[k])
    requires x.uses == |packets| && forall i :: 0 <= i < |ws| ==> Apart(ws[i], x)
    ensures x.uses > 0 ==> Books(ws + [x], live + packets)
    ensures x.uses == 0 ==> live + packets == live
  {
    hide Sharing;
    var next, all := ws + [x], live + packets;
    forall i | 0 <= i < |ws| ensures Sharing(all, ws[i]) == Sharing(live, ws[i]) {
      SharingJoin(live, packets, ws[i]);
      SharingAll(packets, ws[i]);
    }
    forall k | 0 <= k < |live| ensures !x.Contains(live[k]) && Held(next, live[k]) {
      assert Held(ws, live[k]);
      var i :| 0 <= i < |ws| && ws[i].Contains(live[k]);
      assert next[i].Contains(live[k]);
    }
    SharingJoin(live, packets, x);
    SharingAll(live, x);
    SharingAll(packets, x);
    forall k | 0 <= k < |all| ensures Held(next, all[k]) {
      if k >= |live| {
        assert next[|ws|].Contains(all[k]);
      }
    }
  }

  lemma NoneHandedOut(takes: seq<bool>, a: nat)
    ensures Addresses([], takes, a) == []
  {
  }

  class WorldStates {
    var worldstates: seq<WorldState>
    // where the data of the packets that are not freed yet begins
    ghost var live: seq<nat>

    constructor ()
      ensures Books(worldstates, live) && worldstates == [] && live == []
    {
      worldstates, live := [], [];
    }

    /** buildworldstate keeps the buffer of a tick if any packet shares it. */
    method Keep(ws: WorldState, ghost packets: seq<nat>)
      requires Books(worldstates, live) && ws.uses == |packets| && forall k :: 0 <= k < |packets| ==> ws.Contains(packets[k])
      requires forall i :: 0 <= i < |worldstates| ==> Apart(worldstates[i], ws)
      modifies this
      ensures Books(worldstates, live) && live == old(live) + packets
      ensures worldstates == if ws.uses > 0 then old(worldstates) + [ws] else old(worldstates)
    {
      hide Books;
      Kept(worldstates, live, ws, packets);
      live := live + packets;
      if ws.uses > 0 {
        worldstates := worldstates + [ws];
      }
    }

    /** buildworldstate as a whole, with its buffer at address a: what is broadcast is kept until the last
        connection has freed it. */
    method Tick(b: Broadcast, serverMtu: int, taking: seq<bool>, a: nat) returns (flush: bool)
      requires Books(worldstates, live) && Assigned(b.clients[..]) && |taking| == b.clients.Length
      requires forall i :: 0 <= i < |worldstates| ==> Apart(worldstates[i], WorldState(0, a, 2 * Sum(Costs(b.clients[..]))))
      modifies this, b, b.clients
      ensures Books(worldstates, live) && live == old(live) + Addresses(b.sent, taking, a)
      ensures flush <==> Addresses(b.sent, taking, a) != []
      ensures worldstates == if flush then old(worldstates) + [WorldState(b.uses, a, b.data.Length)] else old(worldstates)
    {
      hide Books, Sum, Costs, Assigned, Addresses, Taken;
      ghost var cost := Sum(Costs(b.clients[..]));
      ghost var m, p;
      flush, m, p := b.Build(serverMtu, taking);
      var x := WorldState(b.uses, a, b.data.Length);
      HandedOut(b.sent, taking, a, x);
      if b.sent == [] {
        NoneHandedOut(taking, a);
        assert live + [] == live;
      } else {
        Keep(x, Addresses(b.sent, taking, a));
      }
    }

    /** cleanworldstate, when the k-th live packet is freed: its buffer is freed with it just when no
        other packet shares it. */
    method Clean(data: nat, ghost k: nat) returns (freed: bool, ghost n: nat)
      requires Books(worldstates, live) && k < |live| && live[k] == data
      modifies this
      ensures Books(worldstates, live) && live == Without(old(live), k)
      ensures n < |old(worldstates)| && old(worldstates)[n].Contains(data)
      ensures freed <==> Sharing(live, old(worldstates)[n]) == 0
      ensures worldstates == var was := old(worldstates);
        if freed then RemoveUnordered(was, n) else was[n := was[n].(uses := was[n].uses - 1)]
    {
      hide Sharing, Without, RemoveUnordered;
      assert Held(worldstates, live[k]);
      var i := 0;
      while i < |worldstates| && !worldstates[i].Contains(data)
        invariant 0 <= i <= |worldstates| && forall j :: 0 <= j < i ==> !worldstates[j].Contains(data)
      {
        i := i + 1;
      }
      n := i;
      var ws := worldstates[i];
      ws := ws.(uses := ws.uses - 1);
      SharingWithout(live, worldstates[i], k);
      live := Without(live, k);
      freed := ws.uses <= 0;
      if freed {
        LastReleased(worldstates, old(live), k, i);
        worldstates := RemoveUnordered(worldstates, i);
      } else {
        StillShared(worldstates, old(live), k, i);
        worldstates := worldstates[i := ws];
      }
    }
  }
}
