// Reading transfer blocks of the network control model, test/ncm.py: the header, the
// chain of datagram pointer tables, and blocks back to back.
module NtbParser {
  import opened Bytes

  // Python's outcome: a value, an exception, or a loop that never ends.
  datatype Result<T> = Ok(value: T) | Raises | Hangs

  // The datagrams of every pointer table, in the order of the chain.
  type Tables = seq<seq<seq<Byte>>>

  datatype Block = Block(tables: Tables, length: nat)

  const NTH_SIG: seq<Byte> := [0x4E, 0x43, 0x4D, 0x48]
  const NDP_SIG: seq<Byte> := [0x4E, 0x43, 0x4D]
  const NTH_LEN := 12
  const NDP_MAX := 100

  // A slice s[a:b], which clips its bounds.
  function Slice(s: seq<Byte>, a: nat, b: nat): seq<Byte> {
    if a >= |s| || a >= b then [] else if b >= |s| then s[a..] else s[a..b]
  }

  // ---- what is read ---------------------------------------------------------------------

  predicate NdpHeaderOk(l: seq<Byte>) {
    |l| >= 6 && l[..3] == NDP_SIG && (l[3] == 0x30 || l[3] == 0x31) && 0 < Get16(l, 4) <= NDP_MAX
  }

  // The table's own bytes.
  function ReadNdp(l: seq<Byte>): Result<seq<Byte>> {
    if NdpHeaderOk(l) then Ok(Slice(l, 0, Get16(l, 4))) else Raises
  }

  // How much longer a table is with `n` datagrams attached: four zeros for each after
  // the first.
  function Growth(n: nat): nat {
    if n == 0 then 0 else 4 * (n - 1)
  }

  function ByteAt(bv: seq<Byte>, k: nat): Byte {
    if k < |bv| then bv[k] else 0
  }

  // A 16 bit field once `n` datagrams are attached.
  function Field(bv: seq<Byte>, n: nat, off: nat): Option<nat> {
    if off + 1 < |bv| + Growth(n) then Some(Word(ByteAt(bv, off), ByteAt(bv, off + 1))) else None
  }

  // The datagrams from entry `n` on, up to an index of zero.
  function ReadDgrams(l: seq<Byte>, bv: seq<Byte>, n: nat): Result<seq<seq<Byte>>>
    decreases |bv| - 4 * n
  {
    match Field(bv, n, 8 + 4 * n)
    case None => Raises
    case Some(b) =>
      if b == 0 then Ok([])
      else match Field(bv, n, 10 + 4 * n)
           case None => Raises
           case Some(size) =>
             var d := Slice(l, b, b + size);
             if d == [] then Raises
             else match ReadDgrams(l, bv, n + 1)
                  case Ok(rest) => Ok([d] + rest)
                  case other => other
  }

  predicate IsOffset(b: nat) {
    b < 65536
  }

  function AllOffsets(): set<nat> {
    set b: nat | 0 <= b < 65536 && IsOffset(b)
  }

  // The tables from offset `b` on, `left` being the offsets not met so far.
  function ReadChain(l: seq<Byte>, b: nat, e: nat, left: set<nat>): Result<Tables>
    decreases left
  {
    if b == 0 then Ok([])
    else if b !in left then Hangs
    else match ReadNdp(Slice(l, b, e))
         case Ok(bv) => (
           match ReadDgrams(l, bv, 0)
           case Ok(ds) => (
             if |bv| < 8 then Raises
             else match ReadChain(l, Get16(bv, 6), e, left - {b})
                  case Ok(rest) => Ok([ds] + rest)
                  case other => other)
           case Raises => Raises
           case Hangs => Hangs)
         case _ => Raises
  }

  function ReadBlock(l: seq<Byte>): Result<Block> {
    if |l| < NTH_LEN || l[..4] != NTH_SIG || Get16(l, 4) != NTH_LEN then Raises
    else match ReadChain(l, Get16(l, 10), Get16(l, 8), AllOffsets())
         case Ok(tables) => Ok(Block(tables, Get16(l, 8)))
         case Raises => Raises
         case Hangs => Hangs
  }

  function From(l: seq<Byte>, b: nat): seq<Byte> {
    if b >= |l| then [] else l[b..]
  }

  // All tables of blocks that follow each other.
  function ReadBlocks(l: seq<Byte>): Result<Tables>
    decreases |l|
  {
    if l == [] then Ok([])
    else match ReadBlock(l)
         case Ok(block) => (
           if block.length == 0 then Hangs
           else match ReadBlocks(From(l, block.length))
                case Ok(rest) => Ok(block.tables + rest)
                case other => other)
         case Raises => Raises
         case Hangs => Hangs
  }

  // ---- how it is read ----------------------------------------------------------------------

  function Prepend<T>(done: seq<T>, rest: Result<seq<T>>): Result<seq<T>> {
    match rest
    case Ok(v) => Ok(done + v)
    case other => other
  }

  lemma PrependNext<T>(done: seq<T>, x: T, rest: Result<seq<T>>)
    ensures Prepend(done + [x], rest) == Prepend(done, Prepend([x], rest))
  {
    if rest.Ok? {
      assert done + [x] + rest.value == done + ([x] + rest.value);
    }
  }

  // `ndp` is the table with `n` datagrams attached; only the length field differs.
  predicate Attached(ndp: seq<Byte>, bv: seq<Byte>, n: nat) {
    |ndp| == |bv| + Growth(n) && forall k :: 6 <= k < |ndp| ==> ndp[k] == ByteAt(bv, k)
  }

  method Attach(ndp: seq<Byte>, ghost bv: seq<Byte>, n: nat) returns (r: seq<Byte>)
    requires Attached(ndp, bv, n) && |bv| >= 6
    ensures Attached(r, bv, n + 1)
  {
    r := ndp;
    if n != 0 {
      r := r + [0, 0, 0, 0];
    }
    r := Set16(r, 4, |r|);
  }

  lemma FieldOf(ndp: seq<Byte>, bv: seq<Byte>, n: nat, off: nat)
    requires Attached(ndp, bv, n) && off >= 6
    ensures Field(bv, n, off) == if off + 1 < |ndp| then Some(Get16(ndp, off)) else None
  {
  }

  lemma ReadDgramsStep(l: seq<Byte>, bv: seq<Byte>, n: nat, b: nat)
    requires Field(bv, n, 8 + 4 * n) == Some(b)
    ensures ReadDgrams(l, bv, n) ==
            if b == 0 then Ok([])
            else match Field(bv, n, 10 + 4 * n)
                 case None => Raises
                 case Some(size) =>
                   var d := Slice(l, b, b + size);
                   if d == [] then Raises else Prepend([d], ReadDgrams(l, bv, n + 1))
  {
  }

  // The inner loop, on a table that grows as datagrams are attached to it.
  method ParseDgrams(l: seq<Byte>, bv: seq<Byte>) returns (r: Result<seq<seq<Byte>>>, ndp: seq<Byte>)
    requires |bv| >= 6
    ensures r == ReadDgrams(l, bv, 0)
    ensures |ndp| >= |bv| && ndp[6..|bv|] == bv[6..]
    ensures r.Ok? ==> |bv| >= 10
  {
    hide Field, Attached, Slice, Get16;
    ndp := bv;
    var dgs: seq<seq<Byte>> := [];
    var idx := 0;
    AttachedStart(bv);
    FieldOf(ndp, bv, 0, 8);
    if 8 + 1 >= |ndp| {
      return Raises, ndp;
    }
    var b := Get16(ndp, 8);
    PrependNone(ReadDgrams(l, bv, 0));
    hide ReadDgrams;
    while b > 0
      invariant Attached(ndp, bv, idx) && |bv| >= 10
      invariant Field(bv, idx, 8 + 4 * idx) == Some(b)
      invariant ReadDgrams(l, bv, 0) == Prepend(dgs, ReadDgrams(l, bv, idx))
      decreases |bv| - 4 * idx
    {
      ReadDgramsStep(l, bv, idx, b);
      FieldOf(ndp, bv, idx, 10 + 4 * idx);
      AttachedTail(ndp, bv, idx);
      EntryInside(bv, idx, b);
      if 10 + 4 * idx + 1 >= |ndp| {
        return Raises, ndp;
      }
      var size := Get16(ndp, 10 + 4 * idx);
      var d := Slice(l, b, b + size);
      if d == [] {
        return Raises, ndp;
      }
      ndp := Attach(ndp, bv, idx);
      PrependNext(dgs, d, ReadDgrams(l, bv, idx + 1));
      dgs := dgs + [d];
      idx := idx + 1;
      FieldOf(ndp, bv, idx, 8 + 4 * idx);
      AttachedTail(ndp, bv, idx);
      ReadDgramsNone(l, bv, idx);
      if 8 + 4 * idx + 1 >= |ndp| {
        return Raises, ndp;
      }
      b := Get16(ndp, 8 + 4 * idx);
    }
    ReadDgramsStep(l, bv, idx, 0);
    AttachedTail(ndp, bv, idx);
    assert dgs + [] == dgs;
    r := Ok(dgs);
  }

  lemma AttachedStart(bv: seq<Byte>)
    ensures Attached(bv, bv, 0)
  {
  }

  lemma AttachedTail(ndp: seq<Byte>, bv: seq<Byte>, n: nat)
    requires Attached(ndp, bv, n) && |bv| >= 6
    ensures |ndp| >= |bv| && ndp[6..|bv|] == bv[6..]
  {
  }

  // Beyond the table's own bytes there are only zeros.
  lemma EntryInside(bv: seq<Byte>, n: nat, b: nat)
    requires Field(bv, n, 8 + 4 * n) == Some(b) && b > 0
    ensures 8 + 4 * n < |bv|
  {
  }

  lemma ReadDgramsNone(l: seq<Byte>, bv: seq<Byte>, n: nat)
    ensures Field(bv, n, 8 + 4 * n) == None ==> ReadDgrams(l, bv, n) == Raises
  {
  }

  lemma PrependNone<T>(rest: Result<seq<T>>)
    ensures Prepend([], rest) == rest
  {
    if rest.Ok? {
      assert [] + rest.value == rest.value;
    }
  }

  lemma ReadChainStep(l: seq<Byte>, b: nat, e: nat, left: set<nat>, bv: seq<Byte>)
    requires b != 0 && b in left && ReadNdp(Slice(l, b, e)) == Ok(bv)
    ensures ReadChain(l, b, e, left) == match ReadDgrams(l, bv, 0)
                                        case Raises => Raises
                                        case Hangs => Hangs
                                        case Ok(ds) => if |bv| < 8 then Raises
                                                       else Prepend([ds], ReadChain(l, Get16(bv, 6), e, left - {b}))
  {
  }

  // The chain loop.  `left` is not in the original; ChainHangsIff in NtbHangs shows that
  // the result is Hangs if and only if the loop without it never ends.
  method ParseChain(l: seq<Byte>, first: nat, e: nat) returns (r: Result<Tables>)
    ensures r == ReadChain(l, first, e, AllOffsets())
  {
    hide ReadDgrams, AllOffsets, ReadNdp, NdpHeaderOk;
    var b := first;
    var tables: Tables := [];
    var left := AllOffsets();
    PrependNone(ReadChain(l, first, e, left));
    while b != 0
      invariant ReadChain(l, first, e, AllOffsets()) == Prepend(tables, ReadChain(l, b, e, left))
      decreases left
    {
      if b !in left {
        return Hangs;
      }
      var bv := ParseNdp(Slice(l, b, e));
      if bv.Raises? {
        return Raises;
      }
      ReadChainStep(l, b, e, left, bv.value);
      hide ReadChain;
      var ds, next := ParseTable(l, bv.value);
      match ds {
        case Hangs => return Hangs;
        case Raises => return Raises;
        case Ok(v) =>
          PrependNext(tables, v, ReadChain(l, next, e, left - {b}));
          tables := tables + [v];
          left := left - {b};
          b := next;
      }
    }
    assert tables + [] == tables;
    r := Ok(tables);
  }

  // A table's header.
  method ParseNdp(l: seq<Byte>) returns (r: Result<seq<Byte>>)
    ensures r == ReadNdp(l) && !r.Hangs? && (r.Ok? ==> r.value != [])
  {
    if !NdpHeaderOk(l) {
      return Raises;
    }
    r := Ok(Slice(l, 0, Get16(l, 4)));
  }

  // A table's datagrams, and its link.
  method ParseTable(l: seq<Byte>, bv: seq<Byte>) returns (ds: Result<seq<seq<Byte>>>, next: nat)
    ensures ds == ReadDgrams(l, bv, 0)
    ensures ds.Ok? ==> |bv| >= 8 && next == Get16(bv, 6)
  {
    next := 0;
    if |bv| < 10 {
      return Raises, 0;
    }
    var ndp;
    ds, ndp := ParseDgrams(l, bv);
    if ds.Ok? {
      next := Get16(ndp, 6);
      assert ndp[6..|bv|][0] == bv[6..][0] && ndp[6..|bv|][1] == bv[6..][1];
    }
  }

  // One block: the constructor of a transfer block from bytes.
  method ParseBlock(l: seq<Byte>) returns (r: Result<Block>)
    ensures r == ReadBlock(l)
  {
    if |l| < NTH_LEN || l[..4] != NTH_SIG || Get16(l, 4) != NTH_LEN {
      return Raises;
    }
    var tables := ParseChain(l, Get16(l, 10), Get16(l, 8));
    match tables {
      case Ok(ts) => r := Ok(Block(ts, Get16(l, 8)));
      case Raises => r := Raises;
      case Hangs => r := Hangs;
    }
  }

  lemma ReadBlocksStep(l: seq<Byte>)
    requires l != []
    ensures ReadBlocks(l) == match ReadBlock(l)
                             case Raises => Raises
                             case Hangs => Hangs
                             case Ok(block) => if block.length == 0 then Hangs
                                               else Prepend(block.tables, ReadBlocks(From(l, block.length)))
  {
  }

  // The block loop of the comparison with received data.
  method ParseBlocks(l: seq<Byte>) returns (r: Result<Tables>)
    ensures r == ReadBlocks(l)
  {
    hide ReadBlock;
    var b := 0;
    var all: Tables := [];
    PrependNone(ReadBlocks(l));
    assert l[0..] == l && ReadBlocks([]) == Ok([]);
    hide ReadBlocks;
    while b < |l|
      invariant ReadBlocks(l) == Prepend(all, ReadBlocks(From(l, b)))
    {
      ReadBlocksStep(l[b..]);
      var block := ParseBlock(l[b..]);
      if block.Raises? {
        return Raises;
      }
      if block.Hangs? || block.value.length == 0 {
        return Hangs;
      }
      assert From(l[b..], block.value.length) == From(l, b + block.value.length);
      PrependMore(all, block.value.tables, ReadBlocks(From(l, b + block.value.length)));
      all := all + block.value.tables;
      b := b + block.value.length;
    }
    assert all + [] == all;
    r := Ok(all);
  }

  lemma PrependMore<T>(done: seq<T>, xs: seq<T>, rest: Result<seq<T>>)
    ensures Prepend(done + xs, rest) == Prepend(done, Prepend(xs, rest))
  {
    if rest.Ok? {
      assert done + xs + rest.value == done + (xs + rest.value);
    }
  }
}
