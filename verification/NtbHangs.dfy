// When the loops of the reader never end.  The reader of the model stops with `Hangs`
// at an offset it has met before; here the loops are walked as they are written, and
// going on for ever is compared with that outcome and with the links in the bytes.
module NtbHangs {
  import opened Bytes
  import opened NtbParser

  // ---- the chain loop as it is written -------------------------------------------------

  // One turn of the loop at offset b: the link of the table there, or an exception.
  function Turn(l: seq<Byte>, b: nat, e: nat): Option<nat> {
    match ReadNdp(Slice(l, b, e))
    case Ok(bv) => if ReadDgrams(l, bv, 0).Ok? && |bv| >= 8 then Some(Get16(bv, 6)) else None
    case _ => None
  }

  // The loop's offset after n turns; nothing once the loop has been left.
  function After(l: seq<Byte>, b: nat, e: nat, n: nat): Option<nat>
    decreases n
  {
    if n == 0 then Some(b) else if b == 0 then None
    else match Turn(l, b, e)
         case None => None
         case Some(next) => After(l, next, e, n - 1)
  }

  predicate Going(l: seq<Byte>, b: nat, e: nat, n: nat) {
    After(l, b, e, n).Some? && After(l, b, e, n).value != 0
  }

  // The same table is met twice.
  predicate Repeats(l: seq<Byte>, b: nat, e: nat, i: nat, j: nat) {
    i < j && Going(l, b, e, i) && After(l, b, e, i) == After(l, b, e, j)
  }

  lemma {:induction false} AfterSum(l: seq<Byte>, b: nat, e: nat, m: nat, n: nat)
    ensures After(l, b, e, m + n) == match After(l, b, e, m)
                                     case None => None
                                     case Some(x) => After(l, x, e, n)
    decreases m
  {
    hide Turn;
    if m > 0 && b != 0 && Turn(l, b, e).Some? {
      AfterSum(l, Turn(l, b, e).value, e, m - 1, n);
    }
  }

  // A reader that does not give up at `Hangs` leaves the loop.
  lemma {:induction false} Ends(l: seq<Byte>, b: nat, e: nat, left: set<nat>) returns (n: nat)
    requires !ReadChain(l, b, e, left).Hangs?
    ensures !Going(l, b, e, n)
    decreases left
  {
    hide ReadNdp, ReadDgrams, Slice;
    n := 0;
    if b != 0 {
      n := 1;
      TurnIs(l, b, e, left);
      if Turn(l, b, e).Some? {
        var next := Turn(l, b, e).value;
        var m := Ends(l, next, e, left - {b});
        n := m + 1;
      }
    }
  }

  // A turn, and what the reader makes of it.
  lemma TurnIs(l: seq<Byte>, b: nat, e: nat, left: set<nat>)
    requires b != 0 && b in left
    ensures match Turn(l, b, e)
            case None => !ReadChain(l, b, e, left).Hangs?
            case Some(next) =>
              next < 65536 && (ReadChain(l, b, e, left).Hangs? <==> ReadChain(l, next, e, left - {b}).Hangs?)
  {
    hide Slice, Get16;
    DgramsEnd(l, Slice(l, b, e));
    if ReadNdp(Slice(l, b, e)).Ok? && Turn(l, b, e).Some? {
      WordSize(ReadNdp(Slice(l, b, e)).value);
    }
  }

  lemma WordSize(bv: seq<Byte>)
    requires |bv| >= 8
    ensures Get16(bv, 6) < 65536
  {
  }

  lemma DgramsEnd(l: seq<Byte>, at: seq<Byte>)
    ensures ReadNdp(at).Ok? ==> !ReadDgrams(l, ReadNdp(at).value, 0).Hangs?
  {
    if ReadNdp(at).Ok? {
      DgramsNeverHang(l, ReadNdp(at).value, 0);
    }
  }

  // The inner loop always ends.
  lemma {:induction false} DgramsNeverHang(l: seq<Byte>, bv: seq<Byte>, n: nat)
    ensures !ReadDgrams(l, bv, n).Hangs?
    decreases |bv| - 4 * n
  {
    match Field(bv, n, 8 + 4 * n)
    case None =>
    case Some(b) =>
      if b != 0 {
        DgramsNeverHang(l, bv, n + 1);
      }
  }

  // The offsets not in `left` are those met in the first k turns.
  predicate Met(l: seq<Byte>, b: nat, e: nat, k: nat, left: set<nat>) {
    forall x :: 0 <= x < 65536 && x !in left ==> MetBefore(l, b, e, k, x)
  }

  predicate MetBefore(l: seq<Byte>, b: nat, e: nat, k: nat, x: nat) {
    exists i :: 0 <= i < k && After(l, b, e, i) == Some(x)
  }

  lemma {:induction false} HangRepeats(l: seq<Byte>, b: nat, e: nat, k: nat, x: nat, left: set<nat>)
    returns (i: nat, j: nat)
    requires After(l, b, e, k) == Some(x) && x < 65536 && Met(l, b, e, k, left)
    requires ReadChain(l, x, e, left).Hangs?
    ensures Repeats(l, b, e, i, j)
    decreases left
  {
    hide After, Turn, ReadNdp, ReadDgrams, Slice;
    assert x != 0;
    if x !in left {
      assert MetBefore(l, b, e, k, x);
      i :| 0 <= i < k && After(l, b, e, i) == Some(x);
      j := k;
    } else {
      TurnIs(l, x, e, left);
      assert Turn(l, x, e).Some?;
      var next := Turn(l, x, e).value;
      AfterNext(l, b, e, k, x);
      forall y | 0 <= y < 65536 && y !in left - {x} ensures MetBefore(l, b, e, k + 1, y) {
        if y == x {
          assert After(l, b, e, k) == Some(y);
        } else {
          assert MetBefore(l, b, e, k, y);
        }
      }
      i, j := HangRepeats(l, b, e, k + 1, next, left - {x});
    }
  }

  lemma AfterNext(l: seq<Byte>, b: nat, e: nat, k: nat, x: nat)
    requires After(l, b, e, k) == Some(x) && x != 0
    ensures After(l, b, e, k + 1) == Turn(l, x, e)
  {
    hide Turn;
    AfterSum(l, b, e, k, 1);
    assert After(l, x, e, 1) == match Turn(l, x, e) case None => None case Some(y) => After(l, y, e, 0);
  }

  // A loop that comes back never ends.
  lemma {:induction false} Circles(l: seq<Byte>, x: nat, e: nat, p: nat, n: nat)
    requires x != 0 && p > 0 && After(l, x, e, p) == Some(x)
    ensures Going(l, x, e, n)
    decreases n
  {
    hide After;
    if n < p {
      AfterSum(l, x, e, n, p - n);
      StopsThere(l, x, e, n, p - n);
    } else {
      AfterSum(l, x, e, p, n - p);
      Circles(l, x, e, p, n - p);
    }
  }

  lemma StopsThere(l: seq<Byte>, x: nat, e: nat, n: nat, m: nat)
    requires m > 0 && After(l, x, e, n + m).Some?
    ensures Going(l, x, e, n)
  {
    AfterSum(l, x, e, n, m);
  }

  lemma RepeatsGoOn(l: seq<Byte>, b: nat, e: nat, i: nat, j: nat, n: nat)
    requires Repeats(l, b, e, i, j)
    ensures Going(l, b, e, n)
  {
    hide After;
    var x := After(l, b, e, i).value;
    AfterSum(l, b, e, i, j - i);
    if n < i {
      StopsThere(l, b, e, n, i - n);
    } else {
      AfterSum(l, b, e, i, n - i);
      Circles(l, x, e, j - i, n - i);
    }
  }

  // The outcome `Hangs` means exactly that the loop as written goes on for ever, and
  // that is so exactly when the links in the bytes lead to some table twice.
  lemma ChainHangsIff(l: seq<Byte>, b: nat, e: nat)
    requires b < 65536
    ensures ReadChain(l, b, e, AllOffsets()).Hangs? <==> (forall n: nat :: Going(l, b, e, n))
    ensures ReadChain(l, b, e, AllOffsets()).Hangs? <==> (exists i: nat, j: nat :: Repeats(l, b, e, i, j))
  {
    hide Going, ReadChain, Repeats;
    if ReadChain(l, b, e, AllOffsets()).Hangs? {
      var i, j := ChainRepeats(l, b, e);
      forall n: nat ensures Going(l, b, e, n) {
        RepeatsGoOn(l, b, e, i, j, n);
      }
    } else {
      var n := Ends(l, b, e, AllOffsets());
      assert !Going(l, b, e, n);
      forall i: nat, j: nat ensures !Repeats(l, b, e, i, j) {
        if Repeats(l, b, e, i, j) {
          RepeatsGoOn(l, b, e, i, j, n);
        }
      }
    }
  }

  lemma ChainRepeats(l: seq<Byte>, b: nat, e: nat) returns (i: nat, j: nat)
    requires b < 65536 && ReadChain(l, b, e, AllOffsets()).Hangs?
    ensures Repeats(l, b, e, i, j)
  {
    hide ReadChain, Repeats;
    forall x | 0 <= x < 65536 ensures x in AllOffsets() {
      assert IsOffset(x);
    }
    assert Met(l, b, e, 0, AllOffsets());
    assert After(l, b, e, 0) == Some(b);
    i, j := HangRepeats(l, b, e, 0, b, AllOffsets());
  }

  // ---- blocks -----------------------------------------------------------------------------

  predicate HeaderOk(l: seq<Byte>) {
    |l| >= NTH_LEN && l[..4] == NTH_SIG && Get16(l, 4) == NTH_LEN
  }

  // Reading one block never ends if and only if its header is good and the links lead to
  // some table twice.
  lemma BlockHangsIff(l: seq<Byte>)
    ensures ReadBlock(l).Hangs? <==>
            HeaderOk(l) && exists i: nat, j: nat :: Repeats(l, Get16(l, 10), Get16(l, 8), i, j)
    ensures ReadBlock(l).Hangs? <==> HeaderOk(l) && forall n: nat :: Going(l, Get16(l, 10), Get16(l, 8), n)
  {
    hide ReadChain, Repeats, Going, AllOffsets;
    if HeaderOk(l) {
      assert Get16(l, 10) < 65536;
      ChainHangsIff(l, Get16(l, 10), Get16(l, 8));
    }
  }

  predicate Rises(l: seq<Byte>, e: nat, b: nat) {
    match Turn(l, b, e)
    case None => true
    case Some(next) => next == 0 || next > b
  }

  // Wherever the loop stands, the link there leads further up or is 0.
  ghost predicate Climbing(l: seq<Byte>, b: nat, e: nat) {
    forall n: nat :: Going(l, b, e, n) ==> Rises(l, e, After(l, b, e, n).value)
  }

  // Links that only lead further up are always left.
  lemma RisingLinksReturn(l: seq<Byte>)
    requires HeaderOk(l) && Climbing(l, Get16(l, 10), Get16(l, 8))
    ensures !ReadBlock(l).Hangs?
  {
    hide ReadBlock, After;
    BlockHangsIff(l);
    var b, e := Get16(l, 10), Get16(l, 8);
    forall i: nat, j: nat ensures !Repeats(l, b, e, i, j) {
      if Repeats(l, b, e, i, j) {
        Climbs(l, b, e, i, j);
      }
    }
  }

  lemma GoingOn(l: seq<Byte>, b: nat, e: nat, i: nat)
    requires Going(l, b, e, i)
    ensures After(l, b, e, i).Some? && After(l, b, e, i).value != 0
  {
  }

  lemma ClimbsOnce(l: seq<Byte>, b: nat, e: nat, i: nat)
    requires Climbing(l, b, e) && Going(l, b, e, i)
    requires After(l, b, e, i + 1).Some? && After(l, b, e, i + 1).value != 0
    ensures After(l, b, e, i).Some? && After(l, b, e, i).value < After(l, b, e, i + 1).value
  {
    hide After, Turn;
    var x := After(l, b, e, i).value;
    AfterNext(l, b, e, i, x);
    assert Rises(l, e, x);
  }

  lemma {:induction false} Climbs(l: seq<Byte>, b: nat, e: nat, i: nat, j: nat)
    requires i < j && After(l, b, e, i).Some? && After(l, b, e, j).Some? && After(l, b, e, j).value != 0
    requires Climbing(l, b, e)
    ensures After(l, b, e, i).value < After(l, b, e, j).value
    decreases j - i
  {
    hide After, Going, Climbing;
    StopsThere(l, b, e, i, j - i);
    if i + 1 == j {
      ClimbsOnce(l, b, e, i);
    } else {
      StopsThere(l, b, e, i + 1, j - i - 1);
      GoingOn(l, b, e, i + 1);
      ClimbsOnce(l, b, e, i);
      Climbs(l, b, e, i + 1, j);
    }
  }

  // ---- such a block -----------------------------------------------------------------------

  const SELF_LINKED: seq<Byte> :=
    NTH_SIG + [12, 0, 1, 0, 28, 0, 12, 0] + NDP_SIG + [0x30, 16, 0, 12, 0, 0, 0, 0, 0, 0, 0, 0, 0]

  // The 28 bytes of a block whose only table is linked to itself.
  lemma SelfLinkedHangs()
    ensures |SELF_LINKED| == 28 && ReadBlock(SELF_LINKED) == Hangs
  {
    hide ReadChain, After, ReadDgrams, AllOffsets, ReadBlock, Turn;
    var l := SELF_LINKED;
    SelfLinkedTurn();
    assert Get16(l, 10) == 12 && Get16(l, 8) == 28 && Get16(l, 4) == 12 && l[..4] == NTH_SIG;
    assert Repeats(l, 12, 28, 0, 1) by {
      AfterNone(l, 12, 28);
      AfterNext(l, 12, 28, 0, 12);
    }
    BlockHangsIff(l);
  }

  lemma AfterNone(l: seq<Byte>, b: nat, e: nat)
    ensures After(l, b, e, 0) == Some(b)
  {
  }

  lemma SelfLinkedTurn()
    ensures Turn(SELF_LINKED, 12, 28) == Some(12)
  {
    hide ReadDgrams;
    var l := SELF_LINKED;
    var at := Slice(l, 12, 28);
    assert at == [0x4E, 0x43, 0x4D, 0x30, 16, 0, 12, 0, 0, 0, 0, 0, 0, 0, 0, 0];
    assert at[..3] == NDP_SIG && Get16(at, 4) == 16;
    assert ReadNdp(at) == Ok(at);
    assert at[8] == 0 && at[9] == 0;
    assert Field(at, 0, 8) == Some(0);
    ReadDgramsStep(l, at, 0, 0);
  }

  // ---- blocks back to back ------------------------------------------------------------------

  // The position of the block loop after n turns; nothing once it has been left.
  function Position(l: seq<Byte>, n: nat): Option<nat>
    decreases n
  {
    if n == 0 then Some(0)
    else match Position(l, n - 1)
         case None => None
         case Some(p) =>
           if p >= |l| then None
           else match ReadBlock(l[p..])
                case Ok(block) => Some(p + block.length)
                case _ => None
  }

  predicate Working(l: seq<Byte>, n: nat) {
    Position(l, n).Some? && Position(l, n).value < |l|
  }

  // The loop stands at a block in which the chain never ends, or from which it does not
  // move on.
  predicate StuckInside(l: seq<Byte>, n: nat) {
    Working(l, n) && ReadBlock(l[Position(l, n).value..]).Hangs?
  }

  predicate StuckOutside(l: seq<Byte>, n: nat) {
    Working(l, n) && ReadBlock(l[Position(l, n).value..]).Ok? && ReadBlock(l[Position(l, n).value..]).value.length == 0
  }

  // What the reader makes of the rest from a position on.
  lemma {:induction false} RestOf(l: seq<Byte>, n: nat, p: nat) returns (m: nat)
    requires Position(l, n) == Some(p)
    ensures ReadBlocks(From(l, p)).Hangs? ==> StuckInside(l, m) || StuckOutside(l, m)
    ensures !ReadBlocks(From(l, p)).Hangs? ==>
              !Working(l, m) && m >= n && forall k :: n <= k < m ==> !StuckInside(l, k) && !StuckOutside(l, k)
    decreases |l| - p
  {
    hide ReadBlock;
    m := n;
    if p < |l| {
      ReadBlocksStep(From(l, p));
      hide ReadBlocks;
      match ReadBlock(l[p..])
      case Raises => m := n + 1;
      case Hangs =>
      case Ok(block) =>
        if block.length > 0 {
          assert Position(l, n + 1) == Some(p + block.length);
          assert From(From(l, p), block.length) == From(l, p + block.length);
          m := RestOf(l, n + 1, p + block.length);
          var k := n;
          assert !StuckInside(l, k) && !StuckOutside(l, k);
        }
    }
  }

  lemma {:induction false} NoPosition(l: seq<Byte>, m: nat, n: nat)
    requires m <= n && !Working(l, m)
    ensures !Working(l, n)
  {
    if m < n {
      NoPosition(l, m, n - 1);
    }
  }

  lemma {:induction false} StaysThere(l: seq<Byte>, m: nat, n: nat)
    requires m <= n && StuckOutside(l, m)
    ensures Position(l, n) == Position(l, m)
  {
    hide ReadBlock;
    if m < n {
      StaysThere(l, m, n - 1);
    }
  }

  // Reading blocks one after the other never ends if and only if the loop reaches a block
  // whose own chain never ends, or one that reads as empty and has length 0; in the second
  // case, and only then, the block loop itself goes on for ever.
  lemma BlocksHangIff(l: seq<Byte>)
    ensures ReadBlocks(l).Hangs? <==> exists n: nat :: StuckInside(l, n) || StuckOutside(l, n)
    ensures (forall n: nat :: Working(l, n)) <==> exists n: nat :: StuckOutside(l, n)
  {
    hide ReadBlock, ReadBlocks, StuckInside, StuckOutside;
    assert From(l, 0) == l && Position(l, 0) == Some(0);
    hide Position, From;
    var m := RestOf(l, 0, 0);
    if ReadBlocks(l).Hangs? {
      if StuckOutside(l, m) {
        forall n: nat ensures Working(l, n) {
          WorksOn(l, m, n);
        }
      } else {
        InsideStops(l, m);
        forall n: nat ensures !StuckOutside(l, n) {
          NotBoth(l, m, n);
        }
      }
    } else {
      forall n: nat ensures !StuckInside(l, n) && !StuckOutside(l, n) {
        if n >= m {
          NoPosition(l, m, n);
        }
        StuckWorks(l, n);
      }
      assert !Working(l, m);
    }
  }

  lemma StuckWorks(l: seq<Byte>, n: nat)
    ensures StuckInside(l, n) || StuckOutside(l, n) ==> Working(l, n)
  {
  }

  lemma WorksOn(l: seq<Byte>, m: nat, n: nat)
    requires StuckOutside(l, m)
    ensures Working(l, n)
  {
    hide ReadBlock, Position;
    if n >= m {
      StaysThere(l, m, n);
    } else if !Working(l, n) {
      NoPosition(l, n, m);
    }
  }

  lemma InsideStops(l: seq<Byte>, m: nat)
    requires StuckInside(l, m)
    ensures !Working(l, m + 1)
  {
    hide ReadBlock;
  }

  lemma NotBoth(l: seq<Byte>, m: nat, n: nat)
    requires StuckInside(l, m)
    ensures !StuckOutside(l, n)
  {
    hide ReadBlock, Position;
    InsideStops(l, m);
    if StuckOutside(l, n) {
      WorksOn(l, n, m + 1);
    }
  }

  // Length 0 reads without an exception only when there is no table at all.
  lemma LengthZeroIsEmpty(l: seq<Byte>)
    requires ReadBlock(l).Ok? && ReadBlock(l).value.length == 0
    ensures Get16(l, 10) == 0 && ReadBlock(l).value.tables == []
  {
    hide AllOffsets;
    assert forall b: nat :: Slice(l, b, 0) == [];
  }

  const EMPTY_BLOCK: seq<Byte> := NTH_SIG + [12, 0, 1, 0, 0, 0, 0, 0]

  // The twelve bytes of a header with neither length nor tables.
  lemma EmptyBlockHangs()
    ensures |EMPTY_BLOCK| == 12 && ReadBlock(EMPTY_BLOCK) == Ok(Block([], 0)) && ReadBlocks(EMPTY_BLOCK) == Hangs
  {
    hide AllOffsets, ReadChain, ReadBlocks, ReadBlock, Get16, HeaderOk;
    EmptyHeader();
    NoTables(EMPTY_BLOCK);
    LengthZeroHangs(EMPTY_BLOCK);
  }

  lemma EmptyHeader()
    ensures |EMPTY_BLOCK| == 12 && HeaderOk(EMPTY_BLOCK) && Get16(EMPTY_BLOCK, 8) == 0 && Get16(EMPTY_BLOCK, 10) == 0
  {
    var l := EMPTY_BLOCK;
    assert l == [0x4E, 0x43, 0x4D, 0x48, 12, 0, 1, 0, 0, 0, 0, 0];
    assert l[4] == 12 && l[5] == 0 && l[8] == 0 && l[9] == 0 && l[10] == 0 && l[11] == 0;
    assert l[..4] == NTH_SIG;
  }

  lemma LengthZeroHangs(l: seq<Byte>)
    requires l != [] && ReadBlock(l).Ok? && ReadBlock(l).value.length == 0
    ensures ReadBlocks(l) == Hangs
  {
    hide ReadBlock;
  }

  lemma NoTables(l: seq<Byte>)
    requires HeaderOk(l) && Get16(l, 10) == 0
    ensures ReadBlock(l) == Ok(Block([], Get16(l, 8)))
  {
    hide AllOffsets;
  }
}
