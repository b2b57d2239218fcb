// The line code of USB 2.0 sections 7.1.8 (NRZI), 7.1.9 (bit stuffing) and
// 7.1.10 (sync pattern), stated on whole sequences, independently of any circuit.
// The transmitter and the receiver are both measured against this module.
module LineCode {

  // One bit time on the bus.
  datatype Level = J | K | SE0

  function LevelOf(j: bool): Level {
    if j then J else K
  }

  function Levels(js: seq<bool>): (ls: seq<Level>)
    ensures |ls| == |js|
    ensures forall i :: 0 <= i < |js| ==> ls[i] == LevelOf(js[i])
  {
    seq(|js|, i requires 0 <= i < |js| => LevelOf(js[i]))
  }

  // An eight bit vector; index 0 is the least significant bit.
  type Vec8 = s: seq<bool> | |s| == 8 witness [false, false, false, false, false, false, false, false]

  // The bits of a byte in wire order, least significant bit first.
  function Bits(b: bv8): Vec8
  {
    [b & 1 != 0, b & 2 != 0, b & 4 != 0, b & 8 != 0,
     b & 16 != 0, b & 32 != 0, b & 64 != 0, b & 128 != 0]
  }

  function Weight(bit: bool, w: bv8): bv8 {
    if bit then w else 0
  }

  function FromBits(s: Vec8): bv8
  {
    Weight(s[0], 1) | Weight(s[1], 2) | Weight(s[2], 4) | Weight(s[3], 8) |
    Weight(s[4], 16) | Weight(s[5], 32) | Weight(s[6], 64) | Weight(s[7], 128)
  }

  lemma FromBitsBits(b: bv8)
    ensures FromBits(Bits(b)) == b
  {
    assert b == (b & 1) | (b & 2) | (b & 4) | (b & 8) | (b & 16) | (b & 32) | (b & 64) | (b & 128);
    var s := Bits(b);
    assert Weight(s[0], 1) == b & 1;
    assert Weight(s[1], 2) == b & 2;
    assert Weight(s[2], 4) == b & 4;
    assert Weight(s[3], 8) == b & 8;
    assert Weight(s[4], 16) == b & 16;
    assert Weight(s[5], 32) == b & 32;
    assert Weight(s[6], 64) == b & 64;
    assert Weight(s[7], 128) == b & 128;
  }

  // Eight disjoint bits can be read back from their union.
  lemma UnionBits(w0: bv8, w1: bv8, w2: bv8, w3: bv8, w4: bv8, w5: bv8, w6: bv8, w7: bv8)
    requires w0 | 1 == 1 && w1 | 2 == 2 && w2 | 4 == 4 && w3 | 8 == 8
    requires w4 | 16 == 16 && w5 | 32 == 32 && w6 | 64 == 64 && w7 | 128 == 128
    ensures var b := w0 | w1 | w2 | w3 | w4 | w5 | w6 | w7;
            && b & 1 == w0 && b & 2 == w1 && b & 4 == w2 && b & 8 == w3
            && b & 16 == w4 && b & 32 == w5 && b & 64 == w6 && b & 128 == w7
  {
  }

  lemma WeightIs(bit: bool, w: bv8)
    requires w != 0
    ensures Weight(bit, w) | w == w && (Weight(bit, w) != 0 <==> bit)
  {
  }

  lemma BitsFromBits(s: Vec8)
    ensures Bits(FromBits(s)) == s
  {
    hide Weight;
    WeightIs(s[0], 1);
    WeightIs(s[1], 2);
    WeightIs(s[2], 4);
    WeightIs(s[3], 8);
    WeightIs(s[4], 16);
    WeightIs(s[5], 32);
    WeightIs(s[6], 64);
    WeightIs(s[7], 128);
    UnionBits(Weight(s[0], 1), Weight(s[1], 2), Weight(s[2], 4), Weight(s[3], 8),
              Weight(s[4], 16), Weight(s[5], 32), Weight(s[6], 64), Weight(s[7], 128));
  }

  lemma ShiftBits(b: bv8)
    ensures Bits(b >> 1) == Bits(b)[1..] + [false]
    ensures Bits((b >> 1) | 0x80) == Bits(b)[1..] + [true]
    ensures Bits(b)[0] <==> b & 1 != 0
  {
    assert (b >> 1) & 1 != 0 <==> b & 2 != 0;
    assert (b >> 1) & 2 != 0 <==> b & 4 != 0;
    assert (b >> 1) & 4 != 0 <==> b & 8 != 0;
    assert (b >> 1) & 8 != 0 <==> b & 16 != 0;
    assert (b >> 1) & 16 != 0 <==> b & 32 != 0;
    assert (b >> 1) & 32 != 0 <==> b & 64 != 0;
    assert (b >> 1) & 64 != 0 <==> b & 128 != 0;
    assert (b >> 1) & 128 == 0;
  }

  // A byte list as one bit stream.
  function Flat(bs: seq<bv8>): (s: seq<bool>)
    ensures |s| == 8 * |bs|
  {
    if bs == [] then [] else Bits(bs[0]) + Flat(bs[1..])
  }

  // ---- bit stuffing -------------------------------------------------------

  // How many ones in a row the sender has put on the wire after `bits`,
  // `ones` being the number it started with.  A stuffed zero restarts the count.
  function Ones(bits: seq<bool>, ones: nat): (n: nat)
    requires ones <= 6
    ensures n <= 6
  {
    if bits == [] then ones
    else if !bits[0] then Ones(bits[1..], 0)
    else Ones(bits[1..], if ones == 6 then 1 else ones + 1)
  }

  // A zero is inserted after six ones as soon as another bit follows.
  function Stuff(bits: seq<bool>, ones: nat): seq<bool>
    requires ones <= 6
    decreases |bits|, ones
  {
    if bits == [] then []
    else if ones == 6 then [false] + Stuff(bits, 0)
    else [bits[0]] + Stuff(bits[1..], if bits[0] then ones + 1 else 0)
  }

  // The zero that is still owed when the last six bits were ones.
  function Owed(ones: nat): seq<bool> {
    if ones == 6 then [false] else []
  }

  datatype Unstuffed = Good(bits: seq<bool>, ones: nat) | StuffError

  // Removal of the inserted zeros; a seventh one is an error.
  function Unstuff(line: seq<bool>, ones: nat): (u: Unstuffed)
    requires ones <= 6
    ensures u.Good? ==> u.ones <= 6
  {
    if line == [] then Good([], ones)
    else if ones == 6 then if line[0] then StuffError else Unstuff(line[1..], 0)
    else
      var u := Unstuff(line[1..], if line[0] then ones + 1 else 0);
      if u.StuffError? then u else Good([line[0]] + u.bits, u.ones)
  }

  // Stuffing only adds bits: one at most for every six.
  lemma {:induction false} StuffLength(bits: seq<bool>, ones: nat)
    requires ones <= 6
    ensures |bits| <= |Stuff(bits, ones)|
    ensures 6 * (|Stuff(bits, ones)| - |bits|) <= |bits| + ones
    decreases |bits|, ones
  {
    if bits != [] {
      if ones == 6 {
        StuffLength(bits, 0);
      } else {
        StuffLength(bits[1..], if bits[0] then ones + 1 else 0);
      }
    }
  }

  lemma {:induction false} UnstuffStuff(bits: seq<bool>, ones: nat)
    requires ones <= 6
    ensures Unstuff(Stuff(bits, ones), ones) == Good(bits, Ones(bits, ones))
    decreases |bits|, ones
  {
    if bits == [] {
    } else if ones == 6 {
      UnstuffStuff(bits, 0);
      assert Stuff(bits, ones)[1..] == Stuff(bits, 0);
    } else {
      var n := if bits[0] then ones + 1 else 0;
      UnstuffStuff(bits[1..], n);
      assert Stuff(bits, ones)[1..] == Stuff(bits[1..], n);
      assert [bits[0]] + bits[1..] == bits;
    }
  }

  // Un-stuffing also swallows the zero that is owed at the end.
  lemma {:induction false} UnstuffOwed(bits: seq<bool>, ones: nat)
    requires ones <= 6
    ensures Unstuff(Stuff(bits, ones) + Owed(Ones(bits, ones)), ones)
            == Good(bits, if Ones(bits, ones) == 6 then 0 else Ones(bits, ones))
    decreases |bits|, ones
  {
    hide Stuff, Unstuff, Ones;
    StuffStep(bits, ones);
    if bits == [] {
      assert [] + Owed(ones) == if ones == 6 then [false] + [] else [];
      UnstuffZero([]);
      UnstuffNone(ones);
      UnstuffNone(0);
    } else if ones == 6 {
      UnstuffOwed(bits, 0);
      UnstuffZero(Stuff(bits, 0) + Owed(Ones(bits, 0)));
      assert ([false] + Stuff(bits, 0)) + Owed(Ones(bits, 0)) == [false] + (Stuff(bits, 0) + Owed(Ones(bits, 0)));
    } else {
      var n := if bits[0] then ones + 1 else 0;
      var rest := Stuff(bits[1..], n) + Owed(Ones(bits[1..], n));
      UnstuffOwed(bits[1..], n);
      UnstuffBit(bits[0], rest, ones);
      assert ([bits[0]] + Stuff(bits[1..], n)) + Owed(Ones(bits[1..], n)) == [bits[0]] + rest;
      assert [bits[0]] + bits[1..] == bits;
    }
  }

  lemma StuffStep(bits: seq<bool>, ones: nat)
    requires ones <= 6
    ensures bits == [] ==> Stuff(bits, ones) == [] && Ones(bits, ones) == ones
    ensures bits != [] && ones == 6 ==> Stuff(bits, 6) == [false] + Stuff(bits, 0) && Ones(bits, 6) == Ones(bits, 0)
    ensures var n := if bits != [] && bits[0] then ones + 1 else 0;
            bits != [] && ones < 6 ==>
              Stuff(bits, ones) == [bits[0]] + Stuff(bits[1..], n) && Ones(bits, ones) == Ones(bits[1..], n)
  {
  }

  lemma UnstuffNone(ones: nat)
    requires ones <= 6
    ensures Unstuff([], ones) == Good([], ones)
  {
  }

  lemma UnstuffZero(rest: seq<bool>)
    ensures Unstuff([false] + rest, 6) == Unstuff(rest, 0)
  {
    assert ([false] + rest)[1..] == rest;
  }

  lemma UnstuffBit(b: bool, rest: seq<bool>, ones: nat)
    requires ones < 6
    ensures var u := Unstuff(rest, if b then ones + 1 else 0);
            Unstuff([b] + rest, ones) == if u.StuffError? then u else Good([b] + u.bits, u.ones)
  {
    assert ([b] + rest)[1..] == rest;
  }

  // Two bit streams with the same stuffed form are the same stream.
  lemma StuffInjective(a: seq<bool>, b: seq<bool>, ones: nat)
    requires ones <= 6
    requires Stuff(a, ones) == Stuff(b, ones)
    ensures a == b
  {
    UnstuffStuff(a, ones);
    UnstuffStuff(b, ones);
  }

  predicate AllTrue(s: seq<bool>) {
    forall i :: 0 <= i < |s| ==> s[i]
  }

  // What the code is for: no seven ones in a row ever reach the wire.
  lemma {:induction false} NoSevenOnes(bits: seq<bool>, ones: nat, i: nat)
    requires ones <= 6
    requires i + 7 - ones <= |Stuff(bits, ones)|
    requires i > 0 ==> i + 7 <= |Stuff(bits, ones)|
    ensures !AllTrue(Stuff(bits, ones)[i..if i == 0 then 7 - ones else i + 7])
    decreases |bits|, ones, 0
  {
    var s := Stuff(bits, ones);
    if ones == 6 {
      assert s[1..] == Stuff(bits, 0);
      if i == 0 {
        assert !s[0..1][0];
      } else {
        NoSevenOnes(bits, 0, i - 1);
        assert s[i..i + 7] == s[1..][i - 1..i + 6];
      }
    } else {
      var n := if bits[0] then ones + 1 else 0;
      assert s[1..] == Stuff(bits[1..], n);
      if i > 0 {
        Suffix7(bits[1..], n, i - 1);
        assert s[i..i + 7] == s[1..][i - 1..i + 6];
      } else if bits[0] {
        NoSevenOnes(bits[1..], n, 0);
        assert s[1..][0..6 - ones] == s[0..7 - ones][1..];
      } else {
        assert !s[0..7 - ones][0];
      }
    }
  }

  lemma {:induction false} Suffix7(bits: seq<bool>, ones: nat, i: nat)
    requires ones <= 6
    requires i + 7 <= |Stuff(bits, ones)|
    ensures !AllTrue(Stuff(bits, ones)[i..i + 7])
    decreases |bits|, ones, 1
  {
    NoSevenOnes(bits, ones, i);
    if i == 0 {
      var s := Stuff(bits, ones);
      assert s[0..7 - ones] == s[0..7][..7 - ones];
    }
  }

  // ---- NRZI ---------------------------------------------------------------

  // A zero toggles the line, a one leaves it alone; true stands for J.
  function Nrzi(bits: seq<bool>, j: bool): (ls: seq<bool>)
    ensures |ls| == |bits|
  {
    if bits == [] then []
    else
      var l := if bits[0] then j else !j;
      [l] + Nrzi(bits[1..], l)
  }

  function UnNrzi(ls: seq<bool>, j: bool): seq<bool> {
    if ls == [] then [] else [ls[0] == j] + UnNrzi(ls[1..], ls[0])
  }

  lemma {:induction false} UnNrziNrzi(bits: seq<bool>, j: bool)
    ensures UnNrzi(Nrzi(bits, j), j) == bits
  {
    if bits != [] {
      var l := if bits[0] then j else !j;
      UnNrziNrzi(bits[1..], l);
      var rest := Nrzi(bits[1..], l);
      assert Nrzi(bits, j) == [l] + rest;
      assert ([l] + rest)[1..] == rest;
      assert UnNrzi([l] + rest, j) == [l == j] + UnNrzi(rest, l);
      assert [bits[0]] + bits[1..] == bits;
    }
  }

  // The level the line rests at after `bits`.
  function Rest(bits: seq<bool>, j: bool): bool {
    if bits == [] then j else Rest(bits[1..], if bits[0] then j else !j)
  }

  lemma {:induction false} NrziConcat(a: seq<bool>, b: seq<bool>, j: bool)
    ensures Nrzi(a + b, j) == Nrzi(a, j) + Nrzi(b, Rest(a, j))
    ensures Rest(a + b, j) == Rest(b, Rest(a, j))
  {
    hide Nrzi, Rest;
    if a == [] {
      assert a + b == b;
      NrziNone(j);
    } else {
      var l, rest := if a[0] then j else !j, a[1..];
      assert a == [a[0]] + rest && a + b == [a[0]] + (rest + b);
      NrziConcat(rest, b, l);
      NrziCons(a[0], rest, j);
      NrziCons(a[0], rest + b, j);
    }
  }

  lemma NrziNone(j: bool)
    ensures Nrzi([], j) == [] && Rest([], j) == j
  {
  }

  lemma NrziCons(x: bool, rest: seq<bool>, j: bool)
    ensures var l := if x then j else !j;
            Nrzi([x] + rest, j) == [l] + Nrzi(rest, l) && Rest([x] + rest, j) == Rest(rest, l)
  {
    assert ([x] + rest)[1..] == rest;
  }

  lemma LevelsCons(l: bool, ls: seq<bool>)
    ensures Levels([l] + ls) == [LevelOf(l)] + Levels(ls)
  {
  }

  lemma LevelsConcat(a: seq<bool>, b: seq<bool>)
    ensures Levels(a + b) == Levels(a) + Levels(b)
  {
  }

  // ---- packets on the line --------------------------------------------------

  // The sync pattern 0x80 as bits, least significant first.
  const SYNC_BITS: Vec8 := [false, false, false, false, false, false, false, true]

  // PID and its complement, section 8.3.1.
  function PidByte(pid: bv8): bv8 {
    (pid & 0x0f) | ((!pid & 0x0f) << 4)
  }

  function PacketBits(bytes: seq<bv8>): seq<bool> {
    SYNC_BITS + Flat(bytes)
  }

  const EOP_LEVELS: seq<Level> := [SE0, SE0, J]

  const FILLER: Vec8 := [true, true, true, true, true, true, true, true]

  // What the line carries for one packet: the stuffed, NRZI coded bits, the
  // owed zero, and the end of packet.  A packet that is to be spoilt ends with
  // eight unstuffed ones instead of the owed zero.
  function Tail(bits: seq<bool>, ones: nat, spoilt: bool): seq<bool>
    requires ones <= 6
  {
    Stuff(bits, ones) + (if spoilt then FILLER else Owed(Ones(bits, ones)))
  }

  function PacketLine(bytes: seq<bv8>, spoilt: bool): (ls: seq<Level>)
    ensures |ls| >= 3
  {
    Levels(Nrzi(Tail(PacketBits(bytes), 0, spoilt), true)) + EOP_LEVELS
  }

  // The sync pattern is never stuffed, and its final one is counted.
  lemma StuffSync(bits: seq<bool>)
    ensures Stuff(SYNC_BITS + bits, 0) == SYNC_BITS + Stuff(bits, 1)
    ensures Ones(SYNC_BITS + bits, 0) == Ones(bits, 1)
  {
    StuffZeros(7, [true] + bits);
    assert SYNC_BITS + bits == Zeros(7) + ([true] + bits);
    assert ([true] + bits)[1..] == bits;
    assert Zeros(7) + ([true] + Stuff(bits, 1)) == SYNC_BITS + Stuff(bits, 1);
  }

  function Zeros(n: nat): seq<bool> {
    seq(n, _ => false)
  }

  lemma {:induction false} StuffZeros(n: nat, bits: seq<bool>)
    ensures Stuff(Zeros(n) + bits, 0) == Zeros(n) + Stuff(bits, 0)
    ensures Ones(Zeros(n) + bits, 0) == Ones(bits, 0)
  {
    if n == 0 {
      assert Zeros(0) + bits == bits && Zeros(0) + Stuff(bits, 0) == Stuff(bits, 0);
    } else {
      StuffZeros(n - 1, bits);
      assert Zeros(n) + bits == [false] + (Zeros(n - 1) + bits);
      assert Zeros(n) + Stuff(bits, 0) == [false] + (Zeros(n - 1) + Stuff(bits, 0));
      assert ([false] + (Zeros(n - 1) + bits))[1..] == Zeros(n - 1) + bits;
    }
  }
}
