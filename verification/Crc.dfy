// The CRC of USB 2.0 section 8.3.5: the byte-wise table step of
// core/hdl/UsbCrcTbl.vhd against the bit-serial form of test/Usb2TstPkg.vhd, its
// residue, and what it detects.
//
// Vectors are bit sequences, index 0 being the least significant bit.
module Crc {
  import opened LineCode

  type Vec16 = s: seq<bool> | |s| == 16 witness seq(16, _ => false)

  // The vector with ones at the given positions.
  function OnesAt(ones: set<int>): Vec16 {
    seq(16, i => i in ones)
  }

  // x"A001", x"B001" and x"FFFF"
  const POLY16: Vec16 := OnesAt({0, 13, 15})
  const CHCK16: Vec16 := OnesAt({0, 12, 13, 15})
  const INIT16: Vec16 := Inv(OnesAt({}))

  // x"0014", x"0006" and x"001F"
  const POLY5: Vec16 := OnesAt({2, 4})
  const CHCK5: Vec16 := OnesAt({1, 2})
  const INIT5: Vec16 := OnesAt({0, 1, 2, 3, 4})

  function Xor(a: seq<bool>, b: seq<bool>): (c: seq<bool>)
    requires |a| == |b|
    ensures |c| == |a| && forall i :: 0 <= i < |a| ==> c[i] == (a[i] != b[i])
  {
    seq(|a|, i requires 0 <= i < |a| => a[i] != b[i])
  }

  function Inv(a: seq<bool>): (c: seq<bool>)
    ensures |c| == |a| && forall i :: 0 <= i < |a| ==> c[i] == !a[i]
  {
    seq(|a|, i requires 0 <= i < |a| => !a[i])
  }

  // One step of the register: shift right, and fold in the polynomial for a one.
  function Shift(v: Vec16, poly: Vec16): Vec16 {
    if v[0] then Xor(v[1..] + [false], poly) else v[1..] + [false]
  }

  function ShiftN(v: Vec16, poly: Vec16, n: nat): Vec16
    decreases n
  {
    if n == 0 then v else ShiftN(Shift(v, poly), poly, n - 1)
  }

  // The simple form: one message bit at a time, least significant first.
  function Serial(c: Vec16, poly: Vec16, bits: seq<bool>): Vec16
    decreases bits
  {
    if bits == [] then c else Serial(Shift(c[0 := c[0] != bits[0]], poly), poly, bits[1..])
  }

  function Table(x: Vec8, poly: Vec16): Vec16 {
    ShiftN(x + Zeros(8), poly, 8)
  }

  // The update the packet transmitter and receiver wire around the table.
  function Update(c: Vec16, d: bv8, poly: Vec16): Vec16 {
    Xor(Table(Xor(Bits(d), c[..8]), poly), c[8..] + Zeros(8))
  }

  function Updates(c: Vec16, bytes: seq<bv8>, poly: Vec16): Vec16
    decreases bytes
  {
    if bytes == [] then c else Updates(Update(c, bytes[0], poly), bytes[1..], poly)
  }

  // ---- the two loops ------------------------------------------------------------------

  // Process P_COMB of UsbCrcTbl.
  method CrcTbl(x: Vec8, poly: Vec16) returns (v: Vec16)
    ensures v == Table(x, poly)
  {
    v := x + Zeros(8);
    for i := 0 to 8
      invariant ShiftN(v, poly, 8 - i) == Table(x, poly)
    {
      var s := v[0];
      v := v[1..] + [false];
      if s {
        v := Xor(v, poly);
      }
    }
  }

  // Procedure ulpiTstCrc, for a message vector of any width.
  method TstCrc(c0: Vec16, poly: Vec16, x: seq<bool>) returns (c: Vec16)
    ensures c == Serial(c0, poly, x)
  {
    c := c0;
    for i := 0 to |x|
      invariant Serial(c, poly, x[i..]) == Serial(c0, poly, x)
    {
      ghost var was := c;
      var t := c[0];
      c := c[1..] + [false];
      if t != x[i] {
        c := Xor(c, poly);
      }
      assert was[0 := t != x[i]][1..] == was[1..];
      assert c == Shift(was[0 := t != x[i]], poly);
      assert x[i..][1..] == x[i + 1..];
    }
  }

  // ---- linearity ------------------------------------------------------------------------

  lemma ShiftLinear(a: Vec16, b: Vec16, poly: Vec16)
    ensures Shift(Xor(a, b), poly) == Xor(Shift(a, poly), Shift(b, poly))
  {
    var l, r := Shift(Xor(a, b), poly), Xor(Shift(a, poly), Shift(b, poly));
    assert forall i :: 0 <= i < 16 ==> l[i] == r[i];
  }

  lemma {:induction false} ShiftNLinear(a: Vec16, b: Vec16, poly: Vec16, n: nat)
    ensures ShiftN(Xor(a, b), poly, n) == Xor(ShiftN(a, poly, n), ShiftN(b, poly, n))
    decreases n
  {
    if n > 0 {
      ShiftLinear(a, b, poly);
      ShiftNLinear(Shift(a, poly), Shift(b, poly), poly, n - 1);
    }
  }

  // ---- the table step is the serial CRC -----------------------------------------------------

  function Padded(e: seq<bool>): Vec16
    requires |e| <= 16
  {
    e + Zeros(16 - |e|)
  }

  lemma {:induction false} SerialIsShift(c: Vec16, poly: Vec16, e: seq<bool>)
    requires |e| <= 16
    ensures Serial(c, poly, e) == ShiftN(Xor(c, Padded(e)), poly, |e|)
    decreases e
  {
    if e == [] {
      assert Xor(c, Padded([])) == c;
    } else {
      var c1 := Shift(c[0 := c[0] != e[0]], poly);
      SerialIsShift(c1, poly, e[1..]);
      var x := Shift(Xor(c, Padded(e)), poly);
      var y := Xor(c1, Padded(e[1..]));
      assert Xor(c, Padded(e))[0] == c[0 := c[0] != e[0]][0];
      assert forall i :: 0 <= i < 16 ==> x[i] == y[i];
      assert x == y;
    }
  }

  lemma {:induction false} ShiftZerosOut(n: nat, h: seq<bool>, poly: Vec16)
    requires n + |h| == 16
    ensures ShiftN(Zeros(n) + h, poly, n) == h + Zeros(n)
    decreases n
  {
    if n == 0 {
      assert Zeros(0) + h == h + Zeros(0);
    } else {
      assert Zeros(n) + h == [false] + (Zeros(n - 1) + h);
      assert (Zeros(n) + h)[1..] + [false] == Zeros(n - 1) + (h + [false]);
      ShiftZerosOut(n - 1, h + [false], poly);
      assert h + [false] + Zeros(n - 1) == h + Zeros(n);
    }
  }

  lemma SplitState(c: Vec16, e: Vec8)
    ensures Xor(c, Padded(e)) == Xor(Xor(e, c[..8]) + Zeros(8), Zeros(8) + c[8..])
  {
    var x, y := Xor(c, Padded(e)), Xor(Xor(e, c[..8]) + Zeros(8), Zeros(8) + c[8..]);
    assert forall i :: 0 <= i < 16 ==> x[i] == y[i];
  }

  lemma TableIsSerial(c: Vec16, e: Vec8, poly: Vec16)
    ensures Xor(Table(Xor(e, c[..8]), poly), c[8..] + Zeros(8)) == Serial(c, poly, e)
  {
    SerialIsShift(c, poly, e);
    SplitState(c, e);
    ShiftNLinear(Xor(e, c[..8]) + Zeros(8), Zeros(8) + c[8..], poly, 8);
    ShiftZerosOut(8, c[8..], poly);
  }

  // The byte-at-a-time update equals the bit-serial CRC, for every polynomial,
  // register value and byte.
  lemma UpdateIsSerial(c: Vec16, d: bv8, poly: Vec16)
    ensures Update(c, d, poly) == Serial(c, poly, Bits(d))
  {
    TableIsSerial(c, Bits(d), poly);
  }

  lemma {:induction false} SerialConcat(c: Vec16, poly: Vec16, a: seq<bool>, b: seq<bool>)
    ensures Serial(c, poly, a + b) == Serial(Serial(c, poly, a), poly, b)
    decreases a
  {
    if a == [] {
      assert a + b == b;
    } else {
      assert (a + b)[1..] == a[1..] + b;
      SerialConcat(Shift(c[0 := c[0] != a[0]], poly), poly, a[1..], b);
    }
  }

  lemma {:induction false} UpdatesIsSerial(c: Vec16, bytes: seq<bv8>, poly: Vec16)
    ensures Updates(c, bytes, poly) == Serial(c, poly, Flat(bytes))
    decreases bytes
  {
    if bytes != [] {
      UpdateIsSerial(c, bytes[0], poly);
      UpdatesIsSerial(Update(c, bytes[0], poly), bytes[1..], poly);
      SerialConcat(c, poly, Bits(bytes[0]), Flat(bytes[1..]));
    }
  }

  lemma {:induction false} UpdatesConcat(c: Vec16, a: seq<bv8>, b: seq<bv8>, poly: Vec16)
    ensures Updates(c, a + b, poly) == Updates(Updates(c, a, poly), b, poly)
    decreases a
  {
    if a == [] {
      assert a + b == b;
    } else {
      assert (a + b)[1..] == a[1..] + b;
      UpdatesConcat(Update(c, a[0], poly), a[1..], b, poly);
    }
  }

  // ---- the residue ----------------------------------------------------------------------------

  // The two bytes a transmitter appends: the register inverted, low byte first.
  function CrcBytes(c: Vec16): seq<bv8> {
    [FromBits(Inv(c[..8])), FromBits(Inv(c[8..]))]
  }

  lemma CrcBytesBits(c: Vec16)
    ensures Flat(CrcBytes(c)) == Inv(c)
  {
    hide Flat, Bits, FromBits, Inv;
    BitsFromBits(Inv(c[..8]));
    BitsFromBits(Inv(c[8..]));
    FlatPair(FromBits(Inv(c[..8])), FromBits(Inv(c[8..])));
    InvSplit(c);
  }

  lemma FlatPair(a: bv8, b: bv8)
    ensures Flat([a, b]) == Bits(a) + Bits(b)
  {
    hide Bits;
    assert [a, b][1..] == [b] && [b][1..] == [];
    assert Flat([b]) == Bits(b) + Flat([]) == Bits(b);
  }

  lemma InvSplit(c: Vec16)
    ensures Inv(c) == Inv(c[..8]) + Inv(c[8..])
  {
  }

  // The register after 2m of the steps that start from all ones, 1 <= m <= 7.
  predicate Fading(v: Vec16, m: nat) {
    forall i :: 0 <= i < 16 ==> (v[i] <==> i == 14 || i == 15 - 2 * m || i < 14 - 2 * m)
  }

  lemma FadeStep(v: Vec16, m: nat)
    requires 1 <= m <= 6 && Fading(v, m)
    ensures Fading(Shift(Shift(v, POLY16), POLY16), m + 1)
  {
    var w := Shift(v, POLY16);
    assert forall i :: 0 <= i < 16 ==> (w[i] <==> i == 15 || 0 < i == 14 - 2 * m || 0 < i < 13 - 2 * m);
  }

  lemma {:induction false} Fade(v: Vec16, m: nat)
    requires 1 <= m <= 7 && Fading(v, m)
    ensures ShiftN(v, POLY16, 16 - 2 * m) == CHCK16
    decreases 7 - m
  {
    var w := Shift(v, POLY16);
    assert ShiftN(v, POLY16, 16 - 2 * m) == ShiftN(w, POLY16, 15 - 2 * m)
        == ShiftN(Shift(w, POLY16), POLY16, 14 - 2 * m);
    if m < 7 {
      FadeStep(v, m);
      Fade(Shift(w, POLY16), m + 1);
    } else {
      assert forall i :: 0 <= i < 16 ==> (w[i] <==> i == 0 || i == 13);
      assert forall i :: 0 <= i < 16 ==> Shift(w, POLY16)[i] == CHCK16[i];
    }
  }

  // Sixteen steps from all ones.
  lemma OnesResidue()
    ensures ShiftN(INIT16, POLY16, 16) == CHCK16
  {
    var v := Shift(INIT16, POLY16);
    assert forall i :: 0 <= i < 16 ==> (v[i] <==> i != 0 && i != 13);
    assert Fading(Shift(v, POLY16), 1);
    Fade(Shift(v, POLY16), 1);
    assert ShiftN(INIT16, POLY16, 16) == ShiftN(v, POLY16, 15) == ShiftN(Shift(v, POLY16), POLY16, 14);
  }

  lemma XorInverse(c: Vec16)
    ensures Xor(c, Padded(Inv(c))) == INIT16
  {
    var x := Xor(c, Padded(Inv(c)));
    assert forall i :: 0 <= i < 16 ==> x[i] == INIT16[i];
  }

  lemma SerialInverse(c: Vec16)
    ensures Serial(c, POLY16, Inv(c)) == CHCK16
  {
    SerialIsShift(c, POLY16, Inv(c));
    XorInverse(c);
    OnesResidue();
  }

  // Whatever the message left in the register, appending its inverse leads to the
  // constant the receiver checks for.
  lemma ResidueConstant(c: Vec16)
    ensures Updates(c, CrcBytes(c), POLY16) == CHCK16
  {
    var bs := CrcBytes(c);
    CrcBytesBits(c);
    UpdatesIsSerial(c, bs, POLY16);
    SerialInverse(c);
  }

  // ---- what the check detects -------------------------------------------------------------------

  const ZERO: Vec16 := Zeros(16)

  // Nothing above the low `n` bits.
  predicate Within(v: Vec16, n: nat) {
    forall i :: n <= i < 16 ==> !v[i]
  }

  // A polynomial of degree `n`: its top bit is set.
  predicate Degree(poly: Vec16, n: nat) {
    0 < n <= 16 && poly[n - 1] && Within(poly, n)
  }

  lemma XorZero(a: Vec16, b: Vec16)
    ensures Xor(a, b) == ZERO <==> a == b
  {
    if Xor(a, b) == ZERO {
      assert forall i :: 0 <= i < 16 ==> !Xor(a, b)[i];
    }
  }

  // The zero-input step loses nothing, because the top bit of the polynomial is set.
  lemma ShiftInjective(v: Vec16, poly: Vec16, n: nat)
    requires Degree(poly, n) && Within(v, n) && Shift(v, poly) == ZERO
    ensures v == ZERO
  {
    assert !Shift(v, poly)[n - 1];
    assert !v[0];
    forall i | 1 <= i < 16
      ensures !v[i]
    {
      assert Shift(v, poly)[i - 1] == v[i];
    }
  }

  lemma {:induction false} ShiftNInjective(v: Vec16, poly: Vec16, n: nat, k: nat)
    requires Degree(poly, n) && Within(v, n) && ShiftN(v, poly, k) == ZERO
    ensures v == ZERO
    decreases k
  {
    if k > 0 {
      ShiftNInjective(Shift(v, poly), poly, n, k - 1);
      ShiftInjective(v, poly, n);
    }
  }

  lemma {:induction false} SerialWithin(c: Vec16, poly: Vec16, n: nat, bits: seq<bool>)
    requires Degree(poly, n) && Within(c, n)
    ensures Within(Serial(c, poly, bits), n)
    decreases bits
  {
    if bits != [] {
      SerialWithin(Shift(c[0 := c[0] != bits[0]], poly), poly, n, bits[1..]);
    }
  }

  // Two messages of equal length: their registers differ by the CRC of their
  // difference.
  lemma {:induction false} SerialLinear(c: Vec16, d: Vec16, a: seq<bool>, b: seq<bool>, poly: Vec16)
    requires |a| == |b|
    ensures Xor(Serial(c, poly, a), Serial(d, poly, b)) == Serial(Xor(c, d), poly, Xor(a, b))
    decreases a
  {
    if a != [] {
      var c', d' := c[0 := c[0] != a[0]], d[0 := d[0] != b[0]];
      var x := Xor(c, d);
      var x' := x[0 := x[0] != Xor(a, b)[0]];
      assert forall i :: 0 <= i < 16 ==> x'[i] == Xor(c', d')[i];
      assert x' == Xor(c', d');
      ShiftLinear(c', d', poly);
      assert Xor(a, b)[1..] == Xor(a[1..], b[1..]);
      SerialLinear(Shift(c', poly), Shift(d', poly), a[1..], b[1..], poly);
    }
  }

  lemma {:induction false} SerialZeros(c: Vec16, n: nat, poly: Vec16)
    ensures Serial(c, poly, Zeros(n)) == ShiftN(c, poly, n)
    decreases n
  {
    if n > 0 {
      assert Zeros(n)[1..] == Zeros(n - 1);
      assert c[0 := c[0] != false] == c;
      SerialZeros(Shift(c, poly), n - 1, poly);
    }
  }

  // Registers that differ still differ after the same bits.
  lemma SuffixInjective(c: Vec16, d: Vec16, poly: Vec16, n: nat, post: seq<bool>)
    requires Degree(poly, n) && Within(c, n) && Within(d, n)
    requires Serial(c, poly, post) == Serial(d, poly, post)
    ensures c == d
  {
    SerialLinear(c, d, post, post, poly);
    assert Xor(post, post) == Zeros(|post|);
    SerialZeros(Xor(c, d), |post|, poly);
    XorZero(Serial(c, poly, post), Serial(d, poly, post));
    ShiftNInjective(Xor(c, d), poly, n, |post|);
    XorZero(c, d);
  }

  // As many bits as the register is wide are recoverable from it.
  lemma WindowInjective(s: Vec16, poly: Vec16, n: nat, a: seq<bool>, b: seq<bool>)
    requires Degree(poly, n) && Within(s, n)
    requires |a| == |b| <= n && Serial(s, poly, a) == Serial(s, poly, b)
    ensures a == b
  {
    SerialIsShift(s, poly, a);
    SerialIsShift(s, poly, b);
    var x, y := Xor(s, Padded(a)), Xor(s, Padded(b));
    ShiftNLinear(x, y, poly, |a|);
    XorZero(ShiftN(x, poly, |a|), ShiftN(y, poly, |a|));
    ShiftNInjective(Xor(x, y), poly, n, |a|);
    XorZero(x, y);
    forall i | 0 <= i < |a|
      ensures a[i] == b[i]
    {
      assert x[i] == (s[i] != a[i]) && y[i] == (s[i] != b[i]);
    }
  }

  // Two bit streams that differ only inside a window as wide as the polynomial's
  // degree and leave the same register are the same stream.
  lemma BurstInjective(c: Vec16, poly: Vec16, n: nat, pre: seq<bool>, a: seq<bool>, b: seq<bool>, post: seq<bool>)
    requires Degree(poly, n) && Within(c, n) && |a| == |b| <= n
    requires Serial(c, poly, pre + (a + post)) == Serial(c, poly, pre + (b + post))
    ensures a == b
  {
    var s := Serial(c, poly, pre);
    SerialConcat(c, poly, pre, a + post);
    SerialConcat(c, poly, pre, b + post);
    SerialConcat(s, poly, a, post);
    SerialConcat(s, poly, b, post);
    SerialWithin(c, poly, n, pre);
    SerialWithin(s, poly, n, a);
    SerialWithin(s, poly, n, b);
    SuffixInjective(Serial(s, poly, a), Serial(s, poly, b), poly, n, post);
    WindowInjective(s, poly, n, a, b);
  }

  lemma {:induction false} FlatInjective(x: seq<bv8>, y: seq<bv8>)
    requires Flat(x) == Flat(y)
    ensures x == y
    decreases x
  {
    if x != [] {
      assert y != [] by { assert |Flat(x)| == |Flat(y)|; }
      assert Bits(x[0]) == Flat(x)[..8] && Bits(y[0]) == Flat(y)[..8];
      FromBitsBits(x[0]);
      FromBitsBits(y[0]);
      assert Flat(x[1..]) == Flat(x)[8..] && Flat(y[1..]) == Flat(y)[8..];
      FlatInjective(x[1..], y[1..]);
      assert x == [x[0]] + x[1..] && y == [y[0]] + y[1..];
    }
  }

  // The receiver's verdict on the bytes after a data PID.
  predicate Accepted(bytes: seq<bv8>) {
    Updates(INIT16, bytes, POLY16) == CHCK16
  }

  // The same for streams that agree outside a window.
  lemma WindowDetected(c: Vec16, poly: Vec16, n: nat, x: seq<bool>, y: seq<bool>, w: nat)
    requires Degree(poly, n) && Within(c, n) && |x| == |y|
    requires forall i :: 0 <= i < |x| && !(w <= i < w + n) ==> x[i] == y[i]
    requires Serial(c, poly, x) == Serial(c, poly, y)
    ensures x == y
  {
    hide Serial, Degree;
    var lo := if w < |x| then w else |x|;
    var hi := if w + n < |x| then w + n else |x|;
    var pre, post := x[..lo], x[hi..];
    assert x == pre + (x[lo..hi] + post);
    assert y[..lo] == pre && y[hi..] == post;
    assert y == pre + (y[lo..hi] + post);
    BurstInjective(c, poly, n, pre, x[lo..hi], y[lo..hi], post);
  }

  // Of two different packets of equal length that differ only within sixteen
  // consecutive wire bits, at most one is accepted.
  lemma BurstDetected(x: seq<bv8>, y: seq<bv8>, w: nat)
    requires |x| == |y| && x != y
    requires forall i :: 0 <= i < 8 * |x| && !(w <= i < w + 16) ==> Flat(x)[i] == Flat(y)[i]
    ensures !(Accepted(x) && Accepted(y))
  {
    if Accepted(x) && Accepted(y) {
      UpdatesIsSerial(INIT16, x, POLY16);
      UpdatesIsSerial(INIT16, y, POLY16);
      WindowDetected(INIT16, POLY16, 16, Flat(x), Flat(y), w);
      FlatInjective(x, y);
    }
  }

  // A message is accepted with exactly one pair of bytes behind it.
  lemma AcceptedIff(m: seq<bv8>, a: bv8, b: bv8)
    ensures Accepted(m + [a, b]) <==> [a, b] == CrcBytes(Updates(INIT16, m, POLY16))
  {
    var c := Updates(INIT16, m, POLY16);
    UpdatesConcat(INIT16, m, [a, b], POLY16);
    ResidueConstant(c);
    if Accepted(m + [a, b]) {
      UpdatesIsSerial(c, [a, b], POLY16);
      UpdatesIsSerial(c, CrcBytes(c), POLY16);
      WindowInjective(c, POLY16, 16, Flat([a, b]), Flat(CrcBytes(c)));
      FlatInjective([a, b], CrcBytes(c));
    }
  }

  // ---- odd numbers of wrong bits --------------------------------------------------------------

  predicate Odd(s: seq<bool>) {
    s != [] && s[0] != Odd(s[1..])
  }

  lemma {:induction false} OddXor(a: seq<bool>, b: seq<bool>)
    requires |a| == |b|
    ensures Odd(Xor(a, b)) == (Odd(a) != Odd(b))
  {
    if a != [] {
      assert Xor(a, b)[1..] == Xor(a[1..], b[1..]);
      OddXor(a[1..], b[1..]);
    }
  }

  lemma {:induction false} OddConcat(a: seq<bool>, b: seq<bool>)
    ensures Odd(a + b) == (Odd(a) != Odd(b))
  {
    if a == [] {
      assert a + b == b;
    } else {
      assert (a + b)[1..] == a[1..] + b;
      OddConcat(a[1..], b);
    }
  }

  lemma {:induction false} OddZeros(n: nat)
    ensures !Odd(Zeros(n))
  {
    if n > 0 {
      assert Zeros(n)[1..] == Zeros(n - 1);
      OddZeros(n - 1);
    }
  }

  lemma OddPoly16()
    ensures Odd(POLY16)
  {
    assert POLY16 == [true] + (Zeros(12) + ([true] + ([false] + [true])));
    OddConcat([true], Zeros(12) + ([true] + ([false] + [true])));
    OddConcat(Zeros(12), [true] + ([false] + [true]));
    OddZeros(12);
    OddConcat([true], [false] + [true]);
    OddConcat([false], [true]);
  }

  lemma OddShift(v: Vec16, poly: Vec16)
    requires Odd(poly)
    ensures Odd(Shift(v, poly)) == Odd(v)
  {
    OddConcat(v[1..], [false]);
    assert !Odd([false]);
    OddXor(v[1..] + [false], poly);
  }

  lemma {:induction false} OddSerial(c: Vec16, poly: Vec16, bits: seq<bool>)
    requires Odd(poly)
    ensures Odd(Serial(c, poly, bits)) == (Odd(c) != Odd(bits))
    decreases bits
  {
    if bits != [] {
      var c' := c[0 := c[0] != bits[0]];
      assert c'[1..] == c[1..];
      OddShift(c', poly);
      OddSerial(Shift(c', poly), poly, bits[1..]);
    }
  }

  // An odd number of wrong bits, anywhere, is always noticed.
  lemma OddErrorDetected(x: seq<bv8>, y: seq<bv8>)
    requires |x| == |y| && Odd(Xor(Flat(x), Flat(y)))
    ensures !(Accepted(x) && Accepted(y))
  {
    UpdatesIsSerial(INIT16, x, POLY16);
    UpdatesIsSerial(INIT16, y, POLY16);
    OddPoly16();
    OddSerial(INIT16, POLY16, Flat(x));
    OddSerial(INIT16, POLY16, Flat(y));
    OddXor(Flat(x), Flat(y));
  }

  // ---- tokens ---------------------------------------------------------------------------------------

  // A register of five bits.
  predicate Five(v: Vec16, a: bool, b: bool, c: bool, d: bool, e: bool) {
    v[0] == a && v[1] == b && v[2] == c && v[3] == d && v[4] == e && Within(v, 5)
  }

  lemma ShiftFive(v: Vec16, a: bool, b: bool, c: bool, d: bool, e: bool)
    requires Five(v, a, b, c, d, e)
    ensures Five(Shift(v, POLY5), b, c, d != a, e, a)
  {
  }

  lemma FiveAlike(v: Vec16, w: Vec16, a: bool, b: bool, c: bool, d: bool, e: bool)
    requires Five(v, a, b, c, d, e) && Five(w, a, b, c, d, e)
    ensures v == w
  {
  }

  lemma Ones5Residue()
    ensures ShiftN(INIT5, POLY5, 5) == CHCK5
  {
    assert Five(INIT5, true, true, true, true, true);
    assert Five(CHCK5, false, true, true, false, false);
    hide Five, Shift;
    var v1 := Shift(INIT5, POLY5); var v2 := Shift(v1, POLY5); var v3 := Shift(v2, POLY5); var v4 := Shift(v3, POLY5);
    ShiftFive(INIT5, true, true, true, true, true);
    ShiftFive(v1, true, true, false, true, true);
    ShiftFive(v2, true, false, false, true, true);
    ShiftFive(v3, false, false, false, true, true);
    ShiftFive(v4, false, false, true, true, false);
    FiveAlike(Shift(v4, POLY5), CHCK5, false, true, true, false, false);
    assert ShiftN(INIT5, POLY5, 5) == ShiftN(v1, POLY5, 4) == ShiftN(v2, POLY5, 3) == ShiftN(v3, POLY5, 2)
        == ShiftN(v4, POLY5, 1);
  }

  lemma XorInverse5(c: Vec16)
    requires Within(c, 5)
    ensures Xor(c, Padded(Inv(c[..5]))) == INIT5
  {
    var x := Xor(c, Padded(Inv(c[..5])));
    assert forall i :: 0 <= i < 16 ==> x[i] == INIT5[i];
  }

  lemma SerialInverse5(c: Vec16)
    requires Within(c, 5)
    ensures Serial(c, POLY5, Inv(c[..5])) == CHCK5
  {
    SerialIsShift(c, POLY5, Inv(c[..5]));
    XorInverse5(c);
    Ones5Residue();
  }

  // Eleven token bits are accepted with exactly one five-bit field behind them.
  lemma TokenAcceptedIff(token: seq<bool>, field: seq<bool>)
    requires |token| == 11 && |field| == 5
    ensures Serial(INIT5, POLY5, token + field) == CHCK5 <==> field == Inv(Serial(INIT5, POLY5, token)[..5])
  {
    var c := Serial(INIT5, POLY5, token);
    SerialConcat(INIT5, POLY5, token, field);
    SerialWithin(INIT5, POLY5, 5, token);
    SerialInverse5(c);
    if Serial(c, POLY5, field) == CHCK5 {
      WindowInjective(c, POLY5, 5, field, Inv(c[..5]));
    }
  }
}
