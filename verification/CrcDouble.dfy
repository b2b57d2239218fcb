// Two wrong bits, USB 2.0 section 8.3.5: each check misses them exactly when their
// distance is a multiple of the order of its polynomial, 31 for tokens and 32767 for data.
//
// The order is found without counting up to it: after its factor x + 1 is split off, the
// polynomial is x^15 + x + 1, so that the power x^16 is x^2 + x, and squaring leads from
// there to every power of two.
module CrcDouble {
  import opened LineCode
  import opened Crc

  // ---- registers that come back ---------------------------------------------------------

  predicate Back(v: Vec16, poly: Vec16, k: nat) {
    ShiftN(v, poly, k) == v
  }

  lemma {:induction false} ShiftNSum(v: Vec16, poly: Vec16, m: nat, n: nat)
    ensures ShiftN(v, poly, m + n) == ShiftN(ShiftN(v, poly, m), poly, n)
    decreases m
  {
    hide Shift;
    if m > 0 {
      ShiftNSum(Shift(v, poly), poly, m - 1, n);
    }
  }

  lemma {:induction false} ShiftNWithin(v: Vec16, poly: Vec16, n: nat, k: nat)
    requires Degree(poly, n) && Within(v, n)
    ensures Within(ShiftN(v, poly, k), n)
    decreases k
  {
    if k > 0 {
      ShiftWithin(v, poly, n);
      hide Shift, Degree, Within;
      ShiftNWithin(Shift(v, poly), poly, n, k - 1);
    }
  }

  lemma ShiftWithin(v: Vec16, poly: Vec16, n: nat)
    requires Degree(poly, n) && Within(v, n)
    ensures Within(Shift(v, poly), n)
  {
  }

  lemma XorWithin(a: Vec16, b: Vec16, n: nat)
    requires Within(a, n) && Within(b, n)
    ensures Within(Xor(a, b), n)
  {
  }

  // A register that comes back after a and after b steps comes back after b - a.
  lemma BackMinus(v: Vec16, poly: Vec16, n: nat, a: nat, b: nat)
    requires Degree(poly, n) && Within(v, n) && a <= b && Back(v, poly, a) && Back(v, poly, b)
    ensures Back(v, poly, b - a)
  {
    hide ShiftN, Degree, Within, Xor;
    var w := ShiftN(v, poly, b - a);
    ShiftNSum(v, poly, b - a, a);
    ShiftNLinear(w, v, poly, a);
    XorZero(ShiftN(w, poly, a), ShiftN(v, poly, a));
    ShiftNWithin(v, poly, n, b - a);
    XorWithin(w, v, n);
    ShiftNInjective(Xor(w, v), poly, n, a);
    XorZero(w, v);
  }

  lemma BackPlus(v: Vec16, poly: Vec16, a: nat, b: nat)
    requires Back(v, poly, a) && Back(v, poly, b)
    ensures Back(v, poly, a + b)
  {
    hide ShiftN;
    ShiftNSum(v, poly, a, b);
  }

  lemma {:induction false} BackTimes(v: Vec16, poly: Vec16, a: nat, m: nat)
    requires Back(v, poly, a)
    ensures Back(v, poly, a * m)
    decreases m
  {
    if m > 0 {
      hide ShiftN;
      BackTimes(v, poly, a, m - 1);
      BackPlus(v, poly, a * (m - 1), a);
      assert a * (m - 1) + a == a * m;
    }
  }

  lemma BackRest(v: Vec16, poly: Vec16, n: nat, a: nat, q: nat, r: nat)
    requires Degree(poly, n) && Within(v, n) && Back(v, poly, a) && Back(v, poly, a * q + r)
    ensures Back(v, poly, r)
  {
    hide Back, Degree, Within;
    BackTimes(v, poly, a, q);
    BackMinus(v, poly, n, a * q, a * q + r);
  }

  // Euclid's algorithm: it comes back after a common divisor of any two such numbers.
  lemma {:induction false} BackDivisor(v: Vec16, poly: Vec16, n: nat, a: nat, b: nat) returns (g: nat, x: nat, y: nat)
    requires Degree(poly, n) && Within(v, n) && 0 < a && Back(v, poly, a) && Back(v, poly, b)
    ensures 0 < g && a == g * x && b == g * y && Back(v, poly, g)
    decreases a
  {
    hide Back, Degree, Within;
    var q, r := DivMod(a, b);
    if r == 0 {
      g, x, y := a, 1, q;
    } else {
      BackRest(v, poly, n, a, q, r);
      var x1, y1;
      g, x1, y1 := BackDivisor(v, poly, n, r, a);
      x, y := y1, y1 * q + x1;
      Multiples(g, y1, q, x1);
    }
  }

  lemma DivMod(a: nat, b: nat) returns (q: nat, r: nat)
    requires 0 < a
    ensures b == a * q + r && r < a && r == b % a
  {
    q, r := b / a, b % a;
  }

  lemma Multiples(g: nat, y: nat, q: nat, x: nat)
    ensures g * y * q + g * x == g * (y * q + x)
  {
  }

  // ---- what two wrong bits do ----------------------------------------------------------------

  // The streams differ at i and at j and nowhere else.
  predicate DifferAt(a: seq<bool>, b: seq<bool>, i: nat, j: nat) {
    && |a| == |b| && i < j < |a|
    && forall t :: 0 <= t < |a| ==> (a[t] != b[t] <==> t == i || t == j)
  }

  function TwoOnes(i: nat, k: nat, m: nat): seq<bool>
    requires k > 0
  {
    Zeros(i) + ([true] + (Zeros(k - 1) + ([true] + Zeros(m))))
  }

  lemma Difference(a: seq<bool>, b: seq<bool>, i: nat, j: nat)
    requires DifferAt(a, b, i, j)
    ensures Xor(a, b) == TwoOnes(i, j - i, |a| - 1 - j)
  {
    var x, y := Xor(a, b), TwoOnes(i, j - i, |a| - 1 - j);
    assert |x| == |y|;
    assert forall t :: 0 <= t < |x| ==> x[t] == y[t];
  }

  lemma {:induction false} ZeroStays(poly: Vec16, n: nat)
    ensures ShiftN(ZERO, poly, n) == ZERO
  {
    if n > 0 {
      assert forall i :: 0 <= i < 16 ==> Shift(ZERO, poly)[i] == ZERO[i];
      assert Shift(ZERO, poly) == ZERO;
      ZeroStays(poly, n - 1);
    }
  }

  lemma OneIn(c: Vec16, poly: Vec16)
    ensures Serial(c, poly, [true]) == Xor(Shift(c, poly), poly)
  {
    var x, y := Shift(c[0 := !c[0]], poly), Xor(Shift(c, poly), poly);
    assert c[0 := !c[0]][1..] == c[1..];
    assert forall i :: 0 <= i < 16 ==> x[i] == y[i];
    assert [true][1..] == [];
    assert Serial(c, poly, [true]) == Serial(x, poly, []);
  }

  lemma XorOfZero(v: Vec16)
    ensures Xor(ZERO, v) == v
  {
  }

  lemma ZeroWithin(n: nat)
    ensures Within(ZERO, n)
  {
  }

  // The register of the difference is zero exactly when the polynomial comes back.
  lemma TwoOnesEnd(poly: Vec16, n: nat, i: nat, k: nat, m: nat)
    requires Degree(poly, n) && k > 0
    ensures Serial(ZERO, poly, TwoOnes(i, k, m)) == ZERO <==> Back(poly, poly, k)
  {
    hide Serial, ShiftN, Shift, Degree, Within, Xor;
    var tail := [true] + Zeros(m);
    var late := Zeros(k - 1) + tail;
    SerialConcat(ZERO, poly, Zeros(i), [true] + late);
    SerialZeros(ZERO, i, poly);
    ZeroStays(poly, i);
    SerialConcat(ZERO, poly, [true], late);
    OneIn(ZERO, poly);
    ZeroStays(poly, 1);
    ShiftOnce(ZERO, poly);
    XorOfZero(poly);
    SerialConcat(poly, poly, Zeros(k - 1), tail);
    SerialZeros(poly, k - 1, poly);
    var c := ShiftN(poly, poly, k - 1);
    SerialConcat(c, poly, [true], Zeros(m));
    OneIn(c, poly);
    ShiftNSum(poly, poly, k - 1, 1);
    ShiftOnce(c, poly);
    var d := Xor(ShiftN(poly, poly, k), poly);
    SerialZeros(d, m, poly);
    LastZeros(poly, n, k, m);
    XorZero(ShiftN(poly, poly, k), poly);
  }

  lemma ShiftOnce(v: Vec16, poly: Vec16)
    ensures ShiftN(v, poly, 1) == Shift(v, poly)
  {
    hide Shift;
    assert ShiftN(v, poly, 1) == ShiftN(Shift(v, poly), poly, 0);
  }

  lemma LastZeros(poly: Vec16, n: nat, k: nat, m: nat)
    requires Degree(poly, n)
    ensures var d := Xor(ShiftN(poly, poly, k), poly); ShiftN(d, poly, m) == ZERO <==> d == ZERO
  {
    var d := Xor(ShiftN(poly, poly, k), poly);
    assert Within(poly, n);
    hide ShiftN, Degree, Within, Xor;
    ShiftNWithin(poly, poly, n, k);
    XorWithin(ShiftN(poly, poly, k), poly, n);
    ZeroStays(poly, m);
    if ShiftN(d, poly, m) == ZERO {
      ShiftNInjective(d, poly, n, m);
    }
  }

  // For every polynomial of full degree, start value and message: two wrong bits stay
  // unnoticed if and only if the polynomial comes back after as many steps as lie between.
  lemma DoubleError(c: Vec16, poly: Vec16, n: nat, a: seq<bool>, b: seq<bool>, i: nat, j: nat)
    requires Degree(poly, n) && DifferAt(a, b, i, j)
    ensures Serial(c, poly, a) == Serial(c, poly, b) <==> Back(poly, poly, j - i)
  {
    hide Serial, Back, Degree, Xor, TwoOnes;
    SerialLinear(c, c, a, b, poly);
    XorZero(c, c);
    Difference(a, b, i, j);
    XorZero(Serial(c, poly, a), Serial(c, poly, b));
    TwoOnesEnd(poly, n, i, j - i, |a| - 1 - j);
  }

  // ---- registers as machine words --------------------------------------------------------------

  function Mask(i: nat): bv16
    requires i < 16
  {
    [1, 2, 4, 8, 0x10, 0x20, 0x40, 0x80, 0x100, 0x200, 0x400, 0x800, 0x1000, 0x2000, 0x4000, 0x8000][i]
  }

  predicate Bit(b: bv16, i: nat)
    requires i < 16
  {
    b & Mask(i) != 0
  }

  function Word(b: bv16): Vec16 {
    seq(16, i requires 0 <= i < 16 => Bit(b, i))
  }

  predicate Single(m: bv16) {
    m != 0 && m & (m - 1) == 0
  }

  lemma MaskSingle(i: nat)
    requires i < 16
    ensures Single(Mask(i)) && (i < 15 ==> Mask(i) < 0x8000 && Mask(i + 1) == Mask(i) << 1)
    ensures i == 15 ==> Mask(i) == 0x8000
  {
  }

  lemma XorBit(a: bv16, b: bv16, m: bv16)
    requires Single(m)
    ensures (a ^ b) & m != 0 <==> ((a & m != 0) != (b & m != 0))
  {
  }

  lemma HalfBit(b: bv16, m: bv16, m': bv16)
    requires Single(m) && m < 0x8000 && m' == m << 1
    ensures (b >> 1) & m != 0 <==> b & m' != 0
  {
  }

  lemma HalfTop(b: bv16)
    ensures (b >> 1) & 0x8000 == 0
  {
  }

  function Step(b: bv16, p: bv16): bv16 {
    if b & 1 != 0 then (b >> 1) ^ p else b >> 1
  }

  function Steps(b: bv16, p: bv16, n: nat): bv16
    decreases n
  {
    if n == 0 then b else Steps(Step(b, p), p, n - 1)
  }

  lemma BitXor(a: bv16, b: bv16, i: nat)
    requires i < 16
    ensures Bit(a ^ b, i) <==> Bit(a, i) != Bit(b, i)
  {
    hide Mask, Single;
    MaskSingle(i);
    XorBit(a, b, Mask(i));
  }

  lemma BitHalf(b: bv16, i: nat)
    requires i < 15
    ensures Bit(b >> 1, i) <==> Bit(b, i + 1)
  {
    hide Mask, Single;
    MaskSingle(i);
    HalfBit(b, Mask(i), Mask(i + 1));
  }

  lemma BitTop(b: bv16)
    ensures !Bit(b >> 1, 15)
  {
    HalfTop(b);
    assert Mask(15) == 0x8000;
  }

  lemma WordXor(a: bv16, b: bv16)
    ensures Word(a ^ b) == Xor(Word(a), Word(b))
  {
    hide Bit;
    var x, y := Word(a ^ b), Xor(Word(a), Word(b));
    forall i | 0 <= i < 16 ensures x[i] == y[i] {
      BitXor(a, b, i);
    }
  }

  lemma WordHalf(b: bv16)
    ensures Word(b >> 1) == Word(b)[1..] + [false]
  {
    hide Bit;
    var x, y := Word(b >> 1), Word(b)[1..] + [false];
    forall i | 0 <= i < 16 ensures x[i] == y[i] {
      if i < 15 { BitHalf(b, i); } else { BitTop(b); }
    }
  }

  lemma WordLow(b: bv16)
    ensures Word(b)[0] <==> b & 1 != 0
  {
    assert Mask(0) == 1;
  }

  lemma WordStep(b: bv16, p: bv16)
    ensures Word(Step(b, p)) == Shift(Word(b), Word(p))
  {
    hide Word, Xor;
    WordHalf(b);
    WordLow(b);
    WordXor(b >> 1, p);
  }

  lemma {:induction false} WordSteps(b: bv16, p: bv16, n: nat)
    ensures Word(Steps(b, p, n)) == ShiftN(Word(b), Word(p), n)
    decreases n
  {
    hide Word, Shift, Step;
    if n > 0 {
      WordStep(b, p);
      WordSteps(Step(b, p), p, n - 1);
    }
  }

  lemma WordInjective(a: bv16, b: bv16)
    requires Word(a) == Word(b)
    ensures a == b
  {
    WordXor(a, b);
    XorZero(Word(a), Word(b));
    hide Word;
    WordZero(a ^ b);
  }

  lemma WordZero(b: bv16)
    requires Word(b) == ZERO
    ensures b == 0
  {
    forall i | 0 <= i < 16 ensures !Bit(b, i) {
      assert !Word(b)[i];
    }
    hide Word;
    assert !Bit(b, 0) && !Bit(b, 1) && !Bit(b, 2) && !Bit(b, 3);
    assert !Bit(b, 4) && !Bit(b, 5) && !Bit(b, 6) && !Bit(b, 7);
    assert !Bit(b, 8) && !Bit(b, 9) && !Bit(b, 10) && !Bit(b, 11);
    assert !Bit(b, 12) && !Bit(b, 13) && !Bit(b, 14) && !Bit(b, 15);
  }

  lemma ReturnsBack(b: bv16, p: bv16, k: nat)
    ensures Steps(b, p, k) == b <==> Back(Word(b), Word(p), k)
  {
    hide Word, Steps, ShiftN;
    WordSteps(b, p, k);
    if Word(Steps(b, p, k)) == Word(b) {
      WordInjective(Steps(b, p, k), b);
    }
  }

  // ---- powers of two ---------------------------------------------------------------------------

  // The power 16n is the sum of the powers 2n and n.
  predicate Sixteenth(w: Vec16, poly: Vec16, n: nat) {
    ShiftN(w, poly, 16 * n) == Xor(ShiftN(w, poly, 2 * n), ShiftN(w, poly, n))
  }

  lemma Cancel(a: Vec16, b: Vec16, c: Vec16)
    ensures Xor(Xor(a, b), Xor(b, c)) == Xor(a, c)
  {
    var x, y := Xor(Xor(a, b), Xor(b, c)), Xor(a, c);
    assert forall i :: 0 <= i < 16 ==> x[i] == y[i];
  }

  lemma Pushed(w: Vec16, poly: Vec16, n: nat, m: nat)
    requires Sixteenth(w, poly, n)
    ensures ShiftN(ShiftN(w, poly, m), poly, 16 * n) == Xor(ShiftN(w, poly, 2 * n + m), ShiftN(w, poly, n + m))
  {
    hide ShiftN, Xor;
    ShiftNSum(w, poly, m, 16 * n);
    ShiftNSum(w, poly, 16 * n, m);
    ShiftNLinear(ShiftN(w, poly, 2 * n), ShiftN(w, poly, n), poly, m);
    ShiftNSum(w, poly, 2 * n, m);
    ShiftNSum(w, poly, n, m);
  }

  // Squaring the relation.
  lemma Squared(w: Vec16, poly: Vec16, n: nat)
    requires Sixteenth(w, poly, n)
    ensures Sixteenth(w, poly, 2 * n)
  {
    hide ShiftN, Xor;
    ShiftNSum(w, poly, 16 * n, 16 * n);
    ShiftNLinear(ShiftN(w, poly, 2 * n), ShiftN(w, poly, n), poly, 16 * n);
    Pushed(w, poly, n, 2 * n);
    Pushed(w, poly, n, n);
    Cancel(ShiftN(w, poly, 4 * n), ShiftN(w, poly, 3 * n), ShiftN(w, poly, 2 * n));
  }

  // The powers n, 2n, 4n and 8n.
  predicate Powers(w: Vec16, poly: Vec16, n: nat, a: Vec16, b: Vec16, c: Vec16, d: Vec16) {
    && Sixteenth(w, poly, n) && ShiftN(w, poly, n) == a && ShiftN(w, poly, 2 * n) == b
    && ShiftN(w, poly, 4 * n) == c && ShiftN(w, poly, 8 * n) == d
  }

  lemma NextPowers(w: Vec16, poly: Vec16, n: nat, a: Vec16, b: Vec16, c: Vec16, d: Vec16)
    requires Powers(w, poly, n, a, b, c, d)
    ensures Powers(w, poly, 2 * n, b, c, d, Xor(b, a))
  {
    Squared(w, poly, n);
    hide ShiftN, Xor;
  }

  // Sixteen times as far.
  lemma FourOn(w: Vec16, poly: Vec16, n: nat, a: Vec16, b: Vec16, c: Vec16, d: Vec16)
    requires Powers(w, poly, n, a, b, c, d)
    ensures Powers(w, poly, 16 * n, Xor(b, a), Xor(c, b), Xor(d, c), Xor(Xor(b, a), d))
  {
    hide Powers, Xor;
    NextPowers(w, poly, n, a, b, c, d);
    NextPowers(w, poly, 2 * n, b, c, d, Xor(b, a));
    NextPowers(w, poly, 4 * n, c, d, Xor(b, a), Xor(c, b));
    NextPowers(w, poly, 8 * n, d, Xor(b, a), Xor(c, b), Xor(d, c));
  }

  // ---- the order of the data polynomial ----------------------------------------------------------

  const DATA: bv16 := 0xA001

  lemma DataWord()
    ensures Word(DATA) == POLY16 && Degree(POLY16, 16)
  {
    var x := Word(DATA);
    assert forall i :: 0 <= i < 16 ==> x[i] == POLY16[i];
  }

  function Four(b: bv16): bv16 {
    Step(Step(Step(Step(b, DATA), DATA), DATA), DATA)
  }

  // The words after 1, 2, 4 and 8 steps; the one after 16 is the sum of the first two.
  predicate First(w: bv16, a: bv16, b: bv16, c: bv16, d: bv16) {
    && Step(w, DATA) == a && Step(a, DATA) == b && Step(Step(b, DATA), DATA) == c && Four(c) == d
    && Four(Four(d)) == b ^ a
  }

  predicate Jump(w: bv16, n: nat, w': bv16) {
    ShiftN(Word(w), POLY16, n) == Word(w')
  }

  lemma Chain(w: bv16, m: nat, w1: bv16, n: nat, w2: bv16)
    requires Jump(w, m, w1) && Jump(w1, n, w2)
    ensures Jump(w, m + n, w2)
  {
    hide ShiftN, Word;
    ShiftNSum(Word(w), POLY16, m, n);
  }

  lemma JumpOne(w: bv16, n: nat)
    requires n == 1
    ensures Jump(w, n, Step(w, DATA))
  {
    hide Word, Step, Shift;
    DataWord();
    WordStep(w, DATA);
    ShiftOnce(Word(w), POLY16);
  }

  lemma JumpFour(w: bv16, n: nat)
    requires n == 1
    ensures Jump(w, 4 * n, Four(w))
  {
    hide Jump, Step;
    var w1 := Step(w, DATA);
    var w2 := Step(w1, DATA);
    var w3 := Step(w2, DATA);
    JumpOne(w, n);
    JumpOne(w1, n);
    JumpOne(w2, n);
    JumpOne(w3, n);
    Chain(w, n, w1, n, w2);
    Chain(w, 2 * n, w2, n, w3);
    Chain(w, 3 * n, w3, n, Four(w));
  }

  predicate Powered(w: bv16, n: nat, a: bv16, b: bv16, c: bv16, d: bv16) {
    Powers(Word(w), POLY16, n, Word(a), Word(b), Word(c), Word(d))
  }

  lemma FirstPowers(w: bv16, a: bv16, b: bv16, c: bv16, d: bv16, n: nat)
    requires First(w, a, b, c, d) && n == 1
    ensures Powered(w, n, a, b, c, d)
  {
    hide Step, Four, Jump;
    JumpOne(w, n);
    JumpOne(a, n);
    Chain(w, n, a, n, b);
    var b1 := Step(b, DATA);
    JumpOne(b, n);
    JumpOne(b1, n);
    Chain(w, 2 * n, b, n, b1);
    Chain(w, 3 * n, b1, n, c);
    JumpFour(c, n);
    Chain(w, 4 * n, c, 4 * n, d);
    JumpFour(d, n);
    JumpFour(Four(d), n);
    Chain(w, 8 * n, d, 4 * n, Four(d));
    Chain(w, 12 * n, Four(d), 4 * n, b ^ a);
    JumpsPower(w, a, b, c, d, n);
  }

  lemma JumpsPower(w: bv16, a: bv16, b: bv16, c: bv16, d: bv16, n: nat)
    requires Jump(w, n, a) && Jump(w, 2 * n, b) && Jump(w, 4 * n, c) && Jump(w, 8 * n, d) && Jump(w, 16 * n, b ^ a)
    ensures Powered(w, n, a, b, c, d)
  {
    hide Word, ShiftN;
    WordXor(b, a);
  }

  lemma PowerJumps(w: bv16, a: bv16, b: bv16, c: bv16, d: bv16, n: nat)
    requires Powered(w, n, a, b, c, d)
    ensures Jump(w, n, a) && Jump(w, 2 * n, b) && Jump(w, 4 * n, c) && Jump(w, 8 * n, d)
  {
    hide Word, ShiftN;
  }

  function Sum(a: bv16, b: bv16): bv16 {
    a ^ b
  }

  lemma FourOnWord(w: bv16, n: nat, a: bv16, b: bv16, c: bv16, d: bv16)
    requires Powered(w, n, a, b, c, d)
    ensures Powered(w, 16 * n, Sum(b, a), Sum(c, b), Sum(d, c), Sum(Sum(b, a), d))
  {
    hide Word, Powers;
    WordXor(b, a);
    WordXor(c, b);
    WordXor(d, c);
    WordXor(b ^ a, d);
    FourOn(Word(w), POLY16, n, Word(a), Word(b), Word(c), Word(d));
  }

  // The powers of two that are needed, from the first four.
  lemma Jumps(w: bv16, a: bv16, b: bv16, c: bv16, d: bv16, n: nat)
    requires First(w, a, b, c, d) && n == 1
    ensures Jump(w, n, a) && Jump(w, 2 * n, b) && Jump(w, 4 * n, c) && Jump(w, 8 * n, d)
    ensures var e, f, g := Sum(b, a), Sum(c, b), Sum(d, c); var h := Sum(e, d);
            && Jump(w, 16 * n, e) && Jump(w, 32 * n, f) && Jump(w, 64 * n, g) && Jump(w, 128 * n, h)
            && Jump(w, 512 * n, Sum(g, f)) && Jump(w, 1024 * n, Sum(h, g))
            && Jump(w, 4096 * n, Sum(Sum(g, f), Sum(f, e)))
            && Jump(w, 32768 * n, Sum(Sum(Sum(g, f), Sum(f, e)), Sum(Sum(f, e), h)))
  {
    hide First, Powered, Jump, Sum;
    var e, f, g := Sum(b, a), Sum(c, b), Sum(d, c);
    var h := Sum(e, d);
    var i, j, k, l := Sum(f, e), Sum(g, f), Sum(h, g), Sum(Sum(f, e), h);
    FirstPowers(w, a, b, c, d, n);
    FourOnWord(w, n, a, b, c, d);
    FourOnWord(w, 16 * n, e, f, g, h);
    FourOnWord(w, 256 * n, i, j, k, l);
    PowerJumps(w, a, b, c, d, n);
    PowerJumps(w, e, f, g, h, 16 * n);
    PowerJumps(w, i, j, k, l, 256 * n);
    PowerJumps(w, Sum(j, i), Sum(k, j), Sum(l, k), Sum(Sum(j, i), l), 4096 * n);
  }

  lemma Power217()
    ensures Jump(0x6000, 217, 0x40BF)
  {
    hide Jump;
    Jumps(0x6000, 0x3000, 0x1800, 0x0600, 0x0060, 1);
    Jumps(0x2860, 0x1430, 0x0A18, 0x0286, 0x2828, 1);
    Jumps(0x2AAE, 0x1557, 0xAAAA, 0x8AAB, 0xBCAB, 1);
    Jumps(0xBFFD, 0xFFFF, 0xDFFE, 0x97FE, 0x817E, 1);
    Jumps(0x817E, 0x40BF, 0x805E, 0x8016, 0x2001, 1);
    Chain(0x6000, 128, 0x2860, 64, 0x2AAE);
    Chain(0x6000, 192, 0x2AAE, 16, 0xBFFD);
    Chain(0x6000, 208, 0xBFFD, 8, 0x817E);
    Chain(0x6000, 216, 0x817E, 1, 0x40BF);
  }

  lemma Power1057()
    ensures Jump(0x6000, 1057, 0x04B0)
  {
    hide Jump;
    Jumps(0x6000, 0x3000, 0x1800, 0x0600, 0x0060, 1);
    Jumps(0x2E00, 0x1700, 0x0B80, 0x02E0, 0x002E, 1);
    Jumps(0x0960, 0x04B0, 0x0258, 0x0096, 0x2809, 1);
    Chain(0x6000, 1024, 0x2E00, 32, 0x0960);
    Chain(0x6000, 1056, 0x0960, 1, 0x04B0);
  }

  lemma Power4681()
    ensures Jump(0x6000, 4681, 0x352E)
  {
    hide Jump;
    Jumps(0x6000, 0x3000, 0x1800, 0x0600, 0x0060, 1);
    Jumps(0x2E60, 0x1730, 0x0B98, 0x02E6, 0x282E, 1);
    Jumps(0x23B6, 0x11DB, 0xA8EC, 0x2A3B, 0xB6A2, 1);
    Jumps(0x9C99, 0xEE4D, 0xD727, 0x65C9, 0x6A5C, 1);
    Jumps(0x6A5C, 0x352E, 0x1A97, 0x56A5, 0x396A, 1);
    Chain(0x6000, 4096, 0x2E60, 512, 0x23B6);
    Chain(0x6000, 4608, 0x23B6, 64, 0x9C99);
    Chain(0x6000, 4672, 0x9C99, 8, 0x6A5C);
    Chain(0x6000, 4680, 0x6A5C, 1, 0x352E);
  }

  lemma JumpBack(w: bv16, n: nat, w': bv16)
    requires Jump(w, n, w') && w != w'
    ensures !Back(Word(w), POLY16, n)
  {
    hide Word, ShiftN;
    if Word(w) == Word(w') {
      WordInjective(w, w');
    }
  }

  const START: bv16 := 0x6000

  // The start comes back after 32767 steps, because 32768 steps lead from the word
  // before it to the start itself.
  lemma StartBack(n: nat)
    requires n == 1
    ensures Back(Word(START), POLY16, 32768 * n - n)
  {
    hide Word, ShiftN, Jump, Back;
    Jumps(0xC000, START, 0x3000, 0x0C00, 0x00C0, n);
    assert Jump(0xC000, n, START) && Jump(0xC000, 32768 * n, START);
    Loops(0xC000, n, 32768 * n, START);
  }

  lemma Loops(w: bv16, m: nat, n: nat, w': bv16)
    requires m <= n && Jump(w, m, w') && Jump(w, n, w')
    ensures Back(Word(w'), POLY16, n - m)
  {
    hide Word, ShiftN;
    ShiftNSum(Word(w), POLY16, m, n - m);
  }

  // ---- divisors of 32767 = 7 * 31 * 151 ------------------------------------------------------

  predicate Small(n: nat) {
    n == 1 || n == 7 || n == 31 || n == 151
  }

  predicate Fits(n: nat)
    requires n > 0
  {
    32767 % n == 0 ==> Small(n)
  }

  predicate Decade(j: nat) {
    && Fits(j + 1) && Fits(j + 2) && Fits(j + 3) && Fits(j + 4) && Fits(j + 5)
    && Fits(j + 6) && Fits(j + 7) && Fits(j + 8) && Fits(j + 9) && Fits(j + 10)
  }

  lemma LeastDecade()
    ensures Decade(0)
  {
  }

  lemma FirstDecades()
    ensures Decade(10) && Decade(20) && Decade(30) && Decade(40)
  {
  }

  lemma SecondDecades()
    ensures Decade(50) && Decade(60) && Decade(70) && Decade(80) && Decade(90)
  {
  }

  lemma ThirdDecades()
    ensures Decade(100) && Decade(110) && Decade(120) && Decade(130) && Decade(140)
  {
  }

  lemma LastDecades()
    ensures Decade(150) && Decade(160) && Decade(170) && Decade(180)
  {
  }

  lemma Decades(t: nat)
    requires t <= 18
    ensures Decade(10 * t)
  {
    hide Decade;
    LeastDecade();
    FirstDecades();
    SecondDecades();
    ThirdDecades();
    LastDecades();
  }

  lemma SmallDivisor(g: nat, y: nat)
    requires g * y == 32767 && g <= 181
    ensures Small(g)
  {
    hide Small;
    Divides(g, y, 32767);
    var t := (g - 1) / 10;
    assert 10 * t < g <= 10 * t + 10;
    Decades(t);
    assert Fits(g);
  }

  lemma Divides(g: nat, y: nat, p: nat)
    requires g * y == p && p > 0
    ensures g > 0 && p % g == 0
  {
    assert g > 0;
    Multiple(g, y);
  }

  lemma {:induction false} Multiple(g: nat, y: nat)
    requires g > 0
    ensures (g * y) % g == 0
    decreases y
  {
    if y > 0 {
      Multiple(g, y - 1);
      assert g * y == g * (y - 1) + g;
      PlusMod(g * (y - 1), g);
    }
  }

  lemma PlusMod(a: nat, g: nat)
    requires g > 0
    ensures (a + g) % g == a % g
  {
    var q, r := DivMod(g, a);
    ModIs(g, q, r, a);
    ModIs(g, q + 1, r, a + g);
  }

  lemma ModIs(g: nat, q: nat, r: nat, a: nat)
    requires a == g * q + r && r < g
    ensures a % g == r
  {
    var q', r' := DivMod(g, a);
    Apart(g, q, q');
    Apart(g, q', q);
  }

  lemma {:induction false} Apart(g: nat, q: nat, q': nat)
    ensures q < q' ==> g * q + g <= g * q'
    decreases q'
  {
    if q < q' {
      assert g * q' == g * (q' - 1) + g;
      Apart(g, q, q' - 1);
    }
  }

  lemma OneIsLow(g: nat, y: nat)
    requires g * y == 32767
    ensures g <= 181 || y <= 181
  {
    if g > 181 {
      assert g * y >= 182 * y;
    }
  }

  // A divisor other than the number itself divides one of its three greatest ones.
  lemma ProperDivisor(g: nat, y: nat) returns (m: nat)
    requires g * y == 32767 && y > 1
    ensures g * m == 217 || g * m == 1057 || g * m == 4681
  {
    OneIsLow(g, y);
    if g <= 181 {
      SmallDivisor(g, y);
      m := if g == 1 then 217 else if g == 7 then 31 else 7;
    } else {
      SmallDivisor(y, g);
      assert g == 4681 || g == 1057 || g == 217;
      m := 1;
    }
  }

  // ---- the order -----------------------------------------------------------------------------

  lemma NotSooner(k: nat)
    requires k == 217 || k == 1057 || k == 4681
    ensures !Back(Word(START), POLY16, k)
  {
    hide Word, Jump, Back;
    if k == 217 {
      Power217();
      JumpBack(START, k, 0x40BF);
    } else if k == 1057 {
      Power1057();
      JumpBack(START, k, 0x04B0);
    } else {
      Power4681();
      JumpBack(START, k, 0x352E);
    }
  }

  lemma FullBack(n: nat)
    requires n == 32767
    ensures Back(Word(START), POLY16, n)
  {
    hide Word, Back;
    StartBack(1);
  }

  lemma WordWithin(b: bv16)
    ensures Within(Word(b), 16)
  {
  }

  lemma StartOrder(k: nat, n: nat)
    requires n == 32767
    ensures Back(Word(START), POLY16, k) <==> k % n == 0
  {
    hide Word, Back, Degree, Within;
    var v := Word(START);
    FullBack(n);
    DataWord();
    WordWithin(START);
    var q, r := DivMod(n, k);
    if Back(v, POLY16, k) && r > 0 {
      BackRest(v, POLY16, 16, n, q, r);
      var g, x, y := BackDivisor(v, POLY16, 16, r, n);
      assert y > 1 by { Cofactor(g, x, y, r, n); }
      var m := ProperDivisor(g, y);
      BackTimes(v, POLY16, g, m);
      NotSooner(g * m);
      assert false;
    }
    if r == 0 {
      BackTimes(v, POLY16, n, q);
    }
    assert k % n == r;
  }

  lemma Cofactor(g: nat, x: nat, y: nat, r: nat, n: nat)
    requires r == g * x && n == g * y && 0 < r < n
    ensures y > 1
  {
    assert x > 0;
    assert g * x >= g;
  }

  const FIXED: bv16 := 0xC001

  lemma {:induction false} FixedStays(k: nat)
    ensures ShiftN(Word(FIXED), POLY16, k) == Word(FIXED)
    decreases k
  {
    assert Step(FIXED, DATA) == FIXED;
    hide Word, Shift;
    if k > 0 {
      DataWord();
      WordStep(FIXED, DATA);
      FixedStays(k - 1);
    }
  }

  lemma DataSplit()
    ensures POLY16 == Xor(Word(START), Word(FIXED))
  {
    hide Word;
    DataWord();
    WordXor(START, FIXED);
    assert START ^ FIXED == DATA;
  }

  lemma XorSame(a: Vec16, b: Vec16, c: Vec16)
    requires Xor(a, c) == Xor(b, c)
    ensures a == b
  {
    forall i | 0 <= i < 16 ensures a[i] == b[i] {
      assert Xor(a, c)[i] == Xor(b, c)[i];
    }
  }

  // The data polynomial comes back after every 32767 steps and at no other time.
  lemma DataOrder(k: nat)
    ensures Back(POLY16, POLY16, k) <==> k % 32767 == 0
  {
    hide Word, ShiftN, Xor;
    var u, c := Word(START), Word(FIXED);
    DataSplit();
    ShiftNLinear(u, c, POLY16, k);
    FixedStays(k);
    if Back(POLY16, POLY16, k) {
      XorSame(ShiftN(u, POLY16, k), u, c);
    }
    StartOrder(k, 32767);
  }

  // Two data streams that differ in exactly two bits are both accepted only if those
  // bits are a multiple of 32767 apart; then they are accepted or refused together.
  lemma DoubleErrorDetected(x: seq<bv8>, y: seq<bv8>, i: nat, j: nat)
    requires DifferAt(Flat(x), Flat(y), i, j)
    ensures !(Accepted(x) && Accepted(y)) || (j - i) % 32767 == 0
    ensures (j - i) % 32767 == 0 ==> (Accepted(x) <==> Accepted(y))
  {
    hide Serial, Updates, Flat, Back;
    UpdatesIsSerial(INIT16, x, POLY16);
    UpdatesIsSerial(INIT16, y, POLY16);
    DataWord();
    DoubleError(INIT16, POLY16, 16, Flat(x), Flat(y), i, j);
    DataOrder(j - i);
  }

  // No data packet is that long: 1024 bytes and the checksum are 8208 bits.
  lemma PacketDoubleError(x: seq<bv8>, y: seq<bv8>, i: nat, j: nat)
    requires DifferAt(Flat(x), Flat(y), i, j) && |x| <= 1026
    ensures !(Accepted(x) && Accepted(y))
  {
    hide Flat, DifferAt, Accepted;
    DifferBound(x, y, i, j);
    DoubleErrorDetected(x, y, i, j);
  }

  lemma DifferBound(x: seq<bv8>, y: seq<bv8>, i: nat, j: nat)
    requires DifferAt(Flat(x), Flat(y), i, j)
    ensures i < j < 8 * |x|
  {
    hide Flat;
  }

  // ---- tokens --------------------------------------------------------------------------------

  const TOKEN: bv16 := 0x0014

  lemma TokenWord()
    ensures Word(TOKEN) == POLY5 && Degree(POLY5, 5)
  {
    var x := Word(TOKEN);
    assert forall i :: 0 <= i < 16 ==> x[i] == POLY5[i];
  }

  function FiveSteps(b: bv16): bv16 {
    Step(Step(Step(Step(Step(b, TOKEN), TOKEN), TOKEN), TOKEN), TOKEN)
  }

  lemma FiveMore(b: bv16, n: nat)
    ensures Steps(b, TOKEN, n + 5) == Steps(FiveSteps(b), TOKEN, n)
  {
    hide Step;
    var b1 := Step(b, TOKEN); var b2 := Step(b1, TOKEN); var b3 := Step(b2, TOKEN); var b4 := Step(b3, TOKEN);
    assert Steps(b, TOKEN, n + 5) == Steps(b1, TOKEN, n + 4) == Steps(b2, TOKEN, n + 3);
    assert Steps(b2, TOKEN, n + 3) == Steps(b3, TOKEN, n + 2) == Steps(b4, TOKEN, n + 1);
  }

  lemma TokenReturns(n: nat)
    requires n == 31
    ensures Steps(TOKEN, TOKEN, n) == TOKEN
  {
    TokenFives();
    hide FiveSteps, Steps;
    FiveMore(TOKEN, 26);
    FiveMore(0x11, 21);
    FiveMore(0x1F, 16);
    FiveMore(0x06, 11);
    FiveMore(0x13, 6);
    FiveMore(0x09, 1);
    TokenLast(1);
  }

  lemma TokenFives()
    ensures FiveSteps(TOKEN) == 0x11 && FiveSteps(0x11) == 0x1F && FiveSteps(0x1F) == 0x06
    ensures FiveSteps(0x06) == 0x13 && FiveSteps(0x13) == 0x09 && FiveSteps(0x09) == 0x01
  {
  }

  lemma TokenLast(n: nat)
    requires n == 1
    ensures Steps(0x01, TOKEN, n) == TOKEN && Steps(TOKEN, TOKEN, n) != TOKEN
  {
    assert Steps(Step(0x01, TOKEN), TOKEN, 0) == TOKEN;
    assert Steps(Step(TOKEN, TOKEN), TOKEN, 0) == 0x0A;
  }

  lemma OneIsLow31(g: nat, y: nat)
    requires g * y == 31
    ensures g <= 5 || y <= 5
  {
    if g > 5 {
      assert g * y >= 6 * y;
    }
  }

  // 31 is prime.
  lemma DivisorOf31(g: nat, y: nat)
    requires g * y == 31
    ensures g == 1 || g == 31
  {
    OneIsLow31(g, y);
    assert g == 0 || g == 1 || g == 2 || g == 3 || g == 4 || g == 5 || 1 == y
        || y == 0 || y == 2 || y == 3 || y == 4 || y == 5;
  }

  // The token polynomial comes back after every 31 steps and at no other time.
  lemma TokenOrder(k: nat, n: nat)
    requires n == 31
    ensures Back(POLY5, POLY5, k) <==> k % n == 0
  {
    hide Back, Degree, Steps, Word, DifferAt;
    TokenWord();
    ReturnsBack(TOKEN, TOKEN, n);
    TokenReturns(n);
    TokenWithin();
    var q, r := DivMod(n, k);
    if Back(POLY5, POLY5, k) && r > 0 {
      BackRest(POLY5, POLY5, 5, n, q, r);
      var g, x, y := BackDivisor(POLY5, POLY5, 5, r, n);
      Cofactor(g, x, y, r, n);
      DivisorOf31(g, y);
      ReturnsBack(TOKEN, TOKEN, g);
      TokenLast(g);
      assert false;
    }
    if r == 0 {
      BackTimes(POLY5, POLY5, n, q);
    }
  }

  lemma TokenWithin()
    ensures Within(POLY5, 5)
  {
  }

  // Two wrong bits in the sixteen bits of a token, or in any message whose two wrong bits
  // are not a multiple of 31 apart, change the five bit checksum.
  lemma TokenDoubleError(c: Vec16, a: seq<bool>, b: seq<bool>, i: nat, j: nat)
    requires DifferAt(a, b, i, j)
    ensures Serial(c, POLY5, a) == Serial(c, POLY5, b) <==> (j - i) % 31 == 0
    ensures |a| <= 16 ==> Serial(c, POLY5, a) != Serial(c, POLY5, b)
  {
    hide Serial, Back, Degree;
    TokenWord();
    DoubleError(c, POLY5, 5, a, b, i, j);
    TokenOrder(j - i, 31);
  }
}
