// The receiver undoes the line code: four samples per level, it delivers exactly
// the bytes of LineCode.PacketLine and flags exactly the spoilt packets while active.
module FslsRxProof {
  import opened Logic
  import opened LineCode
  import opened FslsRx

  function Run(s: Sys, xs: seq<Sample>): Sys
    decreases xs
  {
    if xs == [] then s else Run(Tick(s, xs[0]), xs[1..])
  }

  // The output port after every output edge of a run.
  function Seen(s: Sys, xs: seq<Sample>): seq<Out>
    decreases xs
  {
    if xs == [] then []
    else (if Edge(s) then [Tick(s, xs[0]).o] else []) + Seen(Tick(s, xs[0]), xs[1..])
  }

  function SampleOf(l: Level): Sample {
    match l
    case J => Sample(H, L)
    case K => Sample(L, L)
    case SE0 => Sample(L, H)
  }

  // Exactly four samples per bit time.
  function Samples(ls: seq<Level>): seq<Sample> {
    if ls == [] then []
    else var x := SampleOf(ls[0]); [x, x, x, x] + Samples(ls[1..])
  }

  // One bit time.
  function Bit4(s: Sys, x: Sample): Sys {
    Run(s, [x, x, x, x])
  }

  lemma Bit4Ticks(s: Sys, x: Sample)
    ensures Bit4(s, x) == Tick(Tick(Tick(Tick(s, x), x), x), x)
  {
    var s1 := Tick(s, x); var s2 := Tick(s1, x); var s3 := Tick(s2, x);
    assert [x, x, x, x][1..] == [x, x, x] && [x, x, x][1..] == [x, x] && [x, x][1..] == [x] && [x][1..] == [];
    assert Run(s, [x, x, x, x]) == Run(s1, [x, x, x]) == Run(s2, [x, x]) == Run(s3, [x]);
  }

  // ---- one bit time in RUN ------------------------------------------------------------

  // Just before the first of four samples, the line having been at `j`.
  predicate AtBoundary(r: Reg, j: Bit) {
    && r.jk3 == j && r.jk2 == j && r.jk1 == j && r.jk0 == j
    && r.presc == 1 && r.clkAdj == L && r.se0Lst == L && r.nbits < 8
  }

  // Where the hand-over of the last finished byte can stand at a boundary.
  predicate HandOk(b: Buf, o: Out, phase: U2, nbits: nat) {
    && (b.outVld == H ==> nbits == 0)
    && (o.outAck == H ==> nbits <= 1)
    && (b.outVld == H ==> if o.outAck == H then phase == 0 else phase >= 2)
  }

  // A finished byte the output side has not taken yet.
  function Held(b: Buf, o: Out): seq<bv8> {
    if b.outVld == H && o.outAck == L then [b.outReg] else []
  }

  function Got(o: Out): seq<bv8> {
    if o.outAck == H then [o.data] else []
  }

  // The bit sampled while the line is at `j`, seen from the boundary.
  function BitSR(r: Reg, j: Bit): bv8 {
    if Expired(r.nstuff) then r.dataSR
    else if j == r.jk0 then (r.dataSR >> 1) | 0x80 else r.dataSR >> 1
  }

  function BitCount(r: Reg): U4 {
    if Expired(r.nstuff) then r.nbits else Inc(r.nbits)
  }

  function BitErr(r: Reg, j: Bit): Bit {
    if j == r.jk0 && Expired(r.nstuff) then H else r.err
  }

  function BitNstuff(r: Reg, j: Bit): U4 {
    if j != r.jk0 then NSTUFF else if Expired(r.nstuff) then r.nstuff else Dec(r.nstuff)
  }

  predicate BitDone(r: Reg, j: Bit) {
    BitErr(r, j) == L && BitCount(r) == 8
  }

  // The four samples of a bit as the sampler sees them.
  predicate Shape(r: Reg, x: Sample, r1: Reg, r2: Reg, r3: Reg, r4: Reg) {
    && r1 == r.(jk3 := x.j, presc := 0)
    && r2 == Reg(RUN, x.j, x.j, r.jk0, r.jk0, BitSR(r, x.j), 3, BitNstuff(r, x.j), BitCount(r), BitErr(r, x.j),
                 L, L, r.active)
    && r3 == r2.(jk1 := x.j, presc := 2, nbits := if BitCount(r) == 8 then 0 else BitCount(r))
    && r4 == r3.(jk0 := x.j, presc := 1)
  }

  lemma RunBitSampler(r: Reg, x: Sample)
    requires r.state.RUN? && AtBoundary(r, r.jk0) && x.se0 == L
    ensures var r1 := Next(r, x); var r2 := Next(r1, x); var r3 := Next(r2, x); var r4 := Next(r3, x);
            && Shape(r, x, r1, r2, r3, r4)
            && TakenSR(r1, x) == BitSR(r, x.j) && (Completes(r1, x) <==> BitDone(r, x.j))
            && !Sampling(r) && Sampling(r1) && !Sampling(r2) && !Sampling(r3)
  {
    hide Next, TakenSR, Completes, Sampling, BitSR, BitNstuff, BitCount, BitErr, BitDone, AtBoundary;
    var r1 := Next(r, x);
    var r2 := Next(r1, x);
    BeforeSample(r, x);
    AtSample(r, r1, x);
    AfterSample(r, r2, x);
  }

  lemma BeforeSample(r: Reg, x: Sample)
    requires r.state.RUN? && AtBoundary(r, r.jk0) && x.se0 == L
    ensures Next(r, x) == r.(jk3 := x.j, presc := 0) && !Sampling(r)
  {
  }

  lemma AtSample(r: Reg, r1: Reg, x: Sample)
    requires r.state.RUN? && AtBoundary(r, r.jk0) && x.se0 == L && r1 == r.(jk3 := x.j, presc := 0)
    ensures Next(r1, x) == Reg(RUN, x.j, x.j, r.jk0, r.jk0, BitSR(r, x.j), 3, BitNstuff(r, x.j), BitCount(r),
                               BitErr(r, x.j), L, L, r.active)
    ensures Sampling(r1) && TakenSR(r1, x) == BitSR(r, x.j) && (Completes(r1, x) <==> BitDone(r, x.j))
  {
  }

  lemma AfterSample(r: Reg, r2: Reg, x: Sample)
    requires r.state.RUN? && AtBoundary(r, r.jk0) && x.se0 == L
    requires r2 == Reg(RUN, x.j, x.j, r.jk0, r.jk0, BitSR(r, x.j), 3, BitNstuff(r, x.j), BitCount(r), BitErr(r, x.j),
                       L, L, r.active)
    ensures var r3 := Next(r2, x);
            && r3 == r2.(jk1 := x.j, presc := 2, nbits := if BitCount(r) == 8 then 0 else BitCount(r))
            && Next(r3, x) == r3.(jk0 := x.j, presc := 1) && !Sampling(r2) && !Sampling(r3)
  {
    hide BitSR, BitErr, BitNstuff;
  }

  // The same four edges on the hand-over side: `done` says that the second
  // sample completed the byte `sr`.
  function Hand4(b: Buf, o: Out, phase: U2, sr: bv8, done: bool,
                 active: Bit, err: Bit, active': Bit, err': Bit): (Buf, Out)
  {
    var b1 := NextBuf(b, false, 0, false, o.outAck);
    var o1 := if phase == 3 then Hand(b, active, err, o) else o;
    var b2 := NextBuf(b1, true, sr, done, o1.outAck);
    var o2 := if phase == 2 then Hand(b1, active, err, o1) else o1;
    var b3 := NextBuf(b2, false, 0, false, o2.outAck);
    var o3 := if phase == 1 then Hand(b2, active', err', o2) else o2;
    var b4 := NextBuf(b3, false, 0, false, o3.outAck);
    var o4 := if phase == 0 then Hand(b3, active', err', o3) else o3;
    (b4, o4)
  }

  // No byte is lost or repeated in the hand-over.
  lemma HandOver(b: Buf, o: Out, phase: U2, nbits: nat, sr: bv8, done: bool,
                 active: Bit, err: Bit, active': Bit, err': Bit, nbits': nat)
    requires HandOk(b, o, phase, nbits)
    requires done ==> nbits == 7 && nbits' == 0
    requires !done ==> nbits' <= nbits + 1
    ensures var (b', o') := Hand4(b, o, phase, sr, done, active, err, active', err');
            && HandOk(b', o', phase, nbits')
            && Held(b, o) + (if done then [sr] else []) == Got(o') + Held(b', o')
            && (done || b'.outVld == L)
            && o'.rxAct == (if phase >= 2 then active else active')
            && o'.err == if phase >= 2 then err else err'
  {
  }

  // One bit time: the sampler takes the bit, the hand-over loses nothing.
  predicate BitTaken(s: Sys, x: Sample, s': Sys) {
    && s'.r == Reg(RUN, x.j, x.j, x.j, x.j, BitSR(s.r, x.j), 1, BitNstuff(s.r, x.j),
                   if BitCount(s.r) == 8 then 0 else BitCount(s.r), BitErr(s.r, x.j), L, L, s.r.active)
    && s'.phase == s.phase
    && HandOk(s'.b, s'.o, s'.phase, s'.r.nbits) && (BitDone(s.r, x.j) || s'.b.outVld == L)
    && Held(s.b, s.o) + (if BitDone(s.r, x.j) then [s'.r.dataSR] else []) == Got(s'.o) + Held(s'.b, s'.o)
    && s'.o.rxAct == s.r.active && s'.o.err == if s.phase >= 2 then s.r.err else s'.r.err
  }

  predicate InRun(s: Sys, j: Bit) {
    s.r.state.RUN? && AtBoundary(s.r, j) && HandOk(s.b, s.o, s.phase, s.r.nbits)
  }

  lemma RunBit(s: Sys, j: Bit, x: Sample)
    requires InRun(s, j) && x.se0 == L
    ensures BitTaken(s, x, Bit4(s, x))
  {
    RunBitSampler(s.r, x);
    Bit4Ticks(s, x);
    var s' := Bit4(s, x);
    assert (s'.b, s'.o) == Hand4(s.b, s.o, s.phase, BitSR(s.r, x.j), BitDone(s.r, x.j), s.r.active, s.r.err,
      s.r.active, BitErr(s.r, x.j));
    HandOver(s.b, s.o, s.phase, s.r.nbits, BitSR(s.r, x.j), BitDone(s.r, x.j), s.r.active, s.r.err, s.r.active,
      BitErr(s.r, x.j), s'.r.nbits);
  }

  // ---- runs of bit times -------------------------------------------------------------

  function Port(s: Sys, x: Sample): seq<Out> {
    if Edge(s) then [Tick(s, x).o] else []
  }

  lemma Cons(s: Sys, x: Sample, rest: seq<Sample>)
    ensures Run(s, [x] + rest) == Run(Tick(s, x), rest)
    ensures Seen(s, [x] + rest) == Port(s, x) + Seen(Tick(s, x), rest)
  {
    assert ([x] + rest)[1..] == rest;
  }

  // Each bit time has exactly one output edge.
  lemma OneEdge(s: Sys, x: Sample)
    ensures var s1 := Tick(s, x); var s2 := Tick(s1, x); var s3 := Tick(s2, x);
            Port(s, x) + Port(s1, x) + Port(s2, x) + Port(s3, x) == [Bit4(s, x).o]
  {
    Bit4Ticks(s, x);
  }

  lemma Four(s: Sys, x: Sample, rest: seq<Sample>)
    ensures var xs := [x, x, x, x] + rest;
            Run(s, xs) == Run(Bit4(s, x), rest) && Seen(s, xs) == [Bit4(s, x).o] + Seen(Bit4(s, x), rest)
  {
    hide Tick, Run, Seen;
    var s1 := Tick(s, x); var s2 := Tick(s1, x); var s3 := Tick(s2, x);
    Cons(s3, x, rest);
    Cons(s2, x, [x] + rest);
    Cons(s1, x, [x] + ([x] + rest));
    Cons(s, x, [x] + ([x] + ([x] + rest)));
    assert [x, x, x, x] + rest == [x] + ([x] + ([x] + ([x] + rest)));
    OneEdge(s, x);
    Bit4Ticks(s, x);
  }

  // Runs in bit times instead of samples.
  function RunLevels(s: Sys, ls: seq<Level>): Sys
    decreases ls
  {
    if ls == [] then s else RunLevels(Bit4(s, SampleOf(ls[0])), ls[1..])
  }

  function SeenLevels(s: Sys, ls: seq<Level>): (os: seq<Out>)
    ensures |os| == |ls|
    decreases ls
  {
    if ls == [] then []
    else var s' := Bit4(s, SampleOf(ls[0])); [s'.o] + SeenLevels(s', ls[1..])
  }

  lemma {:induction false} InBitTimes(s: Sys, ls: seq<Level>)
    ensures Run(s, Samples(ls)) == RunLevels(s, ls)
    ensures Seen(s, Samples(ls)) == SeenLevels(s, ls)
    decreases ls
  {
    if ls != [] {
      var x := SampleOf(ls[0]);
      Four(s, x, Samples(ls[1..]));
      InBitTimes(Bit4(s, x), ls[1..]);
    }
  }

  lemma {:induction false} RunLevelsConcat(s: Sys, a: seq<Level>, b: seq<Level>)
    ensures RunLevels(s, a + b) == RunLevels(RunLevels(s, a), b)
    ensures SeenLevels(s, a + b) == SeenLevels(s, a) + SeenLevels(RunLevels(s, a), b)
    decreases a
  {
    if a == [] {
      assert a + b == b;
    } else {
      assert (a + b)[1..] == a[1..] + b;
      RunLevelsConcat(Bit4(s, SampleOf(a[0])), a[1..], b);
    }
  }

  function Delivered(os: seq<Out>): seq<bv8> {
    if os == [] then [] else Got(os[0]) + Delivered(os[1..])
  }

  lemma {:induction false} DeliveredConcat(a: seq<Out>, b: seq<Out>)
    ensures Delivered(a + b) == Delivered(a) + Delivered(b)
  {
    if a == [] {
      assert a + b == b;
    } else {
      assert (a + b)[1..] == a[1..] + b;
      DeliveredConcat(a[1..], b);
    }
  }

  // ---- payload bits --------------------------------------------------------------------------

  // The bytes in a bit stream, and what is left over.
  function Whole(bits: seq<bool>): seq<bv8> {
    if |bits| < 8 then [] else [FromBits(bits[..8])] + Whole(bits[8..])
  }

  function Part(bits: seq<bool>): (p: seq<bool>)
    ensures |p| == |bits| % 8
  {
    if |bits| < 8 then bits else Part(bits[8..])
  }

  lemma {:induction false} WholeFlat(bytes: seq<bv8>)
    ensures Whole(Flat(bytes)) == bytes && Part(Flat(bytes)) == []
  {
    if bytes != [] {
      FromBitsBits(bytes[0]);
      var f := Flat(bytes);
      assert f[..8] == Bits(bytes[0]) && f[8..] == Flat(bytes[1..]);
      WholeFlat(bytes[1..]);
    }
  }

  function NstuffOf(ones: nat): U4
    requires ones <= 6
  {
    if ones == 6 then 15 else 5 - ones
  }

  function Push(sr: bv8, b: bool): bv8 {
    if b then (sr >> 1) | 0x80 else sr >> 1
  }

  // The shift register after taking the bits `part`, `sr` being what it held before.
  function Pushed(sr: bv8, part: seq<bool>): bv8 {
    if part == [] then sr else Push(Pushed(sr, part[..|part| - 1]), part[|part| - 1])
  }

  lemma PushedSnoc(sr: bv8, part: seq<bool>, b: bool)
    ensures Pushed(sr, part + [b]) == Push(Pushed(sr, part), b)
  {
    assert (part + [b])[..|part|] == part;
  }

  lemma PushedTop(sr: bv8, b: bool, n: nat)
    requires n < 8
    ensures Bits(Push(sr, b))[8 - n - 1..] == Bits(sr)[8 - n..] + [b]
  {
    ShiftBits(sr);
    var was, now := Bits(sr), Bits(Push(sr, b));
    assert now == was[1..] + [b];
    assert (was[1..] + [b])[8 - n - 1..] == was[8 - n..] + [b];
  }

  lemma {:induction false} PushedBits(sr: bv8, part: seq<bool>)
    requires |part| <= 8
    ensures Bits(Pushed(sr, part))[8 - |part|..] == part
  {
    hide Bits, Push, Pushed;
    if part != [] {
      var init, b := part[..|part| - 1], part[|part| - 1];
      PushedBits(sr, init);
      PushedTop(Pushed(sr, init), b, |init|);
      assert part == init + [b];
      PushedSnoc(sr, init, b);
    }
  }

  // Eight bits make the byte, whatever was there before.
  lemma PushedByte(sr: bv8, part: seq<bool>)
    requires |part| == 8
    ensures Pushed(sr, part) == FromBits(part)
  {
    PushedBits(sr, part);
    FromBitsBits(Pushed(sr, part));
    assert Bits(Pushed(sr, part)) == part;
  }

  // In the middle of a packet: `ones` ones in a row and `part` of a byte have
  // arrived; `sr` is what the shift register held before that byte.
  predicate Receiving(s: Sys, j: Bit, ones: nat, part: seq<bool>, sr: bv8) {
    && ones <= 6 && |part| < 8
    && InRun(s, j) && s.r.active == H && s.r.err == L
    && s.r.nstuff == NstuffOf(ones) && s.r.nbits == |part|
    && s.r.dataSR == Pushed(sr, part)
  }

  predicate Clean(o: Out) {
    o.err == L && o.rxAct == H
  }

  function Bumped(ones: nat, b: bool): nat {
    if b then ones + 1 else 0
  }

  function Line(j: Bit, b: bool): Bit {
    if b then j else Not(j)
  }

  lemma StuffedZero(s: Sys, j: Bit, part: seq<bool>, sr: bv8)
    requires Receiving(s, j, 6, part, sr)
    ensures var s' := Bit4(s, Sample(Not(j), L));
            && Receiving(s', Not(j), 0, part, sr)
            && Held(s.b, s.o) == Got(s'.o) + Held(s'.b, s'.o) && Clean(s'.o)
  {
    RunBit(s, j, Sample(Not(j), L));
  }

  lemma InnerBit(s: Sys, j: Bit, ones: nat, part: seq<bool>, sr: bv8, b: bool)
    requires Receiving(s, j, ones, part, sr) && ones <= 5 && |part| < 7
    ensures var s' := Bit4(s, Sample(Line(j, b), L));
            && Receiving(s', Line(j, b), Bumped(ones, b), part + [b], sr)
            && Held(s.b, s.o) == Got(s'.o) + Held(s'.b, s'.o) && Clean(s'.o)
  {
    RunBit(s, j, Sample(Line(j, b), L));
    PushedSnoc(sr, part, b);
  }

  lemma EighthBit(s: Sys, j: Bit, ones: nat, part: seq<bool>, sr: bv8, b: bool)
    requires Receiving(s, j, ones, part, sr) && ones <= 5 && |part| == 7
    ensures var s' := Bit4(s, Sample(Line(j, b), L));
            && Receiving(s', Line(j, b), Bumped(ones, b), [], s'.r.dataSR)
            && Held(s.b, s.o) + [FromBits(part + [b])] == Got(s'.o) + Held(s'.b, s'.o) && Clean(s'.o)
  {
    RunBit(s, j, Sample(Line(j, b), L));
    PushedSnoc(sr, part, b);
    PushedByte(sr, part + [b]);
  }

  // What a run of bit times owes: the bytes `bs`, and no flag.
  predicate Owes(s: Sys, os: seq<Out>, s': Sys, bs: seq<bv8>) {
    && Held(s.b, s.o) + bs == Delivered(os) + Held(s'.b, s'.o)
    && forall o :: o in os ==> Clean(o)
  }

  predicate Yields(s: Sys, ls: seq<Level>, bs: seq<bv8>) {
    Owes(s, SeenLevels(s, ls), RunLevels(s, ls), bs)
  }

  lemma LevelStep(s: Sys, l: Level, ls: seq<Level>, s1: Sys)
    requires s1 == Bit4(s, SampleOf(l))
    ensures RunLevels(s, [l] + ls) == RunLevels(s1, ls)
    ensures SeenLevels(s, [l] + ls) == [s1.o] + SeenLevels(s1, ls)
  {
    assert ([l] + ls)[1..] == ls;
  }

  lemma OwesCons(s: Sys, s1: Sys, os: seq<Out>, s': Sys, b1: seq<bv8>, bs: seq<bv8>)
    requires Held(s.b, s.o) + b1 == Got(s1.o) + Held(s1.b, s1.o) && Clean(s1.o)
    requires Owes(s1, os, s', bs)
    ensures Owes(s, [s1.o] + os, s', b1 + bs)
  {
    assert ([s1.o] + os)[1..] == os;
    assert Delivered([s1.o] + os) == Got(s1.o) + Delivered(os);
    Regroup(Held(s.b, s.o), b1, bs, Got(s1.o), Held(s1.b, s1.o), Delivered(os), Held(s'.b, s'.o));
  }

  lemma Regroup(h: seq<bv8>, b1: seq<bv8>, bs: seq<bv8>, g: seq<bv8>, h1: seq<bv8>, d: seq<bv8>, t: seq<bv8>)
    requires h + b1 == g + h1 && h1 + bs == d + t
    ensures h + (b1 + bs) == (g + d) + t
  {
    assert h + (b1 + bs) == (h + b1) + bs == g + (h1 + bs);
    assert g + (d + t) == (g + d) + t;
  }

  function LineOf(line: seq<bool>, j: Bit): seq<Level> {
    Levels(Nrzi(line, j == H))
  }

  lemma LineOfStep(b: bool, rest: seq<bool>, j: Bit)
    ensures LineOf([b] + rest, j) == [LevelOf(Line(j, b) == H)] + LineOf(rest, Line(j, b))
    ensures SampleOf(LevelOf(Line(j, b) == H)) == Sample(Line(j, b), L)
    ensures Rest([b] + rest, j == H) == Rest(rest, Line(j, b) == H)
  {
    hide Levels;
    assert ([b] + rest)[1..] == rest;
    LevelsCons(Line(j, b) == H, Nrzi(rest, Line(j, b) == H));
  }

  // One line bit in front of a run.
  lemma Extend(s: Sys, j: Bit, b: bool, line: seq<bool>, b1: seq<bv8>, bs: seq<bv8>)
    requires var s1 := Bit4(s, Sample(Line(j, b), L));
             && Held(s.b, s.o) + b1 == Got(s1.o) + Held(s1.b, s1.o) && Clean(s1.o)
             && Yields(s1, LineOf(line, Line(j, b)), bs)
    ensures Yields(s, LineOf([b] + line, j), b1 + bs)
    ensures RunLevels(s, LineOf([b] + line, j))
            == RunLevels(Bit4(s, Sample(Line(j, b), L)), LineOf(line, Line(j, b)))
    ensures Rest([b] + line, j == H) == Rest(line, Line(j, b) == H)
  {
    var s1, ls := Bit4(s, Sample(Line(j, b), L)), LineOf(line, Line(j, b));
    LineOfStep(b, line, j);
    LevelStep(s, LevelOf(Line(j, b) == H), ls, s1);
    OwesCons(s, s1, SeenLevels(s1, ls), RunLevels(s1, ls), b1, bs);
  }

  // `all` are the unfinished bits before the run and the payload bits in it.
  predicate Received(s: Sys, j: Bit, line: seq<bool>, all: seq<bool>, ones: nat, s': Sys, sr': bv8) {
    && Yields(s, LineOf(line, j), Whole(all))
    && s' == RunLevels(s, LineOf(line, j))
    && Receiving(s', ToBit(Rest(line, j == H)), ones, Part(all), sr')
  }

  // From any point of a packet, for any line that un-stuffs without error: the
  // bytes completed are delivered, in order, and nothing is flagged.
  lemma {:induction false} ReceiveLine(s: Sys, j: Bit, ones: nat, part: seq<bool>, sr: bv8, line: seq<bool>)
    returns (s': Sys, sr': bv8)
    requires Receiving(s, j, ones, part, sr) && Unstuff(line, ones).Good?
    ensures var u := Unstuff(line, ones);
            Received(s, j, line, part + u.bits, u.ones, s', sr')
    decreases |line|, 0
  {
    if line == [] {
      assert part + [] == part;
      s', sr' := s, sr;
    } else if ones == 6 {
      assert !line[0] && line == [false] + line[1..];
      s', sr' := ReceiveStuffed(s, j, part, sr, line[1..]);
    } else {
      var b, rest := line[0], line[1..];
      var u := Unstuff(rest, Bumped(ones, b));
      assert line == [b] + rest && part + [b] + u.bits == part + ([b] + u.bits);
      if |part| < 7 {
        s', sr' := ReceiveInner(s, j, ones, part, sr, b, rest);
      } else {
        s', sr' := ReceiveEighth(s, j, ones, part, sr, b, rest);
      }
    }
  }

  lemma {:induction false} ReceiveStuffed(s: Sys, j: Bit, part: seq<bool>, sr: bv8, rest: seq<bool>)
    returns (s': Sys, sr': bv8)
    requires Receiving(s, j, 6, part, sr) && Unstuff(rest, 0).Good?
    ensures var u := Unstuff(rest, 0);
            Received(s, j, [false] + rest, part + u.bits, u.ones, s', sr')
    decreases |rest|, 1
  {
    StuffedZero(s, j, part, sr);
    s', sr' := ReceiveLine(Bit4(s, Sample(Not(j), L)), Not(j), 0, part, sr, rest);
    var bs := Whole(part + Unstuff(rest, 0).bits);
    Extend(s, j, false, rest, [], bs);
    assert [] + bs == bs;
  }

  lemma {:induction false} ReceiveInner(s: Sys, j: Bit, ones: nat, part: seq<bool>, sr: bv8, b: bool, rest: seq<bool>)
    returns (s': Sys, sr': bv8)
    requires Receiving(s, j, ones, part, sr) && ones <= 5 && |part| < 7
    requires Unstuff(rest, Bumped(ones, b)).Good?
    ensures var u := Unstuff(rest, Bumped(ones, b));
            Received(s, j, [b] + rest, part + [b] + u.bits, u.ones, s', sr')
    decreases |rest|, 1
  {
    InnerBit(s, j, ones, part, sr, b);
    s', sr' := ReceiveLine(Bit4(s, Sample(Line(j, b), L)), Line(j, b), Bumped(ones, b), part + [b], sr, rest);
    var bs := Whole(part + [b] + Unstuff(rest, Bumped(ones, b)).bits);
    Extend(s, j, b, rest, [], bs);
    assert [] + bs == bs;
  }

  lemma {:induction false} ReceiveEighth(s: Sys, j: Bit, ones: nat, part: seq<bool>, sr: bv8, b: bool, rest: seq<bool>)
    returns (s': Sys, sr': bv8)
    requires Receiving(s, j, ones, part, sr) && ones <= 5 && |part| == 7
    requires Unstuff(rest, Bumped(ones, b)).Good?
    ensures var u := Unstuff(rest, Bumped(ones, b));
            Received(s, j, [b] + rest, part + [b] + u.bits, u.ones, s', sr')
    decreases |rest|, 1
  {
    EighthBit(s, j, ones, part, sr, b);
    var s1 := Bit4(s, Sample(Line(j, b), L));
    s', sr' := ReceiveLine(s1, Line(j, b), Bumped(ones, b), [], s1.r.dataSR, rest);
    var bits := Unstuff(rest, Bumped(ones, b)).bits;
    Extend(s, j, b, rest, [FromBits(part + [b])], Whole([] + bits));
    WholeCons(part + [b], bits);
  }

  lemma WholeCons(byte: seq<bool>, bits: seq<bool>)
    requires |byte| == 8
    ensures Whole(byte + bits) == [FromBits(byte)] + Whole([] + bits)
    ensures Part(byte + bits) == Part([] + bits)
  {
    assert (byte + bits)[..8] == byte && (byte + bits)[8..] == bits == [] + bits;
  }
}
