// Whole packets through the receiver: acquisition on the sync pattern, the end of
// packet, and the theorems about LineCode.PacketLine.
module FslsRxPacket {
  import opened Logic
  import opened LineCode
  import opened FslsRx
  import opened FslsRxProof

  // Between packets, with the line at J: a packet may begin with the next sample.
  predicate Ready(s: Sys) {
    && s.r.state.IDLE?
    && s.r.jk3 == H && s.r.jk2 == H && s.r.jk1 == H && s.r.jk0 == H
    && s.r.clkAdj == L && s.r.se0Lst == L && s.r.err == L && s.r.active == L
    && s.r.nbits < 8 && (s.r.nbits == 0 || s.r.presc != 0)
    && s.b.outVld == L
  }

  // Nothing is handed over and nothing is flagged.
  predicate Silent(o: Out) {
    o.outAck == L && o.err == L
  }

  // ---- acquisition -------------------------------------------------------------------

  predicate Settling(r: Reg, state: State, j: Bit, presc: U2) {
    && r.state == state && r.jk3 == j && r.jk2 == j && r.jk1 == j && r.jk0 == j
    && r.presc == presc && r.nbits == 0
    && r.err == L && r.clkAdj == L && r.se0Lst == L && r.active == L
  }

  // The register record an output edge sees within a bit time.
  function AtEdge(s: Sys, x: Sample): Reg {
    var s1 := Tick(s, x); var s2 := Tick(s1, x); var s3 := Tick(s2, x);
    if s.phase == 3 then s.r else if s.phase == 2 then s1.r else if s.phase == 1 then s2.r else s3.r
  }

  predicate NoneCompletes(s: Sys, x: Sample) {
    var s1 := Tick(s, x); var s2 := Tick(s1, x); var s3 := Tick(s2, x);
    !Completes(s.r, x) && !Completes(s1.r, x) && !Completes(s2.r, x) && !Completes(s3.r, x)
  }

  // Four ticks during which no byte completes leave an empty buffer empty.
  lemma EmptyHand(s: Sys, x: Sample)
    requires s.b.outVld == L && NoneCompletes(s, x)
    ensures var s' := Bit4(s, x);
            && s'.b.outVld == L && s'.phase == s.phase
            && s'.o.outAck == L && s'.o.err == AtEdge(s, x).err && s'.o.rxAct == AtEdge(s, x).active
  {
    Bit4Ticks(s, x);
  }

  lemma FirstK(s: Sys)
    requires Ready(s)
    ensures var s' := Bit4(s, Sample(L, L));
            Settling(s'.r, IDLE, L, 0) && s'.b.outVld == L && Silent(s'.o)
  {
    Bit4Ticks(s, Sample(L, L));
    EmptyHand(s, Sample(L, L));
  }

  lemma FirstJ(s: Sys)
    requires Settling(s.r, IDLE, L, 0) && s.b.outVld == L
    ensures var s' := Bit4(s, Sample(H, L));
            Settling(s'.r, SYNC, H, 1) && s'.r.nstuff == NSTUFF && s'.b.outVld == L && Silent(s'.o)
  {
    Bit4Ticks(s, Sample(H, L));
    EmptyHand(s, Sample(H, L));
  }

  lemma SyncToggle(s: Sys, j: Bit)
    requires Settling(s.r, SYNC, j, 1) && s.r.nstuff == NSTUFF && s.b.outVld == L
    ensures var s' := Bit4(s, Sample(Not(j), L));
            Settling(s'.r, SYNC, Not(j), 1) && s'.r.nstuff == NSTUFF && s'.b.outVld == L && Silent(s'.o)
  {
    Bit4Ticks(s, Sample(Not(j), L));
    EmptyHand(s, Sample(Not(j), L));
  }

  // The second K in a row ends the sync pattern; its one is counted.
  lemma SyncEnd(s: Sys)
    requires Settling(s.r, SYNC, L, 1) && s.r.nstuff == NSTUFF && s.b.outVld == L
    ensures var s' := Bit4(s, Sample(L, L));
            Receiving(s', L, 1, [], s'.r.dataSR) && s'.b.outVld == L && Silent(s'.o)
  {
    Bit4Ticks(s, Sample(L, L));
    EmptyHand(s, Sample(L, L));
  }

  // ---- end of packet ---------------------------------------------------------------------

  // Inside the end of packet, the line at `j`, with `se0Lst` as given.
  predicate Ending(r: Reg, se0Lst: Bit) {
    && r.state.EOP? && r.jk3 == L && r.jk2 == L && r.jk1 == L && r.jk0 == L
    && r.presc == 1 && r.clkAdj == L && r.se0Lst == se0Lst && r.active == L
  }

  // Either the last byte is complete, or the packet has been flagged already.
  predicate MayEnd(s: Sys, j: Bit) {
    && InRun(s, j) && s.r.active == H
    && if s.r.err == H then s.r.nstuff == 15 && s.r.nbits <= 6 && s.b.outVld == L
       else s.r.nbits == 0 && s.r.nstuff <= 5
  }

  lemma FirstSE0Sampler(r: Reg, j: Bit)
    requires r.state.RUN? && AtBoundary(r, j) && r.nbits <= 6
    ensures var x := Sample(L, H);
            var r1 := Next(r, x); var r2 := Next(r1, x); var r3 := Next(r2, x); var r4 := Next(r3, x);
            && r1.err == r.err && r2.err == r3.err == BitErr(r, L)
            && r1.active == r.active && r2.active == L && r3.active == L
            && !Completes(r, x) && !Completes(r1, x) && !Completes(r2, x) && !Completes(r3, x)
            && !Sampling(r) && Sampling(r1) && !Sampling(r2) && !Sampling(r3)
            && Ending(r4, H) && r4.nbits == BitCount(r) && r4.nstuff == BitNstuff(r, L) && r4.err == BitErr(r, L)
  {
  }

  // SE0 ends the packet at once; a byte still in the hand-over gets through.
  lemma FirstSE0(s: Sys, j: Bit)
    requires MayEnd(s, j)
    ensures var s' := Bit4(s, Sample(L, H));
            && Ending(s'.r, H) && s'.b.outVld == L
            && s'.r.nstuff == BitNstuff(s.r, L) && s'.r.err == s.r.err && s'.r.nbits == BitCount(s.r)
            && Got(s'.o) == Held(s.b, s.o) && s'.o.err == s.r.err
  {
    var x := Sample(L, H);
    FirstSE0Sampler(s.r, j);
    Bit4Ticks(s, x);
    var s' := Bit4(s, x);
    var sr := TakenSR(Tick(s, x).r, x);
    assert (s'.b, s'.o) == Hand4(s.b, s.o, s.phase, sr, false, H, s.r.err, L, BitErr(s.r, L));
    HandOver(s.b, s.o, s.phase, s.r.nbits, sr, false, H, s.r.err, L, BitErr(s.r, L), s'.r.nbits);
  }

  // SE0 reads as a low level, so a sixth one in a row raises `err` here, and the
  // settled J takes it back.
  lemma SecondSE0(s: Sys)
    requires Ending(s.r, H) && s.b.outVld == L && s.r.nbits <= 7 && (s.r.err == H || s.r.nbits <= 6)
    ensures var s' := Bit4(s, Sample(L, H));
            && Ending(s'.r, H) && s'.b.outVld == L && s'.o.outAck == L && s'.phase == s.phase
            && s'.r.err == (if Expired(s.r.nstuff) then H else s.r.err)
            && (s'.r.err == H || s'.r.nbits <= s.r.nbits + 1)
            && s'.o.rxAct == L && s'.o.err == if s.phase >= 2 then s.r.err else s'.r.err
  {
    Bit4Ticks(s, Sample(L, H));
    EmptyHand(s, Sample(L, H));
  }

  lemma FinalJ(s: Sys)
    requires Ending(s.r, H) && s.b.outVld == L && (s.r.err == H || s.r.nbits <= 6)
    ensures var s' := Bit4(s, Sample(H, L));
            && Ready(s') && s'.o.outAck == L && s'.o.rxAct == L
            && s'.o.err == if s.phase >= 2 then s.r.err else L
  {
    Bit4Ticks(s, Sample(H, L));
    EmptyHand(s, Sample(H, L));
  }

  predicate Flagged(os: seq<Out>) {
    exists o :: o in os && o.err == H
  }

  // While the receiver is active nothing is flagged.
  predicate CleanWhileActive(os: seq<Out>) {
    forall o :: o in os && o.rxAct == H ==> o.err == L
  }

  lemma ThreeLevels(s: Sys)
    ensures var s1 := Bit4(s, Sample(L, H)); var s2 := Bit4(s1, Sample(L, H)); var s3 := Bit4(s2, Sample(H, L));
            RunLevels(s, EOP_LEVELS) == s3 && SeenLevels(s, EOP_LEVELS) == [s1.o, s2.o, s3.o]
  {
    var s1 := Bit4(s, Sample(L, H)); var s2 := Bit4(s1, Sample(L, H)); var s3 := Bit4(s2, Sample(H, L));
    LevelStep(s2, J, [], s3);
    LevelStep(s1, SE0, [J], s2);
    LevelStep(s, SE0, [SE0, J], s1);
    assert [J] + [] == [J] && [SE0] + [J] == [SE0, J] && [SE0] + [SE0, J] == EOP_LEVELS;
  }

  lemma Close(s: Sys, j: Bit)
    requires MayEnd(s, j)
    ensures var s', os := RunLevels(s, EOP_LEVELS), SeenLevels(s, EOP_LEVELS);
            && Ready(s') && Delivered(os) == Held(s.b, s.o)
            && (s.r.err == L ==> CleanWhileActive(os) && (Flagged(os) <==> s.r.nstuff == 0 && j == L))
  {
    hide Bit4, RunLevels, SeenLevels, Delivered, Flagged, CleanWhileActive, Held, Ready;
    var s1 := Bit4(s, Sample(L, H)); var s2 := Bit4(s1, Sample(L, H)); var s3 := Bit4(s2, Sample(H, L));
    ThreeLevels(s);
    FirstSE0(s, j);
    SecondSE0(s1);
    FinalJ(s2);
    ThreeOut(s1.o, s2.o, s3.o);
  }

  lemma ThreeOut(a: Out, b: Out, c: Out)
    ensures Delivered([a, b, c]) == Got(a) + (Got(b) + Got(c))
    ensures Flagged([a, b, c]) <==> a.err == H || b.err == H || c.err == H
    ensures CleanWhileActive([a, b, c]) <==>
            (a.rxAct == H ==> a.err == L) && (b.rxAct == H ==> b.err == L) && (c.rxAct == H ==> c.err == L)
  {
    var os := [a, b, c];
    assert os[1..] == [b, c] && os[1..][1..] == [c] && os[1..][1..][1..] == [];
    assert Delivered([c]) == Got(c) + Delivered([c][1..]);
    assert Delivered([b, c]) == Got(b) + Delivered([c]);
    assert Delivered(os) == Got(a) + Delivered([b, c]);
    assert a in os && b in os && c in os;
  }

  // ---- the sync pattern -------------------------------------------------------------------

  predicate AllSilent(os: seq<Out>) {
    forall o :: o in os ==> Silent(o)
  }

  lemma {:induction false} SilentDelivers(os: seq<Out>)
    requires AllSilent(os)
    ensures Delivered(os) == []
  {
    if os != [] {
      assert os[0] in os;
      assert forall o :: o in os[1..] ==> o in os;
      SilentDelivers(os[1..]);
    }
  }

  // Toggling levels from the first J of the sync pattern on.
  function Toggles(j: Bit, n: nat): seq<Level>
    decreases n
  {
    if n == 0 then [] else [LevelOf(Not(j) == H)] + Toggles(Not(j), n - 1)
  }

  lemma {:induction false} SyncRun(s: Sys, j: Bit, n: nat)
    requires Settling(s.r, SYNC, j, 1) && s.r.nstuff == NSTUFF && s.b.outVld == L
    ensures var s' := RunLevels(s, Toggles(j, n));
            && Settling(s'.r, SYNC, if n % 2 == 0 then j else Not(j), 1)
            && s'.r.nstuff == NSTUFF && s'.b.outVld == L
            && AllSilent(SeenLevels(s, Toggles(j, n)))
    decreases n
  {
    if n > 0 {
      var s1 := Bit4(s, Sample(Not(j), L));
      SyncToggle(s, j);
      SyncRun(s1, Not(j), n - 1);
      LevelStep(s, LevelOf(Not(j) == H), Toggles(Not(j), n - 1), s1);
    }
  }


  // LineOf on the sync pattern, from a sequence of zeros and its final one.
  lemma {:induction false} ZerosThenOne(n: nat, j: Bit)
    ensures var last := if n % 2 == 0 then j else Not(j);
            && LineOf(Zeros(n) + [true], j) == Toggles(j, n) + [LevelOf(last == H)]
            && Rest(Zeros(n) + [true], j == H) == (last == H)
    decreases n
  {
    hide LineOf;
    if n == 0 {
      LineOfStep(true, [], j);
      assert Zeros(0) + [true] == [true] + [];
      assert LineOf([], j) == [] by { EmptyLine(j); }
    } else {
      assert Zeros(n) + [true] == [false] + (Zeros(n - 1) + [true]);
      LineOfStep(false, Zeros(n - 1) + [true], j);
      ZerosThenOne(n - 1, Not(j));
      assert Toggles(j, n) == [LevelOf(Not(j) == H)] + Toggles(Not(j), n - 1);
    }
  }

  lemma EmptyLine(j: Bit)
    ensures LineOf([], j) == []
  {
  }

  lemma AcquireRest(s: Sys)
    requires Settling(s.r, SYNC, H, 1) && s.r.nstuff == NSTUFF && s.b.outVld == L
    ensures var ls := Toggles(H, 5) + [K];
            var s', os := RunLevels(s, ls), SeenLevels(s, ls);
            Receiving(s', L, 1, [], s'.r.dataSR) && s'.b.outVld == L && AllSilent(os)
  {
    SyncRun(s, H, 5);
    var s3 := RunLevels(s, Toggles(H, 5));
    SyncEnd(s3);
    RunLevelsConcat(s, Toggles(H, 5), [K]);
    LevelStep(s3, K, [], Bit4(s3, Sample(L, L)));
    assert [K] + [] == [K];
  }

  // The receiver acquires the packet during the sync pattern, silently.
  lemma Acquire(s: Sys)
    requires Ready(s)
    ensures var s', os := RunLevels(s, LineOf(SYNC_BITS, H)), SeenLevels(s, LineOf(SYNC_BITS, H));
            && Receiving(s', L, 1, [], s'.r.dataSR) && s'.b.outVld == L
            && AllSilent(os) && !Rest(SYNC_BITS, true)
  {
    var ls := Toggles(H, 5) + [K];
    var s1 := Bit4(s, Sample(L, L));
    FirstK(s);
    var s2 := Bit4(s1, Sample(H, L));
    FirstJ(s1);
    AcquireRest(s2);
    LevelStep(s1, J, ls, s2);
    LevelStep(s, K, [J] + ls, s1);
    SyncLine();
  }

  lemma SyncLine()
    ensures LineOf(SYNC_BITS, H) == [K] + ([J] + (Toggles(H, 5) + [K]))
    ensures !Rest(SYNC_BITS, true)
  {
    ZerosThenOne(7, H);
    assert SYNC_BITS == Zeros(7) + [true];
    assert Toggles(H, 7) == [K] + Toggles(L, 6);
    assert Toggles(L, 6) == [J] + Toggles(H, 5);
  }

  // ---- the filler of a spoilt packet ----------------------------------------------------------

  // `c` ones in a row, the first `k` of them payload: from the seventh on the
  // packet is flagged, and the count of a started byte sticks below eight.
  predicate Drowning(s: Sys, j: Bit, k: nat, c: nat) {
    && k <= 6 && k <= c && InRun(s, j) && s.r.active == H
    && s.r.nstuff == NstuffOf(if c <= 6 then c else 6)
    && s.r.nbits == (if c <= 6 then c else 6) - k
    && s.r.err == ToBit(c > 6)
    && (c > k ==> s.b.outVld == L)
  }

  lemma DrownBit(s: Sys, j: Bit, k: nat, c: nat)
    requires Drowning(s, j, k, c)
    ensures var s' := Bit4(s, Sample(j, L));
            && Drowning(s', j, k, c + 1) && Held(s.b, s.o) == Got(s'.o)
            && s'.o.rxAct == H && (c > 6 ==> s'.o.err == H)
  {
    RunBit(s, j, Sample(j, L));
    var s' := Bit4(s, Sample(j, L));
    assert !BitDone(s.r, j) && Held(s'.b, s'.o) == [];
    assert Held(s.b, s.o) + [] == Held(s.b, s.o) && Got(s'.o) + [] == Got(s'.o);
  }

  // Flagged while active.
  predicate Alarm(os: seq<Out>) {
    exists o :: o in os && o.err == H && o.rxAct == H
  }

  lemma {:induction false} Drown(s: Sys, j: Bit, k: nat, c: nat, ones: seq<bool>)
    requires Drowning(s, j, k, c) && AllTrue(ones) && ones != []
    ensures var s', os := RunLevels(s, LineOf(ones, j)), SeenLevels(s, LineOf(ones, j));
            && Drowning(s', j, k, c + |ones|) && Delivered(os) == Held(s.b, s.o)
            && (c + |ones| > 7 ==> Alarm(os))
    decreases |ones|
  {
    var s1 := Bit4(s, Sample(j, L));
    DrownBit(s, j, k, c);
    var rest := ones[1..];
    assert ones == [true] + rest;
    LineOfStep(true, rest, j);
    LevelStep(s, LevelOf(j == H), LineOf(rest, j), s1);
    var os := [s1.o] + SeenLevels(s1, LineOf(rest, j));
    assert os[0] == s1.o && os[1..] == SeenLevels(s1, LineOf(rest, j));
    if rest == [] {
      assert LineOf(rest, j) == [] && Delivered(os) == Got(s1.o) + Delivered([]);
    } else {
      Drown(s1, j, k, c + 1, rest);
      assert Delivered(os) == Got(s1.o) + Delivered(os[1..]);
    }
  }

  // ---- packets -----------------------------------------------------------------------------------

  // A received line run delivers what the buffer does not still hold.
  lemma LineDelivers(s: Sys, j: Bit, line: seq<bool>, bytes: seq<bv8>, all: seq<bool>, ones: nat, s': Sys, sr': bv8)
    requires Received(s, j, line, all, ones, s', sr') && all == Flat(bytes) && s.b.outVld == L
    ensures bytes == Delivered(SeenLevels(s, LineOf(line, j))) + Held(s'.b, s'.o)
    ensures CleanWhileActive(SeenLevels(s, LineOf(line, j))) && !Flagged(SeenLevels(s, LineOf(line, j)))
    ensures Part(all) == []
  {
    WholeFlat(bytes);
    assert Held(s.b, s.o) == [] && [] + bytes == bytes;
  }

  lemma LineOfConcat(a: seq<bool>, b: seq<bool>, j: Bit, j': Bit)
    requires j' == ToBit(Rest(a, j == H))
    ensures LineOf(a + b, j) == LineOf(a, j) + LineOf(b, j')
    ensures Rest(a + b, j == H) == Rest(b, j' == H)
  {
    hide Levels;
    NrziConcat(a, b, j == H);
    LevelsConcat(Nrzi(a, j == H), Nrzi(b, j' == H));
  }

  // The line form of a packet, split at the end of the sync pattern and at SE0.
  lemma PacketLineSplit(bytes: seq<bv8>, spoilt: bool)
    ensures PacketLine(bytes, spoilt)
            == LineOf(SYNC_BITS, H) + (LineOf(Tail(Flat(bytes), 1, spoilt), L) + EOP_LEVELS)
    ensures Ones(PacketBits(bytes), 0) == Ones(Flat(bytes), 1)
    ensures Rest(Stuff(PacketBits(bytes), 0), true) == Rest(Stuff(Flat(bytes), 1), false)
  {
    hide Tail, LineOf, Levels, Stuff, Ones, Rest, Flat, PacketLine, PacketBits;
    var bits := Flat(bytes);
    var tail := Tail(bits, 1, spoilt);
    StuffPacket(bytes, spoilt);
    SyncLine();
    LineOfConcat(SYNC_BITS, tail, H, L);
    LineOfConcat(SYNC_BITS, Stuff(bits, 1), H, L);
    PacketLineIs(bytes, spoilt);
    assert (LineOf(SYNC_BITS, H) + LineOf(tail, L)) + EOP_LEVELS ==
      LineOf(SYNC_BITS, H) + (LineOf(tail, L) + EOP_LEVELS);
  }

  lemma StuffPacket(bytes: seq<bv8>, spoilt: bool)
    ensures Stuff(PacketBits(bytes), 0) == SYNC_BITS + Stuff(Flat(bytes), 1)
    ensures Ones(PacketBits(bytes), 0) == Ones(Flat(bytes), 1)
    ensures Tail(PacketBits(bytes), 0, spoilt) == SYNC_BITS + Tail(Flat(bytes), 1, spoilt)
  {
    hide Stuff, Ones, Flat;
    StuffSync(Flat(bytes));
  }

  lemma PacketLineIs(bytes: seq<bv8>, spoilt: bool)
    ensures PacketLine(bytes, spoilt) == LineOf(Tail(PacketBits(bytes), 0, spoilt), H) + EOP_LEVELS
  {
  }

  // Running the three pieces one after the other.
  lemma Pieces(s: Sys, a: seq<Level>, b: seq<Level>, c: seq<Level>)
    ensures var s1 := RunLevels(s, a); var s2 := RunLevels(s1, b);
            && RunLevels(s, a + (b + c)) == RunLevels(s2, c)
            && SeenLevels(s, a + (b + c)) == SeenLevels(s, a) + (SeenLevels(s1, b) + SeenLevels(s2, c))
            && Delivered(SeenLevels(s, a + (b + c)))
               == Delivered(SeenLevels(s, a)) + (Delivered(SeenLevels(s1, b)) + Delivered(SeenLevels(s2, c)))
  {
    var s1 := RunLevels(s, a);
    RunLevelsConcat(s, a, b + c);
    RunLevelsConcat(s1, b, c);
    var s2 := RunLevels(s1, b);
    DeliveredConcat(SeenLevels(s, a), SeenLevels(s1, b) + SeenLevels(s2, c));
    DeliveredConcat(SeenLevels(s1, b), SeenLevels(s2, c));
  }

  // The one way a good packet ends that disturbs `err` after the fact: a run of exactly
  // five ones, stuffed zeros counted, ends it and the line rests at K.
  predicate EndsOnFiveOnesAtK(bytes: seq<bv8>) {
    Ones(PacketBits(bytes), 0) == 5 && !Rest(Stuff(PacketBits(bytes), 0), true)
  }

  lemma Peel(b: bool, bits: seq<bool>, ones: nat, j: bool)
    requires ones <= 5
    ensures var n, j' := if b then ones + 1 else 0, if b then j else !j;
            && Ones([b] + bits, ones) == Ones(bits, n)
            && Rest(Stuff([b] + bits, ones), j) == Rest(Stuff(bits, n), j')
  {
    var n := if b then ones + 1 else 0;
    assert ([b] + bits)[1..] == bits;
    assert Stuff([b] + bits, ones)[1..] == Stuff(bits, n);
  }

  lemma {:induction false} OnesOnly(bits: seq<bool>, ones: nat, j: bool)
    requires AllTrue(bits) && ones + |bits| <= 5
    ensures Ones(bits, ones) == ones + |bits| && Rest(Stuff(bits, ones), j) == j
    decreases |bits|
  {
    if bits != [] {
      assert bits[0];
      OnesOnly(bits[1..], ones + 1, j);
      assert Stuff(bits, ones)[1..] == Stuff(bits[1..], ones + 1);
    }
  }

  // Four samples a level, for any phase of the output clock: the receiver delivers
  // exactly the packet's bytes, flags nothing while it is active, and is ready for
  // the next packet.  After the end of packet `err` is raised if and only if the
  // packet ends on five ones at K.
  lemma GoodPacketReceived(s: Sys, bytes: seq<bv8>)
    requires Ready(s)
    ensures var xs := Samples(PacketLine(bytes, false));
            && Ready(Run(s, xs)) && Delivered(Seen(s, xs)) == bytes
            && CleanWhileActive(Seen(s, xs))
            && (Flagged(Seen(s, xs)) <==> EndsOnFiveOnesAtK(bytes))
  {
    PacketLineSplit(bytes, false);
    InBitTimes(s, PacketLine(bytes, false));
    GoodPacketLevels(s, bytes);
  }

  // Such packets exist: the IN token of address 31 and endpoint 0, whose check bits are
  // five ones.
  const LATE_TOKEN: seq<bv8> := [0x69, 0x1f, 0xf8]

  lemma LateFlagExample(s: Sys)
    requires Ready(s)
    ensures var seen := Seen(s, Samples(PacketLine(LATE_TOKEN, false)));
            Flagged(seen) && CleanWhileActive(seen) && Delivered(seen) == LATE_TOKEN
  {
    hide Flagged, CleanWhileActive, Delivered, Seen, Samples, PacketLine, Ready, Run, EndsOnFiveOnesAtK;
    TokenEnds();
    GoodPacketReceived(s, LATE_TOKEN);
  }

  lemma TokenEnds()
    ensures EndsOnFiveOnesAtK(LATE_TOKEN)
  {
    hide Stuff, Rest, Ones, Flat, PacketLine, PacketBits, Tail, Nrzi, Bits;
    FlatToken();
    PacketLineSplit(LATE_TOKEN, false);
    TokenPid(Bits(0x1f) + Bits(0xf8));
    TokenAddress(Bits(0xf8));
    TokenCheck();
  }

  lemma FlatToken()
    ensures Flat(LATE_TOKEN) == Bits(0x69) + (Bits(0x1f) + Bits(0xf8))
  {
    hide Bits;
    FlatOne(0x69, [0x1f, 0xf8]);
    FlatOne(0x1f, [0xf8]);
    FlatOne(0xf8, []);
    assert Flat([]) == [] && Bits(0xf8) + [] == Bits(0xf8);
  }

  lemma FlatOne(b: bv8, bs: seq<bv8>)
    ensures Flat([b] + bs) == Bits(b) + Flat(bs)
  {
    hide Bits;
    assert ([b] + bs)[1..] == bs;
  }

  // The PID: no run of ones, and four zeros, so that the line is where it was.
  lemma TokenPid(rest: seq<bool>)
    ensures Ones(Bits(0x69) + rest, 1) == Ones(rest, 0)
    ensures Rest(Stuff(Bits(0x69) + rest, 1), false) == Rest(Stuff(rest, 0), false)
  {
    assert Bits(0x69) == [true, false, false, true, false, true, true, false];
    hide Bits, Stuff, Rest, Ones;
    var r5 := [true] + ([true] + ([false] + rest));
    var r3 := [true] + ([false] + r5);
    assert Bits(0x69) + rest == [true] + ([false] + ([false] + r3));
    Peel(true, [false] + ([false] + r3), 1, false);
    Peel(false, [false] + r3, 2, false);
    Peel(false, r3, 0, true);
    Peel(true, [false] + r5, 0, false);
    Peel(false, r5, 1, false);
    Peel(true, [true] + ([false] + rest), 0, true);
    Peel(true, [false] + rest, 1, true);
    Peel(false, rest, 2, true);
  }

  // Address 31: five ones and three zeros.
  lemma TokenAddress(rest: seq<bool>)
    ensures Ones(Bits(0x1f) + rest, 0) == Ones(rest, 0)
    ensures Rest(Stuff(Bits(0x1f) + rest, 0), false) == Rest(Stuff(rest, 0), true)
  {
    assert Bits(0x1f) == [true, true, true, true, true, false, false, false];
    hide Bits, Stuff, Rest, Ones;
    var r5 := [false] + ([false] + ([false] + rest));
    var r2 := [true] + ([true] + ([true] + r5));
    assert Bits(0x1f) + rest == [true] + ([true] + r2);
    Peel(true, [true] + r2, 0, false);
    Peel(true, r2, 1, false);
    Peel(true, [true] + ([true] + r5), 2, false);
    Peel(true, [true] + r5, 3, false);
    Peel(true, r5, 4, false);
    Peel(false, [false] + ([false] + rest), 5, false);
    Peel(false, [false] + rest, 0, true);
    Peel(false, rest, 0, false);
  }

  // Endpoint 0 and the check bits: three zeros and five ones.
  lemma TokenCheck()
    ensures Ones(Bits(0xf8), 0) == 5 && !Rest(Stuff(Bits(0xf8), 0), true)
  {
    assert Bits(0xf8) == [false, false, false, true, true, true, true, true];
    hide Bits, Stuff, Rest, Ones;
    var five: seq<bool> := [true, true, true, true, true];
    assert Bits(0xf8) == [false] + ([false] + ([false] + five));
    Peel(false, [false] + ([false] + five), 0, true);
    Peel(false, [false] + five, 0, false);
    Peel(false, five, 0, true);
    OnesOnly(five, 0, false);
  }

  lemma GoodPacketLevels(s: Sys, bytes: seq<bv8>)
    requires Ready(s)
    ensures var ls := LineOf(SYNC_BITS, H) + (LineOf(Tail(Flat(bytes), 1, false), L) + EOP_LEVELS);
            var s', os := RunLevels(s, ls), SeenLevels(s, ls);
            && Ready(s') && Delivered(os) == bytes && CleanWhileActive(os)
            && (Flagged(os) <==> Ones(Flat(bytes), 1) == 5 && !Rest(Stuff(Flat(bytes), 1), false))
  {
    var bits := Flat(bytes);
    var a, b := LineOf(SYNC_BITS, H), LineOf(Tail(bits, 1, false), L);
    Acquire(s);
    var s1 := RunLevels(s, a);
    var s2 := GoodLine(s1, bytes);
    Close(s2, ToBit(Rest(Tail(bits, 1, false), false)));
    Pieces(s, a, b, EOP_LEVELS);
    SilentDelivers(SeenLevels(s, a));
    FlagsOfPieces(SeenLevels(s, a), SeenLevels(s1, b), SeenLevels(s2, EOP_LEVELS));
  }

  lemma FlagsOfPieces(a: seq<Out>, b: seq<Out>, c: seq<Out>)
    requires AllSilent(a) && CleanWhileActive(b) && !Flagged(b) && CleanWhileActive(c)
    ensures CleanWhileActive(a + (b + c))
    ensures Flagged(a + (b + c)) <==> Flagged(c)
  {
    forall o
      ensures o in a + (b + c) <==> o in a || o in b || o in c
    {
    }
  }

  lemma GoodLine(s: Sys, bytes: seq<bv8>) returns (s': Sys)
    requires Receiving(s, L, 1, [], s.r.dataSR) && s.b.outVld == L
    ensures var bits := Flat(bytes);
            var ls := LineOf(Tail(bits, 1, false), L);
            && s' == RunLevels(s, ls) && s'.r.err == L
            && MayEnd(s', ToBit(Rest(Tail(bits, 1, false), false)))
            && bytes == Delivered(SeenLevels(s, ls)) + Held(s'.b, s'.o)
            && CleanWhileActive(SeenLevels(s, ls)) && !Flagged(SeenLevels(s, ls))
            && (s'.r.nstuff == 0 <==> Ones(bits, 1) == 5)
            && (Ones(bits, 1) != 6 ==> Tail(bits, 1, false) == Stuff(bits, 1))
  {
    var bits := Flat(bytes);
    var line := Tail(bits, 1, false);
    UnstuffOwed(bits, 1);
    var sr';
    s', sr' := ReceiveLine(s, L, 1, [], s.r.dataSR, line);
    assert [] + bits == bits;
    LineDelivers(s, L, line, bytes, bits, if Ones(bits, 1) == 6 then 0 else Ones(bits, 1), s', sr');
  }

  // A packet spoilt by the transmitter: every byte still arrives, the filler is
  // never delivered as one, and `err` is seen while the receiver is active.
  lemma SpoiltPacketReceived(s: Sys, bytes: seq<bv8>)
    requires Ready(s)
    ensures var xs := Samples(PacketLine(bytes, true));
            && Ready(Run(s, xs)) && Delivered(Seen(s, xs)) == bytes && Alarm(Seen(s, xs))
  {
    PacketLineSplit(bytes, true);
    InBitTimes(s, PacketLine(bytes, true));
    SpoiltPacketLevels(s, bytes);
  }

  lemma SpoiltPacketLevels(s: Sys, bytes: seq<bv8>)
    requires Ready(s)
    ensures var ls := LineOf(SYNC_BITS, H) + (LineOf(Tail(Flat(bytes), 1, true), L) + EOP_LEVELS);
            var s', os := RunLevels(s, ls), SeenLevels(s, ls);
            Ready(s') && Delivered(os) == bytes && Alarm(os)
  {
    var a, b := LineOf(SYNC_BITS, H), LineOf(Tail(Flat(bytes), 1, true), L);
    Acquire(s);
    var s1 := RunLevels(s, a);
    var s2, j := SpoiltLine(s1, bytes);
    Close(s2, j);
    Pieces(s, a, b, EOP_LEVELS);
    SilentDelivers(SeenLevels(s, a));
    var o :| o in SeenLevels(s1, b) && o.err == H && o.rxAct == H;
    assert o in SeenLevels(s1, b) + SeenLevels(s2, EOP_LEVELS);
  }

  lemma SpoiltLine(s: Sys, bytes: seq<bv8>) returns (s': Sys, j: Bit)
    requires Receiving(s, L, 1, [], s.r.dataSR) && s.b.outVld == L
    ensures var ls := LineOf(Tail(Flat(bytes), 1, true), L);
            && s' == RunLevels(s, ls) && MayEnd(s', j) && Held(s'.b, s'.o) == []
            && bytes == Delivered(SeenLevels(s, ls)) && Alarm(SeenLevels(s, ls))
  {
    hide Flat, Receiving, Drowning, MayEnd, Held, Stuff, Rest, Ones, Tail, LineOf, RunLevels, SeenLevels, Delivered,
      Alarm;
    var bits := Flat(bytes);
    var line := Stuff(bits, 1);
    j := ToBit(Rest(line, false));
    var s1 := GoodPart(s, bytes);
    SpoiltTail(bits);
    Drown(s1, j, Ones(bits, 1), Ones(bits, 1), FILLER);
    LineOfConcat(line, FILLER, L, j);
    RunLevelsConcat(s, LineOf(line, L), LineOf(FILLER, j));
    DeliveredConcat(SeenLevels(s, LineOf(line, L)), SeenLevels(s1, LineOf(FILLER, j)));
    s' := RunLevels(s1, LineOf(FILLER, j));
    Drowned(s', j, Ones(bits, 1), Ones(bits, 1) + 8);
    AlarmAfter(SeenLevels(s, LineOf(line, L)), SeenLevels(s1, LineOf(FILLER, j)));
  }

  lemma SpoiltTail(bits: seq<bool>)
    ensures Tail(bits, 1, true) == Stuff(bits, 1) + FILLER && AllTrue(FILLER) && |FILLER| == 8
  {
    hide Stuff;
  }

  lemma Drowned(s: Sys, j: Bit, k: nat, c: nat)
    requires Drowning(s, j, k, c) && c > 6 && c > k
    ensures MayEnd(s, j) && Held(s.b, s.o) == []
  {
  }

  lemma AlarmAfter(a: seq<Out>, b: seq<Out>)
    requires Alarm(b)
    ensures Alarm(a + b)
  {
    var o :| o in b && o.err == H && o.rxAct == H;
    assert o in a + b;
  }

  lemma GoodPart(s: Sys, bytes: seq<bv8>) returns (s': Sys)
    requires Receiving(s, L, 1, [], s.r.dataSR) && s.b.outVld == L
    ensures var bits := Flat(bytes);
            var ls := LineOf(Stuff(bits, 1), L);
            && s' == RunLevels(s, ls)
            && Drowning(s', ToBit(Rest(Stuff(bits, 1), false)), Ones(bits, 1), Ones(bits, 1))
            && bytes == Delivered(SeenLevels(s, ls)) + Held(s'.b, s'.o)
  {
    var bits := Flat(bytes);
    UnstuffStuff(bits, 1);
    var sr';
    s', sr' := ReceiveLine(s, L, 1, [], s.r.dataSR, Stuff(bits, 1));
    assert [] + bits == bits;
    LineDelivers(s, L, Stuff(bits, 1), bytes, bits, Ones(bits, 1), s', sr');
  }

  // ---- between packets -------------------------------------------------------------------------

  // At J the receiver stays ready and silent for as long as the line does.
  lemma IdleSample(s: Sys)
    requires Ready(s)
    ensures Ready(Tick(s, SampleOf(J))) && AllSilent(Port(s, SampleOf(J)))
  {
  }

  // Out of reset it is ready after one sample of J.
  lemma PowerUp(phase: U2)
    ensures Ready(Tick(Sys(REG_INIT, BUF_INIT, OUT_INIT, phase), SampleOf(J)))
  {
  }
}
