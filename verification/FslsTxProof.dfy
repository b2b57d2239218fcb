// The transmitter, cycle by cycle, puts exactly LineCode.PacketLine on the bus.
module FslsTxProof {
  import opened Logic
  import opened LineCode
  import opened FslsTx

  // What the user hands over: the PID byte followed by the payload, and the
  // status bit that accompanies the stop.
  datatype Job = Job(bytes: seq<bv8>, spoilt: bool)

  // ---- the environment ----------------------------------------------------------

  // Demands on the user after `k` pulses of `nxt`: `stp` (with the status in bit
  // 7) answers exactly the last pulse, in the `rdy` cycle; a byte is on `data`
  // when it is loaded; the PID nibble is there when the sync pattern is over.
  // In all other cycles `data`, `stp` and `sendK` may be anything.
  predicate Served(r: Reg, k: nat, job: Job, i: In) {
    && (r.rdy == H ==> (i.stp == H <==> k == |job.bytes|))
    && (r.rdy == H && k == |job.bytes| ==> (i.data & 0x80 != 0) == job.spoilt)
    && (Loads(r) && r.state.SYNC? && 0 < |job.bytes| ==> PidByte(i.data) == job.bytes[0])
    && (Loads(r) && r.state.RUN? && r.frcStuffErr == L && k < |job.bytes| ==> i.data == job.bytes[k])
  }

  function Pulses(r: Reg, k: nat): nat {
    if r.nxt == H then k + 1 else k
  }

  // ---- the simulation invariant ---------------------------------------------------

  // Bits of the current byte that have not been shifted out; 0 if not one-hot.
  function Left(phase: bv8): nat {
    if phase == 2 then 1 else if phase == 4 then 2 else if phase == 8 then 3
    else if phase == 16 then 4 else if phase == 32 then 5 else if phase == 64 then 6
    else if phase == 128 then 7 else if phase == 1 then 8 else 0
  }

  predicate OnesKnown(r: Reg) {
    r.nstuff <= 5 || r.nstuff == 15
  }

  function OnesOf(r: Reg): nat {
    if r.nstuff <= 5 then 5 - r.nstuff else 6
  }

  // The nxt/rdy/stp pipeline while the c-th byte is being shifted: a request goes
  // out with three bits left and its answer is in when the last bit leaves,
  // however often stuffing interrupts.
  predicate Pipeline(r: Reg, k: nat, c: nat, job: Job) {
    var m := Left(r.phase);
    if m >= 3 then r.nxt == L && r.rdy == L && r.stp == L && k == c - 1
    else if m == 2 then
      r.stp == L && (if r.nxt == H then r.rdy == L && k == c - 1
                       else r.rdy == H && k == c && r.nstuff <= 5)
    else
      && r.nxt == L && k == c
      && (if r.rdy == H then r.stp == L
          else r.stp == ToBit(c == |job.bytes|) && (c == |job.bytes| ==> r.stpDat == ToBit(job.spoilt)))
  }

  predicate LowOnes(sr: bv8, m: nat) {
    forall i :: 0 <= i < m && i < 8 ==> Bits(sr)[i]
  }

  // `c` bytes have been loaded, `k` pulses of nxt have been seen.
  predicate Sending(r: Reg, k: nat, c: nat, job: Job) {
    && 0 < |job.bytes| && c <= |job.bytes|
    && 1 <= Left(r.phase) <= 8
    && r.se0H == H && r.se0L == L
    && (r.state.SYNC? || r.state.RUN?)
    && (r.state.SYNC? ==> c == 0 && k == 0 && r.frcStuffErr == L
                          && r.nxt == L && r.rdy == L && r.stp == L)
    && (r.frcStuffErr == L ==> OnesKnown(r))
    && (r.state.RUN? && r.frcStuffErr == L ==> 1 <= c && Pipeline(r, k, c, job))
    && (r.frcStuffErr == H ==> job.spoilt && r.nxt == L && r.rdy == L && r.stp == H && r.stpDat == L
                               && LowOnes(r.dataSR, Left(r.phase)))
  }

  predicate Closing(r: Reg) {
    && r.state.EOP? && r.nxt == L && r.rdy == L
    && (r.frcStuffErr == L ==> OnesKnown(r))
    && (Stuffing(r) ==> r.se0H == H && r.se0L == L)
    && (r.se0H == L && r.se0L == L ==> r.j == H)
  }

  // At rest: the line is at J and a command byte starts a packet.
  predicate Resting(r: Reg) {
    r.state.IDLE? && r.j == H && r.se0H == H && r.se0L == L && r.nxt == L && r.rdy == L
  }

  predicate Inv(r: Reg, k: nat, c: nat, job: Job) {
    Sending(r, k, c, job) || Closing(r) || Resting(r)
  }

  // ---- what is still to come on the line ---------------------------------------------

  function Remaining(r: Reg, c: nat, job: Job): seq<bool>
    requires c <= |job.bytes| && Left(r.phase) <= 8
  {
    Bits(r.dataSR)[..Left(r.phase)] + Flat(job.bytes[c..])
  }

  function Coded(bits: seq<bool>, j: Bit): seq<Level> {
    Levels(Nrzi(bits, j == H)) + EOP_LEVELS
  }

  // The line still carries coded bits (as opposed to SE0, the final J, or rest).
  predicate Coding(r: Reg) {
    r.state.SYNC? || r.state.RUN? || (r.state.EOP? && r.se0H == H && r.se0L == L)
  }

  // The stuffed bits that will follow the level now on the line.
  function Pending(r: Reg, c: nat, job: Job): seq<bool>
    requires c <= |job.bytes|
  {
    if r.state.EOP? then (if Stuffing(r) then [false] else [])
    else if r.frcStuffErr == H then Bits(r.dataSR)[..Left(r.phase)]
    else Tail(Remaining(r, c, job), OnesOf(r), job.spoilt)
  }

  function Future(r: Reg, c: nat, job: Job): seq<Level>
    requires c <= |job.bytes|
  {
    if r.state.IDLE? then []
    else if Coding(r) then [LevelOf(r.j == H)] + Coded(Pending(r, c, job), r.j)
    else if r.se0L == L then EOP_LEVELS[2..]
    else if r.se0H == L then EOP_LEVELS[1..]
    else EOP_LEVELS
  }

  // ---- one bit at a time ---------------------------------------------------------------

  lemma ShiftSlice(b: bv8, m: nat)
    requires 1 <= m <= 8
    ensures Bits(b >> 1)[..m - 1] == Bits(b)[..m][1..]
    ensures LowOnes(b, m) ==> LowOnes(b >> 1, m - 1)
  {
    ShiftBits(b);
    var s, s' := Bits(b), Bits(b >> 1);
    assert forall x :: 0 <= x < m - 1 ==> s'[x] == s[x + 1];
  }

  lemma RotatePhase(phase: bv8)
    requires 1 <= Left(phase)
    ensures Left(RotateRight(phase)) == if Left(phase) == 1 then 8 else Left(phase) - 1
    ensures phase & 2 != 0 <==> Left(phase) == 1
    ensures phase & 8 != 0 <==> Left(phase) == 3
  {
  }

  // Tail, one step.
  lemma TailStuff(bits: seq<bool>, spoilt: bool)
    requires bits != []
    ensures Tail(bits, 6, spoilt) == [false] + Tail(bits, 0, spoilt)
  {
    assert Ones(bits, 6) == Ones(bits, 0);
  }

  lemma TailStep(bits: seq<bool>, ones: nat, spoilt: bool)
    requires bits != [] && ones <= 5
    ensures Tail(bits, ones, spoilt) == [bits[0]] + Tail(bits[1..], if bits[0] then ones + 1 else 0, spoilt)
  {
  }

  lemma TailEnd(ones: nat, spoilt: bool)
    requires ones <= 6
    ensures Tail([], ones, spoilt) == if spoilt then FILLER else Owed(ones)
  {
  }

  // ---- one clock cycle ---------------------------------------------------------------------

  function Loaded(r: Reg, c: nat, i: In): nat {
    if Loads(r) && (r.state.SYNC? || !Ends(r, i)) then c + 1 else c
  }

  // A coding cycle keeps the invariant and consumes one pending bit, which it
  // puts on the line in NRZI form.
  predicate Consumes(r: Reg, k: nat, c: nat, job: Job, i: In) {
    var r', k', c' := Next(r, i), Pulses(r, k), Loaded(r, c, i);
    && Inv(r', k', c', job) && Coding(r')
    && c <= |job.bytes| && c' <= |job.bytes|
    && var p := Pending(r, c, job);
    && p != [] && Pending(r', c', job) == p[1..]
    && r'.j == if p[0] then r.j else Not(r.j)
  }

  lemma StuffCycle(r: Reg, k: nat, c: nat, job: Job, i: In)
    requires Sending(r, k, c, job) && Served(r, k, job, i) && Stuffing(r)
    ensures Consumes(r, k, c, job, i)
  {
    var r' := Next(r, i);
    var rem := Remaining(r, c, job);
    assert rem != [] && OnesOf(r) == 6 && OnesOf(r') == 0;
    assert Remaining(r', c, job) == rem;
    TailStuff(rem, job.spoilt);
    assert Sending(r', Pulses(r, k), c, job);
  }

  // The part common to all shifting cycles before the forced error.
  lemma LineStep(r: Reg, c: nat, job: Job, i: In)
    requires Shifts(r) && r.frcStuffErr == L && OnesKnown(r)
    requires c <= |job.bytes| && 1 <= Left(r.phase) <= 8
    ensures var rem := Remaining(r, c, job);
            var r' := Next(r, i);
            var ones := if rem[0] then OnesOf(r) + 1 else 0;
            && OnesOf(r) <= 5 && (r'.nstuff <= 5 || r'.nstuff == 15) && OnesOf(r') == ones
            && r'.j == (if rem[0] then r.j else Not(r.j))
            && Pending(r, c, job) == [rem[0]] + Tail(rem[1..], ones, job.spoilt)
  {
    var rem := Remaining(r, c, job);
    ShiftBits(r.dataSR);
    assert rem[0] == Bits(r.dataSR)[0];
    TailStep(rem, OnesOf(r), job.spoilt);
  }

  lemma ShiftNext(r: Reg, i: In)
    requires Shifts(r) && !Loads(r)
    ensures var r' := Next(r, i);
            && r'.state == r.state && r'.frcStuffErr == r.frcStuffErr && r'.se0H == r.se0H && r'.se0L == r.se0L
            && r'.dataSR == r.dataSR >> 1 && r'.phase == RotateRight(r.phase)
  {
  }

  // A bit is shifted out and the byte goes on.
  lemma ShiftCycle(r: Reg, k: nat, c: nat, job: Job, i: In)
    requires Sending(r, k, c, job) && Served(r, k, job, i) && Shifts(r) && !Loads(r)
    requires r.frcStuffErr == L
    ensures Consumes(r, k, c, job, i)
  {
    hide Next, Served, Tail, Bits;
    var r' := Next(r, i);
    ShiftNext(r, i);
    RotatePhase(r.phase);
    ShiftSlice(r.dataSR, Left(r.phase));
    LineStep(r, c, job, i);
    ShiftKeeps(r, k, c, job, i);
    assert Remaining(r', c, job) == Remaining(r, c, job)[1..];
  }

  lemma ShiftKeeps(r: Reg, k: nat, c: nat, job: Job, i: In)
    requires Sending(r, k, c, job) && Served(r, k, job, i) && Shifts(r) && !Loads(r)
    requires r.frcStuffErr == L
    ensures Sending(Next(r, i), Pulses(r, k), c, job)
  {
    RotatePhase(r.phase);
    LineStep(r, c, job, i);
  }

  // The last bit of a byte is shifted out and the next byte is loaded.
  lemma LoadCycle(r: Reg, k: nat, c: nat, job: Job, i: In)
    requires Sending(r, k, c, job) && Served(r, k, job, i) && Loads(r)
    requires r.frcStuffErr == L && c < |job.bytes|
    ensures Consumes(r, k, c, job, i)
  {
    var r' := Next(r, i);
    RotatePhase(r.phase);
    LineStep(r, c, job, i);
    assert Stopped(r, i) == L;
    assert r'.dataSR == job.bytes[c];
    assert Remaining(r, c, job)[1..] == Flat(job.bytes[c..]);
    assert Flat(job.bytes[c..]) == Bits(job.bytes[c]) + Flat(job.bytes[c + 1..]);
    assert Bits(r'.dataSR)[..8] == Bits(job.bytes[c]);
    assert Remaining(r', c + 1, job) == Remaining(r, c, job)[1..];
    assert Sending(r', Pulses(r, k), c + 1, job);
  }

  // The last bit of the last byte: end of packet, or the filler.
  lemma StopCycle(r: Reg, k: nat, c: nat, job: Job, i: In)
    requires Sending(r, k, c, job) && Served(r, k, job, i) && Loads(r) && r.state.RUN?
    requires r.frcStuffErr == L && c == |job.bytes|
    ensures Consumes(r, k, c, job, i)
  {
    hide Next, Served, Tail, Bits;
    LineStep(r, c, job, i);
    TailEnd(OnesOf(Next(r, i)), job.spoilt);
    RotatePhase(r.phase);
    StopNext(r, k, c, job, i);
    assert Remaining(r, c, job)[1..] == [];
  }

  lemma StopNext(r: Reg, k: nat, c: nat, job: Job, i: In)
    requires Sending(r, k, c, job) && Served(r, k, job, i) && Loads(r) && r.state.RUN?
    requires r.frcStuffErr == L && c == |job.bytes|
    ensures var r' := Next(r, i);
            && Loaded(r, c, i) == c && r'.se0H == H && r'.se0L == L
            && if job.spoilt
               then Sending(r', Pulses(r, k), c, job) && r'.frcStuffErr == H
                    && Bits(r'.dataSR)[..Left(r'.phase)] == FILLER
               else Closing(r') && r'.frcStuffErr == L
  {
    RotatePhase(r.phase);
    assert Stopped(r, i) == H && Status(r, i) == ToBit(job.spoilt);
    assert Bits(0xff) == FILLER;
    LineStep(r, c, job, i);
  }

  lemma FillerCycle(r: Reg, k: nat, c: nat, job: Job, i: In)
    requires Sending(r, k, c, job) && Served(r, k, job, i) && r.frcStuffErr == H
    ensures Consumes(r, k, c, job, i)
  {
    if Left(r.phase) > 1 { FillerGoesOn(r, k, c, job, i); } else { FillerEnds(r, k, c, job, i); }
  }

  lemma FillerGoesOn(r: Reg, k: nat, c: nat, job: Job, i: In)
    requires Sending(r, k, c, job) && Served(r, k, job, i) && r.frcStuffErr == H && Left(r.phase) > 1
    ensures Consumes(r, k, c, job, i)
  {
    hide Tail, Flat, OnesOf;
    RotatePhase(r.phase);
    ShiftBits(r.dataSR);
    ShiftSlice(r.dataSR, Left(r.phase));
    assert Sending(Next(r, i), Pulses(r, k), c, job);
  }

  lemma FillerEnds(r: Reg, k: nat, c: nat, job: Job, i: In)
    requires Sending(r, k, c, job) && Served(r, k, job, i) && r.frcStuffErr == H && Left(r.phase) == 1
    ensures Consumes(r, k, c, job, i)
  {
    hide Tail, Flat, OnesOf;
    RotatePhase(r.phase);
    ShiftBits(r.dataSR);
    ShiftSlice(r.dataSR, Left(r.phase));
  }

  lemma CodedStep(bits: seq<bool>, j: Bit, j': Bit)
    requires bits != [] && j' == if bits[0] then j else Not(j)
    ensures Coded(bits, j) == [LevelOf(j' == H)] + Coded(bits[1..], j')
  {
    var l := j' == H;
    assert Nrzi(bits, j == H) == [l] + Nrzi(bits[1..], l);
    assert Levels(Nrzi(bits, j == H)) == [LevelOf(l)] + Levels(Nrzi(bits[1..], l));
  }

  // Every cycle outside IDLE keeps the invariant, and the level on the wire is
  // the first of those that were still to come.
  lemma Advance(r: Reg, k: nat, c: nat, job: Job, i: In)
    requires c <= |job.bytes| && !r.state.IDLE?
    requires Inv(r, k, c, job) && Served(r, k, job, i)
    ensures var r', k', c' := Next(r, i), Pulses(r, k), Loaded(r, c, i);
            && Inv(r', k', c', job) && c' <= |job.bytes|
            && Future(r, c, job) == [Wire(r, i)] + Future(r', c', job)
  {
    hide Next, Tail, Coded, Served, Pipeline;
    if Sending(r, k, c, job) {
      if r.frcStuffErr == H { FillerCycle(r, k, c, job, i); }
      else if Stuffing(r) { StuffCycle(r, k, c, job, i); }
      else if !Loads(r) { ShiftCycle(r, k, c, job, i); }
      else if c < |job.bytes| { LoadCycle(r, k, c, job, i); }
      else { StopCycle(r, k, c, job, i); }
      CodedStep(Pending(r, c, job), r.j, Next(r, i).j);
    } else {
      ClosingCycle(r, k, c, job, i);
    }
  }

  lemma ClosingCycle(r: Reg, k: nat, c: nat, job: Job, i: In)
    requires Closing(r) && c <= |job.bytes|
    ensures var r', k', c' := Next(r, i), Pulses(r, k), Loaded(r, c, i);
            && Inv(r', k', c', job) && c' == c
            && Future(r, c, job) == [Wire(r, i)] + Future(r', c', job)
  {
    if Stuffing(r) {
      CodedStep([false], r.j, Not(r.j));
      assert [false][1..] == [];
    } else {
      assert Coded([], r.j) == EOP_LEVELS;
    }
  }

  // ---- whole runs -----------------------------------------------------------------------------

  // The environment serves the transmitter in every cycle of a run.
  predicate Honest(r: Reg, k: nat, job: Job, ins: seq<In>)
    decreases ins
  {
    ins != [] ==> Served(r, k, job, ins[0]) && Honest(Next(r, ins[0]), Pulses(r, k), job, ins[1..])
  }

  function Run(r: Reg, ins: seq<In>): Reg
    decreases ins
  {
    if ins == [] then r else Run(Next(r, ins[0]), ins[1..])
  }

  function Line(r: Reg, ins: seq<In>): seq<Level>
    decreases ins
  {
    if ins == [] then [] else [Wire(r, ins[0])] + Line(Next(r, ins[0]), ins[1..])
  }

  lemma {:induction false} RunFuture(r: Reg, k: nat, c: nat, job: Job, ins: seq<In>)
    requires c <= |job.bytes| && Inv(r, k, c, job) && Honest(r, k, job, ins)
    requires |ins| <= |Future(r, c, job)|
    ensures Line(r, ins) == Future(r, c, job)[..|ins|]
    ensures |ins| == |Future(r, c, job)| ==> Resting(Run(r, ins))
    decreases ins
  {
    hide Next, Wire, Inv, Future, Pulses, Loaded, Served, Resting;
    DoneMeansRest(r, k, c, job);
    if ins != [] {
      var r', k', c' := Next(r, ins[0]), Pulses(r, k), Loaded(r, c, ins[0]);
      Advance(r, k, c, job, ins[0]);
      RunFuture(r', k', c', job, ins[1..]);
    }
  }

  lemma DoneMeansRest(r: Reg, k: nat, c: nat, job: Job)
    requires c <= |job.bytes| && Inv(r, k, c, job)
    ensures Future(r, c, job) == [] <==> r.state.IDLE?
    ensures r.state.IDLE? ==> Resting(r)
  {
  }

  // The command cycle already carries the first K of the sync pattern.
  lemma StartCycle(r: Reg, job: Job, i: In)
    requires Resting(r) && Start(r, i) && 0 < |job.bytes|
    ensures Inv(Next(r, i), 0, 0, job)
    ensures PacketLine(job.bytes, job.spoilt) == [Wire(r, i)] + Future(Next(r, i), 0, job)
  {
    var r' := Next(r, i);
    var bits := PacketBits(job.bytes);
    var t := Tail(bits, 0, job.spoilt);
    TailStep(bits, 0, job.spoilt);
    TailStep(bits[1..], 0, job.spoilt);
    assert t[1..][1..] == Tail(bits[2..], 0, job.spoilt);
    CodedStep(t, H, L);
    CodedStep(t[1..], L, H);
    assert Bits(SYNC_BYTE >> 2)[..6] == SYNC_BITS[2..];
    assert job.bytes[0..] == job.bytes;
    assert Remaining(r', 0, job) == bits[2..];
  }

  // Refinement: served for as long as the packet lasts, the transmitter puts the
  // packet's line form on the bus, level by level, and is at rest again.
  // A shorter run has shown a prefix of it.
  lemma TransmitterSendsPacketLine(r: Reg, job: Job, ins: seq<In>)
    requires Resting(r) && 0 < |job.bytes|
    requires 0 < |ins| <= |PacketLine(job.bytes, job.spoilt)|
    requires Start(r, ins[0]) && Honest(Next(r, ins[0]), 0, job, ins[1..])
    ensures Line(r, ins) == PacketLine(job.bytes, job.spoilt)[..|ins|]
    ensures |ins| == |PacketLine(job.bytes, job.spoilt)| ==> Resting(Run(r, ins))
  {
    StartCycle(r, job, ins[0]);
    RunFuture(Next(r, ins[0]), 0, 0, job, ins[1..]);
  }

  // Without a command the bus idles at J.
  lemma IdleCycle(r: Reg, i: In)
    requires Resting(r) && i.sendK == L && !IsTxCmd(i.data)
    ensures Resting(Next(r, i)) && Wire(r, i) == J && OutOe(r, i) == L
  {
  }

  lemma PowerUpRests()
    ensures Resting(INIT) && INIT.act == L
  {
  }

  // A K on request, for chirps and wake-up: on the line in the same cycle, for as long as
  // it is asked for, and whatever else is offered.
  lemma DrivesK(r: Reg, i: In)
    requires Resting(r) && i.sendK == H
    ensures Resting(Next(r, i)) && OutJ(r, i) == L && OutVm(r, i) == H && OutOe(r, i) == H && r.se0L == L
    ensures r.act == L ==> Next(r, i).act == L
  {
  }

  predicate ActiveOk(r: Reg) {
    r.act == H <==> r.state.SYNC? || r.state.RUN?
  }

  lemma {:induction false} ActiveInvariant(r: Reg, ins: seq<In>)
    requires ActiveOk(r)
    ensures ActiveOk(Run(r, ins))
    decreases ins
  {
    if ins != [] {
      ActiveInvariant(Next(r, ins[0]), ins[1..]);
    }
  }

  // In every reachable state the transmitter is active from the cycle after the command to
  // the last bit of the packet, and drives the line in all of these, in the command's cycle
  // and in the end of packet.
  lemma ActiveWhileSending(ins: seq<In>, i: In)
    ensures var r := Run(INIT, ins);
            && (r.act == H <==> r.state.SYNC? || r.state.RUN?)
            && (OutOe(r, i) == L <==> r.state.IDLE? && i.sendK == L && i.data & 0xf0 != 0x40)
  {
    hide Next, Run;
    ActiveInvariant(INIT, ins);
    CommandNibble(i.data);
  }

  lemma CommandNibble(data: bv8)
    ensures IsTxCmd(data) <==> data & 0xf0 == 0x40
  {
  }

  // Whatever the inputs do, in every reachable state the pair (j, vm) is
  // differential, and both lines are low exactly during SE0.
  lemma {:induction false} DifferentialPair(ins: seq<In>, i: In)
    ensures var r := Run(INIT, ins);
            && (r.se0L == H ==> OutJ(r, i) == L && OutVm(r, i) == L)
            && (r.se0L == L ==> OutVm(r, i) == Not(OutJ(r, i)))
  {
    PairInvariant(INIT, ins);
  }

  predicate PairOk(r: Reg) {
    && (!r.state.EOP? ==> r.se0H == H && r.se0L == L)
    && (r.se0L == H ==> r.j == L)
    && r.vm == Vm(r.j, r.se0L)
  }

  lemma {:induction false} PairInvariant(r: Reg, ins: seq<In>)
    requires PairOk(r) && (Stuffing(r) && r.state.EOP? ==> r.se0L == L)
    ensures PairOk(Run(r, ins))
    decreases ins
  {
    if ins != [] {
      PairInvariant(Next(r, ins[0]), ins[1..]);
    }
  }

  // ---- the user's side: procedure SEND of test/Usb2FSLSTb.vhd --------------------------------

  // The user's registers after `k` pulses: the command byte, then a byte per
  // pulse, then the status; `stp` is up in the one cycle that answers the last.
  predicate Answers(rdy: Bit, k: nat, job: Job, cmd: bv8, data: bv8, stp: Bit) {
    && k <= |job.bytes|
    && (k == 0 ==> data == cmd)
    && (0 < k < |job.bytes| ==> data == job.bytes[k])
    && (k == |job.bytes| ==> (data & 0x80 != 0) == job.spoilt)
    && (stp == H <==> rdy == H && k == |job.bytes|)
  }

  lemma AnswersServe(r: Reg, k: nat, c: nat, job: Job, cmd: bv8, data: bv8, stp: Bit)
    requires Inv(r, k, c, job) && Answers(r.rdy, k, job, cmd, data, stp)
    requires 0 < |job.bytes| && c <= |job.bytes| && job.bytes[0] == PidByte(cmd)
    ensures r.state.IDLE? || Served(r, k, job, In(data, stp, L))
    ensures r.nxt == H ==> k < |job.bytes|
  {
    if Sending(r, k, c, job) && Loads(r) {
      RotatePhase(r.phase);
    }
  }

  // The user's clock edge: a pulse of nxt brings the next byte or the stop.
  method UserEdge(nxt: Bit, data: bv8, idx: nat, payload: seq<bv8>, status: Bit,
                  ghost k: nat, ghost job: Job, ghost cmd: bv8)
    returns (data': bv8, stp': Bit, idx': nat)
    requires job == Job([PidByte(cmd)] + payload, status == H)
    requires Answers(L, k, job, cmd, data, L) || Answers(H, k, job, cmd, data, H)
    requires nxt == H ==> k <= |payload|
    requires idx == if k <= |payload| then k else |payload|
    ensures var k' := if nxt == H then k + 1 else k;
            && Answers(nxt, k', job, cmd, data', stp')
            && idx' == if k' <= |payload| then k' else |payload|
  {
    data', stp', idx' := data, L, idx;
    if nxt == H {
      if idx < |payload| {
        data' := payload[idx];
        idx' := idx + 1;
      } else {
        data' := if status == H then 0xff else 0;
        stp' := H;
      }
    }
  }

  // One loop turn, with the levels still to come collected in `todo`.
  lemma SendCycle(r: Reg, k: nat, c: nat, job: Job, cmd: bv8, data: bv8, stp: Bit,
                  line: seq<Level>, todo: seq<Level>)
    requires c <= |job.bytes| && Inv(r, k, c, job) && !r.state.IDLE?
    requires Answers(r.rdy, k, job, cmd, data, stp)
    requires 0 < |job.bytes| && job.bytes[0] == PidByte(cmd)
    requires todo == Future(r, c, job)
    ensures var i := In(data, stp, L);
            var r', k', c' := Next(r, i), Pulses(r, k), Loaded(r, c, i);
            && Inv(r', k', c', job) && c' <= |job.bytes|
            && todo != [] && todo[1..] == Future(r', c', job)
            && line + [Wire(r, i)] + todo[1..] == line + todo
    ensures r.nxt == H ==> k < |job.bytes|
    ensures Next(r, In(data, stp, L)).rdy == r.nxt
  {
    hide Next, Wire, Inv, Future, Answers, Served;
    AnswersServe(r, k, c, job, cmd, data, stp);
    Advance(r, k, c, job, In(data, stp, L));
    RdyFollows(r, In(data, stp, L));
    assert todo == [Wire(r, In(data, stp, L))] + todo[1..];
  }

  lemma RdyFollows(r: Reg, i: In)
    requires !r.state.IDLE?
    ensures Next(r, i).rdy == r.nxt
  {
  }

  // Drives the entity the way the test bench does: the command byte until the
  // first pulse of nxt, then a byte per pulse, then the stop with its status.
  method Send(tx: Usb2FSLSTx, pid: bv8, payload: seq<bv8>, status: Bit) returns (line: seq<Level>)
    requires Resting(tx.r) && pid & 0xf0 == 0
    modifies tx
    ensures Resting(tx.r)
    ensures line == PacketLine([PidByte(pid)] + payload, status == H)
  {
    hide Next, Wire, Inv, Future, PacketLine, Served;
    var cmd: bv8 := 0x40 | pid;
    assert PidByte(cmd) == PidByte(pid);
    ghost var job := Job([PidByte(cmd)] + payload, status == H);
    ghost var k: nat, c: nat := 0, 0;
    var data, stp, idx := cmd, L, 0;
    StartCycle(tx.r, job, In(data, stp, L));
    line := [Wire(tx.r, In(data, stp, L))];
    tx.Step(L, data, stp, L);
    ghost var todo := Future(tx.r, c, job);
    ghost var target := line + todo;
    while tx.r.state != IDLE
      invariant Inv(tx.r, k, c, job) && c <= |job.bytes|
      invariant Answers(tx.r.rdy, k, job, cmd, data, stp)
      invariant idx == if k <= |payload| then k else |payload|
      invariant todo == Future(tx.r, c, job) && line + todo == target
      decreases |todo|
    {
      var nxt := tx.r.nxt;
      ghost var seen := k;
      SendCycle(tx.r, k, c, job, cmd, data, stp, line, todo);
      k, c, todo := Pulses(tx.r, k), Loaded(tx.r, c, In(data, stp, L)), todo[1..];
      line := line + [Wire(tx.r, In(data, stp, L))];
      tx.Step(L, data, stp, L);
      data, stp, idx := UserEdge(nxt, data, idx, payload, status, seen, job, cmd);
    }
    DoneMeansRest(tx.r, k, c, job);
    assert line == target;
  }
}
