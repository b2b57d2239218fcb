// The full/low speed serial receiver, core/hdl/Usb2FSLSRxBitShift.vhd.
//
// The sampling clock runs four times as fast as the output clock and in phase
// with it, so one call of `Step` is one sampling edge and every fourth call is an
// output edge as well.
module FslsRx {
  import opened Logic

  datatype State = IDLE | SYNC | RUN | EOP

  const NSTUFF: U4 := 5

  type U2 = n: nat | n < 4

  // Registers of the sampling clock that follow the line alone.  jkSR(3), the
  // newest sample, is jk3.
  datatype Reg = Reg(
    state: State, jk3: Bit, jk2: Bit, jk1: Bit, jk0: Bit, dataSR: bv8,
    presc: U2, nstuff: U4, nbits: U4, err: Bit, clkAdj: Bit, se0Lst: Bit, active: Bit)

  // The other two, which take part in the hand-over to the output clock.
  datatype Buf = Buf(outReg: bv8, outVld: Bit)

  // Registers of the output clock; `outAck` is the port `valid`.
  datatype Out = Out(outAck: Bit, rxAct: Bit, err: Bit, data: bv8)

  // The whole entity; `phase` counts sampling edges between output edges.
  datatype Sys = Sys(r: Reg, b: Buf, o: Out, phase: U2)

  datatype Sample = Sample(j: Bit, se0: Bit)

  const REG_INIT: Reg := Reg(EOP, H, H, H, H, 0, 0, 0, 0, L, L, L, L)
  const BUF_INIT: Buf := Buf(0, L)
  const OUT_INIT: Out := Out(L, L, L, 0)

  // ---- clock recovery: the pattern j, jk3, jk1, jk0 around a bit boundary ---------

  predicate InStep(r: Reg, j: Bit) {
    j == r.jk3 && r.jk1 == r.jk0
  }

  predicate TooFast(r: Reg, j: Bit) {
    r.jk3 == r.jk1 && r.jk1 == r.jk0 && j != r.jk3
  }

  predicate TooSlow(r: Reg, j: Bit) {
    j == r.jk3 && r.jk3 == r.jk1 && r.jk1 != r.jk0
  }

  predicate FirstJ(r: Reg, j: Bit) {
    j == H && r.jk3 == H && r.jk1 == L && r.jk0 == L
  }

  predicate TwoK(r: Reg, j: Bit) {
    j == L && r.jk3 == L && r.jk1 == L && r.jk0 == L
  }

  // ---- next-state equations, one per register ---------------------------------------

  predicate Sampling(r: Reg) {
    r.presc == 0
  }

  // The line kept its level since the previous bit: a one.
  predicate IsOne(r: Reg, x: Sample) {
    x.j == r.jk0
  }

  // The bit being sampled is payload, not a stuffed zero.
  predicate Takes(r: Reg) {
    Sampling(r) && !Expired(r.nstuff)
  }

  function TakenSR(r: Reg, x: Sample): bv8 {
    if !Takes(r) then r.dataSR
    else if IsOne(r, x) then (r.dataSR >> 1) | 0x80 else r.dataSR >> 1
  }

  function NextNstuff(r: Reg, x: Sample): U4 {
    if !Sampling(r) then r.nstuff
    else if !IsOne(r, x) then NSTUFF
    else if Expired(r.nstuff) then r.nstuff else Dec(r.nstuff)
  }

  function Inc(n: U4): U4 {
    if n == 15 then 0 else n + 1
  }

  function Counted(r: Reg): U4 {
    if Takes(r) then Inc(r.nbits) else if Expired(r.nbits) then r.nbits - 8 else r.nbits
  }

  // A seventh one in a row.
  function SampledErr(r: Reg, x: Sample): Bit {
    if Sampling(r) && IsOne(r, x) && Expired(r.nstuff) then H else r.err
  }

  predicate LostStep(r: Reg, x: Sample) {
    r.state.RUN? && Sampling(r) && !InStep(r, x.j) && !TooFast(r, x.j) && !TooSlow(r, x.j)
  }

  predicate Settled(r: Reg, x: Sample) {
    r.state.EOP? && x.se0 == L && r.se0Lst == L && x.j == H && r.jk3 == H
  }

  predicate SE0Seen(r: Reg, x: Sample) {
    x.se0 == H && r.se0Lst == H
  }

  function NextState(r: Reg, x: Sample): State {
    if SE0Seen(r, x) then EOP
    else match r.state
      case IDLE => if FirstJ(r, x.j) then SYNC else IDLE
      case SYNC => if TwoK(r, x.j) && Sampling(r) then RUN else SYNC
      case RUN => RUN
      case EOP => if Settled(r, x) && r.jk2 == H && r.jk1 == H then IDLE else EOP
  }

  function NextPresc(r: Reg, x: Sample): U2 {
    if r.state.IDLE? then (if FirstJ(r, x.j) then 3 else 0)
    else if r.state.RUN? && Sampling(r) && TooSlow(r, x.j) then 2
    else if r.clkAdj == H then r.presc
    else if r.presc == 0 then 3 else r.presc - 1
  }

  function NextNbits(r: Reg, x: Sample): U4 {
    if r.state.IDLE? || r.state.SYNC? || LostStep(r, x) then 0 else Counted(r)
  }

  function NextErr(r: Reg, x: Sample): Bit {
    if r.state.IDLE? || Settled(r, x) then L
    else if LostStep(r, x) then H else SampledErr(r, x)
  }

  function NextActive(r: Reg, x: Sample): Bit {
    if SE0Seen(r, x) then L
    else if r.state.SYNC? && TwoK(r, x.j) && Sampling(r) then H else r.active
  }

  function Next(r: Reg, x: Sample): Reg {
    Reg(NextState(r, x), x.j, r.jk3, r.jk2, r.jk1, TakenSR(r, x),
        NextPresc(r, x), NextNstuff(r, x), NextNbits(r, x), NextErr(r, x),
        ToBit(r.state.RUN? && Sampling(r) && TooFast(r, x.j)), x.se0, NextActive(r, x))
  }

  // The sampled bit completes a byte.
  predicate Completes(r: Reg, x: Sample) {
    Sampling(r) && SampledErr(r, x) == L && Expired(Counted(r))
  }

  // While a byte waits, the buffer keeps it.
  function NextBuf(b: Buf, sampling: bool, sr: bv8, completes: bool, outAck: Bit): Buf {
    Buf(if sampling && b.outVld == L then sr else b.outReg,
        if completes then H else if outAck == H then L else b.outVld)
  }

  // An output edge: a finished byte is handed over for one output cycle.
  function Hand(b: Buf, active: Bit, err: Bit, o: Out): Out {
    Out(b.outVld, active, err, if b.outVld == H then b.outReg else o.data)
  }

  predicate Edge(s: Sys) {
    s.phase == 3
  }

  function Tick(s: Sys, x: Sample): Sys {
    Sys(Next(s.r, x),
        NextBuf(s.b, Sampling(s.r), TakenSR(s.r, x), Completes(s.r, x), s.o.outAck),
        if Edge(s) then Hand(s.b, s.r.active, s.r.err, s.o) else s.o,
        if s.phase == 3 then 0 else s.phase + 1)
  }

  // ---- the line state ------------------------------------------------------------------

  // Bit 0 is D+ and bit 1 is D-; nothing else depends on it.
  const LINE_SE0: bv2 := 0
  const LINE_FS_J: bv2 := 1
  const LINE_INIT: bv2 := 3

  // The register of the sampling clock and its copy for the output clock.
  datatype Lines = Lines(cur: bv2, out: bv2)

  // J is D+ high at full speed and D- high at low speed.
  function Driven(j: Bit, isFs: bool): bv2 {
    if (j == H) == isFs then LINE_FS_J else !LINE_FS_J
  }

  function NextLines(l: Lines, r: Reg, x: Sample, edge: bool, isFs: bool): Lines {
    Lines(if SE0Seen(r, x) then LINE_SE0
          else if Settled(r, x) then Driven(H, isFs)
          else if Sampling(r) && (x.j == r.jk3 || r.state.SYNC?) then Driven(x.j, isFs) else l.cur,
          if edge then l.cur else l.out)
  }

  // ---- the entity ------------------------------------------------------------------------

  // The two resets: the sampling side starts anew, the output side drops its flags.
  function Clocked(s: Sys, x: Sample, smplRst: Bit, outRst: Bit): Sys {
    var t := Tick(s, x);
    Sys(if smplRst == H then REG_INIT else t.r,
        if smplRst == H then BUF_INIT else t.b,
        if outRst == H && Edge(s) then Out(L, L, s.r.err, s.o.data) else t.o,
        t.phase)
  }

  class Usb2FSLSRxBitShift {
    const isFs: bool
    var r: Reg
    var b: Buf
    var o: Out
    var lines: Lines
    var phase: U2

    constructor (isFs: bool, phase: U2)
      ensures this.isFs == isFs && State() == Sys(REG_INIT, BUF_INIT, OUT_INIT, phase)
      ensures lines == Lines(LINE_INIT, LINE_INIT)
    {
      this.isFs := isFs;
      r := REG_INIT;
      b := BUF_INIT;
      o := OUT_INIT;
      lines := Lines(LINE_INIT, LINE_INIT);
      this.phase := phase;
    }

    function State(): Sys
      reads this
    {
      Sys(r, b, o, phase)
    }

    // One sampling edge, and every fourth time an output edge; both processes see
    // the registers as they were before the edge.
    method Step(smplRst: Bit, outRst: Bit, j: Bit, se0: Bit)
      modifies this
      ensures State() == Clocked(old(State()), Sample(j, se0), smplRst, outRst)
      ensures lines == var l := NextLines(old(lines), old(r), Sample(j, se0), old(phase) == 3, isFs);
                       if smplRst == H then l.(cur := LINE_INIT) else l
    {
      hide Next, NextBuf, Driven, TakenSR, Completes;
      var v, vb := SampleEdge(r, b, Sample(j, se0), o.outAck);
      var cur := LineEdge(lines.cur, r, Sample(j, se0), isFs);
      if phase == 3 {
        o := OutputEdge(r, b, o, outRst);
        lines := lines.(out := lines.cur);
        phase := 0;
      } else {
        phase := phase + 1;
      }
      r, b, lines := v, vb, lines.(cur := cur);
      if smplRst == H {
        r, b, lines := REG_INIT, BUF_INIT, lines.(cur := LINE_INIT);
      }
    }
  }

  // Process P_OUT.
  method OutputEdge(r: Reg, b: Buf, o: Out, outRst: Bit) returns (v: Out)
    ensures v == if outRst == H then Out(L, L, r.err, o.data) else Hand(b, r.active, r.err, o)
  {
    v := o.(outAck := L);
    if outRst == H {
      v := v.(rxAct := L);
    } else {
      if b.outVld == H {
        v := v.(outAck := H, data := b.outReg);
      }
      v := v.(rxAct := r.active);
    }
    v := v.(err := r.err);
  }

  // The line state in process P_COMB: the sampled level, then the end of packet, then SE0.
  method LineEdge(cur: bv2, r: Reg, x: Sample, isFs: bool) returns (v: bv2)
    ensures forall out :: v == NextLines(Lines(cur, out), r, x, false, isFs).cur
  {
    v := cur;
    if r.presc == 0 && (x.j == r.jk3 || r.state.SYNC?) {
      v := Driven(x.j, isFs);
    }
    if r.state.EOP? && x.se0 == L && r.se0Lst == L && x.j == H && r.jk3 == H {
      v := if isFs then LINE_FS_J else !LINE_FS_J;
    }
    if x.se0 == H && r.se0Lst == H {
      v := LINE_SE0;
    }
  }

  // Process P_COMB: the bit sampler first, then the state machine.
  method SampleEdge(r: Reg, b: Buf, x: Sample, outAck: Bit) returns (v: Reg, vb: Buf)
    ensures v == Next(r, x)
    ensures vb == NextBuf(b, Sampling(r), TakenSR(r, x), Completes(r, x), outAck)
  {
    var dataSR, nstuff, nbits, err;
    dataSR, nstuff, nbits, err, vb := BitSampler(r, b, x, outAck);
    var presc := if r.clkAdj == H then r.presc else if r.presc == 0 then 3 else r.presc - 1;
    var state, clkAdj, active := r.state, L, r.active;
    match r.state {
      case IDLE =>
        nbits, err, presc := 0, L, 0;
        if FirstJ(r, x.j) {
          presc := 3;
          state := SYNC;
        }
      case SYNC =>
        nbits := 0;
        if TwoK(r, x.j) && r.presc == 0 {
          state, active := RUN, H;
        }
      case RUN =>
        if r.presc == 0 {
          presc, clkAdj, nbits, err := Recentre(r, x, presc, nbits, err);
        }
      case EOP =>
        if x.se0 == L && r.se0Lst == L && x.j == H && r.jk3 == H {
          err := L;
          if r.jk2 == H && r.jk1 == H {
            state := IDLE;
          }
        }
    }
    if x.se0 == H && r.se0Lst == H {
      active, state := L, EOP;
    }
    v := Reg(state, x.j, r.jk3, r.jk2, r.jk1, dataSR, presc, nstuff, nbits, err, clkAdj, x.se0, active);
  }

  method BitSampler(r: Reg, b: Buf, x: Sample, outAck: Bit)
    returns (dataSR: bv8, nstuff: U4, nbits: U4, err: Bit, vb: Buf)
    ensures dataSR == TakenSR(r, x) && nstuff == NextNstuff(r, x)
    ensures nbits == Counted(r) && err == SampledErr(r, x)
    ensures vb == NextBuf(b, Sampling(r), TakenSR(r, x), Completes(r, x), outAck)
  {
    dataSR, nstuff, err := r.dataSR, r.nstuff, r.err;
    nbits := if Expired(r.nbits) then r.nbits - 8 else r.nbits;
    var outReg, outVld := b.outReg, if outAck == H then L else b.outVld;
    if r.presc == 0 {
      dataSR, nstuff, nbits, err := TakeBit(r, x, nbits);
      if b.outVld == L {
        outReg := dataSR;
      }
      if err == L && Expired(nbits) {
        outVld := H;
      }
    }
    vb := Buf(outReg, outVld);
  }

  method TakeBit(r: Reg, x: Sample, nbits0: U4) returns (dataSR: bv8, nstuff: U4, nbits: U4, err: Bit)
    requires Sampling(r) && nbits0 == if Expired(r.nbits) then r.nbits - 8 else r.nbits
    ensures dataSR == TakenSR(r, x) && nstuff == NextNstuff(r, x)
    ensures nbits == Counted(r) && err == SampledErr(r, x)
  {
    dataSR, nstuff, nbits, err := r.dataSR, r.nstuff, nbits0, r.err;
    if x.j != r.jk0 {
      if !Expired(r.nstuff) {
        dataSR := r.dataSR >> 1;
        nbits := Inc(r.nbits);
      }
      nstuff := NSTUFF;
    } else if Expired(r.nstuff) {
      err := H;
    } else {
      dataSR := (r.dataSR >> 1) | 0x80;
      nbits := Inc(r.nbits);
      nstuff := Dec(r.nstuff);
    }
  }

  // In step, or a quarter bit early or late; anything else is a sync error.
  method Recentre(r: Reg, x: Sample, presc0: U2, nbits0: U4, err0: Bit)
    returns (presc: U2, clkAdj: Bit, nbits: U4, err: Bit)
    ensures presc == (if TooSlow(r, x.j) then 2 else presc0) && clkAdj == ToBit(TooFast(r, x.j))
    ensures var lost := !InStep(r, x.j) && !TooFast(r, x.j) && !TooSlow(r, x.j);
            nbits == (if lost then 0 else nbits0) && err == if lost then H else err0
  {
    presc, clkAdj, nbits, err := presc0, L, nbits0, err0;
    match (x.j, r.jk3, r.jk1, r.jk0) {
      case (H, H, L, L) =>
      case (L, L, H, H) =>
      case (L, L, L, L) =>
      case (H, H, H, H) =>
      case (H, L, L, L) => clkAdj := H;
      case (L, H, H, H) => clkAdj := H;
      case (H, H, H, L) => presc := 2;
      case (L, L, L, H) => presc := 2;
      case _ =>
        err := H;
        nbits := 0;
    }
  }
}
