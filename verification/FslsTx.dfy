// The full/low speed serial transmitter, core/hdl/Usb2FSLSTx.vhd.
//
// One call of `Step` is one rising clock edge.  A rotating one-hot `phase` paces
// the byte requests (`nxt`), and bit stuffing can hold it back at any point.
module FslsTx {
  import opened Logic
  import opened LineCode

  datatype State = IDLE | SYNC | RUN | EOP

  const NSTUFF: U4 := 5
  const SYNC_BYTE: bv8 := 0x80

  // The register record; `se0` is split into its two bits.
  datatype Reg = Reg(
    state: State, dataSR: bv8, phase: bv8, nstuff: U4,
    j: Bit, vm: Bit, se0H: Bit, se0L: Bit,
    nxt: Bit, rdy: Bit, act: Bit,
    stp: Bit, stpDat: Bit, frcStuffErr: Bit)

  datatype In = In(data: bv8, stp: Bit, sendK: Bit)

  const INIT: Reg := Reg(IDLE, SYNC_BYTE, 0, NSTUFF, H, L, H, L, L, L, L, L, L, L)

  predicate IsTxCmd(data: bv8) {
    data & 0xf0 == 0x40
  }

  function RotateRight(x: bv8): bv8 {
    (x >> 1) | (x << 7)
  }

  // ---- next-state equations, one per register ---------------------------------

  // A zero is being inserted: everything else stands still.
  predicate Stuffing(r: Reg) {
    r.frcStuffErr == L && Expired(r.nstuff)
  }

  predicate Start(r: Reg, i: In) {
    r.state.IDLE? && i.sendK == L && IsTxCmd(i.data)
  }

  predicate Serial(r: Reg) {
    r.state.SYNC? || r.state.RUN?
  }

  predicate Shifts(r: Reg) {
    Serial(r) && !Stuffing(r)
  }

  // The last bit of a byte leaves the shift register.
  predicate Loads(r: Reg) {
    Shifts(r) && r.phase & 2 != 0
  }

  // `stp` and the status bit count from the cycle they are presented in.
  function Stopped(r: Reg, i: In): Bit {
    if r.rdy == H && i.stp == H then H else r.stp
  }

  function Status(r: Reg, i: In): Bit {
    if r.rdy == H && i.stp == H then ToBit(i.data & 0x80 != 0) else r.stpDat
  }

  predicate Ends(r: Reg, i: In) {
    Loads(r) && r.state.RUN? && (r.frcStuffErr == H || Stopped(r, i) == H)
  }

  function NextState(r: Reg, i: In): State {
    match r.state
    case IDLE => if Start(r, i) then SYNC else IDLE
    case SYNC => if Loads(r) then RUN else SYNC
    case RUN => if Ends(r, i) && Status(r, i) == L then EOP else RUN
    case EOP => if !Stuffing(r) && r.se0H == L && r.se0L == L then IDLE else EOP
  }

  function NextDataSR(r: Reg, i: In): bv8 {
    if r.state.IDLE? then SYNC_BYTE >> 2
    else if !Shifts(r) then r.dataSR
    else if !Loads(r) then r.dataSR >> 1
    else if r.state.SYNC? then PidByte(i.data)
    else if Ends(r, i) && Status(r, i) == H then 0xff
    else i.data
  }

  function NextPhase(r: Reg): bv8 {
    if r.state.IDLE? then 0x40 else if Shifts(r) then RotateRight(r.phase) else r.phase
  }

  function NextNstuff(r: Reg): U4 {
    if r.state.IDLE? || Stuffing(r) then NSTUFF
    else if !Serial(r) then r.nstuff
    else if r.dataSR & 1 == 0 then NSTUFF
    else Dec(r.nstuff)
  }

  function NextJ(r: Reg, i: In): Bit {
    match r.state
    case IDLE => if Start(r, i) then H else r.j
    case EOP => if Stuffing(r) then Not(r.j) else Not(r.se0H)
    case _ => if Stuffing(r) || r.dataSR & 1 == 0 then Not(r.j) else r.j
  }

  function NextSe0H(r: Reg): Bit {
    if r.state.EOP? && !Stuffing(r) then Not(r.se0L) else r.se0H
  }

  function NextSe0L(r: Reg): Bit {
    if r.state.EOP? && !Stuffing(r) then r.se0H else r.se0L
  }

  function NextNxt(r: Reg): Bit {
    ToBit(Shifts(r) && r.state.RUN? && r.frcStuffErr == L && r.phase & 8 != 0)
  }

  function NextAct(r: Reg, i: In): Bit {
    if Start(r, i) then H else if Ends(r, i) && Status(r, i) == L then L else r.act
  }

  function NextFrc(r: Reg, i: In): Bit {
    if r.state.IDLE? then L else if Ends(r, i) && Status(r, i) == H then H else r.frcStuffErr
  }

  // The complement of `j`, except that both lines are low during SE0.
  function Vm(j: Bit, se0L: Bit): Bit {
    if se0L == H then L else Not(j)
  }

  function Next(r: Reg, i: In): Reg {
    Reg(NextState(r, i), NextDataSR(r, i), NextPhase(r), NextNstuff(r), NextJ(r, i),
        Vm(NextJ(r, i), NextSe0L(r)),
        NextSe0H(r), NextSe0L(r), NextNxt(r), r.nxt, NextAct(r, i),
        if r.state.IDLE? then L else Stopped(r, i),
        if Ends(r, i) then L else Status(r, i),
        NextFrc(r, i))
  }

  // ---- outputs ----------------------------------------------------------------

  function Syn(r: Reg, i: In): Bit {
    ToBit(!(r.state.IDLE? && (i.sendK == H || IsTxCmd(i.data))))
  }

  function OutJ(r: Reg, i: In): Bit {
    And(r.j, Syn(r, i))
  }

  function OutVm(r: Reg, i: In): Bit {
    Or(r.vm, And(Not(Syn(r, i)), Not(r.se0L)))
  }

  // The output drivers: on for as long as a packet, or a K on request, is sent.
  function OutOe(r: Reg, i: In): Bit {
    if !r.state.IDLE? || Syn(r, i) == L then H else L
  }

  // What the pair (j, vm) and `se0` put on the bus during a cycle.
  function Wire(r: Reg, i: In): Level {
    if r.se0L == H then SE0 else LevelOf(OutJ(r, i) == H)
  }

  // ---- the entity ---------------------------------------------------------------

  class Usb2FSLSTx {
    var r: Reg

    constructor ()
      ensures r == INIT
    {
      r := INIT;
    }

    // One clock edge.
    method Step(rst: Bit, data: bv8, stp: Bit, sendK: Bit)
      modifies this
      ensures r == if rst == H then INIT else Next(old(r), In(data, stp, sendK))
    {
      var v;
      match r.state {
        case IDLE => v := IdleCycle(r, In(data, stp, sendK));
        case EOP => v := EopCycle(r, In(data, stp, sendK));
        case _ => v := ShiftCycle(r, In(data, stp, sendK));
      }
      r := v;
      if rst == H {
        r := INIT;
      }
    }
  }

  // `stp` is always evaluated during the `rdy` cycle, stuffing or not.
  method LatchStop(r: Reg, i: In) returns (stp: Bit, stpDat: Bit)
    ensures stp == Stopped(r, i) && stpDat == Status(r, i)
  {
    stp, stpDat := r.stp, r.stpDat;
    if r.rdy == H && i.stp == H {
      stp := H;
      stpDat := ToBit(i.data & 0x80 != 0);
    }
  }

  method IdleCycle(r: Reg, i: In) returns (v: Reg)
    requires r.state.IDLE?
    ensures v == Next(r, i)
  {
    var state, j, act := r.state, r.j, r.act;
    var stp, stpDat := LatchStop(r, i);
    stp := L;
    if i.sendK == H {
    } else if IsTxCmd(i.data) {
      j := H;
      act := H;
      state := SYNC;
    }
    v := Reg(state, SYNC_BYTE >> 2, 0x40, NSTUFF, j, Vm(j, r.se0L), r.se0H, r.se0L, L, r.nxt, act, stp, stpDat, L);
  }

  method EopCycle(r: Reg, i: In) returns (v: Reg)
    requires r.state.EOP?
    ensures v == Next(r, i)
  {
    var state, nstuff, j, se0H, se0L := r.state, r.nstuff, r.j, r.se0H, r.se0L;
    var stp, stpDat := LatchStop(r, i);
    if r.frcStuffErr == L && Expired(r.nstuff) {
      j := Not(r.j);
      nstuff := NSTUFF;
    } else {
      se0H, se0L := Not(r.se0L), r.se0H;
      j := Not(r.se0H);
      if r.se0H == L && r.se0L == L {
        state := IDLE;
      }
    }
    v := Reg(state, r.dataSR, r.phase, nstuff, j, Vm(j, se0L), se0H, se0L, L, r.nxt, r.act, stp, stpDat, r.frcStuffErr);
  }

  lemma StuffPlain(r: Reg, i: In)
    requires Serial(r) && Stuffing(r)
    ensures Next(r, i) == Reg(r.state, r.dataSR, r.phase, NextNstuff(r), NextJ(r, i), Vm(NextJ(r, i), r.se0L),
                              r.se0H, r.se0L, L, r.nxt, r.act, Stopped(r, i), Status(r, i), r.frcStuffErr)
  {
    hide NextNstuff, NextJ, Vm, Stopped, Status, RotateRight;
  }

  lemma ShiftPlain(r: Reg, i: In)
    requires Serial(r) && !Stuffing(r)
    ensures Next(r, i) == Reg(NextState(r, i), NextDataSR(r, i), RotateRight(r.phase), NextNstuff(r), NextJ(r, i),
                              Vm(NextJ(r, i), r.se0L), r.se0H, r.se0L,
                              ToBit(r.state.RUN? && r.frcStuffErr == L && r.phase & 8 != 0), r.nxt, NextAct(r, i),
                              Stopped(r, i), if Ends(r, i) then L else Status(r, i), NextFrc(r, i))
  {
    hide NextState, NextDataSR, NextNstuff, NextJ, Vm, NextAct, NextFrc, Stopped, Status, Ends, RotateRight;
  }

  lemma ShiftInside(r: Reg, i: In)
    requires Serial(r) && !Stuffing(r) && r.phase & 2 == 0
    ensures NextState(r, i) == r.state && NextDataSR(r, i) == r.dataSR >> 1
    ensures NextAct(r, i) == r.act && NextFrc(r, i) == r.frcStuffErr && !Ends(r, i)
  {
    hide Stopped, Status;
  }

  method ShiftCycle(r: Reg, i: In) returns (v: Reg)
    requires Serial(r)
    ensures v == Next(r, i)
  {
    hide Next, NextState, NextDataSR, NextNstuff, NextJ, NextAct, NextFrc, Ends, Vm, RotateRight, Stopped, Status;
    var stp, stpDat := LatchStop(r, i);
    var j, nstuff := LineBit(r, i);
    if r.frcStuffErr == L && Expired(r.nstuff) {
      StuffPlain(r, i);
      v := Reg(r.state, r.dataSR, r.phase, nstuff, j, Vm(j, r.se0L), r.se0H, r.se0L,
               L, r.nxt, r.act, stp, stpDat, r.frcStuffErr);
    } else {
      var state, dataSR, act, frcStuffErr := r.state, r.dataSR >> 1, r.act, r.frcStuffErr;
      var nxt := ToBit(r.state == RUN && r.frcStuffErr == L && r.phase & 8 != 0);
      ShiftPlain(r, i);
      if r.phase & 2 == 0 {
        ShiftInside(r, i);
      } else {
        state, dataSR, act, stpDat, frcStuffErr := ByteBoundary(r, i, stp, stpDat);
      }
      v := Reg(state, dataSR, RotateRight(r.phase), nstuff, j, Vm(j, r.se0L), r.se0H, r.se0L,
               nxt, r.nxt, act, stp, stpDat, frcStuffErr);
    }
  }

  method LineBit(r: Reg, i: In) returns (j: Bit, nstuff: U4)
    requires Serial(r)
    ensures j == NextJ(r, i) && nstuff == NextNstuff(r)
  {
    if (r.frcStuffErr == L && Expired(r.nstuff)) || r.dataSR & 1 == 0 {
      j := Not(r.j);
      nstuff := NSTUFF;
    } else {
      j := r.j;
      nstuff := Dec(r.nstuff);
    }
  }

  // The last bit of a byte is out: next byte, end of packet, or forced error.
  method ByteBoundary(r: Reg, i: In, stp: Bit, status: Bit)
    returns (state: State, dataSR: bv8, act: Bit, stpDat: Bit, frcStuffErr: Bit)
    requires Loads(r) && stp == Stopped(r, i) && status == Status(r, i)
    ensures state == NextState(r, i) && dataSR == NextDataSR(r, i) && act == NextAct(r, i)
    ensures stpDat == (if Ends(r, i) then L else Status(r, i)) && frcStuffErr == NextFrc(r, i)
  {
    state, dataSR, act, stpDat, frcStuffErr := r.state, i.data, r.act, status, r.frcStuffErr;
    if r.state == SYNC {
      dataSR := PidByte(i.data);
      state := RUN;
    } else if r.frcStuffErr == H || stp == H {
      if stpDat == L {
        state := EOP;
        act := L;
      } else {
        frcStuffErr := H;
        dataSR := 0xff;
      }
      stpDat := L;
    }
  }
}
