// Speed negotiation, suspend and resume, core/hdl/UlpiLineState.vhd: a machine of 23
// states with prescaled timers and a shared register-write state.
module LineState {
  import opened Logic

  datatype State =
    | RESET | INIT | INIT1 | INIT2 | FS_RUN | HS_RUN | HS_INIT | HS_INIT1
    | INIT_CHIRP | DRIVE_CHIRP | DETECT_CHIRP | HOST_CHIRP | WAIT_FS
    | WAITRSTHS_START | WAITRSTHS | SUSPEND | DEBOUNCE_SE0 | RESUME | WAKEUP
    | DRIVE_K | WAIT_K_DON | WRITE_REG | DISCONNECTED

  // The line state bits of an RXCMD: 00, 01, 10, 11.
  datatype Line = SE0 | J | K | SE1

  function Flip(l: Line): Line {
    match l
    case SE0 => SE1
    case J => K
    case K => J
    case SE1 => SE0
  }

  // A timer is an unsigned number whose top bit, of weight `top`, says that it runs.
  datatype Timers = Timers(presc: nat, small: nat, t1200: nat, t3060: nat, t5060: nat)

  datatype RegReq = RegReq(addr: bv8, wdat: bv8, vld: Bit, rdnwr: Bit)
  datatype TxReq = TxReq(dat: bv8, vld: Bit)
  datatype Flags = Flags(usb2Rst: Bit, suspend: Bit, hiSpeed: Bit, disconn: Bit, se0Seen: Bit, jSeen: Bit)

  datatype Reg = Reg(
    state: State, nxtState: State, tx: TxReq, req: RegReq, regIdx: int,
    line: Line, wanted: Line, flags: Flags, timers: Timers, count: nat)

  // The receive side of the bus (`bits` are the low data bits), the answers to a
  // transmission and to a register access, and the user's three requests.
  datatype In = In(
    dir: Bit, nxt: Bit, trn: Bit, bits: Line, txNxt: Bit, ack: Bit, err: Bit,
    remWake: Bit, hiSpeedEn: Bit, disconnect: Bit)

  const TOP_PRESC := 1024
  const TOP_SMALL := 16
  const TOP_1200 := 128
  const TOP_LONG := 512
  const TOP_COUNT := 8

  // In clocks of 60 MHz, and in ticks of 10 us.
  const PERIOD_PRESC := 600
  const PERIOD_20 := 2
  const PERIOD_120 := 12
  const PERIOD_1200 := 120
  const PERIOD_3060 := 306
  const PERIOD_5060 := 506

  const FUN_CTL: bv8 := 0x04
  const OTG_CTL: bv8 := 0x0A
  const CLR_IRQ_ENAR: bv8 := 0x0F
  const CLR_IRQ_ENAF: bv8 := 0x12

  // Function control: transceiver select, termination 04, chirp mode 10, reset 20, not suspended 40.
  const FUN_REINI: bv8 := 0x61
  const FUN_FS: bv8 := 0x45
  const FUN_HS: bv8 := 0x40
  const FUN_CHIRP: bv8 := 0x54
  const FUN_WKUP_K: bv8 := 0x55

  const INITIAL: Reg := Reg(
    RESET, RESET, TxReq(0, L), RegReq(0, 0, L, L), 2, SE1, SE1,
    Flags(L, L, L, L, L, L), Timers(0, 0, 0, 0, 0), 0)

  // ---- timers ---------------------------------------------------------------------

  function Load(top: nat, period: nat): nat
    requires 2 <= period && top > 0
  {
    top + (period - 2) % top
  }

  function Stop(top: nat, t: nat): nat {
    if t >= top then t - top else t
  }

  function Decr(top: nat, t: nat): nat {
    if t >= top && t > 0 then t - 1 else t
  }

  predicate TimedOut(top: nat, t: nat) {
    t < top
  }

  // One clock of the prescaler, and of the timers when it has run out.
  function Tick(t: Timers): Timers {
    if t.presc < TOP_PRESC
    then Timers(Load(TOP_PRESC, PERIOD_PRESC), Decr(TOP_SMALL, t.small), Decr(TOP_1200, t.t1200),
                Decr(TOP_LONG, t.t3060), Decr(TOP_LONG, t.t5060))
    else t.(presc := t.presc - 1)
  }

  // ---- next-state equations -----------------------------------------------------------

  function NextLine(r: Reg, i: In): Line {
    if i.dir == H && i.trn == L && i.nxt == L then i.bits else r.line
  }

  predicate InitStep(r: Reg, i: In) {
    r.state.INIT? && TimedOut(TOP_LONG, r.timers.t5060) && i.dir == L
  }

  // The timer is looked at after this clock's tick.
  predicate WakesUp(r: Reg, i: In) {
    r.state.SUSPEND? && r.flags.suspend == H && NextLine(r, i) != SE0 && NextLine(r, i) != K
    && i.remWake == H && TimedOut(TOP_LONG, Tick(r.timers).t5060)
  }

  predicate Acked(r: Reg, i: In) {
    r.state.WRITE_REG? && r.req.vld == H && i.ack == H && i.err == L
  }

  predicate PhaseSeen(r: Reg) {
    r.state.HOST_CHIRP? && TimedOut(TOP_SMALL, r.timers.small)
  }

  // The state chosen by the case analysis.
  function CaseState(r: Reg, i: In): State {
    var line, t := NextLine(r, i), r.timers;
    match r.state
    case RESET => WRITE_REG
    case INIT => if !InitStep(r, i) then INIT else if r.regIdx < 0 then INIT1 else WRITE_REG
    case INIT1 => WRITE_REG
    case INIT2 => if line != SE1 then FS_RUN else INIT2
    case FS_RUN =>
      if line == SE0 && r.flags.se0Seen == H && TimedOut(TOP_1200, t.t1200) then INIT_CHIRP
      else if line == J && r.flags.jSeen == H && TimedOut(TOP_LONG, t.t3060) then SUSPEND
      else FS_RUN
    case HS_INIT => WRITE_REG
    case HS_INIT1 => HS_RUN
    case HS_RUN => if TimedOut(TOP_LONG, t.t3060) then WRITE_REG else HS_RUN
    case WAITRSTHS_START => WAITRSTHS
    case WAITRSTHS => if !TimedOut(TOP_SMALL, t.small) then WAITRSTHS else if line == SE0 then INIT_CHIRP else SUSPEND
    case INIT_CHIRP => if i.hiSpeedEn == H then WRITE_REG else WAIT_FS
    case DRIVE_CHIRP => DRIVE_K
    case DETECT_CHIRP => HOST_CHIRP
    case HOST_CHIRP =>
      if TimedOut(TOP_1200, t.t1200) then INIT1
      else if PhaseSeen(r) && TimedOut(TOP_COUNT, r.count) then HS_INIT
      else HOST_CHIRP
    case WAIT_FS => if TimedOut(TOP_LONG, t.t3060) then INIT1 else WAIT_FS
    case SUSPEND =>
      if r.flags.suspend == L then SUSPEND
      else if line == SE0 then DEBOUNCE_SE0
      else if line == K then RESUME
      else if WakesUp(r, i) then WRITE_REG
      else SUSPEND
    case DEBOUNCE_SE0 =>
      if TimedOut(TOP_LONG, t.t5060) then SUSPEND
      else if TimedOut(TOP_SMALL, t.small) then INIT_CHIRP
      else DEBOUNCE_SE0
    case RESUME =>
      if i.hiSpeedEn == H && r.flags.hiSpeed == H then (if line == SE0 then HS_INIT else RESUME)
      else if line == J then INIT1 else RESUME
    case WAKEUP => DRIVE_K
    case DRIVE_K => WAIT_K_DON
    case WAIT_K_DON => if r.tx.vld == L then r.nxtState else WAIT_K_DON
    case WRITE_REG => if Acked(r, i) then r.nxtState else WRITE_REG
    case DISCONNECTED => DISCONNECTED
  }

  // Where the shared states return to.
  function CaseReturn(r: Reg, i: In): State {
    match r.state
    case RESET => INIT
    case INIT => if CaseState(r, i).WRITE_REG? then INIT else r.nxtState
    case INIT1 => INIT2
    case HS_INIT => HS_INIT1
    case HS_RUN => if CaseState(r, i).WRITE_REG? then WAITRSTHS_START else r.nxtState
    case INIT_CHIRP => if i.hiSpeedEn == H then DRIVE_CHIRP else r.nxtState
    case DRIVE_CHIRP => DETECT_CHIRP
    case SUSPEND => if WakesUp(r, i) then WAKEUP else r.nxtState
    case WAKEUP => RESUME
    case _ => r.nxtState
  }

  // The register and the value a state writes.
  function CaseCmd(r: Reg, i: In): (bv8, bv8) {
    match r.state
    case RESET => (FUN_CTL, FUN_REINI)
    case INIT =>
      if InitStep(r, i) && r.regIdx >= 0
      then (if r.regIdx == 2 then (OTG_CTL, 0x00)
            else if r.regIdx == 1 then (CLR_IRQ_ENAR, 0x1F) else (CLR_IRQ_ENAF, 0x1F))
      else (r.req.addr, r.req.wdat)
    case INIT1 => (FUN_CTL, FUN_FS)
    case HS_INIT => (FUN_CTL, FUN_HS)
    case HS_RUN => if TimedOut(TOP_LONG, r.timers.t3060) then (FUN_CTL, FUN_FS) else (r.req.addr, r.req.wdat)
    case INIT_CHIRP => if i.hiSpeedEn == H then (FUN_CTL, FUN_CHIRP) else (r.req.addr, r.req.wdat)
    case SUSPEND => if WakesUp(r, i) then (FUN_CTL, FUN_WKUP_K) else (r.req.addr, r.req.wdat)
    case _ => (r.req.addr, r.req.wdat)
  }

  function CaseReqVld(r: Reg, i: In): Bit {
    if !r.state.WRITE_REG? then r.req.vld else if r.req.vld == L then H else if Acked(r, i) then L else H
  }

  function NextTx(r: Reg, i: In): TxReq {
    TxReq(if r.state.DRIVE_K? then 0x40 else if i.txNxt == H then 0 else r.tx.dat,
          if r.tx.vld == H && TimedOut(TOP_1200, r.timers.t1200) && i.txNxt == H then L
          else if r.state.DRIVE_K? then H else r.tx.vld)
  }

  predicate Disconnects(r: Reg, i: In) {
    i.disconnect == H && NextTx(r, i).vld == L
    && !CaseState(r, i).WRITE_REG? && !CaseState(r, i).DISCONNECTED?
  }

  function NextReq(r: Reg, i: In): RegReq {
    var c := if Disconnects(r, i) then (FUN_CTL, FUN_REINI) else CaseCmd(r, i);
    RegReq(c.0, c.1, CaseReqVld(r, i), if r.state.WRITE_REG? && r.req.vld == L then L else r.req.rdnwr)
  }

  function NextFlags(r: Reg, i: In): Flags {
    var f, line := r.flags, NextLine(r, i);
    match r.state
    case INIT2 => if line != SE1 then Flags(L, L, f.hiSpeed, f.disconn, L, L) else f
    case FS_RUN => f.(se0Seen := ToBit(line == SE0), jSeen := ToBit(line == J))
    case HS_INIT1 => f.(usb2Rst := L, hiSpeed := H, suspend := L)
    case INIT_CHIRP => f.(usb2Rst := H, hiSpeed := L)
    case SUSPEND => f.(suspend := H)
    case DISCONNECTED => f.(disconn := H, usb2Rst := H)
    case _ => f
  }

  predicate Starts20(r: Reg, i: In) {
    match r.state
    case DETECT_CHIRP => true
    case HOST_CHIRP => if PhaseSeen(r) then !TimedOut(TOP_COUNT, r.count) else NextLine(r, i) != r.wanted
    case SUSPEND => r.flags.suspend == H && NextLine(r, i) == SE0
    case DEBOUNCE_SE0 =>
      !TimedOut(TOP_LONG, r.timers.t5060) && !TimedOut(TOP_SMALL, r.timers.small) && NextLine(r, i) != SE0
    case _ => false
  }

  predicate Starts1200(r: Reg, i: In) {
    r.state.DETECT_CHIRP? || r.state.DRIVE_K? || (r.state.FS_RUN? && NextLine(r, i) == SE0 && r.flags.se0Seen == L)
  }

  predicate Starts3060(r: Reg, i: In) {
    match r.state
    case FS_RUN => NextLine(r, i) == J && r.flags.jSeen == L
    case HS_INIT1 => true
    case HS_RUN => !TimedOut(TOP_LONG, r.timers.t3060) && NextLine(r, i) != SE0
    case INIT_CHIRP => i.hiSpeedEn == L
    case _ => false
  }

  predicate Starts5060(r: Reg, i: In) {
    match r.state
    case RESET => true
    case SUSPEND => r.flags.suspend == L || NextLine(r, i) == SE0
    case DEBOUNCE_SE0 => TimedOut(TOP_LONG, r.timers.t5060)
    case _ => false
  }

  function NextTimers(r: Reg, i: In): Timers {
    var t := Tick(r.timers);
    Timers(
      t.presc,
      if Starts20(r, i) then Load(TOP_SMALL, PERIOD_20)
      else if r.state.WAITRSTHS_START? then Load(TOP_SMALL, PERIOD_120) else t.small,
      if Starts1200(r, i) then Load(TOP_1200, PERIOD_1200)
      else if r.state.FS_RUN? && Starts3060(r, i) then Stop(TOP_1200, t.t1200) else t.t1200,
      if Starts3060(r, i) then Load(TOP_LONG, PERIOD_3060)
      else if r.state.FS_RUN? && Starts1200(r, i) then Stop(TOP_LONG, t.t3060) else t.t3060,
      if Starts5060(r, i) then Load(TOP_LONG, PERIOD_5060) else t.t5060)
  }

  function NextWanted(r: Reg): Line {
    if r.state.DETECT_CHIRP? then K
    else if PhaseSeen(r) && !TimedOut(TOP_COUNT, r.count) then Flip(r.wanted) else r.wanted
  }

  // `count` is not a timer but uses the same load and expiry.
  function NextCount(r: Reg): nat {
    if r.state.DETECT_CHIRP? then Load(TOP_COUNT, 6)
    else if PhaseSeen(r) then Decr(TOP_COUNT, r.count) else r.count
  }

  function Next(r: Reg, i: In): Reg {
    Reg(if Disconnects(r, i) then WRITE_REG else CaseState(r, i),
        if Disconnects(r, i) then DISCONNECTED else CaseReturn(r, i),
        NextTx(r, i), NextReq(r, i),
        if InitStep(r, i) && r.regIdx >= 0 then r.regIdx - 1 else r.regIdx,
        NextLine(r, i), NextWanted(r), NextFlags(r, i), NextTimers(r, i), NextCount(r))
  }

  // ---- the entity ------------------------------------------------------------------------

  // Next with the case analysis done, but neither the end of a transmission nor a
  // request to disconnect taken into account.
  ghost function Cased(r: Reg, i: In): Reg {
    Reg(CaseState(r, i), CaseReturn(r, i),
        TxReq(NextTx(r, i).dat, if r.state.DRIVE_K? then H else r.tx.vld),
        RegReq(CaseCmd(r, i).0, CaseCmd(r, i).1, CaseReqVld(r, i), NextReq(r, i).rdnwr),
        if InitStep(r, i) && r.regIdx >= 0 then r.regIdx - 1 else r.regIdx,
        NextLine(r, i), NextWanted(r), NextFlags(r, i), NextTimers(r, i), NextCount(r))
  }

  class UlpiLineState {
    var r: Reg

    constructor ()
      ensures r == INITIAL
    {
      r := INITIAL;
    }

    // One clock edge.
    method Step(rst: Bit, i: In)
      modifies this
      ensures r == if rst == H then INITIAL else Next(old(r), i)
    {
      hide Next, Cased, Entered;
      var v := Enter(r, i);
      match r.state {
        case RESET | INIT | INIT1 | INIT2 => v := StartUp(r, v, i);
        case FS_RUN => v := FullSpeed(r, v, i);
        case HS_INIT | HS_INIT1 | HS_RUN => v := HighSpeed(r, v, i);
        case WAITRSTHS_START | WAITRSTHS | SUSPEND | DEBOUNCE_SE0 | RESUME => v := Idling(r, v, i);
        case INIT_CHIRP | DRIVE_CHIRP | DETECT_CHIRP | HOST_CHIRP | WAIT_FS => v := Chirping(r, v, i);
        case _ => v := Shared(r, v, i);
      }
      v := Finish(r, v, i);
      r := v;
      if rst == H {
        r := INITIAL;
      }
    }
  }

  method Enter(r: Reg, i: In) returns (v: Reg)
    ensures Entered(r, v, i)
  {
    v := r;
    if i.dir == H && i.trn == L && i.nxt == L {
      v := v.(line := i.bits);
    }
    var t := RunTimers(r.timers);
    v := v.(timers := t);
    if i.txNxt == H {
      v := v.(tx := v.tx.(dat := 0));
    }
  }

  method Finish(r: Reg, v0: Reg, i: In) returns (v: Reg)
    requires v0 == Cased(r, i)
    ensures v == Next(r, i)
  {
    hide CaseState, CaseReturn, CaseCmd, CaseReqVld, NextFlags, NextTimers, NextCount, NextWanted, InitStep, NextLine;
    v := v0;
    if r.tx.vld == H && TimedOut(TOP_1200, r.timers.t1200) && i.txNxt == H {
      v := v.(tx := v.tx.(vld := L));
    }
    if i.disconnect == H && v.tx.vld == L && v.state != WRITE_REG && v.state != DISCONNECTED {
      v := WriteReg(v, FUN_CTL, FUN_REINI);
      v := v.(nxtState := DISCONNECTED);
    }
  }

  method WriteReg(q: Reg, a: bv8, d: bv8) returns (v: Reg)
    ensures v == q.(req := q.req.(addr := a, wdat := d), nxtState := q.state, state := WRITE_REG)
  {
    v := q.(req := q.req.(addr := a, wdat := d), nxtState := q.state, state := WRITE_REG);
  }

  method RunTimers(q: Timers) returns (t: Timers)
    ensures t == Tick(q)
  {
    if q.presc < TOP_PRESC {
      t := Timers(Load(TOP_PRESC, PERIOD_PRESC), Decr(TOP_SMALL, q.small), Decr(TOP_1200, q.t1200),
                  Decr(TOP_LONG, q.t3060), Decr(TOP_LONG, q.t5060));
    } else {
      t := q.(presc := q.presc - 1);
    }
  }

  // The registers as the case analysis finds them: line state and timers updated.
  ghost predicate Entered(r: Reg, v0: Reg, i: In) {
    v0 == r.(line := NextLine(r, i), timers := Tick(r.timers),
             tx := if i.txNxt == H then r.tx.(dat := 0) else r.tx)
  }

  method StartUp(r: Reg, v0: Reg, i: In) returns (v: Reg)
    requires Entered(r, v0, i) && (r.state.RESET? || r.state.INIT? || r.state.INIT1? || r.state.INIT2?)
    ensures v == Cased(r, i)
  {
    v := v0;
    if r.state.RESET? {
      v := WriteReg(v, FUN_CTL, FUN_REINI);
      v := v.(nxtState := INIT, timers := v.timers.(t5060 := Load(TOP_LONG, PERIOD_5060)));
    } else if r.state.INIT? {
      if TimedOut(TOP_LONG, r.timers.t5060) && i.dir == L {
        if r.regIdx < 0 {
          v := v.(state := INIT1);
        } else {
          if r.regIdx == 2 {
            v := WriteReg(v, OTG_CTL, 0x00);
          } else if r.regIdx == 1 {
            v := WriteReg(v, CLR_IRQ_ENAR, 0x1F);
          } else {
            v := WriteReg(v, CLR_IRQ_ENAF, 0x1F);
          }
          v := v.(regIdx := r.regIdx - 1);
        }
      }
    } else if r.state.INIT1? {
      v := WriteReg(v, FUN_CTL, FUN_FS);
      v := v.(nxtState := INIT2);
    } else if v.line != SE1 {
      v := v.(state := FS_RUN,
              flags := v.flags.(se0Seen := L, jSeen := L, usb2Rst := L, suspend := L));
    }
  }

  method FullSpeed(r: Reg, v0: Reg, i: In) returns (v: Reg)
    requires Entered(r, v0, i) && r.state.FS_RUN?
    ensures v == Cased(r, i)
  {
    v := v0.(flags := v0.flags.(se0Seen := L, jSeen := L));
    if v.line == SE0 {
      v := v.(flags := v.flags.(se0Seen := H));
      if r.flags.se0Seen == L {
        v := v.(timers := v.timers.(t1200 := Load(TOP_1200, PERIOD_1200), t3060 := Stop(TOP_LONG, v.timers.t3060)));
      } else if TimedOut(TOP_1200, r.timers.t1200) {
        v := v.(state := INIT_CHIRP);
      }
    } else if v.line == J {
      v := v.(flags := v.flags.(jSeen := H));
      if r.flags.jSeen == L {
        v := v.(timers := v.timers.(t3060 := Load(TOP_LONG, PERIOD_3060), t1200 := Stop(TOP_1200, v.timers.t1200)));
      } else if TimedOut(TOP_LONG, r.timers.t3060) {
        v := v.(state := SUSPEND);
      }
    }
  }

  method HighSpeed(r: Reg, v0: Reg, i: In) returns (v: Reg)
    requires Entered(r, v0, i) && (r.state.HS_INIT? || r.state.HS_INIT1? || r.state.HS_RUN?)
    ensures v == Cased(r, i)
  {
    v := v0;
    if r.state.HS_INIT? {
      v := WriteReg(v, FUN_CTL, FUN_HS);
      v := v.(nxtState := HS_INIT1);
    } else if r.state.HS_INIT1? {
      v := v.(state := HS_RUN, flags := v.flags.(usb2Rst := L, hiSpeed := H, suspend := L),
              timers := v.timers.(t3060 := Load(TOP_LONG, PERIOD_3060)));
    } else if TimedOut(TOP_LONG, r.timers.t3060) {
      v := WriteReg(v, FUN_CTL, FUN_FS);
      v := v.(nxtState := WAITRSTHS_START);
    } else if v.line != SE0 {
      v := v.(timers := v.timers.(t3060 := Load(TOP_LONG, PERIOD_3060)));
    }
  }

  method Idling(r: Reg, v0: Reg, i: In) returns (v: Reg)
    requires Entered(r, v0, i)
    requires r.state.WAITRSTHS_START? || r.state.WAITRSTHS? || r.state.SUSPEND? || r.state.DEBOUNCE_SE0?
             || r.state.RESUME?
    ensures v == Cased(r, i)
  {
    v := v0;
    if r.state.WAITRSTHS_START? {
      v := v.(state := WAITRSTHS, timers := v.timers.(small := Load(TOP_SMALL, PERIOD_120)));
    } else if r.state.WAITRSTHS? {
      if TimedOut(TOP_SMALL, r.timers.small) {
        v := v.(state := if v.line == SE0 then INIT_CHIRP else SUSPEND);
      }
    } else if r.state.SUSPEND? {
      v := Suspended(r, v, i);
    } else if r.state.DEBOUNCE_SE0? {
      if TimedOut(TOP_LONG, r.timers.t5060) {
        v := v.(state := SUSPEND, timers := v.timers.(t5060 := Load(TOP_LONG, PERIOD_5060)));
      } else if TimedOut(TOP_SMALL, r.timers.small) {
        v := v.(state := INIT_CHIRP);
      } else if v.line != SE0 {
        v := v.(timers := v.timers.(small := Load(TOP_SMALL, PERIOD_20)));
      }
    } else if i.hiSpeedEn == H && r.flags.hiSpeed == H {
      if v.line == SE0 {
        v := v.(state := HS_INIT);
      }
    } else if v.line == J {
      v := v.(state := INIT1);
    }
  }

  method Suspended(r: Reg, v0: Reg, i: In) returns (v: Reg)
    requires Entered(r, v0, i) && r.state.SUSPEND?
    ensures v == Cased(r, i)
  {
    v := v0;
    if r.flags.suspend == L {
      v := v.(flags := v.flags.(suspend := H), timers := v.timers.(t5060 := Load(TOP_LONG, PERIOD_5060)));
    } else if v.line == SE0 {
      v := v.(state := DEBOUNCE_SE0,
              timers := v.timers.(t5060 := Load(TOP_LONG, PERIOD_5060), small := Load(TOP_SMALL, PERIOD_20)));
    } else if v.line == K {
      v := v.(state := RESUME);
    } else if i.remWake == H && TimedOut(TOP_LONG, v.timers.t5060) {
      v := WriteReg(v, FUN_CTL, FUN_WKUP_K);
      v := v.(nxtState := WAKEUP);
    }
  }

  method Chirping(r: Reg, v0: Reg, i: In) returns (v: Reg)
    requires Entered(r, v0, i)
    requires r.state.INIT_CHIRP? || r.state.DRIVE_CHIRP? || r.state.DETECT_CHIRP? || r.state.HOST_CHIRP?
             || r.state.WAIT_FS?
    ensures v == Cased(r, i)
  {
    v := v0;
    if r.state.INIT_CHIRP? {
      if i.hiSpeedEn == H {
        v := WriteReg(v, FUN_CTL, FUN_CHIRP);
        v := v.(nxtState := DRIVE_CHIRP);
      } else {
        v := v.(state := WAIT_FS, timers := v.timers.(t3060 := Load(TOP_LONG, PERIOD_3060)));
      }
      v := v.(flags := v.flags.(usb2Rst := H, hiSpeed := L));
    } else if r.state.DRIVE_CHIRP? {
      v := v.(nxtState := DETECT_CHIRP, state := DRIVE_K);
    } else if r.state.DETECT_CHIRP? {
      v := v.(count := Load(TOP_COUNT, 6), wanted := K, state := HOST_CHIRP,
              timers := v.timers.(t1200 := Load(TOP_1200, PERIOD_1200), small := Load(TOP_SMALL, PERIOD_20)));
    } else if r.state.HOST_CHIRP? {
      v := HostChirp(r, v, i);
    } else if TimedOut(TOP_LONG, r.timers.t3060) {
      v := v.(state := INIT1);
    }
  }

  method HostChirp(r: Reg, v0: Reg, i: In) returns (v: Reg)
    requires Entered(r, v0, i) && r.state.HOST_CHIRP?
    ensures v == Cased(r, i)
  {
    v := v0;
    if TimedOut(TOP_SMALL, r.timers.small) {
      if TimedOut(TOP_COUNT, r.count) {
        v := v.(state := HS_INIT);
      } else {
        v := v.(timers := v.timers.(small := Load(TOP_SMALL, PERIOD_20)),
                wanted := Flip(r.wanted), count := r.count - 1);
      }
    } else if v.line != r.wanted {
      v := v.(timers := v.timers.(small := Load(TOP_SMALL, PERIOD_20)));
    }
    if TimedOut(TOP_1200, r.timers.t1200) {
      v := v.(state := INIT1);
    }
  }

  // The states shared as subroutines, and the last one.
  method Shared(r: Reg, v0: Reg, i: In) returns (v: Reg)
    requires Entered(r, v0, i)
    requires r.state.WAKEUP? || r.state.DRIVE_K? || r.state.WAIT_K_DON? || r.state.WRITE_REG? || r.state.DISCONNECTED?
    ensures v == Cased(r, i)
  {
    v := v0;
    if r.state.WAKEUP? {
      v := v.(nxtState := RESUME, state := DRIVE_K);
    } else if r.state.DRIVE_K? {
      v := v.(tx := TxReq(0x40, H), state := WAIT_K_DON,
              timers := v.timers.(t1200 := Load(TOP_1200, PERIOD_1200)));
    } else if r.state.WAIT_K_DON? {
      if r.tx.vld == L {
        v := v.(state := r.nxtState);
      }
    } else if r.state.WRITE_REG? {
      if r.req.vld == L {
        v := v.(req := v.req.(vld := H, rdnwr := L));
      } else if i.ack == H && i.err == L {
        v := v.(req := v.req.(vld := L), state := r.nxtState);
      }
    } else {
      v := v.(flags := v.flags.(disconn := H, usb2Rst := H));
    }
  }
}
