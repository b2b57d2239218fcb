// What the line state machine keeps in every run, and how long it takes.
module LineStateProof {
  import opened Logic
  import opened LineState

  function Run(r: Reg, ins: seq<In>): Reg
    decreases ins
  {
    if ins == [] then r else Run(Next(r, ins[0]), ins[1..])
  }

  lemma {:induction false} RunConcat(r: Reg, a: seq<In>, b: seq<In>)
    ensures Run(r, a + b) == Run(Run(r, a), b)
    decreases a
  {
    hide Next;
    if a == [] {
      assert a + b == b;
    } else {
      assert (a + b)[0] == a[0] && (a + b)[1..] == a[1..] + b;
      RunConcat(Next(r, a[0]), a[1..], b);
    }
  }

  // ---- timers -----------------------------------------------------------------------

  // Clocks until the prescaler's next tick, that clock included.
  function Phase(presc: nat): nat {
    if presc < TOP_PRESC then 1 else presc - TOP_PRESC + 2
  }

  predicate PrescOk(presc: nat) {
    1 <= Phase(presc) <= PERIOD_PRESC
  }

  // Clocks until the timer has expired.
  function Left(top: nat, presc: nat, t: nat): nat {
    if TimedOut(top, t) then 0 else Phase(presc) + (t - top) * PERIOD_PRESC
  }

  function Down(n: nat): nat {
    if n == 0 then 0 else n - 1
  }

  // Every clock that leaves the timers alone brings all of them one clock nearer.
  lemma TickCounts(t: Timers)
    requires PrescOk(t.presc)
    ensures var t', p, p' := Tick(t), t.presc, Tick(t).presc;
            && PrescOk(p')
            && Left(TOP_SMALL, p', t'.small) == Down(Left(TOP_SMALL, p, t.small))
            && Left(TOP_1200, p', t'.t1200) == Down(Left(TOP_1200, p, t.t1200))
            && Left(TOP_LONG, p', t'.t3060) == Down(Left(TOP_LONG, p, t.t3060))
            && Left(TOP_LONG, p', t'.t5060) == Down(Left(TOP_LONG, p, t.t5060))
  {
  }

  // One timer behind the prescaler, left alone.
  function Clocks(top: nat, presc: nat, t: nat, n: nat): (nat, nat)
    decreases n
  {
    if n == 0 then (presc, t)
    else if presc < TOP_PRESC then Clocks(top, Load(TOP_PRESC, PERIOD_PRESC), Decr(top, t), n - 1)
    else Clocks(top, presc - 1, t, n - 1)
  }

  lemma {:induction false} ClocksCount(top: nat, presc: nat, t: nat, n: nat)
    requires PrescOk(presc) && top > 0
    ensures TimedOut(top, Clocks(top, presc, t, n).1) <==> n >= Left(top, presc, t)
    decreases n
  {
    if n > 0 {
      if presc < TOP_PRESC {
        ClocksCount(top, Load(TOP_PRESC, PERIOD_PRESC), Decr(top, t), n - 1);
      } else {
        ClocksCount(top, presc - 1, t, n - 1);
      }
    }
  }

  // The timers of the machine, left alone.
  function Ticks(t: Timers, n: nat): Timers
    decreases n
  {
    if n == 0 then t else Ticks(Tick(t), n - 1)
  }

  // Each of the four counts as if it were alone behind the prescaler, so that ClocksCount
  // and TimerBound hold of every timer of the machine.
  lemma {:induction false} TicksAreClocks(t: Timers, n: nat)
    ensures var t' := Ticks(t, n);
            && Clocks(TOP_SMALL, t.presc, t.small, n) == (t'.presc, t'.small)
            && Clocks(TOP_1200, t.presc, t.t1200, n) == (t'.presc, t'.t1200)
            && Clocks(TOP_LONG, t.presc, t.t3060, n) == (t'.presc, t'.t3060)
            && Clocks(TOP_LONG, t.presc, t.t5060, n) == (t'.presc, t'.t5060)
    decreases n
  {
    if n > 0 {
      TicksAreClocks(Tick(t), n - 1);
    }
  }

  lemma TicksExpire(t: Timers, n: nat)
    requires PrescOk(t.presc)
    ensures var t' := Ticks(t, n);
            && (TimedOut(TOP_SMALL, t'.small) <==> n >= Left(TOP_SMALL, t.presc, t.small))
            && (TimedOut(TOP_1200, t'.t1200) <==> n >= Left(TOP_1200, t.presc, t.t1200))
            && (TimedOut(TOP_LONG, t'.t3060) <==> n >= Left(TOP_LONG, t.presc, t.t3060))
            && (TimedOut(TOP_LONG, t'.t5060) <==> n >= Left(TOP_LONG, t.presc, t.t5060))
  {
    hide Left, Clocks, Ticks;
    TicksAreClocks(t, n);
    ClocksCount(TOP_SMALL, t.presc, t.small, n);
    ClocksCount(TOP_1200, t.presc, t.t1200, n);
    ClocksCount(TOP_LONG, t.presc, t.t3060, n);
    ClocksCount(TOP_LONG, t.presc, t.t5060, n);
  }

  // A timer loaded with a period and left alone is seen running in each of the first
  // (period - 2) * 600 + 1 clocks and seen expired from clock (period - 1) * 600 + 1 on;
  // in between it depends on the prescaler's phase.  `n` clocks have passed before the
  // look.
  lemma TimerBound(top: nat, period: nat, presc: nat, n: nat)
    requires PrescOk(presc) && 2 <= period <= top + 1
    ensures var seen := TimedOut(top, Clocks(top, presc, Load(top, period), n).1);
            && (seen <==> n >= Phase(presc) + (period - 2) * PERIOD_PRESC)
            && (n <= (period - 2) * PERIOD_PRESC ==> !seen)
            && (n >= (period - 1) * PERIOD_PRESC ==> seen)
  {
    assert (period - 2) % top == period - 2;
    ClocksCount(top, presc, Load(top, period), n);
  }

  // ---- reset and suspend detection in full speed -----------------------------------------

  predicate Holds(r: Reg, i: In, l: Line) {
    NextLine(r, i) == l && i.disconnect == L
  }

  predicate AllHold(r: Reg, ins: seq<In>, l: Line)
    decreases ins
  {
    ins == [] || (Holds(r, ins[0], l) && AllHold(Next(r, ins[0]), ins[1..], l))
  }

  // SE0 has been seen, or J, and its timer runs.
  predicate Watching(r: Reg, l: Line) {
    r.state.FS_RUN? && PrescOk(r.timers.presc) && (if l == SE0 then r.flags.se0Seen else r.flags.jSeen) == H
  }

  function WatchLeft(r: Reg, l: Line): nat {
    if l == SE0 then Left(TOP_1200, r.timers.presc, r.timers.t1200) else Left(TOP_LONG, r.timers.presc, r.timers.t3060)
  }

  function Verdict(l: Line): State {
    if l == SE0 then INIT_CHIRP else SUSPEND
  }

  lemma WatchStep(r: Reg, i: In, l: Line)
    requires (l == SE0 || l == J) && Watching(r, l) && Holds(r, i, l)
    ensures if WatchLeft(r, l) == 0 then Next(r, i).state == Verdict(l)
            else Watching(Next(r, i), l) && WatchLeft(Next(r, i), l) == WatchLeft(r, l) - 1
  {
    TickCounts(r.timers);
    hide NextReq, NextTx, NextWanted, NextCount, Tick, Left;
  }

  lemma {:induction false} WatchRun(r: Reg, ins: seq<In>, l: Line)
    requires (l == SE0 || l == J) && Watching(r, l) && AllHold(r, ins, l) && |ins| <= WatchLeft(r, l) + 1
    ensures Run(r, ins).state == if |ins| <= WatchLeft(r, l) then FS_RUN else Verdict(l)
    decreases ins
  {
    hide Next, Holds, WatchLeft;
    if ins != [] {
      WatchStep(r, ins[0], l);
      if WatchLeft(r, l) > 0 {
        WatchRun(Next(r, ins[0]), ins[1..], l);
      }
    }
  }

  // The clock that first sees the line state starts the watch.
  lemma WatchStarts(r: Reg, first: In, l: Line)
    requires (l == SE0 || l == J) && Holds(r, first, l)
    requires r.state.FS_RUN? && PrescOk(r.timers.presc)
    requires (if l == SE0 then r.flags.se0Seen else r.flags.jSeen) == L
    ensures Watching(Next(r, first), l)
    ensures var ticks := if l == SE0 then PERIOD_1200 else PERIOD_3060;
            (ticks - 2) * PERIOD_PRESC < WatchLeft(Next(r, first), l) <= (ticks - 1) * PERIOD_PRESC
  {
    TickCounts(r.timers);
    hide NextReq, NextTx, NextWanted, NextCount, Tick;
  }

  // In full speed, with no request to disconnect: SE0 that stays is taken for a reset,
  // and J that stays for suspend, at a time n after the first clock that saw it and
  // not earlier, with n between 1180 and 1190 us (1180 * 60 < n <= 1190 * 60) for a
  // reset, and between 3040 and 3050 us for suspend.
  lemma IdleLineDetected(r: Reg, first: In, ins: seq<In>, l: Line) returns (n: nat)
    requires (l == SE0 || l == J) && Holds(r, first, l) && AllHold(Next(r, first), ins, l)
    requires r.state.FS_RUN? && PrescOk(r.timers.presc)
    requires (if l == SE0 then r.flags.se0Seen else r.flags.jSeen) == L
    ensures if l == SE0 then 1180 * 60 < n <= 1190 * 60 else 3040 * 60 < n <= 3050 * 60
    ensures |ins| <= n ==> Run(Next(r, first), ins).state == FS_RUN
    ensures |ins| == n + 1 ==> Run(Next(r, first), ins).state == Verdict(l)
  {
    hide Next, Holds, WatchLeft;
    WatchStarts(r, first, l);
    n := WatchLeft(Next(r, first), l);
    if |ins| <= n + 1 {
      WatchRun(Next(r, first), ins, l);
    }
  }

  // ---- what every run keeps ------------------------------------------------------------------

  // Where a shared state returns to, or the state itself.
  function Home(r: Reg): State {
    if r.state.WRITE_REG? || r.state.DRIVE_K? || r.state.WAIT_K_DON? then r.nxtState else r.state
  }

  predicate Writes(n: State) {
    n.INIT? || n.INIT2? || n.HS_INIT1? || n.WAITRSTHS_START? || n.DRIVE_CHIRP? || n.WAKEUP? || n.DISCONNECTED?
  }

  // Requests are up only in their states, and a shared state never returns to one.
  predicate Wired(r: Reg) {
    && PrescOk(r.timers.presc) && -1 <= r.regIdx <= 2
    && (r.tx.vld == H ==> r.state.WAIT_K_DON?)
    && (r.req.vld == H ==> r.state.WRITE_REG? && r.req.rdnwr == L)
    && (r.state.WRITE_REG? ==> Writes(r.nxtState))
    && (r.state.DRIVE_K? || r.state.WAIT_K_DON? ==> r.nxtState.DETECT_CHIRP? || r.nxtState.RESUME?)
  }

  lemma WiredStep(r: Reg, i: In)
    requires Wired(r)
    ensures Wired(Next(r, i))
  {
    WiredReturns(r, i);
    WiredRequests(r, i);
    TickCounts(r.timers);
    hide Tick, CaseState, CaseReturn, CaseReqVld, NextTx, NextFlags, NextWanted, NextCount, NextLine, Phase,
      Disconnects;
  }

  lemma WiredRequests(r: Reg, i: In)
    requires Wired(r)
    ensures var r' := Next(r, i);
            (r'.tx.vld == H ==> r'.state.WAIT_K_DON?) && (r'.req.vld == H ==> r'.state.WRITE_REG? && r'.req.rdnwr == L)
  {
    hide NextTimers, NextFlags, NextWanted, NextCount, NextLine, CaseReturn, CaseCmd;
  }

  lemma WiredReturns(r: Reg, i: In)
    requires Wired(r)
    ensures var r' := Next(r, i);
            && (r'.state.WRITE_REG? ==> Writes(r'.nxtState))
            && (r'.state.DRIVE_K? || r'.state.WAIT_K_DON? ==> r'.nxtState.DETECT_CHIRP? || r'.nxtState.RESUME?)
  {
    hide NextTimers, NextFlags, NextWanted, NextCount, NextLine, NextReq, PrescOk;
  }

  predicate Slow(h: State) {
    h.RESET? || h.INIT? || h.INIT1? || h.INIT2? || h.FS_RUN? || Negotiates(h)
  }

  predicate Fast(h: State) {
    h.HS_RUN? || h.WAITRSTHS_START? || h.WAITRSTHS?
  }

  predicate Negotiates(h: State) {
    h.DRIVE_CHIRP? || h.DETECT_CHIRP? || h.HOST_CHIRP? || h.WAIT_FS?
  }

  predicate Sleeps(h: State) {
    h.SUSPEND? || h.DEBOUNCE_SE0? || h.RESUME? || h.WAKEUP?
  }

  // Full speed and negotiation have the flag low, high speed has it high; the device is
  // held in reset while speeds are negotiated and once it is disconnected, and not
  // while it runs or sleeps; it is not suspended while it runs.
  predicate Speeds(r: Reg) {
    var h, f := Home(r), r.flags;
    && (Slow(h) ==> f.hiSpeed == L)
    && (Fast(h) ==> f.hiSpeed == H)
    && (Negotiates(h) ==> f.usb2Rst == H)
    && (f.disconn == H ==> r.state.DISCONNECTED? && f.usb2Rst == H)
    && (h.FS_RUN? || Fast(h) || Sleeps(h) ==> f.usb2Rst == L)
    && (h.FS_RUN? || Fast(h) ==> f.suspend == L)
  }

  // High speed was switched off while the device was suspended in it, and the bus
  // resumes in full speed.
  predicate Stale(r: Reg, i: In) {
    r.state.RESUME? && r.flags.hiSpeed == H && i.hiSpeedEn == L && NextLine(r, i) == J && !Disconnects(r, i)
  }

  // The flags stay true, except in exactly one situation.
  lemma SpeedsStep(r: Reg, i: In)
    requires Wired(r) && Speeds(r)
    ensures Speeds(Next(r, i)) <==> !Stale(r, i)
  {
    if Slow(r.state) || r.state.INIT_CHIRP? {
      SpeedsSlow(r, i);
    } else if r.state.WRITE_REG? || r.state.DRIVE_K? || r.state.WAIT_K_DON? || r.state.DISCONNECTED? {
      SpeedsShared(r, i);
    } else {
      SpeedsOther(r, i);
    }
  }

  lemma SpeedsSlow(r: Reg, i: In)
    requires Wired(r) && Speeds(r) && (Slow(r.state) || r.state.INIT_CHIRP?)
    ensures Speeds(Next(r, i)) && !Stale(r, i)
  {
    hide NextTimers, NextReq, NextTx, NextCount, NextWanted, CaseReqVld, NextLine;
  }

  lemma SpeedsShared(r: Reg, i: In)
    requires Wired(r) && Speeds(r)
    requires r.state.WRITE_REG? || r.state.DRIVE_K? || r.state.WAIT_K_DON? || r.state.DISCONNECTED?
    ensures Speeds(Next(r, i)) && !Stale(r, i)
  {
    hide NextTimers, NextReq, NextTx, NextCount, NextWanted, CaseReqVld, NextLine;
  }

  lemma SpeedsOther(r: Reg, i: In)
    requires Wired(r) && Speeds(r)
    requires r.state.HS_INIT? || r.state.HS_INIT1? || Fast(r.state) || Sleeps(r.state)
    ensures Speeds(Next(r, i)) <==> !Stale(r, i)
  {
    hide NextTimers, NextReq, NextTx, NextCount, NextWanted, CaseReqVld, NextLine;
  }

  // The last value the PHY has acknowledged for its function control register.
  function NextPhy(r: Reg, phy: bv8, i: In): bv8 {
    if Acked(r, i) && r.req.addr == FUN_CTL then r.req.wdat else phy
  }

  // The transceiver is set up for what the machine is doing.
  predicate Mode(h: State, phy: bv8) {
    match h
    case INIT | DISCONNECTED => phy == FUN_REINI
    case INIT2 | FS_RUN | INIT_CHIRP | WAIT_FS | WAITRSTHS_START | WAITRSTHS | SUSPEND | DEBOUNCE_SE0 => phy == FUN_FS
    case HS_INIT1 | HS_RUN => phy == FUN_HS
    case DRIVE_CHIRP | DETECT_CHIRP | HOST_CHIRP => phy == FUN_CHIRP
    case RESUME => phy == FUN_FS || phy == FUN_WKUP_K
    case WAKEUP => phy == FUN_WKUP_K
    case _ => true
  }

  // While a register is being written, the write will establish it.
  predicate Modes(r: Reg, phy: bv8) {
    if r.state.WRITE_REG? && r.req.addr == FUN_CTL then Mode(r.nxtState, r.req.wdat) else Mode(Home(r), phy)
  }

  lemma ModesStep(r: Reg, phy: bv8, i: In)
    requires Wired(r) && Modes(r, phy)
    ensures Modes(Next(r, i), NextPhy(r, phy, i))
  {
    if r.state.RESET? || r.state.INIT? || r.state.INIT1? || r.state.INIT2? || r.state.FS_RUN? {
      ModesStart(r, phy, i);
    } else {
      ModesLater(r, phy, i);
    }
  }

  lemma ModesStart(r: Reg, phy: bv8, i: In)
    requires Wired(r) && Modes(r, phy)
    requires r.state.RESET? || r.state.INIT? || r.state.INIT1? || r.state.INIT2? || r.state.FS_RUN?
    ensures Modes(Next(r, i), NextPhy(r, phy, i))
  {
    hide NextTimers, NextFlags, NextCount, NextWanted, CaseReqVld, NextLine;
  }

  lemma ModesLater(r: Reg, phy: bv8, i: In)
    requires Wired(r) && Modes(r, phy)
    requires !r.state.RESET? && !r.state.INIT? && !r.state.INIT1? && !r.state.INIT2? && !r.state.FS_RUN?
    ensures Modes(Next(r, i), NextPhy(r, phy, i))
  {
    hide NextTimers, NextFlags, NextCount, NextWanted, CaseReqVld, NextLine;
  }

  // ---- whole runs ------------------------------------------------------------------------------

  function RunPhy(r: Reg, phy: bv8, ins: seq<In>): bv8
    decreases ins
  {
    if ins == [] then phy else RunPhy(Next(r, ins[0]), NextPhy(r, phy, ins[0]), ins[1..])
  }

  predicate NeverStale(r: Reg, ins: seq<In>)
    decreases ins
  {
    ins == [] || (!Stale(r, ins[0]) && NeverStale(Next(r, ins[0]), ins[1..]))
  }

  // Without the enable, high speed is out of reach.
  predicate FullSpeedOnly(r: Reg) {
    var h := Home(r);
    r.flags.hiSpeed == L && !h.HS_INIT? && !h.HS_INIT1? && !Fast(h)
    && (h.WAIT_FS? || !Negotiates(h))
  }

  predicate Enabled(ins: seq<In>, en: Bit) {
    forall k :: 0 <= k < |ins| ==> ins[k].hiSpeedEn == en
  }

  lemma FullSpeedStep(r: Reg, i: In)
    requires Wired(r) && FullSpeedOnly(r) && i.hiSpeedEn == L
    ensures FullSpeedOnly(Next(r, i)) && !Stale(r, i)
  {
    hide NextTimers, NextReq, NextTx, NextCount, NextWanted, CaseReqVld, NextLine;
  }

  lemma {:induction false} ConstantEnableIsNeverStale(r: Reg, ins: seq<In>, en: Bit)
    requires Wired(r) && Enabled(ins, en) && (en == L ==> FullSpeedOnly(r))
    ensures NeverStale(r, ins)
    decreases ins
  {
    if ins != [] {
      WiredStep(r, ins[0]);
      if en == L {
        FullSpeedStep(r, ins[0]);
      }
      hide Next, Wired, FullSpeedOnly;
      ConstantEnableIsNeverStale(Next(r, ins[0]), ins[1..], en);
    }
  }

  lemma {:induction false} RunKeeps(r: Reg, phy: bv8, ins: seq<In>)
    requires Wired(r) && Speeds(r) && Modes(r, phy) && NeverStale(r, ins)
    ensures Wired(Run(r, ins)) && Speeds(Run(r, ins)) && Modes(Run(r, ins), RunPhy(r, phy, ins))
    decreases ins
  {
    hide Next, Wired, Speeds, Modes, Stale;
    if ins != [] {
      WiredStep(r, ins[0]);
      SpeedsStep(r, ins[0]);
      ModesStep(r, phy, ins[0]);
      RunKeeps(Next(r, ins[0]), NextPhy(r, phy, ins[0]), ins[1..]);
    }
  }

  // From power-up, with the enable constant: in full speed the flag is low and the PHY
  // is set for full speed, in high speed the flag is high and the PHY is set for high
  // speed, the host's chirp is listened to in chirp mode, and a disconnected device has
  // its terminations off.
  lemma EveryRun(ins: seq<In>, phy: bv8, en: Bit)
    requires Enabled(ins, en)
    ensures var r, phy' := Run(INITIAL, ins), RunPhy(INITIAL, phy, ins);
            && (r.state.FS_RUN? ==> r.flags.hiSpeed == L && phy' == 0x45 && r.flags.usb2Rst == L)
            && (r.state.HS_RUN? ==> r.flags.hiSpeed == H && phy' == 0x40 && r.flags.usb2Rst == L)
            && (r.state.HOST_CHIRP? ==> r.flags.hiSpeed == L && phy' == 0x54 && r.flags.usb2Rst == H)
            && (r.state.DISCONNECTED? ==> phy' == 0x61)
            && (r.req.vld == H ==> r.state.WRITE_REG?) && (r.tx.vld == H ==> r.state.WAIT_K_DON?)
  {
    hide Run, RunPhy, Next, NextPhy, NeverStale, Stale;
    assert Wired(INITIAL) && Speeds(INITIAL) && Modes(INITIAL, phy) && FullSpeedOnly(INITIAL);
    ConstantEnableIsNeverStale(INITIAL, ins, en);
    RunKeeps(INITIAL, phy, ins);
  }

  // Why the enable has to be constant: five clocks lead from the stale situation to
  // full speed with the high-speed flag up.
  lemma StaleFlagSurvives(r: Reg, i: In, ack: In)
    requires Wired(r) && Stale(r, i)
    requires ack.ack == H && ack.err == L && ack.disconnect == L && ack.dir == L
    ensures var r' := Run(Next(r, i), [ack, ack, ack, ack]);
            r'.state.FS_RUN? && r'.flags.hiSpeed == H
  {
    hide NextTimers, NextWanted, NextCount, Tick, PrescOk;
    var r1 := Next(r, i);
    assert r1.state.INIT1? && r1.line == J && r1.req.vld == L && r1.tx.vld == L;
    var r2 := Next(r1, ack);
    assert r2.state.WRITE_REG? && r2.nxtState.INIT2? && r2.req.vld == L && r2.line == J && r2.tx.vld == L;
    var r3 := Next(r2, ack);
    var r4 := Next(r3, ack);
    assert r4.state.INIT2? && r4.line == J && r4.tx.vld == L;
    var r5 := Next(r4, ack);
    FourSteps(r1, ack);
  }

  lemma FourSteps(r: Reg, i: In)
    ensures Run(r, [i, i, i, i]) == Next(Next(Next(Next(r, i), i), i), i)
  {
    hide Next;
    var r1, r2, r3 := Next(r, i), Next(Next(r, i), i), Next(Next(Next(r, i), i), i);
    assert [i, i, i, i][1..] == [i, i, i] && [i, i, i][1..] == [i, i] && [i, i][1..] == [i] && [i][1..] == [];
    assert Run(r3, [i]) == Run(Next(r3, i), []);
    assert Run(r2, [i, i]) == Run(r3, [i]);
    assert Run(r1, [i, i, i]) == Run(r2, [i, i]);
  }

  // ---- register requests ----------------------------------------------------------------------

  predicate NotAcked(ins: seq<In>) {
    forall k :: 0 <= k < |ins| ==> !(ins[k].ack == H && ins[k].err == L)
  }

  // A request that is up stays up, with the same register and value, through errors
  // and whatever else happens, until it is acknowledged without an error; that clock
  // takes it down and returns to the state that asked, or starts the disconnect.
  lemma {:induction false} RequestHeld(r: Reg, ins: seq<In>, last: In)
    requires Wired(r) && r.req.vld == H && NotAcked(ins) && last.ack == H && last.err == L
    ensures var r', r'' := Run(r, ins), Next(Run(r, ins), last);
            && r'.state.WRITE_REG? && r'.req == r.req && r'.nxtState == r.nxtState
            && r''.req.vld == L
            && (if last.disconnect == L || r.nxtState.DISCONNECTED? then r''.state == r.nxtState
                else r''.state.WRITE_REG? && r''.nxtState.DISCONNECTED?)
    decreases ins
  {
    if ins == [] {
      hide NextTimers, NextFlags, NextCount, NextWanted, NextLine, PrescOk;
    } else {
      WiredStep(r, ins[0]);
      RequestStep(r, ins[0]);
      hide Next;
      RequestHeld(Next(r, ins[0]), ins[1..], last);
    }
  }

  lemma RequestStep(r: Reg, i: In)
    requires Wired(r) && r.req.vld == H && !(i.ack == H && i.err == L)
    ensures Next(r, i).state.WRITE_REG? && Next(r, i).req == r.req && Next(r, i).nxtState == r.nxtState
  {
    hide NextTimers, NextFlags, NextCount, NextWanted, NextLine, PrescOk;
  }

  // Only a reset ends a disconnect.
  lemma {:induction false} DisconnectedForEver(r: Reg, ins: seq<In>)
    requires r.state.DISCONNECTED?
    ensures Run(r, ins).state.DISCONNECTED?
    ensures ins != [] ==> Run(r, ins).flags.disconn == H && Run(r, ins).flags.usb2Rst == H
    decreases ins
  {
    if ins != [] {
      hide NextTimers, NextReq, NextCount, NextWanted, NextLine;
      DisconnectedForEver(Next(r, ins[0]), ins[1..]);
    }
  }
}
