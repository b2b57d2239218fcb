// Runs from power-up that reach the states the theorems about the line state machine
// speak of: full speed, the host's chirp, high speed, suspend, and the stale flag.
module LineStateReach {
  import opened Logic
  import opened LineState
  import opened LineStateProof
  import opened LineStateChirp

  const QUIET: In := In(L, L, L, SE0, L, L, L, L, H, L)

  function Rx(l: Line): In {
    QUIET.(dir := H, bits := l)
  }

  // ---- building runs -------------------------------------------------------------------

  // A run with the enable up.
  predicate Leads(r: Reg, ins: seq<In>, r': Reg) {
    Run(r, ins) == r' && Enabled(ins, H) && Wired(r')
  }

  lemma {:induction false} WiredRun(r: Reg, ins: seq<In>)
    requires Wired(r)
    ensures Wired(Run(r, ins))
    decreases ins
  {
    hide Next, Wired;
    if ins != [] {
      WiredStep(r, ins[0]);
      WiredRun(Next(r, ins[0]), ins[1..]);
    }
  }

  lemma One(r: Reg, i: In)
    requires Wired(r) && i.hiSpeedEn == H
    ensures Leads(r, [i], Next(r, i))
  {
    WiredStep(r, i);
    hide Next, Wired;
    assert Run(r, [i]) == Run(Next(r, i), []);
  }

  lemma Then(r: Reg, a: seq<In>, r1: Reg, b: seq<In>, r2: Reg)
    requires Leads(r, a, r1) && Leads(r1, b, r2)
    ensures Leads(r, a + b, r2)
  {
    hide Run, Wired;
    RunConcat(r, a, b);
  }

  // ---- pieces --------------------------------------------------------------------------

  predicate SameLine(r: Reg, r': Reg) {
    r'.flags == r.flags && r'.line == r.line && r'.regIdx == r.regIdx
    && (TimedOut(TOP_LONG, r.timers.t5060) ==> TimedOut(TOP_LONG, r'.timers.t5060))
  }

  // An acknowledged register write returns to the state that follows.
  lemma Write(r: Reg) returns (ins: seq<In>, r': Reg)
    requires Wired(r) && r.state.WRITE_REG? && r.req.vld == L
    ensures Leads(r, ins, r') && r'.state == r.nxtState && SameLine(r, r')
  {
    hide Wired, Leads, SameLine;
    var i2 := QUIET.(ack := H);
    var r1 := Next(r, QUIET);
    r' := Next(r1, i2);
    ins := [QUIET] + [i2];
    One(r, QUIET);
    assert Wired(r1) by { WiredStep(r, QUIET); }
    One(r1, i2);
    Then(r, [QUIET], r1, [i2], r');
    WriteSteps(r);
  }

  lemma WriteSteps(r: Reg)
    requires Wired(r) && r.state.WRITE_REG? && r.req.vld == L
    ensures var r' := Next(Next(r, QUIET), QUIET.(ack := H)); r'.state == r.nxtState && SameLine(r, r')
  {
    hide Wired, PrescOk, NextCount, NextWanted;
  }

  lemma Extend(r: Reg, a: seq<In>, r1: Reg, i: In)
    requires Leads(r, a, r1) && i.hiSpeedEn == H
    ensures Leads(r, a + [i], Next(r1, i))
  {
    One(r1, i);
    hide Next, Leads;
    Then(r, a, r1, [i], Next(r1, i));
  }

  // A step into WRITE_REG and the write.
  lemma StepAndWrite(r: Reg, i: In) returns (ins: seq<In>, r': Reg)
    requires Wired(r) && !r.state.WRITE_REG? && Next(r, i).state.WRITE_REG? && i.hiSpeedEn == H
    ensures Leads(r, ins, r') && r'.state == Next(r, i).nxtState && SameLine(Next(r, i), r')
  {
    hide Next, Wired, Leads, SameLine;
    WiredStep(r, i);
    RequestDown(r, i);
    One(r, i);
    var more;
    more, r' := Write(Next(r, i));
    ins := [i] + more;
    Then(r, [i], Next(r, i), more, r');
  }

  lemma RequestDown(r: Reg, i: In)
    requires Wired(r) && !r.state.WRITE_REG?
    ensures Next(r, i).req.vld == L
  {
    hide NextTimers, NextFlags, NextCount, NextWanted, NextLine, PrescOk, CaseState, CaseReturn, CaseCmd;
  }

  // ---- waiting for a timer -----------------------------------------------------------------

  predicate Resting(r: Reg) {
    Wired(r) && (r.state.INIT? || (r.state.WAIT_K_DON? && r.tx.vld == H) || r.state.HS_RUN? || r.state.WAITRSTHS?)
  }

  function Lull(s: State): In {
    match s
    case HS_RUN => Rx(SE0)
    case WAITRSTHS => Rx(J)
    case _ => QUIET
  }

  function RestLeft(r: Reg): nat {
    var t := r.timers;
    match r.state
    case WAIT_K_DON => Left(TOP_1200, t.presc, t.t1200)
    case HS_RUN => Left(TOP_LONG, t.presc, t.t3060)
    case WAITRSTHS => Left(TOP_SMALL, t.presc, t.small)
    case _ => Left(TOP_LONG, t.presc, t.t5060)
  }

  predicate SameWait(r: Reg, r': Reg) {
    Resting(r') && r'.state == r.state && r'.nxtState == r.nxtState && r'.flags == r.flags && r'.regIdx == r.regIdx
  }

  lemma RestStep(r: Reg)
    requires Resting(r) && RestLeft(r) >= 1
    ensures SameWait(r, Next(r, Lull(r.state))) && RestLeft(Next(r, Lull(r.state))) == RestLeft(r) - 1
  {
    WiredStep(r, Lull(r.state));
    TickCounts(r.timers);
    hide Wired, Tick, NextReq, NextWanted, NextCount;
  }

  lemma {:induction false} Rest(r: Reg) returns (ins: seq<In>, r': Reg)
    requires Resting(r)
    ensures Leads(r, ins, r') && SameWait(r, r') && RestLeft(r') == 0
    decreases RestLeft(r)
  {
    hide Next, RestLeft, Leads, Wired;
    if RestLeft(r) == 0 {
      ins, r' := [], r;
      Nothing(r);
    } else {
      var i := Lull(r.state);
      RestStep(r);
      One(r, i);
      var more;
      more, r' := Rest(Next(r, i));
      ins := [i] + more;
      Then(r, [i], Next(r, i), more, r');
    }
  }

  lemma Nothing(r: Reg)
    requires Wired(r)
    ensures Leads(r, [], r)
  {
  }

  // ---- to full speed -------------------------------------------------------------------------

  lemma Boot() returns (ins: seq<In>, r: Reg)
    ensures Leads(INITIAL, ins, r) && r.state.INIT? && TimedOut(TOP_LONG, r.timers.t5060)
  {
    hide Leads, SameLine, Next, Wired;
    var a, b, r1;
    BootStep();
    a, r1 := StepAndWrite(INITIAL, QUIET);
    LeadsWired(INITIAL, a, r1);
    b, r := Rest(r1);
    ins := a + b;
    Then(INITIAL, a, r1, b, r);
  }

  lemma BootStep()
    ensures Wired(INITIAL) && Next(INITIAL, QUIET).state.WRITE_REG? && Next(INITIAL, QUIET).nxtState.INIT?
  {
    hide NextTimers, NextCount, NextWanted;
  }

  lemma LeadsWired(r: Reg, ins: seq<In>, r': Reg)
    requires Leads(r, ins, r')
    ensures Wired(r')
  {
  }

  // The three registers that are set up before the first connection.
  lemma {:induction false} SetUp(r: Reg) returns (ins: seq<In>, r': Reg)
    requires Wired(r) && r.state.INIT? && TimedOut(TOP_LONG, r.timers.t5060)
    ensures Leads(r, ins, r') && r'.state.INIT1?
    decreases r.regIdx
  {
    hide Leads, Next, Wired;
    SetUpStep(r);
    if r.regIdx < 0 {
      ins, r' := [QUIET], Next(r, QUIET);
      One(r, QUIET);
    } else {
      var a, b, r1;
      a, r1 := StepAndWrite(r, QUIET);
      LeadsWired(r, a, r1);
      b, r' := SetUp(r1);
      ins := a + b;
      Then(r, a, r1, b, r');
    }
  }

  lemma SetUpStep(r: Reg)
    requires Wired(r) && r.state.INIT? && TimedOut(TOP_LONG, r.timers.t5060)
    ensures var r' := Next(r, QUIET);
            if r.regIdx < 0 then r'.state.INIT1?
            else r'.state.WRITE_REG? && r'.nxtState.INIT? && r'.regIdx == r.regIdx - 1 && r.regIdx >= 0
                 && TimedOut(TOP_LONG, r'.timers.t5060)
  {
    hide NextCount, NextWanted, PrescOk, NextFlags, NextReq;
  }

  lemma Connect(r: Reg) returns (ins: seq<In>, r': Reg)
    requires Wired(r) && r.state.INIT1?
    ensures Leads(r, ins, r') && r'.state.FS_RUN? && r'.flags.se0Seen == L
  {
    hide Leads, Next, Wired;
    ConnectStep(r);
    var a, r1;
    a, r1 := StepAndWrite(r, QUIET);
    r' := Next(r1, Rx(J));
    ins := a + [Rx(J)];
    Extend(r, a, r1, Rx(J));
    LeadsWired(r, a, r1);
    RunsStep(r1);
  }

  lemma ConnectStep(r: Reg)
    requires Wired(r) && r.state.INIT1?
    ensures Next(r, QUIET).state.WRITE_REG? && Next(r, QUIET).nxtState.INIT2?
  {
    hide NextTimers, NextCount, NextWanted, PrescOk, NextFlags, NextReq;
  }

  lemma RunsStep(r: Reg)
    requires Wired(r) && r.state.INIT2?
    ensures Next(r, Rx(J)).state.FS_RUN? && Next(r, Rx(J)).flags.se0Seen == L
  {
    hide NextTimers, NextCount, NextWanted, PrescOk, NextReq;
  }

  lemma ReachesFullSpeed() returns (ins: seq<In>, r: Reg)
    ensures Leads(INITIAL, ins, r) && r.state.FS_RUN? && r.flags.se0Seen == L
  {
    hide Leads, Next, Wired;
    var a, b, c, r1, r2;
    a, r1 := Boot();
    LeadsWired(INITIAL, a, r1);
    b, r2 := SetUp(r1);
    LeadsWired(r1, b, r2);
    c, r := Connect(r2);
    Then(INITIAL, a, r1, b, r2);
    Then(INITIAL, a + b, r2, c, r);
    ins := a + b + c;
  }

  // ---- a reset, and the chirp ----------------------------------------------------------------

  function Times(i: In, n: nat): (ins: seq<In>)
    ensures |ins| == n && forall k :: 0 <= k < n ==> ins[k] == i
  {
    if n == 0 then [] else [i] + Times(i, n - 1)
  }

  lemma {:induction false} TimesHold(r: Reg, l: Line, n: nat)
    ensures AllHold(r, Times(Rx(l), n), l)
    decreases n
  {
    hide Next;
    if n > 0 {
      assert Times(Rx(l), n)[1..] == Times(Rx(l), n - 1);
      TimesHold(Next(r, Rx(l)), l, n - 1);
    }
  }

  lemma Many(r: Reg, ins: seq<In>)
    requires Wired(r) && Enabled(ins, H)
    ensures Leads(r, ins, Run(r, ins))
  {
    hide Wired, Run;
    WiredRun(r, ins);
  }

  lemma ResetDetected(r: Reg) returns (ins: seq<In>, r': Reg)
    requires Wired(r) && r.state.FS_RUN? && r.flags.se0Seen == L
    ensures Leads(r, ins, r') && r'.state.INIT_CHIRP?
  {
    hide Leads, Next, Holds, AllHold, WatchLeft, Run, Wired;
    var i := Rx(SE0);
    assert PrescOk(r.timers.presc) by { WiredPresc(r); }
    assert Holds(r, i, SE0) by { TimesHold(r, SE0, 1); OneHolds(r, i); }
    WatchStarts(r, i, SE0);
    var r1 := Next(r, i);
    var more := Times(i, WatchLeft(r1, SE0) + 1);
    TimesHold(r1, SE0, |more|);
    WatchRun(r1, more, SE0);
    One(r, i);
    WiredStep(r, i);
    Many(r1, more);
    ins, r' := [i] + more, Run(r1, more);
    Then(r, [i], r1, more, r');
  }

  lemma WiredPresc(r: Reg)
    requires Wired(r)
    ensures PrescOk(r.timers.presc)
  {
  }

  lemma OneHolds(r: Reg, i: In)
    requires AllHold(r, Times(i, 1), i.bits)
    ensures Holds(r, i, i.bits)
  {
    hide Next, Holds;
    assert Times(i, 1)[0] == i;
  }

  // The device's own chirp, to the end of its K.
  lemma DeviceChirps(r: Reg) returns (ins: seq<In>, r': Reg)
    requires Wired(r) && r.state.INIT_CHIRP?
    ensures Leads(r, ins, r') && r'.state.DETECT_CHIRP?
  {
    hide Leads, Next, Wired, SameLine, RestLeft;
    var a, b, r1, r4;
    ChirpModeStep(r);
    a, r1 := StepAndWrite(r, QUIET);
    var r2 := Next(r1, QUIET);
    var r3 := Next(r2, QUIET);
    Extend(r, a, r1, QUIET);
    Extend(r, a + [QUIET], r2, QUIET);
    LeadsWired(r, a, r1);
    LeadsWired(r, a + [QUIET] + [QUIET], r3);
    DriveSteps(r1);
    b, r4 := Rest(r3);
    LeadsWired(r3, b, r4);
    Then(r, a + [QUIET] + [QUIET], r3, b, r4);
    var c := a + [QUIET] + [QUIET] + b;
    var taken := QUIET.(txNxt := H);
    Extend(r, c, r4, taken);
    Extend(r, c + [taken], Next(r4, taken), QUIET);
    ChirpEnds(r4, taken);
    ins, r' := c + [taken] + [QUIET], Next(Next(r4, taken), QUIET);
  }

  lemma ChirpModeStep(r: Reg)
    requires Wired(r) && r.state.INIT_CHIRP?
    ensures Next(r, QUIET).state.WRITE_REG? && Next(r, QUIET).nxtState.DRIVE_CHIRP?
  {
    hide NextTimers, NextCount, NextWanted, PrescOk, NextFlags, NextReq;
  }

  lemma DriveSteps(r: Reg)
    requires Wired(r) && r.state.DRIVE_CHIRP?
    ensures var r' := Next(Next(r, QUIET), QUIET);
            r'.state.WAIT_K_DON? && r'.nxtState.DETECT_CHIRP? && r'.tx.vld == H
  {
    hide NextTimers, NextCount, NextWanted, PrescOk, NextFlags, NextReq;
  }

  lemma ChirpEnds(r: Reg, taken: In)
    requires Resting(r) && r.state.WAIT_K_DON? && r.nxtState.DETECT_CHIRP? && RestLeft(r) == 0
    requires taken == QUIET.(txNxt := H)
    ensures Next(Next(r, taken), QUIET).state.DETECT_CHIRP?
  {
    hide NextTimers, NextCount, NextWanted, PrescOk, NextFlags, NextReq;
  }

  // ---- the host's answer -----------------------------------------------------------------------

  const CHIRP_LENGTH: nat := 3000

  // A host whose line states last 50 us each.
  function Host(k: nat, n: nat): (segs: seq<seq<In>>)
    ensures |segs| == n
    decreases n
  {
    if n == 0 then [] else [Times(Rx(Turn(k)), CHIRP_LENGTH)] + Host(k + 1, n - 1)
  }

  lemma {:induction false} HostLengths(k: nat, n: nat)
    ensures var segs := Host(k, n);
            (forall j :: 0 <= j < n ==> |segs[j]| == CHIRP_LENGTH)
            && |Joined(segs)| == n * CHIRP_LENGTH && Enabled(Joined(segs), H)
    decreases n
  {
    hide Times, Turn;
    if n > 0 {
      HostLengths(k + 1, n - 1);
      assert Host(k, n)[1..] == Host(k + 1, n - 1);
    }
  }

  lemma {:induction false} HostPlays(r: Reg, k: nat, n: nat)
    ensures Plays(r, Host(k, n), k)
    decreases n
  {
    hide Times, Turn, AllHold, Run;
    if n > 0 {
      var seg := Times(Rx(Turn(k)), CHIRP_LENGTH);
      TimesHold(r, Turn(k), CHIRP_LENGTH);
      HostPlays(Run(r, seg), k + 1, n - 1);
      assert Host(k, n)[0] == seg && Host(k, n)[1..] == Host(k + 1, n - 1);
    }
  }

  lemma HostAnswers(r: Reg) returns (ins: seq<In>, r': Reg)
    requires Wired(r) && r.state.DETECT_CHIRP?
    ensures Next(r, QUIET).state.HOST_CHIRP?
    ensures Leads(Next(r, QUIET), ins, r') && r'.state.HS_INIT?
  {
    hide Leads, Next, Wired, Host, Plays, Joined, Run, Fresh, Left1200;
    var r1, segs := Next(r, QUIET), Host(0, 6);
    HostChirpStarts(r, QUIET);
    HostLengths(0, 6);
    HostPlays(r1, 0, 6);
    assert Run(r1, []) == r1 by { RunNothing(r1); }
    assert [] + Joined(segs) == Joined(segs);
    var n := ProperHostIsHeard(r, QUIET, [], segs);
    WiredStep(r, QUIET);
    ins := Joined(segs)[..n];
    r' := Run(r1, ins);
    Many(r1, ins);
  }

  lemma RunNothing(r: Reg)
    ensures Run(r, []) == r
  {
  }

  // ---- high speed, suspend and resume --------------------------------------------------------------

  lemma GoesFast(r: Reg) returns (ins: seq<In>, r': Reg)
    requires Wired(r) && r.state.HS_INIT?
    ensures Leads(r, ins, r') && r'.state.HS_RUN? && r'.flags.hiSpeed == H
  {
    hide Leads, Next, Wired, SameLine;
    var a, r1;
    FastModeStep(r);
    a, r1 := StepAndWrite(r, QUIET);
    LeadsWired(r, a, r1);
    Extend(r, a, r1, QUIET);
    FastStep(r1);
    ins, r' := a + [QUIET], Next(r1, QUIET);
  }

  lemma FastModeStep(r: Reg)
    requires Wired(r) && r.state.HS_INIT?
    ensures Next(r, QUIET).state.WRITE_REG? && Next(r, QUIET).nxtState.HS_INIT1?
  {
    hide NextTimers, NextCount, NextWanted, PrescOk, NextFlags, NextReq;
  }

  lemma FastStep(r: Reg)
    requires Wired(r) && r.state.HS_INIT1?
    ensures Next(r, QUIET).state.HS_RUN? && Next(r, QUIET).flags.hiSpeed == H
  {
    hide NextTimers, NextCount, NextWanted, PrescOk, NextReq;
  }

  // 3 ms of silence, back to full speed, and J.
  lemma FallsAsleep(r: Reg) returns (ins: seq<In>, r': Reg)
    requires Wired(r) && r.state.HS_RUN? && r.flags.hiSpeed == H
    ensures Leads(r, ins, r') && r'.state.SUSPEND? && r'.flags.hiSpeed == H
  {
    hide Leads, Next, Wired, RestLeft;
    var a, b, c, r1, r2, r4;
    a, r1 := Rest(r);
    LeadsWired(r, a, r1);
    SilenceStep(r1);
    b, r2 := StepAndWrite(r1, QUIET);
    LeadsWired(r1, b, r2);
    Then(r, a, r1, b, r2);
    var r3 := Next(r2, QUIET);
    Extend(r, a + b, r2, QUIET);
    LeadsWired(r, a + b + [QUIET], r3);
    ReturnStep(r2);
    c, r4 := Rest(r3);
    LeadsWired(r3, c, r4);
    Then(r, a + b + [QUIET], r3, c, r4);
    Extend(r, a + b + [QUIET] + c, r4, Rx(J));
    AsleepStep(r4);
    ins, r' := a + b + [QUIET] + c + [Rx(J)], Next(r4, Rx(J));
  }

  lemma SilenceStep(r: Reg)
    requires Resting(r) && r.state.HS_RUN? && RestLeft(r) == 0
    ensures var r' := Next(r, QUIET); r'.state.WRITE_REG? && r'.nxtState.WAITRSTHS_START? && r'.flags == r.flags
  {
    hide NextTimers, NextCount, NextWanted, PrescOk, NextReq;
  }

  lemma ReturnStep(r: Reg)
    requires Wired(r) && r.state.WAITRSTHS_START?
    ensures Next(r, QUIET).state.WAITRSTHS? && Next(r, QUIET).flags == r.flags
  {
    hide NextTimers, NextCount, NextWanted, PrescOk, NextReq;
  }

  lemma AsleepStep(r: Reg)
    requires Resting(r) && r.state.WAITRSTHS? && RestLeft(r) == 0
    ensures Next(r, Rx(J)).state.SUSPEND? && Next(r, Rx(J)).flags == r.flags
  {
    hide NextTimers, NextCount, NextWanted, PrescOk, NextReq;
  }

  lemma Resumes(r: Reg) returns (ins: seq<In>, r': Reg)
    requires Wired(r) && r.state.SUSPEND? && r.flags.hiSpeed == H
    ensures Leads(r, ins, r') && r'.state.RESUME? && r'.flags.hiSpeed == H
  {
    hide Leads, Next, Wired;
    var r1 := Next(r, Rx(J));
    One(r, Rx(J));
    LeadsWired(r, [Rx(J)], r1);
    SuspendStep(r);
    Extend(r, [Rx(J)], r1, Rx(K));
    ResumeStep(r1);
    ins, r' := [Rx(J)] + [Rx(K)], Next(r1, Rx(K));
  }

  lemma SuspendStep(r: Reg)
    requires Wired(r) && r.state.SUSPEND?
    ensures var r' := Next(r, Rx(J));
            r'.state.SUSPEND? && r'.flags.suspend == H && r'.flags.hiSpeed == r.flags.hiSpeed
  {
    hide NextTimers, NextCount, NextWanted, PrescOk, NextReq;
  }

  lemma ResumeStep(r: Reg)
    requires Wired(r) && r.state.SUSPEND? && r.flags.suspend == H
    ensures Next(r, Rx(K)).state.RESUME? && Next(r, Rx(K)).flags.hiSpeed == r.flags.hiSpeed
  {
    hide NextTimers, NextCount, NextWanted, PrescOk, NextReq;
  }

  // ---- the whole way -----------------------------------------------------------------------------

  lemma ReachesListening() returns (fs: seq<In>, listen: seq<In>, r1: Reg, r4: Reg)
    ensures Leads(INITIAL, fs, r1) && r1.state.FS_RUN?
    ensures Leads(INITIAL, fs + listen, r4) && r4.state.DETECT_CHIRP?
  {
    hide Leads, Next, Wired;
    var b, c, r2;
    fs, r1 := ReachesFullSpeed();
    LeadsWired(INITIAL, fs, r1);
    b, r2 := ResetDetected(r1);
    LeadsWired(r1, b, r2);
    c, r4 := DeviceChirps(r2);
    listen := b + c;
    Then(r1, b, r2, c, r4);
    Then(INITIAL, fs, r1, listen, r4);
  }

  lemma HostToSuspend(r: Reg) returns (hs: seq<In>, sleep: seq<In>, r1: Reg, r2: Reg)
    requires Wired(r) && r.state.DETECT_CHIRP?
    ensures Next(r, QUIET).state.HOST_CHIRP?
    ensures Leads(Next(r, QUIET), hs, r1) && r1.state.HS_RUN?
    ensures Leads(r1, sleep, r2) && r2.state.SUSPEND? && r2.flags.hiSpeed == H
  {
    hide Leads, Next, Wired;
    var a, b, q;
    a, q := HostAnswers(r);
    LeadsWired(Next(r, QUIET), a, q);
    b, r1 := GoesFast(q);
    hs := a + b;
    Then(Next(r, QUIET), a, q, b, r1);
    LeadsWired(q, b, r1);
    sleep, r2 := FallsAsleep(r1);
  }

  lemma LeadsIs(r: Reg, ins: seq<In>, r': Reg)
    requires Leads(r, ins, r')
    ensures Run(r, ins) == r' && Enabled(ins, H) && Wired(r')
  {
  }

  // One run from power-up, with the enable up throughout, meets full speed, the host's
  // chirp, high speed, suspend and resume.
  lemma ReachesEverything()
    returns (fs: seq<In>, listen: seq<In>, hs: seq<In>, sleep: seq<In>, wake: seq<In>)
    ensures Enabled(fs + listen + hs + sleep + wake, H)
    ensures Run(INITIAL, fs).state.FS_RUN? && Run(INITIAL, fs + listen).state.HOST_CHIRP?
    ensures Run(INITIAL, fs + listen + hs).state.HS_RUN?
    ensures Run(INITIAL, fs + listen + hs + sleep).state.SUSPEND?
    ensures var r := Run(INITIAL, fs + listen + hs + sleep + wake);
            Wired(r) && r.state.RESUME? && r.flags.hiSpeed == H
  {
    hide Leads, Next, Wired, Run;
    var a, r1, r2, r4, r5, r6;
    fs, a, r1, r2 := ReachesListening();
    LeadsWired(INITIAL, fs + a, r2);
    var r3 := Next(r2, QUIET);
    listen := a + [QUIET];
    Extend(INITIAL, fs + a, r2, QUIET);
    assert fs + a + [QUIET] == fs + listen;
    hs, sleep, r4, r5 := HostToSuspend(r2);
    LeadsWired(r4, sleep, r5);
    wake, r6 := Resumes(r5);
    Then(INITIAL, fs + listen, r3, hs, r4);
    Then(INITIAL, fs + listen + hs, r4, sleep, r5);
    Then(INITIAL, fs + listen + hs + sleep, r5, wake, r6);
    LeadsIs(INITIAL, fs, r1);
    LeadsIs(INITIAL, fs + listen, r3);
    LeadsIs(INITIAL, fs + listen + hs, r4);
    LeadsIs(INITIAL, fs + listen + hs + sleep, r5);
    LeadsIs(INITIAL, fs + listen + hs + sleep + wake, r6);
  }

  // The stale situation is met from power-up, when the enable is taken away during
  // resume, and full speed with the high-speed flag up follows: EveryRun needs its
  // constant enable.
  lemma StaleIsReached() returns (ins: seq<In>, i: In, after: seq<In>)
    ensures Enabled(ins, H) && Stale(Run(INITIAL, ins), i)
    ensures var r := Run(INITIAL, ins + [i] + after); r.state.FS_RUN? && r.flags.hiSpeed == H
  {
    hide Stale, Run, Next, Wired;
    var fs, listen, hs, sleep, wake := ReachesEverything();
    ins := fs + listen + hs + sleep + wake;
    i := Rx(J).(hiSpeedEn := L);
    var r := Run(INITIAL, ins);
    assert Stale(r, i) by { BecomesStale(r, i); }
    var ack := QUIET.(ack := H, hiSpeedEn := L);
    after := [ack, ack, ack, ack];
    StaleFlagSurvives(r, i, ack);
    assert Run(r, [i]) == Next(r, i) by { RunOne(r, i); }
    RunConcat(INITIAL, ins, [i]);
    RunConcat(INITIAL, ins + [i], after);
  }

  lemma BecomesStale(r: Reg, i: In)
    requires r.state.RESUME? && r.flags.hiSpeed == H && i == Rx(J).(hiSpeedEn := L)
    ensures Stale(r, i)
  {
  }

  lemma RunOne(r: Reg, i: In)
    ensures Run(r, [i]) == Next(r, i)
  {
    hide Next;
    assert Run(r, [i]) == Run(Next(r, i), []);
  }
}
