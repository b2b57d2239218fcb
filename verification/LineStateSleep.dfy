// Starting up, suspend, the debounced reset, remote wake-up and resume.
module LineStateSleep {
  import opened Logic
  import opened LineState
  import opened LineStateProof
  import opened LineStateChirp
  import opened LineStateTimes

  // ---- suspend ---------------------------------------------------------------------------

  predicate Asleep(r: Reg) {
    r.state.SUSPEND? && r.flags.suspend == H && PrescOk(r.timers.presc)
  }

  lemma FallsAsleep(r: Reg, i: In)
    requires Wired(r) && r.state.SUSPEND? && r.flags.suspend == L && i.disconnect == L
    ensures Asleep(Next(r, i)) && 5040 * 60 < Left5060(Next(r, i)) <= 5050 * 60
  {
    TickCounts(r.timers);
    hide Tick, NextReq, NextTx, NextLine, NextWanted, NextCount;
  }

  // K resumes, SE0 may be a reset, and the user may wake the host up once the timer is over.
  lemma SleepStep(r: Reg, i: In)
    requires Asleep(r) && i.disconnect == L
    ensures var r', line := Next(r, i), NextLine(r, i);
            if line == SE0 then Debouncing(r') && 5040 * 60 < Left5060(r') <= 5050 * 60 && 1 <= LeftSmall(r') <= 600
            else if line == K then r'.state.RESUME?
            else if i.remWake == H && Left5060(r) <= 1
            then r'.state.WRITE_REG? && r'.nxtState.WAKEUP? && r'.req.addr == 0x04 && r'.req.wdat == 0x55
            else Asleep(r') && Left5060(r') == Down(Left5060(r))
  {
    TickCounts(r.timers);
    hide Tick, NextTx, NextLine, NextWanted, NextCount;
  }

  // The line shows neither SE0 nor K, and the user asks for a wake-up or not.
  predicate Calm(r: Reg, ins: seq<In>, wake: Bit)
    decreases ins
  {
    ins == [] ||
    (NextLine(r, ins[0]) != SE0 && NextLine(r, ins[0]) != K && ins[0].disconnect == L && ins[0].remWake == wake
     && Calm(Next(r, ins[0]), ins[1..], wake))
  }

  lemma {:induction false} SleepRun(r: Reg, ins: seq<In>, wake: Bit)
    requires Asleep(r) && Calm(r, ins, wake) && (wake == H ==> |ins| < Left5060(r))
    ensures Asleep(Run(r, ins))
    ensures Left5060(Run(r, ins)) == if Left5060(r) > |ins| then Left5060(r) - |ins| else 0
    decreases ins
  {
    hide Next, Asleep, Left5060, NextLine;
    if ins != [] {
      SleepStep(r, ins[0]);
      SleepRun(Next(r, ins[0]), ins[1..], wake);
    }
  }

  predicate WakesHost(r: Reg) {
    r.state.WRITE_REG? && r.nxtState.WAKEUP? && r.req.addr == 0x04 && r.req.wdat == 0x55
  }

  // A calm line keeps the device asleep; a standing request to wake the host is honoured
  // between 5040 and 5050 us after suspend was entered and not earlier.
  lemma RemoteWakeup(r: Reg, first: In, ins: seq<In>, last: In, wake: Bit) returns (n: nat)
    requires Wired(r) && r.state.SUSPEND? && r.flags.suspend == L && first.disconnect == L
    requires Calm(Next(r, first), ins, wake) && Calm(Run(Next(r, first), ins), [last], H)
    ensures 5040 * 60 <= n <= 5050 * 60
    ensures wake == L || |ins| <= n ==> Asleep(Run(Next(r, first), ins))
    ensures (wake == L && |ins| >= n) || |ins| == n ==> WakesHost(Next(Run(Next(r, first), ins), last))
    ensures |ins| < n ==> Asleep(Next(Run(Next(r, first), ins), last))
  {
    hide Next, Run, Asleep, Left5060, NextLine, Wired;
    FallsAsleep(r, first);
    var r1 := Next(r, first);
    n := Left5060(r1) - 1;
    if wake == L || |ins| <= n {
      SleepRun(r1, ins, wake);
      SleepStep(Run(r1, ins), last);
    }
  }

  // The machine then drives K and is resumed.
  lemma WakeupDrives(r: Reg, i: In)
    requires r.state.WAKEUP? && i.disconnect == L
    ensures Next(r, i).state.DRIVE_K? && Next(r, i).nxtState.RESUME?
  {
    hide NextTimers, NextReq, NextTx, NextFlags, NextLine, NextWanted, NextCount;
  }

  lemma ChirpDrives(r: Reg, i: In)
    requires r.state.DRIVE_CHIRP? && i.disconnect == L
    ensures Next(r, i).state.DRIVE_K? && Next(r, i).nxtState.DETECT_CHIRP?
  {
    hide NextTimers, NextReq, NextTx, NextFlags, NextLine, NextWanted, NextCount;
  }

  // ---- a reset during suspend ----------------------------------------------------------------

  predicate Debouncing(r: Reg) {
    r.state.DEBOUNCE_SE0? && PrescOk(r.timers.presc) && r.flags.suspend == H
  }

  lemma DebounceStep(r: Reg, i: In)
    requires Debouncing(r) && i.disconnect == L
    ensures var r', line := Next(r, i), NextLine(r, i);
            if Left5060(r) == 0 then Asleep(r') && 5040 * 60 < Left5060(r') <= 5050 * 60
            else if LeftSmall(r) == 0 then r'.state.INIT_CHIRP?
            else Debouncing(r') && Left5060(r') == Left5060(r) - 1
                 && if line == SE0 then LeftSmall(r') == LeftSmall(r) - 1 else 1 <= LeftSmall(r') <= 600
  {
    TickCounts(r.timers);
    hide Tick, NextReq, NextTx, NextLine, NextWanted, NextCount;
  }

  lemma {:induction false} DebounceSE0(r: Reg, ins: seq<In>)
    requires Debouncing(r) && AllHold(r, ins, SE0) && LeftSmall(r) < Left5060(r) && |ins| <= LeftSmall(r) + 1
    ensures if |ins| <= LeftSmall(r) then Debouncing(Run(r, ins)) else Run(r, ins).state.INIT_CHIRP?
    decreases ins
  {
    hide Next, Debouncing, Left5060, LeftSmall, NextLine;
    if ins != [] {
      DebounceStep(r, ins[0]);
      if LeftSmall(r) > 0 {
        DebounceSE0(Next(r, ins[0]), ins[1..]);
      }
    }
  }

  lemma {:induction false} DebounceOther(r: Reg, ins: seq<In>)
    requires Debouncing(r) && Avoids(r, ins, SE0) && LeftSmall(r) >= 1 && |ins| <= Left5060(r) + 1
    ensures if |ins| <= Left5060(r) then Debouncing(Run(r, ins)) else Asleep(Run(r, ins))
    decreases ins
  {
    hide Next, Debouncing, Asleep, Left5060, LeftSmall, NextLine;
    if ins != [] {
      DebounceStep(r, ins[0]);
      if Left5060(r) > 0 {
        DebounceOther(Next(r, ins[0]), ins[1..]);
      }
    }
  }

  // SE0 that stays wakes a suspended device up for a reset within 601 clocks.
  lemma ResetFromSuspend(r: Reg, first: In, ins: seq<In>) returns (n: nat)
    requires Asleep(r) && Holds(r, first, SE0) && AllHold(Next(r, first), ins, SE0)
    ensures 1 <= n <= 600
    ensures |ins| <= n ==> Run(Next(r, first), ins).state.DEBOUNCE_SE0?
    ensures |ins| == n + 1 ==> Run(Next(r, first), ins).state.INIT_CHIRP?
  {
    hide Next, Run, AllHold, Left5060, LeftSmall, NextLine;
    SleepStep(r, first);
    n := LeftSmall(Next(r, first));
    if |ins| <= n + 1 {
      DebounceSE0(Next(r, first), ins);
    }
  }

  // SE0 that is gone again leaves it suspended: it goes back to sleep between 5040 and
  // 5050 us later.
  lemma GlitchIsIgnored(r: Reg, first: In, ins: seq<In>) returns (n: nat)
    requires Asleep(r) && Holds(r, first, SE0) && Avoids(Next(r, first), ins, SE0)
    ensures 5040 * 60 < n <= 5050 * 60
    ensures |ins| <= n ==> Run(Next(r, first), ins).state.DEBOUNCE_SE0?
    ensures |ins| == n + 1 ==> Asleep(Run(Next(r, first), ins))
  {
    hide Next, Run, Avoids, Left5060, LeftSmall, NextLine, Asleep;
    SleepStep(r, first);
    n := Left5060(Next(r, first));
    if |ins| <= n + 1 {
      DebounceOther(Next(r, first), ins);
    }
  }

  // ---- resume and connecting ------------------------------------------------------------------

  lemma ResumeStep(r: Reg, i: In)
    requires r.state.RESUME? && i.disconnect == L
    ensures var r', line := Next(r, i), NextLine(r, i);
            && r'.flags == r.flags
            && r'.state == if i.hiSpeedEn == H && r.flags.hiSpeed == H then (if line == SE0 then HS_INIT else RESUME)
                           else if line == J then INIT1 else RESUME
  {
    hide NextTimers, NextReq, NextTx, NextLine, NextWanted, NextCount;
  }

  lemma {:induction false} ResumeRun(r: Reg, ins: seq<In>)
    requires r.state.RESUME? && AllHold(r, ins, K)
    ensures Run(r, ins).state.RESUME? && Run(r, ins).flags == r.flags
    decreases ins
  {
    hide Next, NextLine;
    if ins != [] {
      ResumeStep(r, ins[0]);
      ResumeRun(Next(r, ins[0]), ins[1..]);
    }
  }

  // K is sat out, however long it lasts; then SE0 resumes high speed, if that was the speed
  // and is still enabled, and J resumes full speed otherwise.
  lemma ResumeEnds(r: Reg, ins: seq<In>, last: In)
    requires Asleep(r) && AllHold(r, ins, K) && ins != []
    ensures Run(r, ins).state.RESUME?
    ensures last.disconnect == L ==>
              var r' := Run(r, ins);
              Next(r', last).state == if last.hiSpeedEn == H && r.flags.hiSpeed == H
                                      then (if NextLine(r', last) == SE0 then HS_INIT else RESUME)
                                      else if NextLine(r', last) == J then INIT1 else RESUME
  {
    hide Next, NextLine;
    SleepStep(r, ins[0]);
    SleepKeepsFlags(r, ins[0]);
    ResumeRun(Next(r, ins[0]), ins[1..]);
    if last.disconnect == L {
      ResumeStep(Run(r, ins), last);
    }
  }

  lemma SleepKeepsFlags(r: Reg, i: In)
    requires Asleep(r)
    ensures Next(r, i).flags == r.flags
  {
    hide NextTimers, NextReq, NextTx, NextLine, NextWanted, NextCount, PrescOk;
  }

  // The first line state that the PHY reports starts full speed.
  lemma ConnectsWhenSeen(r: Reg, i: In)
    requires r.state.INIT2? && i.disconnect == L
    ensures Next(r, i).state == if NextLine(r, i) == SE1 then INIT2 else FS_RUN
    ensures NextLine(r, i) != SE1 ==>
              var f := Next(r, i).flags; f.usb2Rst == L && f.suspend == L && f.se0Seen == L && f.jSeen == L
  {
    hide NextTimers, NextReq, NextTx, NextLine, NextWanted, NextCount;
  }

  // ---- starting up -----------------------------------------------------------------------------

  // The register writes the PHY has acknowledged.
  function Written(r: Reg, ins: seq<In>): seq<(bv8, bv8)>
    decreases ins
  {
    if ins == [] then []
    else (if Acked(r, ins[0]) then [(r.req.addr, r.req.wdat)] else []) + Written(Next(r, ins[0]), ins[1..])
  }

  // Reset with the terminations off, no pull-downs, the rising and the falling interrupts
  // disabled, and full speed.
  const START_UP: seq<(bv8, bv8)> := [(0x04, 0x61), (0x0A, 0x00), (0x0F, 0x1F), (0x12, 0x1F), (0x04, 0x45)]

  // p of them are acknowledged; until the second, the time since power-up is waited for.
  predicate Starting(r: Reg, p: nat, age: nat) {
    && Wired(r) && p <= 5
    && match r.state
       case RESET => p == 0 && age == 0 && r.regIdx == 2
       case WRITE_REG =>
         && p < 5 && r.req.addr == START_UP[p].0 && r.req.wdat == START_UP[p].1
         && (if p == 4 then r.nxtState.INIT2? && r.regIdx == -1
             else r.nxtState.INIT? && r.regIdx == (if p == 0 then 2 else 2 - p))
         && (p == 0 ==> age + Left5060(r) > 5040 * 60)
         && (p > 0 ==> age > 5040 * 60)
       case INIT =>
         && 1 <= p <= 4 && r.regIdx == 3 - p
         && (if p == 1 then age + Left5060(r) > 5040 * 60 else age > 5040 * 60)
       case INIT1 => p == 4 && r.regIdx == -1 && age > 5040 * 60
       case INIT2 => p == 5 && age > 5040 * 60
       case _ => false
  }

  lemma StartStep(r: Reg, p: nat, age: nat, i: In)
    requires Starting(r, p, age) && i.disconnect == L && !r.state.INIT2?
    ensures Starting(Next(r, i), if Acked(r, i) then p + 1 else p, age + 1)
    ensures Acked(r, i) ==> p < 5 && (r.req.addr, r.req.wdat) == START_UP[p]
  {
    if r.state.WRITE_REG? {
      StartWrite(r, p, age, i);
    } else {
      StartOther(r, p, age, i);
    }
  }

  lemma StartWrite(r: Reg, p: nat, age: nat, i: In)
    requires Starting(r, p, age) && i.disconnect == L && r.state.WRITE_REG?
    ensures Starting(Next(r, i), if Acked(r, i) then p + 1 else p, age + 1)
    ensures Acked(r, i) ==> p < 5 && (r.req.addr, r.req.wdat) == START_UP[p]
  {
    WiredStep(r, i);
    TickCounts(r.timers);
    hide Wired, Tick, NextFlags, NextLine, NextWanted, NextCount, NextTx;
  }

  lemma StartOther(r: Reg, p: nat, age: nat, i: In)
    requires Starting(r, p, age) && i.disconnect == L && !r.state.INIT2? && !r.state.WRITE_REG?
    ensures Starting(Next(r, i), p, age + 1) && !Acked(r, i)
  {
    WiredStep(r, i);
    TickCounts(r.timers);
    hide Wired, Tick, NextFlags, NextLine, NextWanted, NextCount, NextTx;
  }

  predicate NotYetUp(r: Reg, ins: seq<In>)
    decreases ins
  {
    ins == [] || (!r.state.INIT2? && NotYetUp(Next(r, ins[0]), ins[1..]))
  }

  lemma {:induction false} StartRun(r: Reg, p: nat, age: nat, ins: seq<In>) returns (q: nat)
    requires Starting(r, p, age) && StaysOn(ins) && NotYetUp(r, ins)
    ensures p <= q <= 5 && Starting(Run(r, ins), q, age + |ins|) && Written(r, ins) == START_UP[p..q]
    decreases ins
  {
    hide Next, Starting, Acked;
    q := p;
    if ins == [] {
      assert p <= 5 by { StartBound(r, p, age); }
    } else {
      StartStep(r, p, age, ins[0]);
      q := StartRun(Next(r, ins[0]), if Acked(r, ins[0]) then p + 1 else p, age + 1, ins[1..]);
      if p < q {
        SliceHead(START_UP, p, q);
      }
    }
  }

  lemma SliceHead<T>(s: seq<T>, p: nat, q: nat)
    requires p < q <= |s|
    ensures s[p..q] == [s[p]] + s[p + 1..q]
  {
  }

  lemma StartBound(r: Reg, p: nat, age: nat)
    requires Starting(r, p, age)
    ensures p <= 5 && (r.state.INIT2? ==> p == 5) && (p > 1 ==> age > 5040 * 60)
  {
  }

  // From power-up to the first connection the PHY's registers are written in this order,
  // however often a write has to be repeated; all five are written before the machine
  // waits for the line, and only the first within 5040 us.
  lemma StartUpWrites(ins: seq<In>) returns (p: nat)
    requires StaysOn(ins) && NotYetUp(INITIAL, ins)
    ensures p <= 5 && Written(INITIAL, ins) == START_UP[..p]
    ensures Run(INITIAL, ins).state.INIT2? ==> p == 5
    ensures |ins| <= 5040 * 60 ==> p <= 1
  {
    hide Run, Written, NotYetUp, Next;
    p := StartRun(INITIAL, 0, 0, ins);
    StartBound(Run(INITIAL, ins), p, |ins|);
  }

  // Until the PHY gives the bus back nothing is written.
  lemma WaitsForBus(r: Reg, i: In)
    requires r.state.INIT? && i.dir == H && i.disconnect == L
    ensures Next(r, i).state.INIT? && Next(r, i).regIdx == r.regIdx && Next(r, i).req == r.req
  {
    hide NextTimers, NextFlags, NextWanted, NextCount, NextLine;
  }

  // At power-up nothing is asked of the PHY or told to the user.
  lemma PowerUpIsSilent()
    ensures INITIAL.tx.vld == L && INITIAL.req.vld == L && INITIAL.flags.usb2Rst == L && INITIAL.flags.suspend == L
    ensures INITIAL.flags.hiSpeed == L && INITIAL.flags.disconn == L
  {
  }

  // ---- the line state ------------------------------------------------------------------------

  // The two low bits of the PHY's last status byte, and SE1 before the first.
  function LastLine(ins: seq<In>): Line {
    if ins == [] then SE1
    else
      var i := ins[|ins| - 1];
      if i.dir == H && i.trn == L && i.nxt == L then i.bits else LastLine(ins[..|ins| - 1])
  }

  lemma {:induction false} LineKept(ins: seq<In>)
    ensures Run(INITIAL, ins).line == LastLine(ins)
    decreases |ins|
  {
    if ins != [] {
      var n := |ins| - 1;
      LineKept(ins[..n]);
      assert ins == ins[..n] + [ins[n]];
      RunConcat(INITIAL, ins[..n], [ins[n]]);
      LineStep(Run(INITIAL, ins[..n]), ins[n]);
    }
  }

  lemma LineStep(r: Reg, i: In)
    ensures Run(r, [i]).line == if i.dir == H && i.trn == L && i.nxt == L then i.bits else r.line
  {
    hide NextTimers, NextFlags, NextWanted, NextCount, NextReq, NextTx, CaseState, CaseReturn;
    assert [i][1..] == [];
    assert Run(r, [i]) == Run(Next(r, i), []);
  }
}
