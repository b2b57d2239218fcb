// How long the line state machine stays in each of its timed states, and what ends them:
// silence on a high-speed link, the return to full speed, the K it drives, suspend.
module LineStateTimes {
  import opened Logic
  import opened LineState
  import opened LineStateProof

  predicate StaysOn(ins: seq<In>) {
    forall k :: 0 <= k < |ins| ==> ins[k].disconnect == L
  }

  function Left3060(r: Reg): nat {
    Left(TOP_LONG, r.timers.presc, r.timers.t3060)
  }

  function Left5060(r: Reg): nat {
    Left(TOP_LONG, r.timers.presc, r.timers.t5060)
  }

  // ---- a high-speed link ------------------------------------------------------------------

  // Clocks of SE0 in a row, up to now.
  function Silent(r: Reg, i: In, q: nat): nat {
    if NextLine(r, i) == SE0 then q + 1 else 0
  }

  // No stretch of SE0, of which q clocks are past, becomes longer than 3040 us.
  predicate Busy(r: Reg, ins: seq<In>, q: nat)
    decreases ins
  {
    ins == [] || (Silent(r, ins[0], q) <= 3040 * 60 && Busy(Next(r, ins[0]), ins[1..], Silent(r, ins[0], q)))
  }

  // The machine has counted the silence so far.
  predicate Counting(r: Reg, q: nat) {
    r.state.HS_RUN? && PrescOk(r.timers.presc) && 3040 * 60 < Left3060(r) + q && q <= 3040 * 60
  }

  lemma BusyStep(r: Reg, i: In, q: nat)
    requires Counting(r, q) && i.disconnect == L && Silent(r, i, q) <= 3040 * 60
    ensures Counting(Next(r, i), Silent(r, i, q))
  {
    TickCounts(r.timers);
    hide Tick, NextReq, NextTx, NextFlags, NextLine, NextWanted, NextCount;
  }

  lemma {:induction false} BusyRun(r: Reg, ins: seq<In>, q: nat)
    requires Counting(r, q) && StaysOn(ins) && Busy(r, ins, q)
    ensures Run(r, ins).state.HS_RUN?
    decreases ins
  {
    hide Next, NextLine, Left3060;
    if ins != [] {
      BusyStep(r, ins[0], q);
      BusyRun(Next(r, ins[0]), ins[1..], Silent(r, ins[0], q));
    }
  }

  // The clock that enters high speed, or one that sees anything but SE0 in it, starts the
  // count afresh.
  predicate Wakes(r: Reg, i: In) {
    && PrescOk(r.timers.presc) && i.disconnect == L
    && (r.state.HS_INIT1? || (r.state.HS_RUN? && Left3060(r) > 0 && NextLine(r, i) != SE0))
  }

  lemma WakesStep(r: Reg, i: In)
    requires Wakes(r, i) && (r.state.HS_INIT1? ==> r.tx.vld == L)
    ensures Counting(Next(r, i), 0) && 3040 * 60 < Left3060(Next(r, i)) <= 3050 * 60
  {
    TickCounts(r.timers);
    hide Tick, NextReq, NextTx, NextFlags, NextLine, NextWanted, NextCount;
  }

  // High speed is kept for as long as the link is not silent for 3040 us.
  lemma BusyLinkStays(r: Reg, first: In, ins: seq<In>)
    requires Wired(r) && Wakes(r, first) && StaysOn(ins) && Busy(Next(r, first), ins, 0)
    ensures Run(Next(r, first), ins).state.HS_RUN?
  {
    assert r.state.HS_INIT1? ==> r.tx.vld == L;
    hide Next, Busy, Wakes, Counting, Wired;
    WakesStep(r, first);
    BusyRun(Next(r, first), ins, 0);
  }

  lemma SilenceStep(r: Reg, i: In)
    requires r.state.HS_RUN? && PrescOk(r.timers.presc) && Holds(r, i, SE0)
    ensures var r' := Next(r, i);
            && PrescOk(r'.timers.presc)
            && if Left3060(r) > 0 then r'.state.HS_RUN? && Left3060(r') == Left3060(r) - 1
               else r'.state.WRITE_REG? && r'.nxtState.WAITRSTHS_START? && r'.req.addr == 0x04 && r'.req.wdat == 0x45
  {
    TickCounts(r.timers);
    hide Tick, NextTx, NextFlags, NextLine, NextWanted, NextCount;
  }

  predicate Reverts(r: Reg) {
    r.state.WRITE_REG? && r.nxtState.WAITRSTHS_START? && r.req.addr == 0x04 && r.req.wdat == 0x45
  }

  lemma {:induction false} SilenceRun(r: Reg, ins: seq<In>)
    requires r.state.HS_RUN? && PrescOk(r.timers.presc) && AllHold(r, ins, SE0) && |ins| <= Left3060(r) + 1
    ensures if |ins| <= Left3060(r) then Run(r, ins).state.HS_RUN? else Reverts(Run(r, ins))
    decreases ins
  {
    hide Next, Holds, Left3060;
    if ins != [] {
      SilenceStep(r, ins[0]);
      if Left3060(r) > 0 {
        SilenceRun(Next(r, ins[0]), ins[1..]);
      }
    }
  }

  // SE0 that stays ends high speed between 3040 and 3050 us after the last clock that was
  // not SE0, or that entered it, and not earlier: the PHY is set for full speed.
  lemma SilentLinkReverts(r: Reg, first: In, ins: seq<In>) returns (n: nat)
    requires Wired(r) && Wakes(r, first) && AllHold(Next(r, first), ins, SE0)
    ensures 3040 * 60 < n <= 3050 * 60
    ensures |ins| <= n ==> Run(Next(r, first), ins).state.HS_RUN?
    ensures |ins| == n + 1 ==> Reverts(Run(Next(r, first), ins))
  {
    assert r.state.HS_INIT1? ==> r.tx.vld == L;
    hide Next, AllHold, Wakes, Wired, Left3060;
    WakesStep(r, first);
    n := Left3060(Next(r, first));
    if |ins| <= n + 1 {
      SilenceRun(Next(r, first), ins);
    }
  }

  // ---- states that wait for a timer ------------------------------------------------------------

  // Nothing but its timer ends such a state, as long as the device is not disconnected.
  predicate Waiting(r: Reg) {
    PrescOk(r.timers.presc) && (r.state.WAITRSTHS? || r.state.WAIT_FS?)
  }

  function WaitLeft(r: Reg): nat {
    if r.state.WAIT_FS? then Left3060(r) else Left(TOP_SMALL, r.timers.presc, r.timers.small)
  }

  lemma WaitStep(r: Reg, i: In)
    requires Waiting(r) && i.disconnect == L
    ensures var r' := Next(r, i);
            if WaitLeft(r) > 0 then Waiting(r') && r'.state == r.state && WaitLeft(r') == WaitLeft(r) - 1
            else r'.state == if r.state.WAIT_FS? then INIT1 else if NextLine(r, i) == SE0 then INIT_CHIRP else SUSPEND
  {
    TickCounts(r.timers);
    hide Tick, NextReq, NextTx, NextFlags, NextLine, NextWanted, NextCount;
  }

  lemma {:induction false} WaitRun(r: Reg, ins: seq<In>)
    requires Waiting(r) && StaysOn(ins) && |ins| <= WaitLeft(r)
    ensures var r' := Run(r, ins); Waiting(r') && r'.state == r.state && WaitLeft(r') == WaitLeft(r) - |ins|
    decreases ins
  {
    hide Next, WaitLeft, Waiting;
    if ins != [] {
      WaitStep(r, ins[0]);
      WaitRun(Next(r, ins[0]), ins[1..]);
    }
  }

  lemma ReturnStarts(r: Reg, i: In)
    requires Wired(r) && r.state.WAITRSTHS_START? && i.disconnect == L
    ensures var r' := Next(r, i); Waiting(r') && r'.state.WAITRSTHS? && 100 * 60 < WaitLeft(r') <= 110 * 60
  {
    TickCounts(r.timers);
    hide Tick, NextReq, NextTx, NextFlags, NextLine, NextWanted, NextCount;
  }

  // Back in full-speed mode, the line state between 100 and 110 us later decides, and
  // nothing before: SE0 is a reset, anything else suspend.
  lemma ReturnDecides(r: Reg, first: In, ins: seq<In>, last: In) returns (n: nat)
    requires Wired(r) && r.state.WAITRSTHS_START? && first.disconnect == L && StaysOn(ins) && last.disconnect == L
    ensures 100 * 60 < n <= 110 * 60
    ensures |ins| <= n ==> Run(Next(r, first), ins).state.WAITRSTHS?
    ensures |ins| == n ==> var r' := Run(Next(r, first), ins);
                           Next(r', last).state == if NextLine(r', last) == SE0 then INIT_CHIRP else SUSPEND
  {
    hide Next, Waiting, WaitLeft, NextLine, Wired;
    ReturnStarts(r, first);
    n := WaitLeft(Next(r, first));
    if |ins| <= n {
      WaitRun(Next(r, first), ins);
      WaitStep(Run(Next(r, first), ins), last);
    }
  }

  lemma FallbackStarts(r: Reg, i: In)
    requires Wired(r) && r.state.INIT_CHIRP? && i.disconnect == L && i.hiSpeedEn == L
    ensures var r' := Next(r, i); Waiting(r') && r'.state.WAIT_FS? && 3040 * 60 < WaitLeft(r') <= 3050 * 60
  {
    TickCounts(r.timers);
    hide Tick, NextReq, NextTx, NextFlags, NextLine, NextWanted, NextCount;
  }

  // Without high speed enabled, a reset leads back to full speed between 3040 and 3050 us
  // later, whatever the line does.
  lemma FallbackWaits(r: Reg, first: In, ins: seq<In>, last: In) returns (n: nat)
    requires Wired(r) && r.state.INIT_CHIRP? && first.disconnect == L && first.hiSpeedEn == L
    requires StaysOn(ins) && last.disconnect == L
    ensures 3040 * 60 < n <= 3050 * 60
    ensures |ins| <= n ==> Run(Next(r, first), ins).state.WAIT_FS?
    ensures |ins| == n ==> Next(Run(Next(r, first), ins), last).state.INIT1?
  {
    hide Next, Waiting, WaitLeft, NextLine, Wired;
    FallbackStarts(r, first);
    n := WaitLeft(Next(r, first));
    if |ins| <= n {
      WaitRun(Next(r, first), ins);
      WaitStep(Run(Next(r, first), ins), last);
    }
  }

  // ---- driving K ---------------------------------------------------------------------------------

  function LeftK(r: Reg): nat {
    Left(TOP_1200, r.timers.presc, r.timers.t1200)
  }

  predicate Driving(r: Reg, back: State) {
    PrescOk(r.timers.presc) && r.state.WAIT_K_DON? && r.tx.vld == H && r.nxtState == back
  }

  lemma DriveStarts(r: Reg, i: In)
    requires Wired(r) && r.state.DRIVE_K?
    ensures var r' := Next(r, i);
            Driving(r', r.nxtState) && r'.tx.dat == 0x40 && 1180 * 60 < LeftK(r') <= 1190 * 60
  {
    TickCounts(r.timers);
    hide Tick, NextReq, NextFlags, NextLine, NextWanted, NextCount;
  }

  // The command byte until it is consumed, then zeros; the transmission goes on until its
  // time is over and the next byte is consumed.
  lemma DriveStep(r: Reg, i: In, back: State)
    requires Driving(r, back)
    ensures var r' := Next(r, i);
            && r'.tx.dat == (if i.txNxt == H then 0 else r.tx.dat)
            && if LeftK(r) > 0 || i.txNxt == L then Driving(r', back) && LeftK(r') == Down(LeftK(r))
               else r'.tx.vld == L && (i.disconnect == L ==> r'.state.WAIT_K_DON? && r'.nxtState == back)
  {
    TickCounts(r.timers);
    hide Tick, NextReq, NextFlags, NextLine, NextWanted, NextCount;
  }

  predicate AnyTaken(ins: seq<In>) {
    exists k :: 0 <= k < |ins| && ins[k].txNxt == H
  }

  lemma {:induction false} DriveRun(r: Reg, ins: seq<In>, back: State)
    requires Driving(r, back) && |ins| <= LeftK(r)
    ensures var r' := Run(r, ins);
            && Driving(r', back) && LeftK(r') == LeftK(r) - |ins|
            && r'.tx.dat == if AnyTaken(ins) then 0 else r.tx.dat
    decreases ins
  {
    hide Next, LeftK, Driving;
    if ins != [] {
      DriveStep(r, ins[0], back);
      DriveRun(Next(r, ins[0]), ins[1..], back);
      TakenStep(ins);
    }
  }

  lemma TakenStep(ins: seq<In>)
    requires ins != []
    ensures AnyTaken(ins) <==> ins[0].txNxt == H || AnyTaken(ins[1..])
  {
    if AnyTaken(ins[1..]) {
      var k :| 0 <= k < |ins[1..]| && ins[1..][k].txNxt == H;
      assert ins[k + 1].txNxt == H;
    }
    if AnyTaken(ins) && ins[0].txNxt == L {
      var k :| 0 <= k < |ins| && ins[k].txNxt == H;
      assert ins[1..][k - 1].txNxt == H;
    }
  }

  // K is driven for at least 1180 us: the transmission, the command 0x40 followed by
  // zeros, stays up throughout, and the first byte consumed from 1190 us on is its last;
  // the machine then returns to the state that asked for it.
  lemma KIsDriven(r: Reg, first: In, ins: seq<In>, last: In, after: In) returns (n: nat)
    requires Wired(r) && r.state.DRIVE_K? && last.txNxt == H && last.disconnect == L && after.disconnect == L
    ensures 1180 * 60 < n <= 1190 * 60
    ensures |ins| <= n ==> var r' := Run(Next(r, first), ins);
                           r'.tx == TxReq(if AnyTaken(ins) then 0 else 0x40, H)
    ensures |ins| == n ==> var r' := Next(Run(Next(r, first), ins), last);
                           r'.tx.vld == L && Next(r', after).state == r.nxtState
  {
    hide Next, LeftK, Wired, AnyTaken;
    DriveStarts(r, first);
    n := LeftK(Next(r, first));
    if |ins| <= n {
      DriveRun(Next(r, first), ins, r.nxtState);
      var r' := Run(Next(r, first), ins);
      DriveStep(r', last, r.nxtState);
      DriveEnds(Next(r', last), after);
    }
  }

  lemma DriveEnds(r: Reg, i: In)
    requires i.disconnect == L
    ensures r.state.WAIT_K_DON? && r.tx.vld == L ==> Next(r, i).state == r.nxtState
  {
    hide NextTimers, NextReq, NextFlags, NextLine, NextWanted, NextCount;
  }
}
