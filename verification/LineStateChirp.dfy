// The high-speed handshake: what the machine must have heard from the host before it
// enters high speed, and that a host that chirps properly is always heard.
module LineStateChirp {
  import opened Logic
  import opened LineState
  import opened LineStateProof

  // ---- the history of a handshake ---------------------------------------------------

  // A phase the machine has accepted: what it wanted, and the line states it looked at
  // since it last loaded the filter timer.
  datatype Heard = Heard(wanted: Line, seen: seq<Line>)

  // The phases since DETECT_CHIRP, the line states of the phase under way, and the
  // clocks spent listening.
  datatype History = History(phases: seq<Heard>, seen: seq<Line>, age: nat)

  function Track(h: History, r: Reg, i: In): History {
    if r.state.DETECT_CHIRP? then History([], [], 0)
    else if !r.state.HOST_CHIRP? then h
    else if PhaseSeen(r) then History(h.phases + [Heard(r.wanted, h.seen)], [], h.age + 1)
    else if Starts20(r, i) then History(h.phases, [], h.age + 1)
    else History(h.phases, h.seen + [NextLine(r, i)], h.age + 1)
  }

  function RunHistory(h: History, r: Reg, ins: seq<In>): History
    decreases ins
  {
    if ins == [] then h else RunHistory(Track(h, r, ins[0]), Next(r, ins[0]), ins[1..])
  }

  function Turn(k: nat): Line {
    if k % 2 == 0 then K else J
  }

  predicate Only(l: Line, seen: seq<Line>) {
    forall k :: 0 <= k < |seen| ==> seen[k] == l
  }

  // K, J, K, J, ..., each with at least one look at the line, and nothing else seen.
  predicate Alternate(ps: seq<Heard>) {
    forall k :: 0 <= k < |ps| ==> ps[k].wanted == Turn(k) && ps[k].seen != [] && Only(Turn(k), ps[k].seen)
  }

  const LISTEN_MAX := 119 * 600

  // In HOST_CHIRP the counter, the wanted state and the timers say where the
  // handshake stands.
  predicate Listening(r: Reg, h: History) {
    && 7 <= r.count <= 12 && |h.phases| == 12 - r.count && Alternate(h.phases)
    && r.wanted == Turn(|h.phases|) && Only(r.wanted, h.seen)
    && (TimedOut(TOP_SMALL, r.timers.small) ==> h.seen != [])
    && h.age + Left(TOP_1200, r.timers.presc, r.timers.t1200) <= LISTEN_MAX
  }

  predicate Follows(r: Reg, h: History) {
    Wired(r) && (r.state.HOST_CHIRP? ==> Listening(r, h))
  }

  lemma PhaseStep(r: Reg, h: History, i: In)
    requires Wired(r) && r.state.HOST_CHIRP? && Listening(r, h) && PhaseSeen(r)
    ensures Alternate(Track(h, r, i).phases)
    ensures Next(r, i).state.HOST_CHIRP? ==> Listening(Next(r, i), Track(h, r, i))
  {
    TickCounts(r.timers);
    hide Tick, NextTx, NextReq, NextFlags, NextLine, Left, Wired, Disconnects;
    LeftPositive(r);
  }

  lemma LeftPositive(r: Reg)
    requires Wired(r)
    ensures TimedOut(TOP_1200, r.timers.t1200) <==> Left(TOP_1200, r.timers.presc, r.timers.t1200) == 0
  {
  }

  lemma LookStep(r: Reg, h: History, i: In)
    requires Wired(r) && r.state.HOST_CHIRP? && Listening(r, h) && !PhaseSeen(r)
    ensures Next(r, i).state.HOST_CHIRP? ==> Listening(Next(r, i), Track(h, r, i))
  {
    TickCounts(r.timers);
    hide NextTx, NextReq, NextFlags, NextLine, Left, Wired, Disconnects, Alternate;
    LeftPositive(r);
  }

  lemma DetectStep(r: Reg, h: History, i: In)
    requires Wired(r) && r.state.DETECT_CHIRP?
    ensures Next(r, i).state.HOST_CHIRP? ==> Listening(Next(r, i), Track(h, r, i))
  {
    TickCounts(r.timers);
    hide Tick, NextTx, NextReq, NextFlags, NextLine, Wired, Disconnects;
  }

  // HOST_CHIRP is entered from DETECT_CHIRP alone.
  lemma EntersFromDetect(r: Reg, i: In)
    requires Wired(r) && Next(r, i).state.HOST_CHIRP?
    ensures r.state.HOST_CHIRP? || r.state.DETECT_CHIRP?
  {
    hide NextTimers, NextReq, NextFlags, NextCount, NextWanted, NextLine, PrescOk;
  }

  lemma FollowsStep(r: Reg, h: History, i: In)
    requires Follows(r, h)
    ensures Follows(Next(r, i), Track(h, r, i))
  {
    hide Next, Track, Listening, Wired;
    WiredStep(r, i);
    if Next(r, i).state.HOST_CHIRP? {
      EntersFromDetect(r, i);
      if r.state.DETECT_CHIRP? {
        DetectStep(r, h, i);
      } else if PhaseSeen(r) {
        PhaseStep(r, h, i);
      } else {
        LookStep(r, h, i);
      }
    }
  }

  lemma {:induction false} FollowsRun(r: Reg, h: History, ins: seq<In>)
    requires Follows(r, h)
    ensures Follows(Run(r, ins), RunHistory(h, r, ins))
    decreases ins
  {
    hide Next, Track, Follows;
    if ins != [] {
      FollowsStep(r, h, ins[0]);
      FollowsRun(Next(r, ins[0]), Track(h, r, ins[0]), ins[1..]);
    }
  }

  lemma Completed(r: Reg, h: History, i: In)
    requires Follows(r, h) && r.state.HOST_CHIRP? && Next(r, i).state.HS_INIT?
    ensures |Track(h, r, i).phases| == 6 && Alternate(Track(h, r, i).phases) && h.age < LISTEN_MAX
  {
    PhaseStep(r, h, i);
    hide Tick, NextTx, NextReq, NextFlags, NextLine, Track, Alternate;
    assert |Track(h, r, i).phases| == |h.phases| + 1 by { LongerByOne(r, h, i); }
  }

  lemma LongerByOne(r: Reg, h: History, i: In)
    requires r.state.HOST_CHIRP? && PhaseSeen(r)
    ensures |Track(h, r, i).phases| == |h.phases| + 1
  {
  }

  // In every run from power-up, the step from the handshake into high speed comes after
  // exactly six accepted phases K, J, K, J, K, J since DETECT_CHIRP, each with no other
  // line state since the filter timer was last loaded, and before the 1200 us timer has run out (less
  // than 1190 us after DETECT_CHIRP).
  lemma HandshakeComplete(ins: seq<In>, i: In, h: History)
    requires Run(INITIAL, ins).state.HOST_CHIRP? && Next(Run(INITIAL, ins), i).state.HS_INIT?
    ensures var r, h' := Run(INITIAL, ins), RunHistory(h, INITIAL, ins);
            var ps := Track(h', r, i).phases;
            && |ps| == 6 && h'.age < LISTEN_MAX
            && (forall k :: 0 <= k < 6 ==>
                  ps[k].wanted == Turn(k) && ps[k].seen != [] && Only(Turn(k), ps[k].seen))
  {
    hide Run, RunHistory, Next, Track, Listening;
    FollowsRun(INITIAL, h, ins);
    Completed(Run(INITIAL, ins), RunHistory(h, INITIAL, ins), i);
  }

  // There is one other way into HS_INIT: resuming a suspended high-speed connection.
  lemma HighSpeedEntries(r: Reg, i: In)
    requires Wired(r) && Next(r, i).state.HS_INIT?
    ensures r.state.HOST_CHIRP?
            || (r.state.RESUME? && r.flags.hiSpeed == H && i.hiSpeedEn == H && NextLine(r, i) == SE0)
  {
    hide NextTimers, NextReq, NextFlags, NextCount, NextWanted, NextLine, PrescOk;
  }

  // ---- a proper host succeeds --------------------------------------------------------------

  // The host keeps to its own times: it shows one line state after the other, and before
  // the first K anything else.
  predicate Avoids(r: Reg, ins: seq<In>, l: Line)
    decreases ins
  {
    ins == [] || (NextLine(r, ins[0]) != l && ins[0].disconnect == L && Avoids(Next(r, ins[0]), ins[1..], l))
  }

  predicate Plays(r: Reg, segs: seq<seq<In>>, k: nat)
    decreases segs
  {
    segs == [] || (AllHold(r, segs[0], Turn(k)) && Plays(Run(r, segs[0]), segs[1..], k + 1))
  }

  function Joined(segs: seq<seq<In>>): (ins: seq<In>) {
    if segs == [] then [] else segs[0] + Joined(segs[1..])
  }

  function Left1200(r: Reg): nat {
    Left(TOP_1200, r.timers.presc, r.timers.t1200)
  }

  function LeftSmall(r: Reg): nat {
    Left(TOP_SMALL, r.timers.presc, r.timers.small)
  }

  // The machine waits for, or looks at, phase k.
  predicate Awaits(r: Reg, k: nat) {
    k <= 5 && Wired(r) && r.state.HOST_CHIRP? && r.count == 12 - k && r.wanted == Turn(k)
  }

  // ... with its filter timer just loaded.
  predicate Fresh(r: Reg) {
    r.timers.small == TOP_SMALL
  }

  lemma FreshLeft(r: Reg)
    requires Wired(r) && Fresh(r)
    ensures 1 <= LeftSmall(r) <= 600 && !PhaseSeen(r)
  {
  }

  lemma PhaseSeenIs(r: Reg)
    requires Wired(r) && r.state.HOST_CHIRP?
    ensures PhaseSeen(r) <==> LeftSmall(r) == 0
  {
  }

  lemma MissStep(r: Reg, k: nat, i: In)
    requires Awaits(r, k) && Fresh(r) && Left1200(r) >= 1 && NextLine(r, i) != Turn(k) && i.disconnect == L
    ensures Awaits(Next(r, i), k) && Fresh(Next(r, i)) && Left1200(Next(r, i)) == Left1200(r) - 1
  {
    WiredStep(r, i);
    TickCounts(r.timers);
    hide Wired, Tick, NextTx, NextReq, NextFlags, NextLine;
  }

  // Another line state keeps the filter timer loaded.
  lemma {:induction false} MissRun(r: Reg, k: nat, ins: seq<In>)
    requires Awaits(r, k) && Fresh(r) && Avoids(r, ins, Turn(k)) && |ins| <= Left1200(r)
    ensures var r' := Run(r, ins); Awaits(r', k) && Fresh(r') && Left1200(r') == Left1200(r) - |ins|
    decreases ins
  {
    hide Next, Awaits, Left1200, Fresh;
    if ins != [] {
      MissStep(r, k, ins[0]);
      MissRun(Next(r, ins[0]), k, ins[1..]);
    }
  }

  lemma MatchStep(r: Reg, k: nat, i: In)
    requires Awaits(r, k) && LeftSmall(r) >= 1 && Left1200(r) >= 1 && Holds(r, i, Turn(k))
    ensures Awaits(Next(r, i), k)
    ensures LeftSmall(Next(r, i)) == LeftSmall(r) - 1 && Left1200(Next(r, i)) == Left1200(r) - 1
  {
    WiredStep(r, i);
    TickCounts(r.timers);
    hide Wired, Tick, NextTx, NextReq, NextFlags, NextLine;
  }

  lemma AcceptStep(r: Reg, k: nat, i: In)
    requires Awaits(r, k) && LeftSmall(r) == 0 && Left1200(r) >= 1 && i.disconnect == L
    ensures var r' := Next(r, i);
            if k == 5 then r'.state.HS_INIT?
            else Awaits(r', k + 1) && Fresh(r') && Left1200(r') == Left1200(r) - 1
  {
    WiredStep(r, i);
    TickCounts(r.timers);
    hide Wired, Tick, NextTx, NextReq, NextFlags, NextLine;
  }

  lemma {:induction false} HeldAvoids(r: Reg, ins: seq<In>, k: nat)
    requires AllHold(r, ins, Turn(k))
    ensures Avoids(r, ins, Turn(k + 1))
    decreases ins
  {
    hide Next, NextLine;
    if ins != [] {
      HeldAvoids(Next(r, ins[0]), ins[1..], k);
    }
  }

  // A line state that lasts longer than the filter timer completes exactly one phase.
  lemma {:induction false} SegmentRun(r: Reg, k: nat, seg: seq<In>) returns (n: nat)
    requires k <= 5 && Awaits(r, k) && AllHold(r, seg, Turn(k)) && LeftSmall(r) < |seg| <= Left1200(r)
    ensures n <= |seg|
    ensures var r' := Run(r, seg);
            if k == 5 then Run(r, seg[..n]).state.HS_INIT?
            else Awaits(r', k + 1) && Fresh(r') && Left1200(r') == Left1200(r) - |seg|
    decreases seg
  {
    hide Next, NextLine, Awaits, Fresh, LeftSmall, Left1200;
    var r1, rest := Next(r, seg[0]), seg[1..];
    if LeftSmall(r) == 0 {
      AcceptStep(r, k, seg[0]);
      n := 1;
      assert seg[..1][0] == seg[0] && seg[..1][1..] == [];
      if k < 5 {
        HeldAvoids(r1, rest, k);
        MissRun(r1, k + 1, rest);
      }
    } else {
      MatchStep(r, k, seg[0]);
      var m := SegmentRun(r1, k, rest);
      n := m + 1;
      assert seg[..n][0] == seg[0] && seg[..n][1..] == rest[..m];
    }
  }

  lemma {:induction false} SegmentsRun(r: Reg, k: nat, segs: seq<seq<In>>) returns (n: nat)
    requires Awaits(r, k) && Fresh(r) && |segs| == 6 - k && Plays(r, segs, k)
    requires (forall j :: 0 <= j < |segs| ==> |segs[j]| > 600) && |Joined(segs)| <= Left1200(r)
    ensures n <= |Joined(segs)| && Run(r, Joined(segs)[..n]).state.HS_INIT?
    decreases segs
  {
    hide Next, Run, AllHold, Awaits, Fresh, LeftSmall, Left1200;
    assert k <= 5 && LeftSmall(r) <= 600 by { AwaitsFresh(r, k); }
    var seg, rest := segs[0], segs[1..];
    var m := SegmentRun(r, k, seg);
    if k == 5 {
      n := m;
      assert Joined(segs)[..n] == seg[..n];
    } else {
      var j := SegmentsRun(Run(r, seg), k + 1, rest);
      n := |seg| + j;
      assert Joined(segs)[..n] == seg + Joined(rest)[..j];
      RunConcat(r, seg, Joined(rest)[..j]);
    }
  }

  lemma AwaitsFresh(r: Reg, k: nat)
    requires Awaits(r, k) && Fresh(r)
    ensures k <= 5 && LeftSmall(r) <= 600
  {
    FreshLeft(r);
  }

  // From DETECT_CHIRP, a host that, in its own time, shows K, J, K, J, K and J, each for
  // more than 600 clocks, brings the machine into HS_INIT, provided that all of it, with
  // what the line shows before the first K, lasts no longer than 1180 us.  Line states of
  // 40 to 60 us leave 820 us before the first K.
  lemma ProperHostIsHeard(r: Reg, first: In, before: seq<In>, segs: seq<seq<In>>) returns (n: nat)
    requires Wired(r) && r.state.DETECT_CHIRP? && first.disconnect == L
    requires Avoids(Next(r, first), before, K) && |segs| == 6 && Plays(Run(Next(r, first), before), segs, 0)
    requires forall j :: 0 <= j < |segs| ==> |segs[j]| > 600
    requires |before + Joined(segs)| <= 118 * PERIOD_PRESC
    ensures n <= |before + Joined(segs)| && Run(Next(r, first), (before + Joined(segs))[..n]).state.HS_INIT?
  {
    hide Next, Run, Plays, Avoids, Joined, Awaits, Fresh, Left1200, Wired;
    var r1 := Next(r, first);
    HostChirpStarts(r, first);
    assert Turn(0) == K;
    MissRun(r1, 0, before);
    var m := SegmentsRun(Run(r1, before), 0, segs);
    n := |before| + m;
    assert (before + Joined(segs))[..n] == before + Joined(segs)[..m];
    RunConcat(r1, before, Joined(segs)[..m]);
  }

  lemma HostChirpStarts(r: Reg, first: In)
    requires Wired(r) && r.state.DETECT_CHIRP? && first.disconnect == L
    ensures Awaits(Next(r, first), 0) && Fresh(Next(r, first)) && Left1200(Next(r, first)) >= 118 * PERIOD_PRESC
  {
    WiredStep(r, first);
    TickCounts(r.timers);
    hide Wired, Tick, NextReq, NextFlags, NextLine;
    assert r.tx.vld == L by { TxIdle(r); }
  }

  // The host shows the wanted state whenever the machine looks.
  predicate Answers(r: Reg, ins: seq<In>)
    decreases ins
  {
    ins == [] ||
    ((r.state.HOST_CHIRP? ==> ins[0].disconnect == L && (!PhaseSeen(r) ==> NextLine(r, ins[0]) == r.wanted))
     && Answers(Next(r, ins[0]), ins[1..]))
  }

  function ToGo(r: Reg, k: nat): nat
    requires k <= 5
  {
    (5 - k) * 601 + LeftSmall(r) + 1
  }

  lemma {:induction false} AnswersRun(r: Reg, k: nat, ins: seq<In>) returns (n: nat)
    requires Awaits(r, k) && Answers(r, ins)
    requires ToGo(r, k) <= |ins| && ToGo(r, k) <= Left1200(r)
    ensures n <= ToGo(r, k) && Run(r, ins[..n]).state.HS_INIT?
    decreases ins
  {
    hide Next, NextLine, Fresh, LeftSmall, Left1200, PhaseSeen, Wired;
    PhaseSeenIs(r);
    var i := ins[0];
    if LeftSmall(r) == 0 && k == 5 {
      AcceptStep(r, k, i);
      n := 1;
      assert ins[..1][0] == i && ins[..1][1..] == [];
    } else {
      var k' := k;
      if LeftSmall(r) == 0 {
        AcceptStep(r, k, i);
        FreshLeft(Next(r, i));
        k' := k + 1;
      } else {
        MatchStep(r, k, i);
      }
      var m := AnswersRun(Next(r, i), k', ins[1..]);
      n := m + 1;
      assert ins[..n][0] == i && ins[..n][1..] == ins[1..][..m];
    }
  }

  // A host that follows the machine's wishes needs no more than 6 * 601 clocks.
  lemma AnsweringHostIsHeard(r: Reg, first: In, ins: seq<In>) returns (n: nat)
    requires Wired(r) && r.state.DETECT_CHIRP? && first.disconnect == L
    requires Answers(Next(r, first), ins) && |ins| >= 6 * 601
    ensures n <= 6 * 601 && Run(Next(r, first), ins[..n]).state.HS_INIT?
  {
    hide Next, Answers, Run, LeftSmall, Left1200;
    HostChirpStarts(r, first);
    AwaitsFresh(Next(r, first), 0);
    n := AnswersRun(Next(r, first), 0, ins);
  }

  lemma TxIdle(r: Reg)
    requires Wired(r) && r.state.DETECT_CHIRP?
    ensures r.tx.vld == L
  {
  }

  // ---- listening always ends -------------------------------------------------------------

  predicate StaysConnected(ins: seq<In>) {
    forall k :: 0 <= k < |ins| ==> ins[k].disconnect == L
  }

  predicate Decided(r: Reg) {
    r.state.HS_INIT? || r.state.INIT1?
  }

  lemma ListenStep(r: Reg, i: In)
    requires Wired(r) && r.state.HOST_CHIRP? && i.disconnect == L
    ensures if Left1200(r) == 0 then Next(r, i).state.INIT1?
            else Next(r, i).state.HS_INIT?
                 || (Next(r, i).state.HOST_CHIRP? && Left1200(Next(r, i)) == Left1200(r) - 1)
  {
    TickCounts(r.timers);
    hide Tick, NextTx, NextReq, NextFlags, NextLine;
  }

  lemma {:induction false} ListenRun(r: Reg, ins: seq<In>) returns (n: nat)
    requires Wired(r) && r.state.HOST_CHIRP? && StaysConnected(ins) && |ins| > Left1200(r)
    ensures 0 < n <= Left1200(r) + 1 && Decided(Run(r, ins[..n]))
    ensures forall m :: 0 <= m < n ==> Run(r, ins[..m]).state.HOST_CHIRP?
    decreases ins
  {
    hide Next, Left1200, Wired;
    var r1 := Next(r, ins[0]);
    ListenStep(r, ins[0]);
    WiredStep(r, ins[0]);
    n := 1;
    assert ins[..1][0] == ins[0] && ins[..1][1..] == [] && ins[..0] == [];
    if r1.state.HOST_CHIRP? {
      var k := ListenRun(r1, ins[1..]);
      n := k + 1;
      forall m | 0 < m <= n ensures Run(r, ins[..m]) == Run(r1, ins[1..][..m - 1]) {
        assert ins[..m][0] == ins[0] && ins[..m][1..] == ins[1..][..m - 1];
      }
    }
  }

  lemma ListeningLeft(r: Reg, h: History)
    requires Follows(r, h) && r.state.HOST_CHIRP?
    ensures Wired(r) && Left1200(r) <= LISTEN_MAX
  {
    hide Wired, Alternate, Left;
  }

  // Whatever the host does, a connected device that listens has decided for high speed or
  // for full speed after at most 119 * 600 + 1 clocks.
  lemma HostChirpEnds(ins: seq<In>, more: seq<In>) returns (n: nat)
    requires Run(INITIAL, ins).state.HOST_CHIRP? && StaysConnected(more) && |more| > LISTEN_MAX
    ensures 0 < n <= LISTEN_MAX + 1 && Decided(Run(INITIAL, ins + more[..n]))
    ensures forall m :: 0 <= m < n ==> Run(INITIAL, ins + more[..m]).state.HOST_CHIRP?
  {
    hide Run, RunHistory, Next, Track, Listening, Left1200;
    var r, h := Run(INITIAL, ins), History([], [], 0);
    FollowsRun(INITIAL, h, ins);
    ListeningLeft(r, RunHistory(h, INITIAL, ins));
    n := ListenRun(r, more);
    forall m | 0 <= m <= n ensures Run(INITIAL, ins + more[..m]) == Run(r, more[..m]) {
      RunConcat(INITIAL, ins, more[..m]);
    }
  }
}
