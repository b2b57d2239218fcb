// Clock recovery: the receiver follows a line whose edges come up to one sample early or
// late, and takes exactly the bits that were sent.  Its resets.
module FslsRxDrift {
  import opened Logic
  import opened LineCode
  import opened FslsRx
  import opened FslsRxProof

  // ---- the bits that are sampled ---------------------------------------------------------

  function RunReg(r: Reg, xs: seq<Sample>): Reg
    decreases xs
  {
    if xs == [] then r else RunReg(Next(r, xs[0]), xs[1..])
  }

  // The sampling register's own run is that of the whole entity.
  lemma {:induction false} RunRegIs(s: Sys, xs: seq<Sample>)
    ensures Run(s, xs).r == RunReg(s.r, xs)
    decreases xs
  {
    hide Next;
    if xs != [] {
      RunRegIs(Tick(s, xs[0]), xs[1..]);
    }
  }

  // True for a one, at every sample that is taken for a bit.
  function BitsTaken(r: Reg, xs: seq<Sample>): seq<bool>
    decreases xs
  {
    if xs == [] then []
    else (if Sampling(r) then [IsOne(r, xs[0])] else []) + BitsTaken(Next(r, xs[0]), xs[1..])
  }

  predicate NeverLost(r: Reg, xs: seq<Sample>)
    decreases xs
  {
    xs == [] || (!LostStep(r, xs[0]) && NeverLost(Next(r, xs[0]), xs[1..]))
  }

  function Held(j: Bit, n: nat): (xs: seq<Sample>)
    ensures |xs| == n
  {
    if n == 0 then [] else [Sample(j, L)] + Held(j, n - 1)
  }

  function AllOnes(n: nat): (s: seq<bool>)
    ensures |s| == n && forall i :: 0 <= i < n ==> s[i]
  {
    if n == 0 then [] else [true] + AllOnes(n - 1)
  }

  // ---- in the middle of a level --------------------------------------------------------------

  // Samples before the next one that is taken for a bit.
  function Due(r: Reg): nat {
    r.presc + (if r.clkAdj == H then 1 else 0)
  }

  // w samples of level j are past, the first of which has been taken for a bit.
  predicate Inside(r: Reg, j: Bit, w: nat) {
    && r.state.RUN? && w >= 1 && r.jk3 == j && (w >= 2 ==> r.jk2 == j) && (w >= 3 ==> r.jk1 == j)
    && (w >= 4 ==> r.jk0 == j) && w + Due(r) >= 5 && (r.clkAdj == H ==> r.presc == 3)
  }

  lemma InsideStep(r: Reg, j: Bit, w: nat)
    requires Inside(r, j, w)
    ensures var x := Sample(j, L); var r' := Next(r, x);
            && Inside(r', j, w + 1) && !LostStep(r, x) && r'.clkAdj == L
            && if Sampling(r) && r.clkAdj == L then IsOne(r, x) && Due(r') == 3
               else !Sampling(r) && Due(r') == Due(r) - 1
  {
    hide SampledErr, TakenSR, Counted, NextNstuff;
  }

  // Further samples of the level give a one for every four of them.
  lemma {:induction false} InsideRun(r: Reg, j: Bit, w: nat, n: nat) returns (k: nat)
    requires Inside(r, j, w)
    ensures Inside(RunReg(r, Held(j, n)), j, w + n) && NeverLost(r, Held(j, n))
    ensures BitsTaken(r, Held(j, n)) == AllOnes(k)
    ensures Due(RunReg(r, Held(j, n))) + n == Due(r) + 4 * k
    ensures n > 0 ==> RunReg(r, Held(j, n)).clkAdj == L && Due(RunReg(r, Held(j, n))) <= 3
    decreases n
  {
    hide Next, Inside, Due, Sampling, LostStep, IsOne;
    k := 0;
    if n > 0 {
      var x := Sample(j, L);
      assert Held(j, n)[0] == x && Held(j, n)[1..] == Held(j, n - 1);
      InsideStep(r, j, w);
      var m := InsideRun(Next(r, x), j, w + 1, n - 1);
      DueIs(r);
      DueIs(Next(r, x));
      k := if Sampling(r) then m + 1 else m;
      assert n == 1 ==> RunReg(Next(r, x), Held(j, 0)) == Next(r, x);
    }
  }

  lemma DueIs(r: Reg)
    ensures r.clkAdj == L ==> (Sampling(r) <==> Due(r) == 0) && Due(r) <= 3
    ensures r.clkAdj == H && r.presc == 3 ==> !Sampling(r) && Due(r) == 4
    ensures Sampling(r) ==> r.presc == 0
  {
  }

  // ---- at the beginning of a level -------------------------------------------------------------

  function Shown(changed: bool, was: Bit): Bit {
    if changed then Not(was) else was
  }

  // w samples of the new level are past and d more come before the one that is taken.
  predicate Coming(r: Reg, was: Bit, w: nat, d: nat) {
    && r.state.RUN? && r.clkAdj == L && r.presc == d && w + d <= 3
    && r.jk3 == Shown(w >= 1, was) && r.jk2 == Shown(w >= 2, was) && r.jk1 == Shown(w >= 3, was)
    && (w + d == 0 || w >= 1 ==> r.jk0 == was)
  }

  lemma ComingStep(r: Reg, was: Bit, w: nat, d: nat)
    requires Coming(r, was, w, d)
    ensures var x := Sample(Not(was), L); var r' := Next(r, x);
            && !LostStep(r, x)
            && if d > 0 then !Sampling(r) && Coming(r', was, w + 1, d - 1)
               else Sampling(r) && !IsOne(r, x) && Inside(r', Not(was), w + 1)
                    && Due(r') == (if w == 0 then 4 else if w == 3 then 2 else 3) && (r'.clkAdj == H <==> w == 0)
  {
    hide SampledErr, TakenSR, Counted, NextNstuff;
  }

  lemma {:induction false} ComingRun(r: Reg, was: Bit, w: nat, d: nat)
    requires Coming(r, was, w, d)
    ensures var xs := Held(Not(was), d + 1); var r' := RunReg(r, xs);
            && Inside(r', Not(was), w + d + 1) && NeverLost(r, xs) && BitsTaken(r, xs) == [false]
            && Due(r') == (if w + d == 0 then 4 else if w + d == 3 then 2 else 3) && (r'.clkAdj == H <==> w + d == 0)
    decreases d
  {
    hide Next, Inside, Coming, Due, Sampling, LostStep, IsOne;
    var x, xs := Sample(Not(was), L), Held(Not(was), d + 1);
    assert xs[0] == x && xs[1..] == Held(Not(was), d);
    ComingStep(r, was, w, d);
    if d > 0 {
      ComingRun(Next(r, x), was, w + 1, d - 1);
    } else {
      assert RunReg(Next(r, x), Held(Not(was), 0)) == Next(r, x);
    }
  }

  // ---- a whole level -----------------------------------------------------------------------------

  // The line is about to leave `was`; the bit after the edge will be taken at sample p.
  predicate AtEdge(r: Reg, was: Bit, p: nat) {
    1 <= p <= 4 && Coming(r, was, 0, p - 1)
  }

  lemma {:induction false} HeldSplit(j: Bit, a: nat, b: nat)
    ensures Held(j, a + b) == Held(j, a) + Held(j, b)
    decreases a
  {
    if a > 0 {
      HeldSplit(j, a - 1, b);
    }
  }

  lemma {:induction false} RunSplit(r: Reg, a: seq<Sample>, b: seq<Sample>)
    ensures RunReg(r, a + b) == RunReg(RunReg(r, a), b)
    ensures BitsTaken(r, a + b) == BitsTaken(r, a) + BitsTaken(RunReg(r, a), b)
    ensures NeverLost(r, a + b) <==> NeverLost(r, a) && NeverLost(RunReg(r, a), b)
    decreases a
  {
    hide Next, Sampling, IsOne, LostStep;
    if a == [] {
      assert a + b == b;
    } else {
      assert (a + b)[0] == a[0] && (a + b)[1..] == a[1..] + b;
      RunSplit(Next(r, a[0]), a[1..], b);
    }
  }

  lemma EdgeComes(r: Reg, j: Bit, w: nat)
    requires Inside(r, j, w) && w >= 3 && r.clkAdj == L && (Due(r) == 0 ==> w >= 4)
    ensures Due(r) <= 3 && Coming(r, j, 0, Due(r))
  {
  }

  // A level of m bits that lasts four samples a bit, or one less or more: its first bit is
  // taken for a zero and the others for ones, and the receiver does not lose step.  It must
  // not be over before its first bit is taken.
  lemma LevelTaken(r: Reg, was: Bit, p: nat, m: nat, n: nat) returns (p': nat)
    requires AtEdge(r, was, p) && m >= 1 && 4 * m - 1 <= n <= 4 * m + 1 && p <= n
    ensures var xs := Held(Not(was), n);
            && BitsTaken(r, xs) == [false] + AllOnes(m - 1) && NeverLost(r, xs)
            && AtEdge(RunReg(r, xs), Not(was), p') && (p' == 4 ==> n == 4 * m - 1)
  {
    hide Next, Sampling, IsOne, LostStep, Inside, Coming, Due, NeverLost, BitsTaken, RunReg;
    var j := Not(was);
    ComingRun(r, was, 0, p - 1);
    var r1 := RunReg(r, Held(j, p));
    var k := InsideRun(r1, j, p, n - p);
    HeldSplit(j, p, n - p);
    RunSplit(r, Held(j, p), Held(j, n - p));
    var r2 := RunReg(r1, Held(j, n - p));
    if n == p {
      Stays(r1);
    }
    DueIs(r2);
    assert Due(r2) + n == Due(r1) + p + 4 * k;
    assert k == m - 1;
    EdgeComes(r2, j, n);
    p' := Due(r2) + 1;
  }

  lemma Stays(r: Reg)
    ensures RunReg(r, Held(L, 0)) == r && RunReg(r, Held(H, 0)) == r
  {
  }

  // ---- a whole line ----------------------------------------------------------------------------

  // A level that lasts for `bits` bit times and `samples` samples.
  datatype Stretch = Stretch(bits: nat, samples: nat)

  // Every level is at most one sample too short or too long, and a single bit is not too
  // short behind a level that was.
  predicate Tolerable(line: seq<Stretch>, short: bool)
    decreases line
  {
    line == [] ||
    (var l := line[0];
     && l.bits >= 1 && 4 * l.bits - 1 <= l.samples <= 4 * l.bits + 1 && (short ==> l.samples >= 4)
     && Tolerable(line[1..], l.samples < 4 * l.bits))
  }

  // Levels change from one stretch to the next.
  function Sampled(line: seq<Stretch>, was: Bit): seq<Sample>
    decreases line
  {
    if line == [] then [] else Held(Not(was), line[0].samples) + Sampled(line[1..], Not(was))
  }

  // NRZI: a change is a zero, each further bit time without one a one.
  function Meant(line: seq<Stretch>): seq<bool> {
    if line == [] then [] else ([false] + AllOnes(if line[0].bits == 0 then 0 else line[0].bits - 1)) + Meant(line[1..])
  }

  // The theorem: on any such line, from any place of the sampling point, exactly the bits
  // that were sent are taken, and the receiver stays in step.
  lemma {:induction false} DriftFollowed(r: Reg, was: Bit, p: nat, line: seq<Stretch>) returns (p': nat)
    requires AtEdge(r, was, p) && Tolerable(line, p == 4)
    ensures BitsTaken(r, Sampled(line, was)) == Meant(line) && NeverLost(r, Sampled(line, was))
    ensures AtEdge(RunReg(r, Sampled(line, was)), if |line| % 2 == 0 then was else Not(was), p')
    decreases line
  {
    hide AtEdge, NeverLost, BitsTaken, RunReg, Held, AllOnes;
    p' := p;
    if line == [] {
      NoSamples(r);
    } else {
      var l, rest := line[0], line[1..];
      var j := Not(was);
      EdgeBounds(r, was, p);
      var q := LevelTaken(r, was, p, l.bits, l.samples);
      var r1 := RunReg(r, Held(j, l.samples));
      Weaker(rest, l.samples < 4 * l.bits, q == 4);
      p' := DriftFollowed(r1, j, q, rest);
      RunSplit(r, Held(j, l.samples), Sampled(rest, j));
    }
  }

  lemma NoSamples(r: Reg)
    ensures RunReg(r, []) == r && BitsTaken(r, []) == [] && NeverLost(r, [])
  {
  }

  lemma EdgeBounds(r: Reg, was: Bit, p: nat)
    requires AtEdge(r, was, p)
    ensures 1 <= p <= 4
  {
  }

  lemma Weaker(line: seq<Stretch>, a: bool, b: bool)
    requires Tolerable(line, a) && (b ==> a)
    ensures Tolerable(line, b)
  {
  }

  // ---- losing step --------------------------------------------------------------------------------

  // Any other pattern of samples around a sampling point is flagged, and the flag stays
  // until the line is at rest again.
  lemma SyncLost(r: Reg, x: Sample)
    requires r.state.RUN? && Sampling(r)
    ensures var a, b, c, d := x.j, r.jk3, r.jk1, r.jk0;
            (a == b == c == d || (a == b && b != c && c == d) || (a != b && b == c == d) || (a == b == c && c != d))
            <==> !LostStep(r, x)
    ensures LostStep(r, x) ==> Next(r, x).err == H && Next(r, x).nbits == 0
    ensures r.err == H ==> Next(r, x).err == H
  {
    hide TakenSR, NextNstuff;
  }

  // ---- what the states wait for ------------------------------------------------------------------

  // The shift register holds the last four samples.
  lemma LastSamples(r: Reg, a: Sample, b: Sample, c: Sample, d: Sample)
    ensures var q := RunReg(r, [a, b, c, d]);
            q.jk0 == a.j && q.jk1 == b.j && q.jk2 == c.j && q.jk3 == d.j && q.se0Lst == d.se0
  {
    hide NextState, NextPresc, NextNstuff, NextNbits, NextErr, NextActive, TakenSR, TooFast;
    assert [a, b, c, d][1..] == [b, c, d] && [b, c, d][1..] == [c, d] && [c, d][1..] == [d] && [d][1..] == [];
    var q1 := Next(r, a); var q2 := Next(q1, b); var q3 := Next(q2, c);
    assert RunReg(r, [a, b, c, d]) == RunReg(q1, [b, c, d]) == RunReg(q2, [c, d]) == RunReg(q3, [d]);
  }

  // With the last four samples a, b, c, d and the next one e: two SE0 in a row end
  // everything; otherwise a packet begins at K K ? J J, is acquired at K K ? K K on a
  // sampling point, and the line is at rest after four J.
  lemma StateChanges(r: Reg, a: Sample, b: Sample, c: Sample, d: Sample, e: Sample)
    ensures var q := RunReg(r, [a, b, c, d]);
            Next(q, e).state == if d.se0 == H && e.se0 == H then EOP
                                else match q.state
                                  case IDLE => if a.j == L && b.j == L && d.j == H && e.j == H then SYNC else IDLE
                                  case SYNC =>
                                    if a.j == L && b.j == L && d.j == L && e.j == L && q.presc == 0 then RUN else SYNC
                                  case RUN => RUN
                                  case EOP =>
                                    if b.j == H && c.j == H && d.j == H && e.j == H && d.se0 == L && e.se0 == L
                                    then IDLE else EOP
  {
    LastSamples(r, a, b, c, d);
    hide RunReg, NextPresc, NextNstuff, NextNbits, NextErr, NextActive, TakenSR, TooFast;
  }

  // `err` rises for a seventh one, or in a packet for a lost step, and for nothing else.
  lemma ErrorRises(r: Reg, x: Sample)
    ensures r.err == L && Next(r, x).err == H ==>
              r.presc == 0 && ((x.j == r.jk0 && r.nstuff >= 8) || (r.state.RUN? && LostStep(r, x)))
    ensures !r.state.RUN? ==> Next(r, x).clkAdj == L && !LostStep(r, x)
    ensures r.state.SYNC? && r.clkAdj == L ==> Next(r, x).presc == (r.presc + 3) % 4
  {
    hide TakenSR, NextNstuff, Counted;
  }

  predicate ActiveInRun(r: Reg) {
    r.active == H <==> r.state.RUN?
  }

  // In every reachable state the receiver is active exactly in RUN.
  lemma {:induction false} ActiveExactlyInRun(r: Reg, xs: seq<Sample>)
    requires ActiveInRun(r)
    ensures ActiveInRun(RunReg(r, xs)) && ActiveInRun(REG_INIT)
    decreases xs
  {
    if xs != [] {
      ActiveExactlyInRun(Next(r, xs[0]), xs[1..]);
    }
  }

  // A byte that waits in the buffer is not overwritten.
  lemma BufferKept(b: Buf, sampling: bool, sr: bv8, completes: bool, ack: Bit)
    ensures b.outVld == H ==> NextBuf(b, sampling, sr, completes, ack).outReg == b.outReg
    ensures b.outVld == H && ack == L ==> NextBuf(b, sampling, sr, completes, ack).outVld == H
  {
  }

  // ---- resets -------------------------------------------------------------------------------------

  // The reset of the sampling side starts it anew, without a byte in the buffer and hunting
  // for a line at rest; that of the output side takes its flags down at its next edge.
  lemma ResetsActAlone(s: Sys, x: Sample)
    ensures Clocked(s, x, L, L) == Tick(s, x)
    ensures var t := Clocked(s, x, H, L);
            t.r.state.EOP? && t.r.active == L && t.r.err == L && t.b.outVld == L && t.o == Tick(s, x).o
    ensures var t := Clocked(s, x, L, H);
            && t.r == Tick(s, x).r && t.b == Tick(s, x).b && t.phase == Tick(s, x).phase
            && (if s.phase == 3 then t.o.outAck == L && t.o.rxAct == L && t.o.err == s.r.err && t.o.data == s.o.data
                else t.o == s.o)
  {
    hide Next, NextBuf, Completes;
  }

  // Before it has seen a J the receiver takes nothing for a packet.
  lemma {:induction false} HuntsForJ(r: Reg, xs: seq<Sample>)
    requires r.state.EOP? && r.active == L && forall k :: 0 <= k < |xs| ==> xs[k].j == L
    ensures RunReg(r, xs).state.EOP? && RunReg(r, xs).active == L
    decreases xs
  {
    if xs != [] {
      HuntsForJ(Next(r, xs[0]), xs[1..]);
    }
  }

  lemma PowerUpHunts()
    ensures REG_INIT.state.EOP? && REG_INIT.active == L && REG_INIT.err == L && BUF_INIT.outVld == L
    ensures OUT_INIT.outAck == L && OUT_INIT.rxAct == L && OUT_INIT.err == L && OUT_INIT.data == 0
  {
  }
}
