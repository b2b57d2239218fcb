// The line state the receiver reports: for any levels on the line, four samples each,
// it is that of the level, with the polarity of the speed.
module FslsRxLines {
  import opened Logic
  import opened LineCode
  import opened FslsRx
  import opened FslsRxProof
  import opened FslsRxPacket

  // Bit 0 is D+ and bit 1 is D-.
  function Pair(l: Level, isFs: bool): bv2 {
    match l
    case SE0 => 0
    case J => if isFs then 1 else 2
    case K => if isFs then 2 else 1
  }

  // The receiver after four equal samples: in step with them.
  predicate Steady(r: Reg) {
    && r.jk3 == r.jk2 == r.jk1 == r.jk0 && r.clkAdj == L
    && (r.state.RUN? || r.state.SYNC? ==> r.presc == 1)
    && (r.state.EOP? ==> r.presc >= 1)
    && (r.se0Lst == H ==> r.state.EOP? && r.jk3 == L)
  }

  // The level it has just seen.
  function Before(r: Reg): Level {
    if r.se0Lst == H then SE0 else LevelOf(r.jk3 == H)
  }

  lemma LevelSampled(r: Reg, l: Level)
    requires Steady(r)
    ensures var x := SampleOf(l);
            var r1 := Next(r, x); var r2 := Next(r1, x); var r3 := Next(r2, x); var r4 := Next(r3, x);
            Steady(r4) && Before(r4) == l
  {
  }

  // ---- the reported pair ----------------------------------------------------------------

  function TickLines(l: Lines, s: Sys, x: Sample, isFs: bool): Lines {
    NextLines(l, s.r, x, Edge(s), isFs)
  }

  function RunLines(l: Lines, s: Sys, xs: seq<Sample>, isFs: bool): Lines
    decreases xs
  {
    if xs == [] then l else RunLines(TickLines(l, s, xs[0], isFs), Tick(s, xs[0]), xs[1..], isFs)
  }

  // The sample, counted from 0, that sets the register: the second one, except that a K
  // which comes before the line has settled after a packet is sampled when its turn comes.
  function SetBy(r: Reg, v: Level): nat {
    if r.state.EOP? && v == K then r.presc else 1
  }

  // The register after k samples of a level.
  function After(r: Reg, v: Level, k: nat, isFs: bool): bv2 {
    if k > SetBy(r, v) then Pair(v, isFs) else Pair(Before(r), isFs)
  }

  lemma RegisterSampled(r: Reg, c: bv2, v: Level, isFs: bool)
    requires Steady(r) && c == Pair(Before(r), isFs)
    ensures var x := SampleOf(v);
            var r1 := Next(r, x); var r2 := Next(r1, x); var r3 := Next(r2, x);
            && (forall out, edge :: NextLines(Lines(c, out), r, x, edge, isFs).cur == After(r, v, 1, isFs))
            && (forall out, edge ::
                  NextLines(Lines(After(r, v, 1, isFs), out), r1, x, edge, isFs).cur == After(r, v, 2, isFs))
            && (forall out, edge ::
                  NextLines(Lines(After(r, v, 2, isFs), out), r2, x, edge, isFs).cur == After(r, v, 3, isFs))
            && (forall out, edge ::
                  NextLines(Lines(After(r, v, 3, isFs), out), r3, x, edge, isFs).cur == Pair(v, isFs))
  {
  }

  lemma {:induction false} RunLinesConcat(l: Lines, s: Sys, a: seq<Sample>, b: seq<Sample>, isFs: bool)
    ensures RunLines(l, s, a + b, isFs) == RunLines(RunLines(l, s, a, isFs), Run(s, a), b, isFs)
    decreases a
  {
    hide TickLines, Tick;
    if a == [] {
      assert a + b == b;
    } else {
      assert (a + b)[0] == a[0] && (a + b)[1..] == a[1..] + b;
      RunLinesConcat(TickLines(l, s, a[0], isFs), Tick(s, a[0]), a[1..], b, isFs);
    }
  }

  // One bit time: the register shows the level, and the output port, at its one edge,
  // the level or the one before.
  lemma LevelReported(l: Lines, s: Sys, v: Level, isFs: bool)
    requires Steady(s.r) && l.cur == Pair(Before(s.r), isFs)
    ensures var x, s' := SampleOf(v), Bit4(s, SampleOf(v));
            && Steady(s'.r) && Before(s'.r) == v && s'.phase == s.phase
            && RunLines(l, s, [x, x, x, x], isFs)
               == Lines(Pair(v, isFs), After(s.r, v, 3 - s.phase, isFs))
  {
    hide Steady, Before, Pair, Next, NextLines, SetBy;
    var x := SampleOf(v);
    var s1 := Tick(s, x); var s2 := Tick(s1, x); var s3 := Tick(s2, x);
    LevelSampled(s.r, v);
    RegisterSampled(s.r, l.cur, v, isFs);
    Bit4Ticks(s, x);
    EdgeCopies(l, s.r, x, Edge(s), isFs);
    var l1 := TickLines(l, s, x, isFs);
    EdgeCopies(l1, s1.r, x, Edge(s1), isFs);
    var l2 := TickLines(l1, s1, x, isFs);
    EdgeCopies(l2, s2.r, x, Edge(s2), isFs);
    var l3 := TickLines(l2, s2, x, isFs);
    EdgeCopies(l3, s3.r, x, Edge(s3), isFs);
    FourLines(l, s, x, isFs);
  }

  lemma EdgeCopies(l: Lines, r: Reg, x: Sample, edge: bool, isFs: bool)
    ensures NextLines(l, r, x, edge, isFs).out == if edge then l.cur else l.out
    ensures NextLines(l, r, x, edge, isFs).cur == NextLines(Lines(l.cur, l.out), r, x, edge, isFs).cur
  {
  }

  lemma FourLines(l: Lines, s: Sys, x: Sample, isFs: bool)
    ensures var s1 := Tick(s, x); var s2 := Tick(s1, x); var s3 := Tick(s2, x);
            var l1 := TickLines(l, s, x, isFs); var l2 := TickLines(l1, s1, x, isFs);
            var l3 := TickLines(l2, s2, x, isFs);
            RunLines(l, s, [x, x, x, x], isFs) == TickLines(l3, s3, x, isFs)
  {
    hide Tick, TickLines;
    var s1 := Tick(s, x); var s2 := Tick(s1, x); var s3 := Tick(s2, x);
    var l1 := TickLines(l, s, x, isFs); var l2 := TickLines(l1, s1, x, isFs); var l3 := TickLines(l2, s2, x, isFs);
    assert [x, x, x, x][1..] == [x, x, x] && [x, x, x][1..] == [x, x] && [x, x][1..] == [x] && [x][1..] == [];
    assert RunLines(l, s, [x, x, x, x], isFs) == RunLines(l1, s1, [x, x, x], isFs) == RunLines(l2, s2, [x, x], isFs)
        == RunLines(l3, s3, [x], isFs);
  }

  // The theorem: for any levels, four samples each, the register shows the last level, and
  // the output port the one it showed at its latest edge: the last level for the phases 0
  // and 1 of the output clock, the one before for 2 and 3, where a K that comes before the
  // line has settled may take a sample or two longer.
  lemma {:induction false} LinesReported(l: Lines, s: Sys, ls: seq<Level>, v: Level, isFs: bool)
    requires Steady(s.r) && l.cur == Pair(Before(s.r), isFs)
    ensures var xs := Samples(ls); var s', l' := Run(s, xs), RunLines(l, s, xs, isFs);
            && Steady(s'.r) && s'.phase == s.phase && l'.cur == Pair(Before(s'.r), isFs)
            && Before(s'.r) == (if ls == [] then Before(s.r) else ls[|ls| - 1])
            && RunLines(l', s', Samples([v]), isFs).cur == Pair(v, isFs)
            && RunLines(l', s', Samples([v]), isFs).out ==
               (if 3 - s.phase > (if s'.r.state.EOP? && v == K then s'.r.presc else 1) then Pair(v, isFs)
                else Pair(Before(s'.r), isFs))
    decreases ls
  {
    hide Tick, TickLines, Steady, Before, Pair;
    if ls == [] {
      LevelReported(l, s, v, isFs);
      OneLevel(v);
    } else {
      var x := SampleOf(ls[0]);
      LevelReported(l, s, ls[0], isFs);
      LinesReported(RunLines(l, s, [x, x, x, x], isFs), Bit4(s, x), ls[1..], v, isFs);
      RunLinesConcat(l, s, [x, x, x, x], Samples(ls[1..]), isFs);
      Four(s, x, Samples(ls[1..]));
    }
  }

  lemma OneLevel(v: Level)
    ensures var x := SampleOf(v); Samples([v]) == [x, x, x, x]
  {
    assert [v][1..] == [];
    assert Samples([]) == [];
  }

  // During the sync pattern every sampled level is shown at once.
  lemma SyncReported(l: Lines, r: Reg, v: Level, edge: bool, isFs: bool)
    requires r.state.SYNC? && r.presc == 0 && v != SE0
    ensures NextLines(l, r, SampleOf(v), edge, isFs).cur == Pair(v, isFs)
  {
  }

  // The line at rest before any packet: J, and from power-up after one bit time of it.
  lemma ReadyReportsJ(s: Sys)
    requires Ready(s)
    ensures Steady(s.r) && Before(s.r) == J
  {
  }

  lemma PowerUpReportsJ(o: Out, phase: U2, isFs: bool)
    ensures var s := Sys(REG_INIT, BUF_INIT, o, phase);
            var l' := RunLines(Lines(LINE_INIT, LINE_INIT), s, Samples([J]), isFs);
            Steady(Run(s, Samples([J])).r) && l'.cur == Pair(J, isFs)
  {
    var s := Sys(REG_INIT, BUF_INIT, o, phase);
    var x := SampleOf(J);
    OneLevel(J);
    FourLines(Lines(LINE_INIT, LINE_INIT), s, x, isFs);
    Bit4Ticks(s, x);
    hide Run, RunLines, Samples;
  }
}
