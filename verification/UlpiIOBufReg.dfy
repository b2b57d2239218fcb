// Register operations, aborts and the receive side of the output buffer.
module UlpiIOBufReg {
  import opened Logic
  import opened UlpiIOBuf
  import opened UlpiIOBufProof

  // ---- register operations -----------------------------------------------------------

  // Bytes under way, the cycle after the last one, or rest.
  datatype RegPhase = Sending(pend: seq<bv8>) | Closing | Rested

  // The link owns the bus for a register operation, a write if `gen`, and has no more
  // bytes to offer.
  predicate RegCycle(i: In, gen: Bit) {
    Linked(i) && i.regOpr == H && i.genStp == gen && i.txVld == L
  }

  predicate AllReg(ins: seq<In>, gen: Bit) {
    forall k :: 0 <= k < |ins| ==> RegCycle(ins[k], gen)
  }

  predicate RegAt(r: Reg, ph: RegPhase, gen: Bit) {
    match ph
    case Sending(pend) => At(r, Holding(pend), L)
    case Closing =>
      && r.dir == L && r.douVld == L && r.bufVld == L && r.dou == 0 && r.txBsy == H
      && r.sta == gen && r.stp == gen
    case Rested => At(r, Idle, L)
  }

  function RegMove(ph: RegPhase, i: In): RegPhase {
    match ph
    case Sending(pend) =>
      if i.ib.nxt == L || pend == [] then ph else if |pend| == 1 then Closing else Sending(pend[1..])
    case _ => Rested
  }

  // A write ends in a stop cycle without data, a read does not.
  function RegStop(gen: Bit): seq<Event> {
    if gen == H then [Stop(0)] else []
  }

  function RegLeft(ph: RegPhase, gen: Bit): seq<Event> {
    match ph
    case Sending(pend) => Datas(pend) + RegStop(gen)
    case Closing => RegStop(gen)
    case Rested => []
  }

  function RegDonesLeft(ph: RegPhase): nat {
    if ph.Rested? then 0 else 1
  }

  lemma RegStep(r: Reg, ph: RegPhase, i: In, gen: Bit)
    requires RegAt(r, ph, gen) && RegCycle(i, gen)
    ensures RegAt(Next(r, i), RegMove(ph, i), gen)
    ensures TxErr(r) == L && (TxDon(r) == H <==> ph.Closing?)
    ensures Seen(r, i) == match ph
                          case Sending(pend) => (if i.ib.nxt == H && pend != [] then [Data(pend[0])] else [])
                          case Closing => RegStop(gen)
                          case Rested => []
  {
    if ph.Sending? {
      SendingStep(r, ph.pend, i, gen);
    }
  }

  lemma SendingStep(r: Reg, pend: seq<bv8>, i: In, gen: Bit)
    requires At(r, Holding(pend), L) && RegCycle(i, gen)
    ensures RegAt(Next(r, i), RegMove(Sending(pend), i), gen)
    ensures TxErr(r) == L && TxDon(r) == L && pend != []
    ensures Seen(r, i) == if i.ib.nxt == H then [Data(pend[0])] else []
  {
    HoldingSome(r, pend, L);
    if !Empties(pend, i) {
      HoldingCycle(r, pend, i, L);
      hide Next, At, TxDon, TxErr, Seen;
      assert pend + [] == pend && pend[1..] + [] == pend[1..];
    }
  }

  function RegMoves(ph: RegPhase, ins: seq<In>): RegPhase
    decreases ins
  {
    if ins == [] then ph else RegMoves(RegMove(ph, ins[0]), ins[1..])
  }

  lemma RegLeftStep(r: Reg, ph: RegPhase, i: In, gen: Bit)
    requires RegAt(r, ph, gen) && RegCycle(i, gen)
    ensures RegLeft(ph, gen) == Seen(r, i) + RegLeft(RegMove(ph, i), gen)
    ensures RegDonesLeft(ph) == (if TxDon(r) == H then 1 else 0) + RegDonesLeft(RegMove(ph, i))
  {
    RegStep(r, ph, i, gen);
    if ph.Sending? {
      SendingStep(r, ph.pend, i, gen);
      hide Next, At, TxDon, TxErr, Seen;
      assert Datas([]) == [];
    }
  }

  lemma {:induction false} RegDraining(r: Reg, ph: RegPhase, ins: seq<In>, gen: Bit)
    requires RegAt(r, ph, gen) && AllReg(ins, gen)
    ensures RegAt(Run(r, ins), RegMoves(ph, ins), gen)
    ensures Events(r, ins) + RegLeft(RegMoves(ph, ins), gen) == RegLeft(ph, gen)
    ensures Dones(r, ins) + RegDonesLeft(RegMoves(ph, ins)) == RegDonesLeft(ph)
    ensures NoErrors(r, ins) && Accepted(r, ins) == []
    decreases ins
  {
    hide Next, RegAt, Seen, TxDon, TxErr, TxRdy, RegLeft, RegDonesLeft, RegMove, Linked;
    if ins != [] {
      var i, rest := ins[0], ins[1..];
      RegStep(r, ph, i, gen);
      RegLeftStep(r, ph, i, gen);
      RegDraining(Next(r, i), RegMove(ph, i), rest, gen);
      Regroup(Seen(r, i), Events(Next(r, i), rest), RegLeft(RegMoves(RegMove(ph, i), rest), gen));
    }
  }

  lemma {:induction false} RegDrainsSoon(ph: RegPhase, ins: seq<In>, last: In)
    requires ph.Sending? ==> 1 <= |ph.pend| <= Pulses(ins)
    ensures RegMoves(ph, ins + [last]) == Rested
    decreases ins
  {
    var all := ins + [last];
    if ins == [] {
      assert all == [last] && all[1..] == [];
      assert RegMoves(ph, all) == RegMoves(RegMove(ph, last), []);
    } else {
      assert all[0] == ins[0] && all[1..] == ins[1..] + [last];
      RegDrainsSoon(RegMove(ph, ins[0]), ins[1..], last);
    }
  }

  // A register operation: the bytes are offered without a gap (`first` and `more`), then
  // the link waits (`rest`).  At every moment the PHY has seen a beginning of: the
  // accepted bytes in order and then, for a write, one stop cycle with data 0, for a
  // read none.  It is reported done once, never in error; two pulses of `nxt` and one
  // more cycle are always enough.
  lemma RegisterLeaves(r: Reg, first: In, more: seq<In>, rest: seq<In>, gen: Bit) returns (ph: RegPhase)
    requires At(r, Idle, L) && first.txVld == H && Linked(first)
    requires AllOffer(more) && AllReg(rest, gen)
    ensures var offer, r1 := [first] + more, Run(r, [first] + more);
            && RegAt(Run(r1, rest), ph, gen)
            && Events(r, offer) + Events(r1, rest) + RegLeft(ph, gen)
               == Datas(Accepted(r, offer)) + (if gen == H then [Stop(0)] else [])
            && Accepted(r, offer) != [] && Accepted(r1, rest) == []
            && Dones(r, offer) + Dones(r1, rest) == (if ph.Rested? then 1 else 0)
            && NoErrors(r, offer) && NoErrors(r1, rest)
    ensures rest != [] && Pulses(rest[..|rest| - 1]) >= 2 ==> ph == Rested
  {
    hide Next, At, Seen, TxDon, TxErr, TxRdy, Fill, Events, Accepted, Run, Dones, RegMoves, NoErrors, Pulses, Datas,
      Linked;
    FirstByte(r, first, more, L);
    var r0 := Next(r, first);
    var pend := Filling(r0, [first.txDat], more, L);
    var r1 := Run(r0, more);
    HoldingSome(r1, pend, L);
    RegDraining(r1, Sending(pend), rest, gen);
    ph := RegMoves(Sending(pend), rest);
    var ev0, ev1 := Events(r0, more), Events(r1, rest);
    Regroup(ev0, ev1, RegLeft(ph, gen));
    Regroup(ev0, Datas(pend), RegStop(gen));
    if rest != [] && Pulses(rest[..|rest| - 1]) >= 2 {
      var n := |rest| - 1;
      assert rest == rest[..n] + [rest[n]];
      RegDrainsSoon(Sending(pend), rest[..n], rest[n]);
    }
  }

  // ---- aborts --------------------------------------------------------------------------

  // The PHY takes the bus (`take`) while bytes are pending.  That is an abort if and only if
  // it had accepted a byte before or accepts one in that very cycle; it is then reported
  // once, with an error, in the next cycle, and nothing is left under way.  Otherwise it was
  // a mere RXCMD and the bytes stay.
  lemma BusTaken(r: Reg, pend: seq<bv8>, take: In, i: In, sta: Bit)
    requires At(r, Holding(pend), sta) && take.ib.dir == H && take.regOpr == L && take.txVld == L && take.frcStp == L
    ensures var r1 := Next(r, take); var r2 := Next(r1, i);
            && TxDon(r) == L && TxErr(r) == L
            && (TxErr(r1) == H <==> r.txBsy == H || take.ib.nxt == H)
            && (TxErr(r1) == H ==> TxDon(r1) == H && TxDon(r2) == L && TxErr(r2) == L
                                   && r2.douVld == L && r2.bufVld == L && r2.dou == 0 && r2.stp == L && r2.txBsy == L)
            && (TxErr(r1) == L ==> TxDon(r1) == L && r1.dou == r.dou && r1.buf == r.buf
                                   && r1.douVld == H && r1.bufVld == r.bufVld && r1.stp == L)
  {
    hide Fill;
  }

  predicate AnyNxt(ins: seq<In>) {
    exists k :: 0 <= k < |ins| && ins[k].ib.nxt == H
  }

  predicate AllOfPacket(ins: seq<In>) {
    forall k :: 0 <= k < |ins| ==> Linked(ins[k]) && ins[k].regOpr == L && (ins[k].txVld == H || ins[k].ib.nxt == L)
  }

  // ... and the PHY has accepted a byte of a packet if and only if it has pulsed `nxt` since
  // the packet's first byte was offered.
  lemma {:induction false} AcceptedBefore(r: Reg, pend: seq<bv8>, ins: seq<In>, sta: Bit) returns (pend': seq<bv8>)
    requires At(r, Holding(pend), sta) && AllOfPacket(ins)
    ensures At(Run(r, ins), Holding(pend'), sta)
    ensures Run(r, ins).txBsy == H <==> r.txBsy == H || AnyNxt(ins)
    decreases ins
  {
    hide Next, At, TxDon, TxErr, Seen;
    pend' := pend;
    if ins != [] {
      HoldingCycle(r, pend, ins[0], sta);
      BusyStep(r, pend, ins[0], sta);
      var next := Move(Holding(pend), ins[0]).pend;
      pend' := AcceptedBefore(Next(r, ins[0]), next, ins[1..], sta);
      AnyNxtStep(ins);
    }
  }

  lemma BusyStep(r: Reg, pend: seq<bv8>, i: In, sta: Bit)
    requires At(r, Holding(pend), sta) && Linked(i) && i.regOpr == L && !Empties(pend, i)
    ensures Next(r, i).txBsy == H <==> r.txBsy == H || i.ib.nxt == H
    ensures Move(Holding(pend), i).Holding?
  {
    hide NextDou, NextDouVld, NextBufVld, NextSta, NextStp;
    HoldingSome(r, pend, sta);
  }

  lemma AnyNxtStep(ins: seq<In>)
    requires ins != []
    ensures AnyNxt(ins) <==> ins[0].ib.nxt == H || AnyNxt(ins[1..])
  {
    if AnyNxt(ins[1..]) {
      var k :| 0 <= k < |ins[1..]| && ins[1..][k].ib.nxt == H;
      assert ins[k + 1].ib.nxt == H;
    }
    if AnyNxt(ins) && ins[0].ib.nxt == L {
      var k :| 0 <= k < |ins| && ins[k].ib.nxt == H;
      assert ins[1..][k - 1].ib.nxt == H;
    }
  }

  // At first none is accepted.
  lemma NoneAccepted(r: Reg, first: In, sta: Bit)
    requires At(r, Idle, sta) && Linked(first) && first.txVld == H
    ensures At(Next(r, first), Holding([first.txDat]), sta) && Next(r, first).txBsy == L
  {
  }

  // A first byte that meets the PHY's taking the bus for a status byte is kept back: no
  // abort, also for a register operation, for as long as the PHY keeps the bus.
  lemma StartMissed(r: Reg, first: In, ins: seq<In>, sta: Bit)
    requires At(r, Idle, sta) && first.txVld == H && first.ib.dir == H && first.ib.nxt == L && first.frcStp == L
    requires forall k :: 0 <= k < |ins| ==>
               ins[k].ib.dir == H && ins[k].ib.nxt == L && ins[k].txVld == L && ins[k].frcStp == L
    ensures var r' := Run(Next(r, first), ins);
            TxErr(r') == L && TxDon(r') == L && r'.douVld == H && r'.dou == first.txDat && r'.txBsy == L
  {
    hide Run, Fill;
    Missed(Next(r, first), ins, first.txDat);
  }

  lemma {:induction false} Missed(r: Reg, ins: seq<In>, b: bv8)
    requires r.dir == H && r.nxt == L && r.douVld == H && r.dou == b && r.txBsy == L && r.sta == L
    requires forall k :: 0 <= k < |ins| ==>
               ins[k].ib.dir == H && ins[k].ib.nxt == L && ins[k].txVld == L && ins[k].frcStp == L
    ensures var r' := Run(r, ins);
            TxErr(r') == L && TxDon(r') == L && r'.douVld == H && r'.dou == b && r'.txBsy == L
    decreases ins
  {
    if ins != [] {
      Missed(Next(r, ins[0]), ins[1..], b);
    }
  }

  // A register operation counts as begun as soon as it has been on the bus for a cycle:
  // unlike a packet it is aborted by any takeover from then on, accepted or not.
  lemma RegisterPreempted(r: Reg, pend: seq<bv8>, i: In, take: In, sta: Bit)
    requires At(r, Holding(pend), sta) && Linked(i) && i.regOpr == H && i.txVld == L && i.ib.nxt == L
    requires take.ib.dir == H && take.regOpr == H && take.txVld == L && take.frcStp == L
    ensures var r' := Next(Next(r, i), take); TxErr(r') == H && TxDon(r') == H
  {
    hide Fill;
  }

  // ---- what the link sees of the bus ---------------------------------------------------------

  // The bus one clock late, and a turn-around whenever its direction has just changed.
  lemma BusRegistered(ins: seq<In>, a: In, b: In)
    ensures var r := Next(Next(Run(INIT, ins), a), b);
            && r.din == b.ib.dat && r.dir == b.ib.dir && r.nxt == b.ib.nxt && r.stpI == b.ib.stp
            && (r.trn == H <==> a.ib.dir != b.ib.dir)
  {
    hide Run, NextDou, NextDouVld, NextBufVld, NextTxBsy, NextSta, NextStp;
  }

  // A stop can be forced while nothing else is sent.
  lemma StopForced(r: Reg, i: In, sta: Bit)
    requires At(r, Idle, sta) && i.ib.dir == L
    ensures Next(r, i).stp == i.frcStp
  {
  }
}
