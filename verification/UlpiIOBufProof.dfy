// The output buffer is a queue of at most two bytes that closes itself: while the
// link keeps the bus, it refines the little machine `Phase`, whatever the PHY's
// pattern of `nxt`, and every packet leaves complete and in order.
module UlpiIOBufProof {
  import opened Logic
  import opened UlpiIOBuf

  // Idle, or bytes under way, or the stop cycle, or the cycle that reports it.
  datatype Phase = Idle | Holding(pend: seq<bv8>) | Stopping | Finishing

  // What the PHY sees: a byte it takes, or a stop cycle with its status byte.
  datatype Event = Data(b: bv8) | Stop(status: bv8)

  // The link owns the bus.
  predicate Linked(i: In) {
    i.ib.dir == L && i.frcStp == L
  }

  // ... and sends a packet; `sta` is the packet's status.
  predicate Packet(i: In, sta: Bit) {
    Linked(i) && i.regOpr == L && i.txSta == sta
  }

  // A buffered byte always has a valid output byte ahead of it.
  predicate At(r: Reg, ph: Phase, sta: Bit) {
    && r.dir == L && (r.bufVld == H ==> r.douVld == H)
    && match ph
       case Idle => r.douVld == L && r.dou == 0 && r.sta == L && r.stp == L && r.txBsy == L
       case Holding(pend) =>
         && r.douVld == H && r.sta == L && r.stp == L
         && pend == [r.dou] + (if r.bufVld == H then [r.buf] else [])
       case Stopping =>
         && r.douVld == H && r.bufVld == L && r.sta == H && r.stp == H && r.txBsy == H
         && r.dou == Fill(sta)
       case Finishing => r.douVld == L && r.dou == 0 && r.sta == L && r.stp == L && r.txBsy == H
  }

  // ---- the queue -----------------------------------------------------------------------

  predicate Room(ph: Phase) {
    ph.Holding? ==> |ph.pend| < 2
  }

  function Offered(ph: Phase, i: In): seq<bv8> {
    if i.txVld == H && Room(ph) then [i.txDat] else []
  }

  function Queue(pend: seq<bv8>): Phase {
    if pend == [] then Stopping else Holding(pend)
  }

  function Move(ph: Phase, i: In): Phase {
    match ph
    case Holding(pend) => Queue((if i.ib.nxt == H && pend != [] then pend[1..] else pend) + Offered(ph, i))
    case Stopping => Finishing
    case _ => if i.txVld == H then Holding([i.txDat]) else Idle
  }

  // What the PHY gets in one cycle, read off the pins.
  function Seen(r: Reg, i: In): seq<Event> {
    if r.stp == H then [Stop(r.dou)]
    else if r.douVld == H && i.ib.nxt == H then [Data(r.dou)]
    else []
  }

  // One clock edge is one move of the queue: bytes enter when there is room, leave at
  // the front, and the signals to the user say where the packet stands.
  lemma BufferIsQueue(r: Reg, ph: Phase, i: In, sta: Bit)
    requires At(r, ph, sta) && Packet(i, sta) && (ph.Stopping? ==> i.txVld == L)
    ensures At(Next(r, i), Move(ph, i), sta)
    ensures TxRdy(r) == H <==> Room(ph)
    ensures TxDon(r) == H <==> ph.Finishing?
    ensures TxErr(r) == L
    ensures Seen(r, i) == match ph
                          case Stopping => [Stop(Fill(sta))]
                          case Holding(pend) => if i.ib.nxt == H then [Data(pend[0])] else []
                          case _ => []
  {
    if ph.Holding? {
      HoldingMoves(r, ph.pend, i, sta);
    }
  }

  // The last byte leaves and no other follows.
  predicate Empties(pend: seq<bv8>, i: In) {
    i.ib.nxt == H && i.txVld == L && |pend| == 1
  }

  // While bytes are left it does not matter what is being sent.
  lemma HoldingCycle(r: Reg, pend: seq<bv8>, i: In, sta: Bit)
    requires At(r, Holding(pend), sta) && Linked(i) && !Empties(pend, i)
    ensures At(Next(r, i), Move(Holding(pend), i), sta)
    ensures TxRdy(r) == H <==> Room(Holding(pend))
    ensures TxDon(r) == L && TxErr(r) == L
    ensures pend != [] && Seen(r, i) == if i.ib.nxt == H then [Data(pend[0])] else []
  {
    HoldingMoves(r, pend, i, sta);
  }

  lemma HoldingMoves(r: Reg, pend: seq<bv8>, i: In, sta: Bit)
    requires At(r, Holding(pend), sta) && Linked(i) && (Empties(pend, i) ==> Packet(i, sta))
    ensures At(Next(r, i), Move(Holding(pend), i), sta)
  {
    hide Fill;
    var rest := if i.ib.nxt == H then pend[1..] else pend;
    assert pend == if r.bufVld == H then [r.dou, r.buf] else [r.dou];
    assert rest == if i.ib.nxt == L then pend else if r.bufVld == H then [r.buf] else [];
    var p := rest + Offered(Holding(pend), i);
    if p == [] {
      assert AppendsStatus(r, i);
    } else {
      assert p == [Next(r, i).dou] + (if Next(r, i).bufVld == H then [Next(r, i).buf] else []);
    }
  }

  // Why a byte must not be offered in the stop cycle: it would be acknowledged, and
  // then be stuck behind an empty output or be dropped.
  lemma StopCycleIsDeaf(r: Reg, i: In, sta: Bit)
    requires At(r, Stopping, sta) && Packet(i, sta) && i.txVld == H
    ensures TxRdy(r) == H
    ensures i.ib.nxt == L ==> Next(r, i).bufVld == H && Next(r, i).douVld == L && Next(r, i).buf == i.txDat
    ensures i.ib.nxt == H ==> At(Next(r, i), Finishing, sta)
  {
  }

  // A byte that is stuck stays until the next packet, whose first byte it then follows, or
  // until a stray `nxt` drops it.
  lemma StuckByte(r: Reg, i: In)
    requires r.dir == L && r.douVld == L && r.bufVld == H && r.sta == L && r.txBsy == L
    ensures var r' := Next(r, i);
            if i.txVld == H then r'.douVld == H && r'.dou == i.txDat && r'.bufVld == H && r'.buf == r.buf
            else r'.douVld == L && (r'.bufVld == H <==> i.ib.nxt == L) && r'.buf == r.buf
  {
  }

  // In reset the PHY is stopped, the bus counts as the PHY's, and nothing is reported, nor
  // in the cycle after it.
  lemma ResetOutputs(i: In)
    ensures INIT.stp == H && INIT.dou == 0 && INIT.dir == H && INIT.nxt == L && INIT.stpI == L && INIT.din == 0
    ensures INIT.trn == L && TxRdy(INIT) == H && TxDon(INIT) == L && TxErr(INIT) == L
    ensures i.txVld == H ==> Next(INIT, i).douVld == H && Next(INIT, i).dou == i.txDat
    ensures i.txVld == L ==> Next(INIT, i).dou == 0 && Next(INIT, i).stp == i.frcStp && Next(INIT, i).sta == L
    ensures i.txVld == L ==> Next(INIT, i).buf == 0 && TxErr(Next(INIT, i)) == L && TxDon(Next(INIT, i)) == L
  {
  }

  // Out of reset the buffer waits for the PHY to hand over the bus, and is idle then.
  lemma ResetIsIdle(i: In, sta: Bit)
    requires i.ib.dir == L && i.frcStp == L && i.txVld == L
    ensures At(Next(INIT, i), Idle, sta)
  {
  }

  // ---- whole packets ------------------------------------------------------------------------

  function Run(r: Reg, ins: seq<In>): Reg
    decreases ins
  {
    if ins == [] then r else Run(Next(r, ins[0]), ins[1..])
  }

  function Events(r: Reg, ins: seq<In>): seq<Event>
    decreases ins
  {
    if ins == [] then [] else Seen(r, ins[0]) + Events(Next(r, ins[0]), ins[1..])
  }

  // The bytes the user hands over: offered and acknowledged.
  function Accepted(r: Reg, ins: seq<In>): seq<bv8>
    decreases ins
  {
    if ins == [] then []
    else (if ins[0].txVld == H && TxRdy(r) == H then [ins[0].txDat] else []) + Accepted(Next(r, ins[0]), ins[1..])
  }

  function Dones(r: Reg, ins: seq<In>): nat
    decreases ins
  {
    if ins == [] then 0 else (if TxDon(r) == H then 1 else 0) + Dones(Next(r, ins[0]), ins[1..])
  }

  predicate NoErrors(r: Reg, ins: seq<In>)
    decreases ins
  {
    ins == [] || (TxErr(r) == L && NoErrors(Next(r, ins[0]), ins[1..]))
  }

  predicate AllPacket(ins: seq<In>, sta: Bit) {
    forall k :: 0 <= k < |ins| ==> Packet(ins[k], sta) && ins[k].txVld == L
  }

  predicate AllOffer(ins: seq<In>) {
    forall k :: 0 <= k < |ins| ==> Linked(ins[k]) && ins[k].txVld == H
  }

  function Datas(bs: seq<bv8>): seq<Event> {
    if bs == [] then [] else [Data(bs[0])] + Datas(bs[1..])
  }

  lemma {:induction false} DatasConcat(a: seq<bv8>, b: seq<bv8>)
    ensures Datas(a + b) == Datas(a) + Datas(b)
  {
    if a == [] {
      assert a + b == b;
    } else {
      assert (a + b)[1..] == a[1..] + b;
      DatasConcat(a[1..], b);
    }
  }

  // While the user offers bytes: what left and what is pending is what was accepted.
  lemma {:induction false} Filling(r: Reg, pend: seq<bv8>, ins: seq<In>, sta: Bit) returns (pend': seq<bv8>)
    requires At(r, Holding(pend), sta) && AllOffer(ins)
    ensures At(Run(r, ins), Holding(pend'), sta)
    ensures Events(r, ins) + Datas(pend') == Datas(pend + Accepted(r, ins))
    ensures Dones(r, ins) == 0 && NoErrors(r, ins)
    decreases ins
  {
    hide Next, At, Seen, TxDon, TxErr, TxRdy;
    if ins == [] {
      pend' := pend;
      assert pend + [] == pend && [] + Datas(pend) == Datas(pend);
    } else {
      var i := ins[0];
      HoldingCycle(r, pend, i, sta);
      HoldingSome(r, pend, sta);
      var next := Move(Holding(pend), i).pend;
      pend' := Filling(Next(r, i), next, ins[1..], sta);
      FillingStep(r, pend, ins, next, pend');
    }
  }

  lemma HoldingSome(r: Reg, pend: seq<bv8>, sta: Bit)
    requires At(r, Holding(pend), sta)
    ensures 1 <= |pend| <= 2
  {
  }

  // The byte that leaves at the front.
  function Front(pend: seq<bv8>, i: In): seq<bv8> {
    if i.ib.nxt == H && pend != [] then [pend[0]] else []
  }

  lemma QueueKeepsOrder(pend: seq<bv8>, i: In, next: seq<bv8>, rest: seq<bv8>)
    requires 1 <= |pend| <= 2 && Move(Holding(pend), i) == Holding(next)
    ensures Front(pend, i) + (next + rest) == pend + (Offered(Holding(pend), i) + rest)
  {
    assert Front(pend, i) + next == pend + Offered(Holding(pend), i);
  }

  lemma FillingStep(r: Reg, pend: seq<bv8>, ins: seq<In>, next: seq<bv8>, pend': seq<bv8>)
    requires ins != [] && 1 <= |pend| <= 2
    requires Move(Holding(pend), ins[0]) == Holding(next)
    requires TxRdy(r) == H <==> Room(Holding(pend))
    requires Seen(r, ins[0]) == if ins[0].ib.nxt == H then [Data(pend[0])] else []
    requires Events(Next(r, ins[0]), ins[1..]) + Datas(pend') == Datas(next + Accepted(Next(r, ins[0]), ins[1..]))
    ensures Events(r, ins) + Datas(pend') == Datas(pend + Accepted(r, ins))
  {
    hide Next, Seen, TxRdy, Room;
    var i, rest, later := ins[0], Accepted(Next(r, ins[0]), ins[1..]), Events(Next(r, ins[0]), ins[1..]);
    var off := Offered(Holding(pend), i);
    assert Accepted(r, ins) == off + rest;
    assert Events(r, ins) == Seen(r, i) + later;
    FrontSeen(r, pend, i);
    hide Events, Accepted, Datas, Offered, Front, Move;
    QueueKeepsOrder(pend, i, next, rest);
    JoinEvents(Front(pend, i), later, Datas(pend'), next + rest, pend + (off + rest));
  }

  lemma FrontSeen(r: Reg, pend: seq<bv8>, i: In)
    requires 1 <= |pend| <= 2 && Seen(r, i) == if i.ib.nxt == H then [Data(pend[0])] else []
    ensures Seen(r, i) == Datas(Front(pend, i))
  {
    hide Seen;
    assert Datas([]) == [];
  }

  lemma JoinEvents(out: seq<bv8>, later: seq<Event>, tail: seq<Event>, next: seq<bv8>, all: seq<bv8>)
    requires later + tail == Datas(next) && out + next == all
    ensures (Datas(out) + later) + tail == Datas(all)
  {
    hide Datas;
    DatasConcat(out, next);
    assert (Datas(out) + later) + tail == Datas(out) + (later + tail);
  }

  // Once the user has stopped: the rest of the queue, one stop cycle, one report.
  function Left(ph: Phase, sta: Bit): seq<Event> {
    match ph
    case Holding(pend) => Datas(pend) + [Stop(Fill(sta))]
    case Stopping => [Stop(Fill(sta))]
    case _ => []
  }

  function DonesLeft(ph: Phase): nat {
    if ph.Idle? then 0 else 1
  }

  function Drained(ph: Phase, ins: seq<In>): Phase
    decreases ins
  {
    if ins == [] then ph else Drained(Move(ph, ins[0]), ins[1..])
  }

  lemma {:induction false} Draining(r: Reg, ph: Phase, ins: seq<In>, sta: Bit)
    requires At(r, ph, sta) && AllPacket(ins, sta)
    ensures At(Run(r, ins), Drained(ph, ins), sta)
    ensures Events(r, ins) + Left(Drained(ph, ins), sta) == Left(ph, sta)
    ensures Dones(r, ins) + DonesLeft(Drained(ph, ins)) == DonesLeft(ph)
    ensures NoErrors(r, ins) && Accepted(r, ins) == []
    decreases ins
  {
    hide Next, At, Seen, TxDon, TxErr, TxRdy, Fill, Left, DonesLeft, Move;
    if ins != [] {
      var i, rest := ins[0], ins[1..];
      DrainStep(r, ph, i, sta);
      Draining(Next(r, i), Move(ph, i), rest, sta);
      Regroup(Seen(r, i), Events(Next(r, i), rest), Left(Drained(Move(ph, i), rest), sta));
    }
  }

  lemma Regroup<T>(a: seq<T>, b: seq<T>, c: seq<T>)
    ensures (a + b) + c == a + (b + c)
  {
  }

  lemma DrainStep(r: Reg, ph: Phase, i: In, sta: Bit)
    requires At(r, ph, sta) && Packet(i, sta) && i.txVld == L
    ensures At(Next(r, i), Move(ph, i), sta) && TxErr(r) == L
    ensures Left(ph, sta) == Seen(r, i) + Left(Move(ph, i), sta)
    ensures DonesLeft(ph) == (if TxDon(r) == H then 1 else 0) + DonesLeft(Move(ph, i))
  {
    hide Next, At, Seen, TxDon, TxErr, TxRdy, Fill, Left;
    BufferIsQueue(r, ph, i, sta);
    if ph.Holding? {
      HoldingSome(r, ph.pend, sta);
    }
    LeftStep(ph, i, sta);
  }

  lemma LeftStep(ph: Phase, i: In, sta: Bit)
    requires i.txVld == L && (ph.Holding? ==> ph.pend != [])
    ensures Left(ph, sta) == (match ph
                              case Stopping => [Stop(Fill(sta))]
                              case Holding(pend) => if i.ib.nxt == H then [Data(pend[0])] else []
                              case _ => []) + Left(Move(ph, i), sta)
  {
    hide Fill;
    if ph.Holding? {
      assert ph.pend + [] == ph.pend && ph.pend[1..] + [] == ph.pend[1..];
      assert Datas([]) == [];
    }
  }

  function Pulses(ins: seq<In>): nat {
    if ins == [] then 0 else (if ins[0].ib.nxt == H then 1 else 0) + Pulses(ins[1..])
  }

  // Two pulses of `nxt` and two more cycles are always enough.
  lemma {:induction false} DrainsSoon(ph: Phase, ins: seq<In>, tail: seq<In>)
    requires (ph.Holding? ==> 1 <= |ph.pend| <= Pulses(ins)) && |tail| == 2
    requires forall k :: 0 <= k < |ins + tail| ==> (ins + tail)[k].txVld == L
    ensures Drained(ph, ins + tail) == Idle
    decreases ins
  {
    var all := ins + tail;
    if ins == [] {
      assert all == tail;
      assert Drained(ph, all) == Drained(Move(ph, tail[0]), tail[1..]) == Move(Move(ph, tail[0]), tail[1]);
    } else {
      assert all[0] == ins[0] && all[1..] == ins[1..] + tail && all[0].txVld == L;
      DrainsSoon(Move(ph, ins[0]), ins[1..], tail);
    }
  }

  // The theorem: the user offers bytes without a gap (`first` and `more`), then stops
  // (`rest`).  At every moment the PHY has seen a beginning of: the accepted bytes in
  // order, then one stop cycle with the status.  The packet is reported done once, at
  // its end, and never in error.
  lemma PacketLeaves(r: Reg, first: In, more: seq<In>, rest: seq<In>, sta: Bit) returns (ph: Phase)
    requires At(r, Idle, sta) && first.txVld == H && Linked(first)
    requires AllOffer(more) && AllPacket(rest, sta)
    ensures var offer, r1 := [first] + more, Run(r, [first] + more);
            && At(Run(r1, rest), ph, sta)
            && Events(r, offer) + Events(r1, rest) + Left(ph, sta)
               == Datas(Accepted(r, offer)) + [Stop(if sta == H then 0xff else 0)]
            && Accepted(r, offer) != [] && Accepted(r1, rest) == []
            && Dones(r, offer) + Dones(r1, rest) == (if ph.Idle? then 1 else 0)
            && NoErrors(r, offer) && NoErrors(r1, rest)
    ensures |rest| >= 2 && Pulses(rest[..|rest| - 2]) >= 2 ==> ph == Idle
  {
    hide Next, At, Seen, TxDon, TxErr, TxRdy, Events, Accepted, Run, Dones, Drained, NoErrors, Pulses, Datas,
      Packet;
    FirstByte(r, first, more, sta);
    var r0 := Next(r, first);
    var pend := Filling(r0, [first.txDat], more, sta);
    var r1 := Run(r0, more);
    HoldingSome(r1, pend, sta);
    Draining(r1, Holding(pend), rest, sta);
    ph := Drained(Holding(pend), rest);
    var ev0, ev1 := Events(r0, more), Events(r1, rest);
    assert ev0 + ev1 + Left(ph, sta) == ev0 + (ev1 + Left(ph, sta));
    assert ev0 + (Datas(pend) + [Stop(Fill(sta))]) == (ev0 + Datas(pend)) + [Stop(Fill(sta))];
    if |rest| >= 2 && Pulses(rest[..|rest| - 2]) >= 2 {
      var n := |rest| - 2;
      assert rest == rest[..n] + rest[n..];
      DrainsSoon(Holding(pend), rest[..n], rest[n..]);
    }
  }

  lemma IdleTakes(r: Reg, i: In, sta: Bit)
    requires At(r, Idle, sta) && Linked(i) && i.txVld == H
    ensures At(Next(r, i), Holding([i.txDat]), sta)
    ensures TxRdy(r) == H && TxDon(r) == L && TxErr(r) == L && Seen(r, i) == []
  {
  }

  lemma FirstByte(r: Reg, first: In, more: seq<In>, sta: Bit)
    requires At(r, Idle, sta) && Linked(first) && first.txVld == H
    ensures var offer, r0 := [first] + more, Next(r, first);
            && At(r0, Holding([first.txDat]), sta)
            && Run(r, offer) == Run(r0, more) && Events(r, offer) == Events(r0, more)
            && Accepted(r, offer) == [first.txDat] + Accepted(r0, more)
            && Dones(r, offer) == Dones(r0, more) && (NoErrors(r, offer) <==> NoErrors(r0, more))
  {
    IdleTakes(r, first, sta);
    hide Next, At, Seen, TxDon, TxErr, Fill, Linked;
    assert ([first] + more)[1..] == more;
  }
}
