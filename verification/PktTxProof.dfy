// What the packet transmitter hands down, under any `nxt` schedule, is exactly the
// framed packet: command byte, payload, checksum.
module PktTxProof {
  import opened Logic
  import opened LineCode
  import opened Crc
  import opened PktTx

  datatype Packet = Packet(pid: bv8, payload: seq<bv8>)

  // An empty packet with a PID outside the data group carries no checksum.
  predicate HasCrc(p: Packet) {
    p.payload != [] || PidIsDat(p.pid)
  }

  function Frame(p: Packet): seq<bv8> {
    [TxCmd(p.pid)] + p.payload +
    (if HasCrc(p) then CrcBytes(Updates(INIT16, p.payload, POLY16)) else [])
  }

  // ---- the environment --------------------------------------------------------------------

  // The user's stream after `idx` bytes were consumed: `vld` while there are bytes,
  // then `don` until it has been noticed; never an error; PID at the start.  The
  // lower layer does not abort.
  predicate Streams(r: Reg, idx: nat, p: Packet, i: In) {
    && (r.state.IDLE? ==> i.usr & 0x0f == p.pid & 0x0f && (PidIsDat(i.usr) <==> PidIsDat(p.pid))
                          && (i.vld == H <==> p.payload != []) && (i.don == H <==> p.payload == []))
    && (r.state.RUN? ==> (i.vld == H <==> idx < |p.payload|) && (idx < |p.payload| ==> i.dat == p.payload[idx])
                          && (idx >= |p.payload| ==> i.don == H) && i.err == L)
    && (r.state.CHK1? || r.state.CHK2? ==> i.vld == L)
    && i.txDon == L
  }

  function Consumed(r: Reg, idx: nat, i: In): nat {
    if Rdy(r) == H && i.vld == H then idx + 1 else idx
  }

  // A byte is taken by the lower layer.
  predicate Takes(r: Reg, i: In) {
    i.nxt == H && OutVld(r, i) == H
  }

  // ---- the invariant: `k` bytes taken below, `idx` stream bytes consumed -----------------

  function Sum(p: Packet): Vec16 {
    Updates(INIT16, p.payload, POLY16)
  }

  // Where byte `k` of the frame comes from: the register, or, after a `nxt`, the mux.
  predicate Sending(r: Reg, k: nat, idx: nat, p: Packet) {
    var n, f := |p.payload|, Frame(p);
    && r.err == L && idx <= n && k <= |f|
    && match r.state
       case RUN =>
         && r.isDat == ToBit(HasCrc(p))
         && (r.isDat == L ==> r.nxtr == L && k == 0)
         && r.crc == Updates(INIT16, p.payload[..idx], POLY16)
         && (if r.nxtr == L then k == idx && r.dat == f[k] else k == idx + 1)
       case CHK1 =>
         && HasCrc(p) && idx == n && r.crc == Sum(p)
         && (if r.nxtr == L then k == n && r.dat == f[k] else k == n + 1)
       case CHK2 =>
         && HasCrc(p) && idx == n && r.crc == Sum(p)
         && (if r.nxtr == L then k == n + 1 && r.dat == f[k] else k == n + 2)
       case WAI =>
         && idx == n
         && (if r.vld == L then r.nxtr == L && k == |f|
             else if r.nxtr == L then k == |f| - 1 && r.dat == f[k] else k == |f|)
       case _ => false
  }

  lemma FrameBytes(p: Packet)
    ensures var n, f := |p.payload|, Frame(p);
            && |f| == n + (if HasCrc(p) then 3 else 1) && f[0] == TxCmd(p.pid)
            && (forall i :: 0 <= i < n ==> f[i + 1] == p.payload[i])
            && (HasCrc(p) ==> f[n + 1] == FromBits(Inv(Sum(p)[..8])) && f[n + 2] == FromBits(Inv(Sum(p)[8..])))
  {
  }

  lemma UpdatesSnoc(c: Vec16, s: seq<bv8>, idx: nat)
    requires idx < |s|
    ensures Updates(c, s[..idx + 1], POLY16) == Update(Updates(c, s[..idx], POLY16), s[idx], POLY16)
  {
    UpdatesConcat(c, s[..idx], [s[idx]], POLY16);
    assert s[..idx + 1] == s[..idx] + [s[idx]];
  }

  // The next byte of the frame is on offer, or nothing is.
  predicate Offers(r: Reg, k: nat, p: Packet, i: In) {
    if k < |Frame(p)| then OutVld(r, i) == H && OutDat(r, i) == Frame(p)[k] else OutVld(r, i) == L
  }

  predicate Keeps(r: Reg, k: nat, idx: nat, p: Packet, i: In) {
    && Offers(r, k, p, i)
    && Sending(Next(r, i), if Takes(r, i) then k + 1 else k, Consumed(r, idx, i), p)
  }

  lemma RunFeeds(r: Reg, k: nat, idx: nat, p: Packet, i: In)
    requires Sending(r, k, idx, p) && Streams(r, idx, p, i) && r.state.RUN? && idx < |p.payload|
    ensures Keeps(r, k, idx, p, i)
  {
    hide Frame, Update, Updates, CrcBytes, FromBits;
    FrameBytes(p);
    UpdatesSnoc(INIT16, p.payload, idx);
  }

  lemma RunCloses(r: Reg, k: nat, idx: nat, p: Packet, i: In)
    requires Sending(r, k, idx, p) && Streams(r, idx, p, i) && r.state.RUN? && idx == |p.payload|
    ensures Keeps(r, k, idx, p, i)
  {
    hide Frame, Update, Updates, CrcBytes, FromBits;
    FrameBytes(p);
    assert p.payload[..|p.payload|] == p.payload;
  }

  lemma ChecksumByte(r: Reg, k: nat, idx: nat, p: Packet, i: In)
    requires Sending(r, k, idx, p) && Streams(r, idx, p, i) && (r.state.CHK1? || r.state.CHK2?)
    ensures Keeps(r, k, idx, p, i)
  {
    hide Frame, Update, Updates, CrcBytes, FromBits;
    FrameBytes(p);
  }

  lemma LastByte(r: Reg, k: nat, idx: nat, p: Packet, i: In)
    requires Sending(r, k, idx, p) && Streams(r, idx, p, i) && r.state.WAI?
    ensures Keeps(r, k, idx, p, i)
  {
  }

  // Every cycle keeps the invariant and offers the next byte of the frame, and only
  // until all of them are taken.
  lemma SendCycleKeeps(r: Reg, k: nat, idx: nat, p: Packet, i: In)
    requires Sending(r, k, idx, p) && Streams(r, idx, p, i)
    ensures Keeps(r, k, idx, p, i)
  {
    match r.state
    case RUN =>
      if idx < |p.payload| { RunFeeds(r, k, idx, p, i); } else { RunCloses(r, k, idx, p, i); }
    case WAI => LastByte(r, k, idx, p, i);
    case _ => ChecksumByte(r, k, idx, p, i);
  }

  // Nor is an error passed down, at either speed.
  lemma NoErrorBelow(r: Reg, k: nat, idx: nat, p: Packet, i: In, hiSpeed: Bit)
    requires Sending(r, k, idx, p) && Streams(r, idx, p, i)
    ensures OutErr(r, i, hiSpeed) == L
  {
    hide Frame, Update, Updates, CrcBytes, FromBits;
    SendCycleKeeps(r, k, idx, p, i);
  }

  // ---- whole packets ---------------------------------------------------------------------------

  predicate Honest(r: Reg, idx: nat, p: Packet, ins: seq<In>)
    decreases ins
  {
    ins != [] ==> Streams(r, idx, p, ins[0]) && Honest(Next(r, ins[0]), Consumed(r, idx, ins[0]), p, ins[1..])
  }

  function Run(r: Reg, ins: seq<In>): Reg
    decreases ins
  {
    if ins == [] then r else Run(Next(r, ins[0]), ins[1..])
  }

  // The bytes taken by the lower layer during a run.
  function Taken(r: Reg, ins: seq<In>): seq<bv8>
    decreases ins
  {
    if ins == [] then []
    else (if Takes(r, ins[0]) then [OutDat(r, ins[0])] else []) + Taken(Next(r, ins[0]), ins[1..])
  }

  // How often the lower layer is ready.
  function Pulses(ins: seq<In>): nat {
    if ins == [] then 0 else (if ins[0].nxt == H then 1 else 0) + Pulses(ins[1..])
  }

  function Min(a: nat, b: nat): nat {
    if a < b then a else b
  }

  function Step(r: Reg, k: nat, i: In): nat {
    if Takes(r, i) then k + 1 else k
  }

  function TakenNow(r: Reg, i: In): seq<bv8> {
    if Takes(r, i) then [OutDat(r, i)] else []
  }

  lemma CycleTakes(r: Reg, k: nat, idx: nat, p: Packet, i: In, f: seq<bv8>)
    requires Sending(r, k, idx, p) && Streams(r, idx, p, i) && f == Frame(p) && k <= |f|
    ensures TakenNow(r, i) == f[k..Min(k + Pulses([i]), |f|)]
    ensures Step(r, k, i) == Min(k + Pulses([i]), |f|)
    ensures Sending(Next(r, i), Step(r, k, i), Consumed(r, idx, i), p)
  {
    hide Next, Sending, Streams, Frame, OutDat, OutVld, Consumed;
    SendCycleKeeps(r, k, idx, p, i);
  }

  lemma {:induction false} SendRun(r: Reg, k: nat, idx: nat, p: Packet, ins: seq<In>, f: seq<bv8>)
    returns (idx': nat)
    requires Sending(r, k, idx, p) && Honest(r, idx, p, ins) && f == Frame(p) && k <= |f|
    ensures var k' := Min(k + Pulses(ins), |f|);
            k <= k' && Taken(r, ins) == f[k..k'] && Sending(Run(r, ins), k', idx', p)
    decreases ins
  {
    hide Next, Sending, Streams, Step, Consumed, Frame, OutDat, OutVld, TakenNow;
    if ins == [] {
      idx' := idx;
      assert k <= |f|;
    } else {
      var i := ins[0];
      CycleTakes(r, k, idx, p, i, f);
      idx' := SendRun(Next(r, i), Step(r, k, i), Consumed(r, idx, i), p, ins[1..], f);
      SendRunStep(r, k, ins, f);
    }
  }

  lemma SendRunStep(r: Reg, k: nat, ins: seq<In>, f: seq<bv8>)
    requires ins != [] && k <= |f|
    requires TakenNow(r, ins[0]) == f[k..Min(k + Pulses([ins[0]]), |f|)]
    requires var k1 := Min(k + Pulses([ins[0]]), |f|);
             Taken(Next(r, ins[0]), ins[1..]) == f[k1..Min(k1 + Pulses(ins[1..]), |f|)]
    ensures Pulses(ins) == Pulses([ins[0]]) + Pulses(ins[1..])
    ensures Taken(r, ins) == f[k..Min(k + Pulses(ins), |f|)]
  {
    hide Next, OutDat, Takes, Taken, TakenNow, Pulses;
    TakenStep(r, ins);
    var k1 := Min(k + Pulses([ins[0]]), |f|);
    Slices(f, k, k1, Min(k1 + Pulses(ins[1..]), |f|));
  }

  lemma TakenStep(r: Reg, ins: seq<In>)
    requires ins != []
    ensures Taken(r, ins) == TakenNow(r, ins[0]) + Taken(Next(r, ins[0]), ins[1..])
    ensures Pulses(ins) == Pulses([ins[0]]) + Pulses(ins[1..])
  {
    hide Next, OutDat, Takes;
  }

  lemma Slices(f: seq<bv8>, a: nat, b: nat, c: nat)
    requires a <= b <= c <= |f|
    ensures f[a..b] + f[b..c] == f[a..c]
  {
  }

  // A transmitter that can take a packet.
  predicate Free(r: Reg) {
    r.state.IDLE? && r.vld == L
  }

  lemma StartCycle(r: Reg, p: Packet, i: In)
    requires Free(r) && Streams(r, 0, p, i)
    ensures Sending(Next(r, i), 0, 0, p) && OutVld(r, i) == L
  {
    FrameBytes(p);
    assert i.usr & 0x0f == p.pid & 0x0f;
    assert p.payload[..0] == [];
  }

  // For every schedule of `nxt`: after n pulses the lower layer holds exactly the
  // first n bytes of the frame, none lost, repeated or reordered, and nothing more
  // is offered once the frame is complete.  No error is signalled.
  lemma TransmitterSendsFrame(r: Reg, p: Packet, i: In, ins: seq<In>)
    requires Free(r) && Streams(r, 0, p, i) && Honest(Next(r, i), 0, p, ins)
    ensures OutVld(r, i) == L
    ensures Taken(Next(r, i), ins) == Frame(p)[..Min(Pulses(ins), |Frame(p)|)]
    ensures Run(Next(r, i), ins).err == L
  {
    hide Next, Frame, OutDat, OutVld;
    StartCycle(r, p, i);
    var idx' := SendRun(Next(r, i), 0, 0, p, ins, Frame(p));
  }

  // The report from below ends the packet: `don` for one cycle, no error, and the
  // transmitter is free again.
  lemma PacketDone(r: Reg, idx: nat, p: Packet, i: In, i': In)
    requires Sending(r, |Frame(p)|, idx, p) && r.state.WAI? && r.vld == L && i.txDon == H
    ensures var r' := Next(r, i);
            r'.don == H && r'.err == L && Free(Next(r', i')) && Next(r', i').don == L && Next(r', i').err == L
  {
  }

  // Empty data packets carry a checksum field of zeros, handshakes carry none.
  lemma EmptyPackets(pid: bv8)
    ensures Frame(Packet(pid, [])) == if PidIsDat(pid) then [TxCmd(pid), 0, 0] else [TxCmd(pid)]
  {
    assert Inv(INIT16[..8]) == Bits(0) && Inv(INIT16[8..]) == Bits(0);
    FromBitsBits(0);
  }
}
