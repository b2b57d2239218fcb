// The layers composed at byte-sequence level: packet transmitter, serial line,
// packet receiver.
module PacketPath {
  import opened Logic
  import opened LineCode
  import opened Crc
  import PktTx
  import TxP = PktTxProof
  import STx = FslsTx
  import STxP = FslsTxProof
  import SRx = FslsRx
  import SRxP = FslsRxProof
  import SRxK = FslsRxPacket
  import SerialLink
  import PktRx
  import RxP = PktRxProof

  // What the serial transmitter makes of a frame: the command byte turns into the
  // PID byte with its complement, the rest goes out as it is.
  function SerialJob(frame: seq<bv8>): STxP.Job {
    if frame == [] then STxP.Job([], false) else STxP.Job([PidByte(frame[0])] + frame[1..], false)
  }

  lemma PidByteOk(pid: bv8)
    requires pid & 0xf0 == 0
    ensures var b := PidByte(PktTx.TxCmd(pid));
            PktRx.PidOk(b) && b & 0x0f == pid
  {
  }

  // One packet's way through all layers: each layer's state before, and what its
  // surroundings do meanwhile.
  datatype Journey = Journey(
    p: TxP.Packet,
    ptx: PktTx.Reg, first: PktTx.In, sched: seq<PktTx.In>,
    stx: STx.Reg, sins: seq<STx.In>,
    srx: SRx.Sys,
    prx: PktRx.Reg, start: PktRx.In, rins: seq<PktRx.In>, end: PktRx.In)
  {
    // Bytes taken from the packet transmitter.
    function Taken(): seq<bv8> {
      TxP.Taken(PktTx.Next(ptx, first), sched)
    }

    // The output port of the serial receiver.
    function Port(): seq<SRx.Out> {
      SRxP.Seen(srx, SRxP.Samples(STxP.Line(stx, sins)))
    }

    function View(): RxP.View {
      RxP.Seen(prx, [start] + (rins + [end]))
    }

    // The user and the schedule of the packet transmitter see it through.
    predicate Transmitted() {
      && TxP.Free(ptx) && TxP.Streams(ptx, 0, p, first) && TxP.Honest(PktTx.Next(ptx, first), 0, p, sched)
      && TxP.Pulses(sched) >= |TxP.Frame(p)|
    }

    // The serial transmitter is fed with the bytes taken.
    predicate Serialised() {
      var job := SerialJob(Taken());
      && STxP.Resting(stx) && SRxK.Ready(srx)
      && |sins| == |PacketLine(job.bytes, false)|
      && STx.Start(stx, sins[0]) && STxP.Honest(STx.Next(stx, sins[0]), 0, job, sins[1..])
    }

    // The packet receiver is fed with the bytes delivered.
    predicate Forwarded() {
      && RxP.Idle(prx) && RxP.Reception(start, rins, end)
      && RxP.Bytes(rins) == SRxP.Delivered(Port())
    }
  }

  // A data packet of any payload, sent under any schedule long enough to complete
  // it, over the serial line with any honest user and any phase of the output
  // clock, and received with any pattern of wait cycles: the same PID is announced
  // once, the same payload comes out, and `don` comes once with `err` clear.
  lemma DataPacketPath(m: Journey)
    requires m.p.pid & 0xf0 == 0 && PktTx.PidIsDat(m.p.pid)
    requires m.Transmitted() && m.Serialised() && m.Forwarded()
    ensures m.Taken() == TxP.Frame(m.p) && SRxK.CleanWhileActive(m.Port())
    ensures m.View().bytes == m.p.payload && m.View().verdicts == [L]
    ensures |m.View().headers| == 1 && m.View().headers[0].pid == m.p.pid
  {
    hide PktTx.Next, TxP.Taken, TxP.Honest, STx.Next, STxP.Honest, STxP.Line, SRxP.Seen, SRxP.Samples,
      RxP.Seen, RxP.Bytes, RxP.Reception;
    var frame := TxP.Frame(m.p);
    TxP.TransmitterSendsFrame(m.ptx, m.p, m.first, m.sched);
    assert frame[..|frame|] == frame;
    SerialLink.SerialRoundTrip(m.stx, SerialJob(frame), m.sins, m.srx);
    FrameArrives(m.p);
    RxP.DataReceived(m.prx, m.start, m.rins, m.end);
  }

  lemma FrameArrives(p: TxP.Packet)
    requires p.pid & 0xf0 == 0 && PktTx.PidIsDat(p.pid)
    ensures var bs := SerialJob(TxP.Frame(p)).bytes;
            && RxP.IsDataPacket(bs) && bs[0] & 0x0f == p.pid
            && RxP.Body(bs[1..]) == p.payload && Accepted(bs[1..])
  {
    hide Updates, FromBits;
    var c := Updates(INIT16, p.payload, POLY16);
    var crc := CrcBytes(c);
    var frame := TxP.Frame(p);
    PidByteOk(p.pid);
    assert frame == [PktTx.TxCmd(p.pid)] + p.payload + crc;
    assert frame[1..] == p.payload + crc;
    assert crc == [crc[0], crc[1]];
    AcceptedIff(p.payload, crc[0], crc[1]);
    assert (p.payload + crc)[..|p.payload|] == p.payload;
    var bs := SerialJob(frame).bytes;
    assert bs[1..] == frame[1..] && bs[0] == PidByte(PktTx.TxCmd(p.pid));
    DataPid(bs[0]);
  }

  lemma DataPid(b: bv8)
    requires PktRx.PidOk(b) && PktTx.PidIsDat(b & 0x0f)
    ensures RxP.KindOf(b) == RxP.Data
  {
  }
}
