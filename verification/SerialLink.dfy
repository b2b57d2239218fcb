// Transmitter and receiver back to back, four samples per bit time.
module SerialLink {
  import opened Logic
  import opened LineCode
  import Tx = FslsTx
  import TxProof = FslsTxProof
  import Rx = FslsRx
  import opened FslsRxProof
  import opened FslsRxPacket

  // Round trip: whatever honest user serves the transmitter, and wherever the
  // output edges fall, the receiver delivers exactly the bytes handed over, in
  // order.  A packet ended with a clear status bit is never flagged while the
  // receiver is active, one ended with a set status bit always is.
  lemma SerialRoundTrip(tx: Tx.Reg, job: TxProof.Job, ins: seq<Tx.In>, rx: Rx.Sys)
    requires TxProof.Resting(tx) && 0 < |job.bytes| && Ready(rx)
    requires |ins| == |PacketLine(job.bytes, job.spoilt)|
    requires Tx.Start(tx, ins[0]) && TxProof.Honest(Tx.Next(tx, ins[0]), 0, job, ins[1..])
    ensures var xs := Samples(TxProof.Line(tx, ins));
            && Delivered(Seen(rx, xs)) == job.bytes
            && (if job.spoilt then Alarm(Seen(rx, xs)) else CleanWhileActive(Seen(rx, xs)))
            && Ready(Run(rx, xs)) && TxProof.Resting(TxProof.Run(tx, ins))
  {
    TxProof.TransmitterSendsPacketLine(tx, job, ins);
    assert TxProof.Line(tx, ins) == PacketLine(job.bytes, job.spoilt);
    if job.spoilt {
      SpoiltPacketReceived(rx, job.bytes);
    } else {
      GoodPacketReceived(rx, job.bytes);
    }
  }

  // ---- any number of packets ----------------------------------------------------------

  // A packet on the line, after `gap` samples of J.
  datatype Burst = Burst(gap: nat, job: TxProof.Job)

  function Gap(n: nat): seq<Rx.Sample> {
    if n == 0 then [] else [SampleOf(J)] + Gap(n - 1)
  }

  function Stream(bs: seq<Burst>): seq<Rx.Sample> {
    if bs == [] then []
    else Gap(bs[0].gap) + (Samples(PacketLine(bs[0].job.bytes, bs[0].job.spoilt)) + Stream(bs[1..]))
  }

  function Sent(bs: seq<Burst>): seq<bv8> {
    if bs == [] then [] else bs[0].job.bytes + Sent(bs[1..])
  }

  lemma {:induction false} RunConcat(s: Rx.Sys, a: seq<Rx.Sample>, b: seq<Rx.Sample>)
    ensures Run(s, a + b) == Run(Run(s, a), b)
    ensures Seen(s, a + b) == Seen(s, a) + Seen(Run(s, a), b)
    decreases a
  {
    if a == [] {
      assert a + b == b;
    } else {
      assert a == [a[0]] + a[1..] && a + b == [a[0]] + (a[1..] + b);
      Cons(s, a[0], a[1..]);
      Cons(s, a[0], a[1..] + b);
      RunConcat(Rx.Tick(s, a[0]), a[1..], b);
    }
  }

  lemma {:induction false} GapIsSilent(s: Rx.Sys, n: nat)
    requires Ready(s)
    ensures Ready(Run(s, Gap(n))) && Delivered(Seen(s, Gap(n))) == []
    decreases n
  {
    if n > 0 {
      IdleSample(s);
      Cons(s, SampleOf(J), Gap(n - 1));
      GapIsSilent(Rx.Tick(s, SampleOf(J)), n - 1);
      SilentDelivers(Port(s, SampleOf(J)));
      DeliveredConcat(Port(s, SampleOf(J)), Seen(Rx.Tick(s, SampleOf(J)), Gap(n - 1)));
    }
  }

  // Packets of any length, good or spoilt, any distance apart: the receiver
  // delivers all their bytes in order and is left ready.
  lemma {:induction false} StreamReceived(s: Rx.Sys, bs: seq<Burst>)
    requires Ready(s)
    ensures Ready(Run(s, Stream(bs))) && Delivered(Seen(s, Stream(bs))) == Sent(bs)
    decreases bs
  {
    if bs != [] {
      var g, job := Gap(bs[0].gap), bs[0].job;
      var p, rest := Samples(PacketLine(job.bytes, job.spoilt)), Stream(bs[1..]);
      GapIsSilent(s, bs[0].gap);
      var s1 := Run(s, g);
      if job.spoilt { SpoiltPacketReceived(s1, job.bytes); } else { GoodPacketReceived(s1, job.bytes); }
      var s2 := Run(s1, p);
      StreamReceived(s2, bs[1..]);
      RunConcat(s, g, p + rest);
      RunConcat(s1, p, rest);
      DeliveredConcat(Seen(s, g), Seen(s1, p + rest));
      DeliveredConcat(Seen(s1, p), Seen(s2, rest));
    }
  }
}
