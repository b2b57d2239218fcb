// The numbers of the packet layer in plain figures: PIDs and command bytes, what the bus
// says to the receiver, and both ends at rest.
module PktRules {
  import opened Logic
  import opened LineCode
  import R = PktRx
  import RP = PktRxProof
  import T = PktTx
  import TP = PktTxProof

  // ---- PIDs --------------------------------------------------------------------------

  // OUT, SOF, IN, SETUP and PING are tokens; ACK, NYET, NAK and STALL handshakes; DATA0,
  // DATA2, DATA1 and MDATA data.  PRE, SPLIT and the reserved PID are none of them.
  lemma PidGroups(pid: bv8)
    requires pid < 16
    ensures R.IsTok(pid) <==> pid == 1 || pid == 5 || pid == 9 || pid == 13 || pid == 4
    ensures R.IsHsk(pid) <==> pid == 2 || pid == 6 || pid == 10 || pid == 14
    ensures R.IsDat(pid) <==> pid == 3 || pid == 7 || pid == 11 || pid == 15
  {
  }

  // The transmitter sees the same data PIDs, in the low nibble of the user's byte, and puts
  // that nibble behind the command.
  lemma PidSent(usr: bv8)
    ensures T.PidIsDat(usr) <==> R.IsDat(usr & 0x0f)
    ensures T.TxCmd(usr) & 0xf0 == 0x40 && T.TxCmd(usr) & 0x0f == usr & 0x0f
  {
  }

  // A PID byte is valid if and only if its nibbles add up to fifteen.
  lemma PidValid(b: bv8)
    ensures R.PidOk(b) <==> (b >> 4) + (b & 0x0f) == 15
  {
  }

  // ---- the bus --------------------------------------------------------------------------

  // A packet is under way in a cycle of the PHY's that carries a byte, or that is no
  // turn-around and whose status byte has bit 4 set.
  lemma ActiveCycles(i: R.In)
    ensures i.dir == L ==> !R.Active(i) && !R.IsRxCmd(i)
    ensures i.dir == H && i.nxt == H ==> R.Active(i) && !R.IsRxCmd(i)
    ensures i.dir == H && i.nxt == L && i.trn == H ==> !R.Active(i) && !R.IsRxCmd(i)
    ensures i.dir == H && i.nxt == L && i.trn == L ==>
              R.IsRxCmd(i) && (R.Active(i) <==> (i.dat >> 4) & 1 == 1)
  {
  }

  // The last status byte of the PHY, and 0 before the first.
  function LastStatus(ins: seq<R.In>): bv8 {
    if ins == [] then 0
    else
      var i := ins[|ins| - 1];
      if i.dir == H && i.trn == L && i.nxt == L then i.dat else LastStatus(ins[..|ins| - 1])
  }

  lemma {:induction false} StatusKept(ins: seq<R.In>)
    ensures RP.Run(R.INIT, ins).rxCmd == LastStatus(ins)
    decreases |ins|
  {
    if ins != [] {
      var n := |ins| - 1;
      StatusKept(ins[..n]);
      assert ins == ins[..n] + [ins[n]];
      RP.RunConcat(R.INIT, ins[..n], [ins[n]]);
      StatusStep(RP.Run(R.INIT, ins[..n]), ins[n]);
    }
  }

  lemma StatusStep(r: R.Reg, i: R.In)
    ensures RP.Run(r, [i]).rxCmd == if i.dir == H && i.trn == L && i.nxt == L then i.dat else r.rxCmd
  {
    hide R.NextState, R.NextHdr, R.NextCrc, R.NextExtraDat, R.NextErr, R.NextP0, R.NextP1;
    assert [i][1..] == [];
    assert RP.Run(r, [i]) == RP.Run(R.Next(r, i), []);
  }

  // ---- at rest -----------------------------------------------------------------------------

  // From power-up, for as long as no packet is under way, the receiver announces nothing,
  // hands nothing on and has no verdict.
  lemma {:induction false} QuietReceiver(ins: seq<R.In>)
    requires forall k :: 0 <= k < |ins| ==> !R.Active(ins[k])
    ensures var r := RP.Run(R.INIT, ins);
            RP.Idle(r) && r.hdr.vld == L && r.hdr.sof == L && r.datDon == L
    decreases |ins|
  {
    if ins != [] {
      var n := |ins| - 1;
      QuietReceiver(ins[..n]);
      assert ins == ins[..n] + [ins[n]];
      RP.RunConcat(R.INIT, ins[..n], [ins[n]]);
      var r := RP.Run(R.INIT, ins[..n]);
      assert [ins[n]][1..] == [];
      assert RP.Run(r, [ins[n]]) == RP.Run(R.Next(r, ins[n]), []);
      QuietStep(r, ins[n]);
    }
  }

  lemma QuietStep(r: R.Reg, i: R.In)
    requires RP.Idle(r) && !R.Active(i)
    ensures var r' := R.Next(r, i);
            RP.Idle(r') && r'.hdr.vld == L && r'.hdr.sof == L && r'.datDon == L
  {
    hide R.NextCrc, R.NextExtraDat, R.NextErr, R.IsDat, R.IsTok, R.IsHsk, R.PidOk;
  }

  // The verdict stays until the next data packet begins or ends.
  lemma VerdictStays(r: R.Reg, i: R.In)
    ensures R.Next(r, i).datErr == r.datErr
            || (r.state.WAIT_FOR_PID? && i.nxt == H && R.IsDat(i.dat & 0x0f) && R.Next(r, i).datErr == H)
            || (r.state.DAT? && R.Next(r, i).datDon == H && R.Next(r, i).datErr == L)
  {
    hide R.NextCrc, R.NextExtraDat, R.NextHdr, R.NextP0, R.NextP1, R.NextState, R.PidOk;
  }

  // A transmitter without a command stays free and offers nothing; at power-up it is free.
  lemma FreeTransmitter(r: T.Reg, i: T.In)
    requires TP.Free(r) && i.vld == L && i.don == L
    ensures TP.Free(T.Next(r, i)) && T.OutVld(r, i) == L && T.Next(r, i).don == L && T.Rdy(r) == L
    ensures TP.Free(T.INIT) && T.INIT.don == L && T.INIT.err == L
  {
    hide T.NextCrc, T.XnorErr, T.NextErr;
  }

  // In the cycle that closes the frame the bus carries the good status, zero.
  lemma StatusIsZero(r: T.Reg, i: T.In)
    requires r.state.WAI? && r.nxtr == H && i.txDon == L
    ensures T.OutVld(r, i) == L && T.OutDat(r, i) == 0 && T.Next(r, i).dat == 0
  {
  }
}
