// What the packet transmitter does when something goes wrong: the lower layer aborts, the
// user's stream runs dry or reports an error; and how an error reaches the wire.
module PktTxErrors {
  import opened Logic
  import opened LineCode
  import opened Crc
  import opened PktTx
  import opened PktTxProof

  // ---- aborts -----------------------------------------------------------------------------

  // Bytes are under way: the frame is not complete, or its last byte is not taken yet.
  predicate UnderWay(r: Reg) {
    Sends(r) || (r.state.WAI? && r.vld == H && r.nxtr == L)
  }

  // A report from below in the middle of a frame ends it at once: nothing more is offered,
  // the user gets one `don` with `err`, and the transmitter is free again.
  lemma AbortedBelow(r: Reg, i: In, i': In)
    requires UnderWay(r) && i.txDon == H
    ensures OutVld(r, i) == L
    ensures var r' := Next(r, i); var r'' := Next(r', i');
            && r'.don == H && r'.err == H && r'.vld == L && r'.dat == 0 && r'.nxtr == L && Rdy(r') == L
            && Free(r'') && r''.don == L && OutVld(r', i') == L
  {
    hide Update, FromBits, TxCmd;
  }

  // ---- errors in the stream -----------------------------------------------------------------

  // The user has no byte and has not finished, or says that there is an error.
  predicate Fails(r: Reg, i: In) {
    r.state.RUN? && i.txDon == L && (if i.vld == L then i.don == L else i.err == H)
  }

  // The command that opens a packet clears the error.
  lemma ErrorCleared(r: Reg, i: In)
    requires r.state.IDLE? && (i.vld == H || i.don == H)
    ensures Next(r, i).err == L
  {
  }

  // From then on, until the packet is over, `err` is up if and only if something failed.
  lemma ErrorKept(r: Reg, i: In)
    requires Sends(r) && i.txDon == L
    ensures Next(r, i).err == H <==> r.err == H || Fails(r, i)
    ensures OutErr(r, i, L) == Next(r, i).err && OutErr(r, i, H) == L
  {
    hide Update;
  }

  predicate AnyFails(r: Reg, ins: seq<In>)
    decreases ins
  {
    ins != [] && (Fails(r, ins[0]) || AnyFails(Next(r, ins[0]), ins[1..]))
  }

  predicate Goes(r: Reg, ins: seq<In>)
    decreases ins
  {
    ins == [] || (Sends(r) && ins[0].txDon == L && Goes(Next(r, ins[0]), ins[1..]))
  }

  // The report at the end of a packet carries the error of the stream.
  lemma {:induction false} ErrorReported(r: Reg, ins: seq<In>)
    requires Goes(r, ins)
    ensures Run(r, ins).err == H <==> r.err == H || AnyFails(r, ins)
    decreases ins
  {
    hide Next, Fails;
    if ins != [] {
      ErrorKept(r, ins[0]);
      ErrorReported(Next(r, ins[0]), ins[1..]);
    }
  }

  // The user's `done` comes exactly for a report from below, and carries the error.
  lemma DoneReported(r: Reg, i: In)
    ensures Next(r, i).don == H <==> i.txDon == H && (Sends(r) || r.state.WAI?)
    ensures r.state.WAI? && i.txDon == H && (r.vld == L || r.nxtr == H) ==> Next(r, i).err == r.err
  {
  }

  // A stream that runs dry: the packet goes on, with its error noted.  Behind a pulse of
  // `nxt` the bus shows the inverted low byte of the register; what the user's data lines
  // carry goes into the register and is what is offered from the next cycle on.
  lemma RunsDry(r: Reg, i: In)
    requires r.state.RUN? && i.txDon == L && i.vld == L && i.don == L
    ensures var r' := Next(r, i);
            && r'.state.RUN? && r'.err == H && r'.nxtr == i.nxt && OutVld(r, i) == H
            && (if r.nxtr == H then OutDat(r, i) == FromBits(Inv(r.crc[..8])) && r'.dat == i.dat
                                    && r'.crc == Update(r.crc, i.dat, POLY16)
                else OutDat(r, i) == r.dat && r'.dat == r.dat && r'.crc == r.crc)
  {
    hide Update, FromBits, XnorErr;
  }

  // Every cycle has a byte of the stream.
  predicate Feeding(r: Reg, ins: seq<In>)
    decreases ins
  {
    ins == [] || (r.state.RUN? && ins[0].txDon == L && ins[0].vld == H && Feeding(Next(r, ins[0]), ins[1..]))
  }

  function Cleared(ins: seq<In>): seq<In> {
    if ins == [] then [] else [ins[0].(err := L)] + Cleared(ins[1..])
  }

  lemma ClearedStep(r: Reg, i: In, e: Bit)
    requires r.state.RUN? && i.txDon == L && i.vld == H
    ensures Next(r.(err := e), i.(err := L)) == Next(r, i).(err := e)
    ensures OutDat(r.(err := e), i.(err := L)) == OutDat(r, i) && OutVld(r.(err := e), i.(err := L)) == OutVld(r, i)
  {
    hide Update, FromBits, XnorErr;
  }

  // An error that the stream reports changes nothing but the flag: the bytes sent, and the
  // register of the checksum, are those of the same stream without it.
  lemma {:induction false} ErrorIsOnlyNoted(r: Reg, ins: seq<In>, e: Bit)
    requires Feeding(r, ins)
    ensures Run(r.(err := e), Cleared(ins)) == Run(r, ins).(err := e)
    ensures Taken(r.(err := e), Cleared(ins)) == Taken(r, ins)
    decreases ins
  {
    hide Next, OutDat, OutVld;
    if ins != [] {
      ClearedStep(r, ins[0], e);
      assert Cleared(ins)[0] == ins[0].(err := L) && Cleared(ins)[1..] == Cleared(ins[1..]);
      ErrorIsOnlyNoted(Next(r, ins[0]), ins[1..], e);
    }
  }

  // ---- the checksum of a failed packet ------------------------------------------------------------

  // The lower layer waits for a number of cycles and then takes a byte.
  predicate Waits(ins: seq<In>) {
    forall k :: 0 <= k < |ins| ==> ins[k].nxt == L && ins[k].txDon == L
  }

  predicate Pulse(i: In) {
    i.nxt == H && i.txDon == L
  }

  // The stream has ended.
  predicate Ended(i: In) {
    i.vld == L && i.don == H
  }

  // The byte before the checksum has just been taken.
  predicate AtChecksum(r: Reg, c: Vec16, e: Bit) {
    (r.state.RUN? || r.state.CHK1?) && r.nxtr == H && r.crc == c && r.err == e
  }

  predicate AtHigh(r: Reg, c: Vec16, e: Bit) {
    r.state.CHK2? && r.nxtr == H && r.crc == c && r.err == e
  }

  // The low byte, offered again: the register has it.
  predicate LowWaits(r: Reg, c: Vec16, e: Bit) {
    r.state.CHK2? && r.nxtr == L && r.crc == c && r.err == e && r.dat == XnorErr(c[..8], e)
  }

  predicate HighWaits(r: Reg, c: Vec16, e: Bit) {
    r.state.WAI? && r.nxtr == L && r.vld == H && r.dat == XnorErr(c[8..], e)
  }

  lemma LowFirst(r: Reg, c: Vec16, e: Bit, i: In)
    requires AtChecksum(r, c, e) && Ended(i) && (Pulse(i) || Waits([i]))
    ensures OutVld(r, i) == H && OutDat(r, i) == FromBits(Inv(c[..8]))
    ensures if i.nxt == H then AtHigh(Next(r, i), c, e) else LowWaits(Next(r, i), c, e)
  {
    assert Waits([i]) ==> [i][0].nxt == L;
    hide Update, FromBits, XnorErr;
  }

  lemma LowAgain(r: Reg, c: Vec16, e: Bit, i: In)
    requires LowWaits(r, c, e) && (Pulse(i) || Waits([i]))
    ensures OutVld(r, i) == H && OutDat(r, i) == XnorErr(c[..8], e)
    ensures if i.nxt == H then AtHigh(Next(r, i), c, e) else LowWaits(Next(r, i), c, e)
  {
    assert Waits([i]) ==> [i][0].nxt == L;
    hide Update, FromBits, XnorErr;
  }

  lemma HighFirst(r: Reg, c: Vec16, e: Bit, i: In)
    requires AtHigh(r, c, e) && (Pulse(i) || Waits([i]))
    ensures OutVld(r, i) == H && OutDat(r, i) == FromBits(Inv(c[8..]))
    ensures i.nxt == L ==> HighWaits(Next(r, i), c, e)
  {
    assert Waits([i]) ==> [i][0].nxt == L;
    hide Update, FromBits, XnorErr;
  }

  lemma HighAgain(r: Reg, c: Vec16, e: Bit, i: In)
    requires HighWaits(r, c, e) && (Pulse(i) || Waits([i]))
    ensures OutVld(r, i) == H && OutDat(r, i) == XnorErr(c[8..], e)
    ensures i.nxt == L ==> HighWaits(Next(r, i), c, e)
  {
    assert Waits([i]) ==> [i][0].nxt == L;
    hide Update, FromBits, XnorErr;
  }

  lemma {:induction false} LowRun(r: Reg, c: Vec16, e: Bit, waits: seq<In>)
    requires LowWaits(r, c, e) && Waits(waits)
    ensures LowWaits(Run(r, waits), c, e) && Taken(r, waits) == []
    decreases waits
  {
    hide Next, LowWaits, OutDat, OutVld;
    if waits != [] {
      LowAgain(r, c, e, waits[0]);
      LowRun(Next(r, waits[0]), c, e, waits[1..]);
    }
  }

  lemma {:induction false} HighRun(r: Reg, c: Vec16, e: Bit, waits: seq<In>)
    requires HighWaits(r, c, e) && Waits(waits)
    ensures HighWaits(Run(r, waits), c, e) && Taken(r, waits) == []
    decreases waits
  {
    hide Next, HighWaits, OutDat, OutVld;
    if waits != [] {
      HighAgain(r, c, e, waits[0]);
      HighRun(Next(r, waits[0]), c, e, waits[1..]);
    }
  }

  lemma {:induction false} TakenConcat(r: Reg, a: seq<In>, b: seq<In>)
    ensures Run(r, a + b) == Run(Run(r, a), b) && Taken(r, a + b) == Taken(r, a) + Taken(Run(r, a), b)
    decreases a
  {
    hide Next, OutDat, Takes;
    if a == [] {
      assert a + b == b;
    } else {
      assert (a + b)[0] == a[0] && (a + b)[1..] == a[1..] + b;
      TakenConcat(Next(r, a[0]), a[1..], b);
    }
  }

  lemma TakenOne(r: Reg, i: In)
    ensures Run(r, [i]) == Next(r, i)
    ensures Taken(r, [i]) == if i.nxt == H && OutVld(r, i) == H then [OutDat(r, i)] else []
  {
    hide Next, OutDat, OutVld;
    assert [i][1..] == [];
    assert Run(r, [i]) == Run(Next(r, i), []) && Taken(Next(r, i), []) == [];
  }

  // A checksum byte as it is taken, after `late` cycles or at once.
  function SumByte(v: Vec8, e: Bit, late: bool): bv8 {
    if late then XnorErr(v, e) else FromBits(Inv(v))
  }

  lemma LowTaken(r: Reg, c: Vec16, e: Bit, waits: seq<In>, i: In)
    requires AtChecksum(r, c, e) && Waits(waits) && Pulse(i) && Ended((waits + [i])[0])
    ensures Taken(r, waits + [i]) == [SumByte(c[..8], e, waits != [])] && AtHigh(Run(r, waits + [i]), c, e)
  {
    hide Next, OutDat, OutVld, AtChecksum, LowWaits, AtHigh, Pulse, Taken, Run;
    if waits == [] {
      assert waits + [i] == [i];
      LowFirst(r, c, e, i);
      TakenOne(r, i);
    } else {
      var w, rest := waits[0], waits[1..];
      assert Waits([w]) && Waits(rest) && waits + [i] == [w] + (rest + [i]);
      LowFirst(r, c, e, w);
      TakenOne(r, w);
      TakenConcat(r, [w], rest + [i]);
      LowRun(Next(r, w), c, e, rest);
      TakenConcat(Next(r, w), rest, [i]);
      LowAgain(Run(Next(r, w), rest), c, e, i);
      TakenOne(Run(Next(r, w), rest), i);
      PulseIs(w);
      PulseIs(i);
    }
    PulseIs(i);
  }

  lemma PulseIs(i: In)
    ensures Pulse(i) ==> i.nxt == H
  {
  }

  lemma HighTaken(r: Reg, c: Vec16, e: Bit, waits: seq<In>, i: In)
    requires AtHigh(r, c, e) && Waits(waits) && Pulse(i)
    ensures Taken(r, waits + [i]) == [SumByte(c[8..], e, waits != [])]
  {
    hide Next, OutDat, OutVld, HighWaits, AtHigh, Pulse, Taken, Run;
    PulseIs(i);
    if waits == [] {
      assert waits + [i] == [i];
      HighFirst(r, c, e, i);
      TakenOne(r, i);
    } else {
      var w, rest := waits[0], waits[1..];
      assert Waits([w]) && Waits(rest) && waits + [i] == [w] + (rest + [i]);
      HighFirst(r, c, e, w);
      TakenOne(r, w);
      TakenConcat(r, [w], rest + [i]);
      HighRun(Next(r, w), c, e, rest);
      TakenConcat(Next(r, w), rest, [i]);
      HighAgain(Run(Next(r, w), rest), c, e, i);
      TakenOne(Run(Next(r, w), rest), i);
    }
  }

  // Not one bit of a byte that is not inverted is that of the inverted one.
  lemma SpoiltByte(v: Vec8)
    ensures XnorErr(v, H) != FromBits(Inv(v)) && XnorErr(v, L) == FromBits(Inv(v))
  {
    BitsFromBits(v);
    BitsFromBits(Inv(v));
    assert v[0] != Inv(v)[0];
  }

  // The two checksum bytes of a packet, taken after any waits, are the complement of the
  // register if and only if no error was noted or neither byte had to wait.  So a packet
  // whose stream reported an error, and whose end is taken without a pause, leaves with a
  // valid checksum; at high speed nothing else tells the lower layer of the error.
  lemma ChecksumOfFailure(r: Reg, c: Vec16, e: Bit, waits: seq<In>, i: In, waits': seq<In>, i': In)
    requires AtChecksum(r, c, e) && Waits(waits) && Pulse(i) && Waits(waits') && Pulse(i') && Ended((waits + [i])[0])
    ensures Taken(r, (waits + [i]) + (waits' + [i'])) == CrcBytes(c) <==> e == L || (waits == [] && waits' == [])
  {
    hide AtChecksum, AtHigh, Pulse, Taken, Run, XnorErr, FromBits, Inv;
    LowTaken(r, c, e, waits, i);
    HighTaken(Run(r, waits + [i]), c, e, waits', i');
    TakenConcat(r, waits + [i], waits' + [i']);
    SpoiltByte(c[..8]);
    SpoiltByte(c[8..]);
    PairsEqual(SumByte(c[..8], e, waits != []), SumByte(c[8..], e, waits' != []),
               FromBits(Inv(c[..8])), FromBits(Inv(c[8..])));
  }

  lemma PairsEqual(a: bv8, b: bv8, x: bv8, y: bv8)
    ensures [a] + [b] == [x, y] <==> a == x && b == y
  {
    var s, t := [a] + [b], [x, y];
    assert s[0] == a && s[1] == b && t[0] == x && t[1] == y;
  }
}
