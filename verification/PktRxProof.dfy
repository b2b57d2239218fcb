// What the packet receiver makes of a packet, for every byte sequence and every
// pattern of wait cycles.
module PktRxProof {
  import opened Logic
  import opened LineCode
  import opened Crc
  import opened PktRx

  // The received strobe only comes from the PHY: `nxt` implies `dir`.
  predicate FromPhy(i: In) {
    i.nxt == H ==> i.dir == H
  }

  // ---- runs and what they show ---------------------------------------------------------

  function Run(r: Reg, ins: seq<In>): Reg
    decreases ins
  {
    if ins == [] then r else Run(Next(r, ins[0]), ins[1..])
  }

  // Everything the user of the receiver sees: payload bytes, end-of-data verdicts
  // (the `err` that goes with `don`) and announced headers.
  datatype View = View(bytes: seq<bv8>, verdicts: seq<Bit>, headers: seq<Hdr>)

  const NOTHING: View := View([], [], [])

  function Both(a: View, b: View): View {
    View(a.bytes + b.bytes, a.verdicts + b.verdicts, a.headers + b.headers)
  }

  // One cycle: the stream during it, and the registered flags after it.
  function Shown(r: Reg, i: In): View {
    var r' := Next(r, i);
    View(if MstVld(r, i) == H then [MstDat(r)] else [],
         if r'.datDon == H then [r'.datErr] else [],
         if r'.hdr.vld == H then [r'.hdr] else [])
  }

  function Seen(r: Reg, ins: seq<In>): View
    decreases ins
  {
    if ins == [] then NOTHING else Both(Shown(r, ins[0]), Seen(Next(r, ins[0]), ins[1..]))
  }

  // The bytes of a run, wait cycles left out.
  function Bytes(ins: seq<In>): seq<bv8> {
    if ins == [] then [] else (if ins[0].nxt == H then [ins[0].dat] else []) + Bytes(ins[1..])
  }

  predicate AllActive(ins: seq<In>) {
    forall i :: i in ins ==> Active(i) && FromPhy(i)
  }

  // ---- the specification ------------------------------------------------------------------

  datatype Kind = Corrupt | Handshake | Token | Data | Other

  function KindOf(b: bv8): Kind {
    if !PidOk(b) then Corrupt
    else if IsTok(b & 0x0f) then Token
    else if IsHsk(b & 0x0f) then Handshake
    else if IsDat(b & 0x0f) then Data else Other
  }

  // All but the last two.
  function Body(d: seq<bv8>): seq<bv8> {
    if |d| < 2 then [] else d[..|d| - 2]
  }

  predicate TokenOk(bs: seq<bv8>) {
    |bs| == 3 && Updates(INIT5, bs[1..], POLY5) == CHCK5
  }

  // ---- the invariant -------------------------------------------------------------------------

  predicate Idle(r: Reg) {
    r.state.WAIT_FOR_START? && r.p0.nxt == L && r.p1.nxt == L
  }

  predicate PipeHolds(r: Reg, d: seq<bv8>) {
    && r.p1.nxt == ToBit(|d| >= 1) && (|d| >= 1 ==> r.p1.dat == d[|d| - 1])
    && r.p0.nxt == ToBit(|d| >= 2) && (|d| >= 2 ==> r.p0.dat == d[|d| - 2])
  }

  predicate PipeEmpty(r: Reg) {
    r.p0.nxt == L && r.p1.nxt == L
  }

  // The state after the bytes `bs` of a packet.
  predicate After(r: Reg, bs: seq<bv8>) {
    if bs == [] then r.state.WAIT_FOR_PID? && PipeEmpty(r) && r.hdr.vld == L
    else
      var pid := bs[0] & 0x0f;
      match KindOf(bs[0])
      case Data =>
        && r.state.DAT? && PipeHolds(r, bs[1..]) && r.crc == Updates(INIT16, bs[1..], POLY16)
        && r.datErr == H && (|bs| > 1 ==> r.hdr.vld == L)
      case Handshake =>
        && r.state.WAIT_FOR_EOP? && PipeEmpty(r) && r.hdr.vld == L
        && r.hdr.pid == pid && r.extraDat == ToBit(|bs| > 1)
      case Token =>
        && PipeEmpty(r) && r.hdr.vld == L && r.hdr.pid == pid
        && (|bs| > 1 ==> r.hdr.tokLo == bs[1])
        && (if |bs| == 1 then r.state.TOK1? && r.crc == INIT5
            else if |bs| == 2 then r.state.TOK2? && r.crc == Updates(INIT5, bs[1..], POLY5)
            else r.state.WAIT_FOR_EOP? && r.hdr.tokHi == bs[2] & 7
                 && (r.extraDat == L <==> TokenOk(bs)))
      case _ =>
        && r.state.WAIT_FOR_EOP? && PipeEmpty(r) && r.hdr.vld == L
        && !IsHsk(r.hdr.pid) && !IsTok(r.hdr.pid)
  }

  lemma UpdatesSnoc(c: Vec16, d: seq<bv8>, b: bv8, poly: Vec16)
    ensures Updates(c, d + [b], poly) == Update(Updates(c, d, poly), b, poly)
  {
    UpdatesConcat(c, d, [b], poly);
  }

  // While the register fits in five bits the table alone is the update.
  lemma Crc5IsUpdate(c: Vec16, b: bv8)
    requires Within(c, 5)
    ensures Crc5(c, b) == Update(c, b, POLY5) && Within(Crc5(c, b), 5)
  {
    var t := Crc5(c, b);
    assert c[8..] + Zeros(8) == ZERO;
    assert forall i :: 0 <= i < 16 ==> Xor(t, ZERO)[i] == t[i];
    assert Xor(t, ZERO) == t;
    UpdateIsSerial(c, b, POLY5);
    SerialWithin(c, POLY5, 5, Bits(b));
  }

  // ---- one cycle -----------------------------------------------------------------------------------

  function Extended(bs: seq<bv8>, i: In): seq<bv8> {
    if i.nxt == H then bs + [i.dat] else bs
  }

  predicate IsDataPacket(bs: seq<bv8>) {
    bs != [] && KindOf(bs[0]) == Data
  }

  function Payload(bs: seq<bv8>): seq<bv8> {
    if bs == [] then [] else bs[1..]
  }

  // What must have been shown while the packet grew from `bs` to `bs'`: the payload
  // minus its hold-off, the header of a data packet as soon as its PID is in, and
  // no verdict yet.
  predicate Grew(bs: seq<bv8>, bs': seq<bv8>, v: View) {
    && v.verdicts == []
    && (if IsDataPacket(bs') then Body(Payload(bs')) == Body(Payload(bs)) + v.bytes else v.bytes == [])
    && (if IsDataPacket(bs') && bs == []
        then |v.headers| == 1 && v.headers[0].pid == bs'[0] & 0x0f && v.headers[0].sof == L
        else v.headers == [])
  }

  lemma StartCycle(r: Reg, i: In)
    requires Idle(r) && Active(i)
    ensures After(Next(r, i), []) && Shown(r, i) == NOTHING
  {
  }

  lemma PidCycle(r: Reg, i: In)
    requires After(r, []) && Active(i) && FromPhy(i)
    ensures After(Next(r, i), Extended([], i)) && Grew([], Extended([], i), Shown(r, i))
  {
    hide Update, Crc5;
  }

  lemma BodySnoc(d: seq<bv8>, b: bv8)
    ensures Body(d + [b]) == Body(d) + (if |d| >= 2 then [d[|d| - 2]] else [])
  {
    if |d| >= 2 {
      assert (d + [b])[..|d| - 1] == d[..|d| - 2] + [d[|d| - 2]];
    }
  }

  lemma DataCycle(r: Reg, bs: seq<bv8>, i: In)
    requires IsDataPacket(bs) && After(r, bs) && Active(i) && FromPhy(i)
    ensures After(Next(r, i), Extended(bs, i)) && Grew(bs, Extended(bs, i), Shown(r, i))
  {
    hide Update, Updates, Crc5;
    var d := bs[1..];
    if i.nxt == H {
      assert (bs + [i.dat])[1..] == d + [i.dat];
      BodySnoc(d, i.dat);
      UpdatesSnoc(INIT16, d, i.dat, POLY16);
    }
  }

  lemma TokenCycle(r: Reg, bs: seq<bv8>, i: In)
    requires bs != [] && KindOf(bs[0]) == Token && After(r, bs) && Active(i) && FromPhy(i)
    ensures After(Next(r, i), Extended(bs, i)) && Grew(bs, Extended(bs, i), Shown(r, i))
  {
    hide Update, Updates, Crc5;
    if i.nxt == H && |bs| <= 2 {
      assert (bs + [i.dat])[1..] == bs[1..] + [i.dat];
      UpdatesSnoc(INIT5, bs[1..], i.dat, POLY5);
      TokenRegister(bs[1..]);
      Crc5IsUpdate(r.crc, i.dat);
    }
  }

  lemma TokenRegister(d: seq<bv8>)
    ensures Within(Updates(INIT5, d, POLY5), 5)
    ensures d == [] ==> Updates(INIT5, d, POLY5) == INIT5
  {
    hide Serial, Update, Flat;
    UpdatesIsSerial(INIT5, d, POLY5);
    SerialWithin(INIT5, POLY5, 5, Flat(d));
  }

  lemma OtherCycle(r: Reg, bs: seq<bv8>, i: In)
    requires bs != [] && KindOf(bs[0]) != Token && KindOf(bs[0]) != Data
    requires After(r, bs) && Active(i) && FromPhy(i)
    ensures After(Next(r, i), Extended(bs, i)) && Grew(bs, Extended(bs, i), Shown(r, i))
  {
    hide Update, Crc5;
  }

  lemma Cycle(r: Reg, bs: seq<bv8>, i: In)
    requires After(r, bs) && Active(i) && FromPhy(i)
    ensures After(Next(r, i), Extended(bs, i)) && Grew(bs, Extended(bs, i), Shown(r, i))
  {
    hide Next, Shown, Grew;
    if bs == [] { PidCycle(r, i); }
    else if KindOf(bs[0]) == Data { DataCycle(r, bs, i); }
    else if KindOf(bs[0]) == Token { TokenCycle(r, bs, i); }
    else { OtherCycle(r, bs, i); }
  }

  // The last cycle: the verdict on data, the announcement of a good token or
  // handshake, and nothing else.
  predicate Concluded(bs: seq<bv8>, v: View) {
    && v.bytes == []
    && v.verdicts == (if IsDataPacket(bs) then [ToBit(!Accepted(bs[1..]))] else [])
    && (if bs != [] && KindOf(bs[0]) == Handshake && |bs| == 1 then
          |v.headers| == 1 && v.headers[0].pid == bs[0] & 0x0f && v.headers[0].sof == L
        else if bs != [] && KindOf(bs[0]) == Token && TokenOk(bs) then
          |v.headers| == 1 && v.headers[0].pid == bs[0] & 0x0f
          && v.headers[0].sof == ToBit(bs[0] & 0x0f == PID_SOF)
          && v.headers[0].tokLo == bs[1] && v.headers[0].tokHi == bs[2] & 7 && v.headers[0].vld == H
        else v.headers == [])
  }

  lemma EndCycle(r: Reg, bs: seq<bv8>, i: In)
    requires After(r, bs) && !Active(i) && FromPhy(i)
    ensures Idle(Next(r, i)) && Concluded(bs, Shown(r, i))
  {
    hide Update, Updates, Crc5;
  }

  // ---- whole packets --------------------------------------------------------------------------------

  lemma GrewTrans(bs: seq<bv8>, b1: seq<bv8>, b2: seq<bv8>, v: View, w: View)
    requires bs <= b1 <= b2 && Grew(bs, b1, v) && Grew(b1, b2, w)
    ensures Grew(bs, b2, Both(v, w))
  {
    hide Body, KindOf;
    if b1 == [] {
      assert v == NOTHING && bs == [];
      Units(w);
    } else {
      assert b1[0] == b2[0];
      Glue(Body(Payload(bs)), v.bytes, w.bytes);
      assert v.headers + [] == v.headers && [] + w.headers == w.headers;
    }
  }

  lemma Glue(a: seq<bv8>, b: seq<bv8>, c: seq<bv8>)
    ensures (a + b) + c == a + (b + c)
    ensures b == [] && c == [] ==> b + c == []
  {
  }

  lemma BytesStep(bs: seq<bv8>, ins: seq<In>)
    requires ins != [] && AllActive(ins)
    ensures Extended(bs, ins[0]) + Bytes(ins[1..]) == bs + Bytes(ins) && bs <= Extended(bs, ins[0])
    ensures Active(ins[0]) && FromPhy(ins[0]) && AllActive(ins[1..])
  {
    hide Active, FromPhy;
    assert ins[0] in ins && forall x :: x in ins[1..] ==> x in ins;
    var now, rest := if ins[0].nxt == H then [ins[0].dat] else [], Bytes(ins[1..]);
    assert Bytes(ins) == now + rest;
    assert Extended(bs, ins[0]) == bs + now;
    Glue(bs, now, rest);
  }

  lemma {:induction false} ActiveRun(r: Reg, bs: seq<bv8>, ins: seq<In>)
    requires After(r, bs) && AllActive(ins)
    ensures After(Run(r, ins), bs + Bytes(ins)) && Grew(bs, bs + Bytes(ins), Seen(r, ins))
    decreases ins
  {
    hide Next, After, Grew, Shown, Both, Extended, AllActive, Active, FromPhy, Bytes;
    if ins == [] {
      assert bs + Bytes([]) == bs by { NoBytes(); }
      GrewNothing(bs);
    } else {
      var i, b1 := ins[0], Extended(bs, ins[0]);
      BytesStep(bs, ins);
      Cycle(r, bs, i);
      ActiveRun(Next(r, i), b1, ins[1..]);
      GrewTrans(bs, b1, bs + Bytes(ins), Shown(r, i), Seen(Next(r, i), ins[1..]));
    }
  }

  lemma NoBytes()
    ensures Bytes([]) == []
  {
  }

  lemma GrewNothing(bs: seq<bv8>)
    ensures Grew(bs, bs, NOTHING)
  {
  }

  lemma {:induction false} RunConcat(r: Reg, a: seq<In>, b: seq<In>)
    ensures Run(r, a + b) == Run(Run(r, a), b) && Seen(r, a + b) == Both(Seen(r, a), Seen(Run(r, a), b))
    decreases a
  {
    hide Next, Shown;
    if a == [] {
      assert a + b == b;
    } else {
      assert (a + b)[1..] == a[1..] + b;
      RunConcat(Next(r, a[0]), a[1..], b);
      BothAssoc(Shown(r, a[0]), Seen(Next(r, a[0]), a[1..]), Seen(Run(r, a), b));
    }
  }

  lemma BothAssoc(a: View, b: View, c: View)
    ensures Both(a, Both(b, c)) == Both(Both(a, b), c)
  {
  }

  // A received packet: the cycle in which the PHY turns active, any mix of bytes
  // and wait cycles, and the cycle in which it is no longer active.
  predicate Reception(start: In, ins: seq<In>, end: In) {
    Active(start) && AllActive(ins) && !Active(end) && FromPhy(end)
  }

  lemma {:induction false} Received(r: Reg, start: In, ins: seq<In>, end: In) returns (v: View, w: View)
    requires Idle(r) && Reception(start, ins, end)
    ensures Idle(Run(r, [start] + (ins + [end])))
    ensures Grew([], Bytes(ins), v) && Concluded(Bytes(ins), w) && Seen(r, [start] + (ins + [end])) == Both(v, w)
  {
    hide Next, Shown, After, Grew, Concluded;
    var r1 := Next(r, start);
    StartCycle(r, start);
    ActiveRun(r1, [], ins);
    assert [] + Bytes(ins) == Bytes(ins);
    var r2 := Run(r1, ins);
    EndCycle(r2, Bytes(ins), end);
    v, w := Seen(r1, ins), Shown(r2, end);
    assert ([start] + (ins + [end]))[1..] == ins + [end];
    RunConcat(r1, ins, [end]);
    OneCycle(r2, end);
    assert Both(NOTHING, Both(v, w)) == Both(v, w) by { Units(Both(v, w)); }
  }

  lemma OneCycle(r: Reg, i: In)
    ensures Run(r, [i]) == Next(r, i) && Seen(r, [i]) == Shown(r, i)
  {
    hide Next, Shown;
    assert [i][1..] == [];
    Units(Shown(r, i));
  }

  lemma Units(v: View)
    ensures Both(NOTHING, v) == v && Both(v, NOTHING) == v
  {
  }

  // Data: for every byte sequence and every pattern of waits, all bytes but the
  // last two are handed on in order, the header is announced once, and `don` comes
  // once, with `err` clear exactly when the checksum over all bytes is right.
  lemma DataReceived(r: Reg, start: In, ins: seq<In>, end: In)
    requires Idle(r) && Reception(start, ins, end) && IsDataPacket(Bytes(ins))
    ensures var all := [start] + (ins + [end]); var v := Seen(r, all);
            && Idle(Run(r, all))
            && v.bytes == Body(Bytes(ins)[1..])
            && v.verdicts == [ToBit(!Accepted(Bytes(ins)[1..]))]
            && |v.headers| == 1 && v.headers[0].pid == Bytes(ins)[0] & 0x0f
  {
    hide Run, Next, Seen, Updates, Bytes;
    var v, w := Received(r, start, ins, end);
  }

  // Tokens: announced exactly when two bytes follow the PID and their CRC5 is
  // right; nothing else is shown.
  lemma TokenReceived(r: Reg, start: In, ins: seq<In>, end: In)
    requires Idle(r) && Reception(start, ins, end) && Bytes(ins) != [] && KindOf(Bytes(ins)[0]) == Token
    ensures var bs := Bytes(ins); var all := [start] + (ins + [end]); var v := Seen(r, all);
            && Idle(Run(r, all)) && v.bytes == [] && v.verdicts == []
            && (v.headers != [] <==>
                  |bs| == 3 && TokenField(bs[1], bs[2]) == Inv(Serial(INIT5, POLY5, TokenBits(bs[1], bs[2]))[..5]))
            && (v.headers != [] ==>
                  v.headers == [Hdr(bs[0] & 0x0f, bs[1], bs[2] & 7, ToBit(bs[0] & 0x0f == PID_SOF), H)])
  {
    hide Run, Next, Seen, Updates, Serial, Bytes;
    var v, w := Received(r, start, ins, end);
    var bs := Bytes(ins);
    if |bs| == 3 {
      TokenSplit(bs[1], bs[2]);
      assert bs[1..] == [bs[1], bs[2]];
      TokenAcceptedIff(TokenBits(bs[1], bs[2]), TokenField(bs[1], bs[2]));
    }
  }

  // The eleven bits of a token and the five of its checksum.
  function TokenBits(b1: bv8, b2: bv8): (s: seq<bool>)
    ensures |s| == 11
  {
    Bits(b1) + Bits(b2)[..3]
  }

  function TokenField(b1: bv8, b2: bv8): (s: seq<bool>)
    ensures |s| == 5
  {
    Bits(b2)[3..]
  }

  lemma TokenSplit(b1: bv8, b2: bv8)
    ensures Updates(INIT5, [b1, b2], POLY5) == Serial(INIT5, POLY5, TokenBits(b1, b2) + TokenField(b1, b2))
  {
    hide Serial, Updates, Bits;
    UpdatesIsSerial(INIT5, [b1, b2], POLY5);
    assert [b1, b2][1..] == [b2] && [b2][1..] == [];
    assert Flat([b2]) == Bits(b2) + Flat([]);
    assert Flat([b1, b2]) == Bits(b1) + Flat([b2]);
    assert Flat([b1, b2]) == TokenBits(b1, b2) + TokenField(b1, b2);
  }

  // Handshakes: announced exactly when nothing follows the PID.
  lemma HandshakeReceived(r: Reg, start: In, ins: seq<In>, end: In)
    requires Idle(r) && Reception(start, ins, end) && Bytes(ins) != [] && KindOf(Bytes(ins)[0]) == Handshake
    ensures var all := [start] + (ins + [end]); var v := Seen(r, all);
            && Idle(Run(r, all)) && v.bytes == [] && v.verdicts == []
            && (v.headers != [] <==> |Bytes(ins)| == 1)
            && (v.headers != [] ==> |v.headers| == 1 && v.headers[0].pid == Bytes(ins)[0] & 0x0f)
  {
    hide Run, Next, Seen, Updates, Bytes;
    var v, w := Received(r, start, ins, end);
  }

  // A corrupt PID, an unsupported one, or no PID at all shows nothing.
  lemma OthersIgnored(r: Reg, start: In, ins: seq<In>, end: In)
    requires Idle(r) && Reception(start, ins, end)
    requires Bytes(ins) == [] || KindOf(Bytes(ins)[0]) == Corrupt || KindOf(Bytes(ins)[0]) == Other
    ensures Idle(Run(r, [start] + (ins + [end]))) && Seen(r, [start] + (ins + [end])) == NOTHING
  {
    hide Run, Next, Seen, Updates, Bytes;
    var v, w := Received(r, start, ins, end);
  }
}
