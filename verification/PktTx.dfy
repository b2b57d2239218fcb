// The packet transmitter, core/hdl/Usb2PktTx.vhd: PID, payload and CRC as one byte
// stream under a registered `nxt`.
module PktTx {
  import opened Logic
  import opened LineCode
  import opened Crc

  datatype State = IDLE | RUN | CHK1 | CHK2 | WAI | DONE

  // ulpiReq is split into its three fields.
  datatype Reg = Reg(
    state: State, nxtr: Bit, dat: bv8, vld: Bit, err: Bit, crc: Vec16, don: Bit, isDat: Bit)

  // `nxt` and `txDon` come from below, the other signals from the user's stream;
  // `usr` carries the PID.
  datatype In = In(nxt: Bit, txDon: Bit, dat: bv8, usr: bv8, vld: Bit, don: Bit, err: Bit)

  const INIT: Reg := Reg(IDLE, L, 0, L, L, OnesAt({}), L, L)

  predicate PidIsDat(pid: bv8) {
    pid & 3 == 3
  }

  function TxCmd(pid: bv8): bv8 {
    0x40 | (pid & 0x0f)
  }

  // A register byte on the wire: inverted, except after an error.
  function XnorErr(v: Vec8, err: Bit): bv8 {
    FromBits(if err == L then Inv(v) else v)
  }

  // ---- next-state equations ----------------------------------------------------------

  predicate Begins(r: Reg, i: In) {
    r.state.IDLE? && (i.vld == H || i.don == H)
  }

  predicate Sends(r: Reg) {
    r.state.RUN? || r.state.CHK1? || r.state.CHK2?
  }

  predicate Aborts(r: Reg, i: In) {
    Sends(r) && i.txDon == H
  }

  // The stream has no byte, or is over.
  predicate Closes(r: Reg, i: In) {
    Sends(r) && i.txDon == L && (i.vld == L || !r.state.RUN?)
  }

  predicate Underruns(r: Reg, i: In) {
    Closes(r, i) && r.state.RUN? && i.don != H
  }

  predicate Feeds(r: Reg, i: In) {
    Sends(r) && i.txDon == L && i.vld == H && r.state.RUN?
  }

  // A stream byte is stored and goes into the checksum.
  predicate Stores(r: Reg, i: In) {
    (Feeds(r, i) || Underruns(r, i)) && r.nxtr == H
  }

  // A checksum byte has been asked for.
  predicate Appends(r: Reg, i: In) {
    Closes(r, i) && !Underruns(r, i) && r.nxtr == H
  }

  function NextState(r: Reg, i: In): State {
    match r.state
    case IDLE =>
      if !Begins(r, i) then IDLE
      else if i.don == H && PidIsDat(i.usr) then CHK1 else RUN
    case WAI => if i.txDon == H then DONE else WAI
    case DONE => IDLE
    case _ =>
      if Aborts(r, i) then DONE
      else if Appends(r, i) then (if r.state.CHK2? then WAI else CHK2)
      else if Closes(r, i) && !Underruns(r, i) && r.state.RUN? then (if r.isDat == H then CHK1 else WAI)
      else r.state
  }

  function NextVld(r: Reg, i: In): Bit {
    if Sends(r) then Not(i.txDon)
    else if r.state.WAI? && (r.nxtr == H || i.txDon == H) then L
    else r.vld
  }

  function NextNxtr(r: Reg, i: In): Bit {
    if Sends(r) then (if Aborts(r, i) then L else i.nxt)
    else if r.state.WAI? && NextVld(r, i) == H then i.nxt
    else L
  }

  function NextDat(r: Reg, i: In): bv8 {
    if Begins(r, i) then TxCmd(i.usr)
    else if Aborts(r, i) then 0
    else if Stores(r, i) then i.dat
    else if Appends(r, i) then XnorErr(if r.state.CHK2? then r.crc[8..] else r.crc[..8], r.err)
    else if r.state.WAI? && (r.nxtr == H || i.txDon == H) then 0
    else r.dat
  }

  function NextCrc(r: Reg, i: In): Vec16 {
    if Begins(r, i) then INIT16
    else if Stores(r, i) then Update(r.crc, i.dat, POLY16)
    else r.crc
  }

  function NextErr(r: Reg, i: In): Bit {
    if Begins(r, i) then L
    else if Aborts(r, i) || Underruns(r, i) || (Feeds(r, i) && i.err == H) then H
    else if r.state.WAI? && i.txDon == H && r.nxtr == L && r.vld == H then H
    else r.err
  }

  function Next(r: Reg, i: In): Reg {
    Reg(NextState(r, i), NextNxtr(r, i), NextDat(r, i), NextVld(r, i), NextErr(r, i), NextCrc(r, i),
        ToBit(Aborts(r, i) || (r.state.WAI? && i.txDon == H)),
        if r.state.IDLE? then ToBit(i.don == L || PidIsDat(i.usr)) else r.isDat)
  }

  // ---- outputs -----------------------------------------------------------------------------

  // A stream byte is consumed.
  function Rdy(r: Reg): Bit {
    if r.state.RUN? then r.nxtr else L
  }

  // `vld` is the freshly computed flag, for the timing of the status byte.
  function OutVld(r: Reg, i: In): Bit {
    NextVld(r, i)
  }

  function OutErr(r: Reg, i: In, hiSpeed: Bit): Bit {
    And(NextErr(r, i), Not(hiSpeed))
  }

  // Process P_MUX: after a `nxt` the byte does not come from the register yet.
  function OutDat(r: Reg, i: In): bv8 {
    if r.nxtr == L then r.dat
    else if OutVld(r, i) == L then 0
    else if r.state.CHK2? then FromBits(Inv(r.crc[8..]))
    else if i.vld == L then FromBits(Inv(r.crc[..8]))
    else i.dat
  }

  // ---- the entity ---------------------------------------------------------------------------

  class Usb2PktTx {
    var r: Reg

    constructor ()
      ensures r == INIT
    {
      r := INIT;
    }

    // One clock edge.
    method Step(rst: Bit, i: In)
      modifies this
      ensures r == if rst == H then INIT else Next(old(r), i)
    {
      var v;
      match r.state {
        case IDLE => v := IdleCycle(r, i);
        case WAI => v := WaitCycle(r, i);
        case DONE => v := r.(nxtr := L, don := L, state := IDLE);
        case _ =>
          if i.txDon == H {
            // aborted from below
            v := Reg(DONE, L, 0, L, H, r.crc, H, r.isDat);
          } else {
            v := SendCycle(r, i);
          }
      }
      r := v;
      if rst == H {
        r := INIT;
      }
    }
  }

  method IdleCycle(r: Reg, i: In) returns (v: Reg)
    requires r.state.IDLE?
    ensures v == Next(r, i)
  {
    var state, dat, err, crc, isDat := r.state, r.dat, r.err, r.crc, H;
    if i.vld == H || i.don == H {
      dat, err, crc := TxCmd(i.usr), L, INIT16;
      if i.don == L {
        state := RUN;
      } else if PidIsDat(i.usr) {
        state := CHK1;
      } else {
        state, isDat := RUN, L;
      }
    }
    v := Reg(state, L, dat, r.vld, err, crc, L, isDat);
  }

  lemma SendPlain(r: Reg, i: In)
    requires Sends(r) && i.txDon == L
    ensures NextNxtr(r, i) == i.nxt && NextVld(r, i) == H
    ensures Next(r, i) == Reg(NextState(r, i), i.nxt, NextDat(r, i), H, NextErr(r, i), NextCrc(r, i), L, r.isDat)
  {
    hide NextState, NextDat, NextErr, NextCrc;
  }

  lemma SendStores(r: Reg, i: In)
    requires Sends(r) && i.txDon == L && r.state.RUN? && (i.vld == H || i.don != H)
    ensures NextState(r, i) == RUN && NextDat(r, i) == (if r.nxtr == H then i.dat else r.dat)
    ensures NextCrc(r, i) == if r.nxtr == H then Update(r.crc, i.dat, POLY16) else r.crc
    ensures NextErr(r, i) == if i.vld == L || i.err == H then H else r.err
  {
    hide Update, XnorErr, TxCmd;
  }

  lemma SendCloses(r: Reg, i: In)
    requires Closes(r, i) && !Underruns(r, i)
    ensures NextCrc(r, i) == r.crc && NextErr(r, i) == r.err
  {
    hide Update;
  }

  method SendCycle(r: Reg, i: In) returns (v: Reg)
    requires Sends(r) && i.txDon == L
    ensures v == Next(r, i)
  {
    hide Next, NextState, NextDat, NextErr, NextCrc, Update;
    SendPlain(r, i);
    if i.vld == L || r.state != RUN {
      if i.don != H && r.state == RUN {
        SendStores(r, i);
        var dat, crc := StoreByte(r, i);
        v := Reg(RUN, i.nxt, dat, H, H, crc, L, r.isDat);
      } else {
        SendCloses(r, i);
        var state, dat := CloseStream(r, i);
        v := Reg(state, i.nxt, dat, H, r.err, r.crc, L, r.isDat);
      }
    } else {
      SendStores(r, i);
      var err := r.err;
      if i.err == H {
        err := H;
      }
      var dat, crc := StoreByte(r, i);
      v := Reg(RUN, i.nxt, dat, H, err, crc, L, r.isDat);
    }
  }

  method StoreByte(r: Reg, i: In) returns (dat: bv8, crc: Vec16)
    ensures dat == (if r.nxtr == H then i.dat else r.dat)
    ensures crc == if r.nxtr == H then Update(r.crc, i.dat, POLY16) else r.crc
  {
    dat, crc := r.dat, r.crc;
    if r.nxtr == H {
      dat, crc := i.dat, Update(r.crc, i.dat, POLY16);
    }
  }

  method CloseStream(r: Reg, i: In) returns (state: State, dat: bv8)
    requires Closes(r, i) && !Underruns(r, i)
    ensures state == NextState(r, i) && dat == NextDat(r, i)
  {
    state, dat := r.state, r.dat;
    if r.nxtr == H {
      if r.state == CHK2 {
        state, dat := WAI, XnorErr(r.crc[8..], r.err);
      } else {
        state, dat := CHK2, XnorErr(r.crc[..8], r.err);
      }
    } else if r.state == RUN {
      state := if r.isDat == H then CHK1 else WAI;
    }
  }

  method WaitCycle(r: Reg, i: In) returns (v: Reg)
    requires r.state.WAI?
    ensures v == Next(r, i)
  {
    var state, nxtr, vld, dat, err, don := r.state, i.nxt, r.vld, r.dat, r.err, L;
    if r.nxtr == H {
      vld, dat := L, 0;
    }
    if vld == L {
      nxtr := L;
    }
    if i.txDon == H {
      don, dat, nxtr, state := H, 0, L, DONE;
      if vld == H {
        vld, err := L, H;
      }
    }
    v := Reg(state, nxtr, dat, vld, err, r.crc, don, r.isDat);
  }
}
