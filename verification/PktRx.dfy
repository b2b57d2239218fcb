// The packet receiver, core/hdl/Usb2PktRx.vhd: classification by PID, two bytes of
// hold-off for the checksum, and the verdict at the end of packet.
module PktRx {
  import opened Logic
  import opened LineCode
  import opened Crc

  datatype State = WAIT_FOR_START | WAIT_FOR_EOP | WAIT_FOR_PID | TOK1 | TOK2 | DAT

  // `tokDat` is kept as its low byte and its top three bits.
  datatype Hdr = Hdr(pid: bv8, tokLo: bv8, tokHi: bv8, sof: Bit, vld: Bit)

  datatype Slot = Slot(dat: bv8, nxt: Bit)

  datatype Reg = Reg(
    state: State, hdr: Hdr, crc: Vec16, extraDat: Bit, p0: Slot, p1: Slot,
    datDon: Bit, datErr: Bit, rxCmd: bv8)

  // UlpiRxType
  datatype In = In(dat: bv8, dir: Bit, nxt: Bit, trn: Bit)

  const INIT: Reg := Reg(WAIT_FOR_START, Hdr(0, 0, 0, L, L), OnesAt({}), L, Slot(0, L), Slot(0, L), L, L, 0)

  const PID_NONE: bv8 := 0
  const PID_SOF: bv8 := 5
  const PID_PING: bv8 := 4

  predicate IsTok(pid: bv8) {
    pid & 3 == 1 || pid == PID_PING
  }

  predicate IsHsk(pid: bv8) {
    pid & 3 == 2
  }

  predicate IsDat(pid: bv8) {
    pid & 3 == 3
  }

  // The upper nibble of a PID byte is the complement of the lower.
  predicate PidOk(b: bv8) {
    (b >> 4) ^ (b & 0x0f) == 0x0f
  }

  predicate IsRxCmd(i: In) {
    i.dir == H && i.trn == L && i.nxt == L
  }

  // ulpiRxActive
  predicate Active(i: In) {
    i.dir == H && (i.nxt == H || (i.trn == L && i.dat & 0x10 != 0))
  }

  function Crc5(c: Vec16, d: bv8): Vec16 {
    Table(Xor(Bits(d), c[..8]), POLY5)
  }

  // ---- next-state equations ----------------------------------------------------------

  predicate Ends(r: Reg, i: In) {
    !Active(i) && !r.state.WAIT_FOR_START?
  }

  // A byte arrives in the given state.
  predicate Gets(r: Reg, i: In, state: State) {
    r.state == state && !Ends(r, i) && i.nxt == H
  }

  predicate GetsPid(r: Reg, i: In) {
    Gets(r, i, WAIT_FOR_PID) && PidOk(i.dat)
  }

  function Pid(i: In): bv8 {
    i.dat & 0x0f
  }

  function NextState(r: Reg, i: In): State {
    if Ends(r, i) then WAIT_FOR_START
    else match r.state
      case WAIT_FOR_START => if Active(i) then WAIT_FOR_PID else WAIT_FOR_START
      case WAIT_FOR_PID =>
        if i.nxt == L then WAIT_FOR_PID
        else if !PidOk(i.dat) then WAIT_FOR_EOP
        else if IsTok(Pid(i)) then TOK1
        else if IsDat(Pid(i)) then DAT else WAIT_FOR_EOP
      case TOK1 => if i.nxt == H then TOK2 else TOK1
      case TOK2 => if i.nxt == H then WAIT_FOR_EOP else TOK2
      case _ => r.state
  }

  predicate Announces(r: Reg, i: In) {
    Ends(r, i) && r.state.WAIT_FOR_EOP? && (IsHsk(r.hdr.pid) || IsTok(r.hdr.pid)) && r.extraDat == L
  }

  function NextHdr(r: Reg, i: In): Hdr {
    Hdr(if Gets(r, i, WAIT_FOR_PID) then (if PidOk(i.dat) then Pid(i) else PID_NONE)
        else if r.hdr.vld == H then PID_NONE else r.hdr.pid,
        if Gets(r, i, TOK1) then i.dat else r.hdr.tokLo,
        if Gets(r, i, TOK2) then i.dat & 7 else r.hdr.tokHi,
        ToBit(Announces(r, i) && r.hdr.pid == PID_SOF),
        ToBit(Announces(r, i) || (GetsPid(r, i) && IsDat(Pid(i)))))
  }

  function NextCrc(r: Reg, i: In): Vec16 {
    if GetsPid(r, i) && IsTok(Pid(i)) then INIT5
    else if GetsPid(r, i) && IsDat(Pid(i)) then INIT16
    else if Gets(r, i, TOK1) then Crc5(r.crc, i.dat)
    else if Gets(r, i, DAT) then Update(r.crc, i.dat, POLY16)
    else r.crc
  }

  function NextExtraDat(r: Reg, i: In): Bit {
    if Gets(r, i, WAIT_FOR_EOP) then H
    else if GetsPid(r, i) && IsHsk(Pid(i)) then L
    else if Gets(r, i, TOK2) then ToBit(Crc5(r.crc, i.dat) != CHCK5)
    else r.extraDat
  }

  function NextErr(r: Reg, i: In): Bit {
    if Ends(r, i) && r.state.DAT? && r.crc == CHCK16 then L
    else if GetsPid(r, i) && IsDat(Pid(i)) then H
    else r.datErr
  }

  function NextP0(r: Reg, i: In): Slot {
    if Ends(r, i) && r.state.DAT? then r.p0.(nxt := L)
    else if Gets(r, i, DAT) then r.p1 else r.p0
  }

  function NextP1(r: Reg, i: In): Slot {
    if Ends(r, i) && r.state.DAT? then r.p1.(nxt := L)
    else if Gets(r, i, DAT) then Slot(i.dat, H) else r.p1
  }

  function Next(r: Reg, i: In): Reg {
    Reg(NextState(r, i), NextHdr(r, i), NextCrc(r, i), NextExtraDat(r, i), NextP0(r, i), NextP1(r, i),
        ToBit(Ends(r, i) && r.state.DAT?), NextErr(r, i),
        if IsRxCmd(i) then i.dat else r.rxCmd)
  }

  // ---- outputs ------------------------------------------------------------------------------

  // usb2Rx.mst: a payload byte is handed on when the byte two places later arrives.
  function MstVld(r: Reg, i: In): Bit {
    And(r.p0.nxt, i.nxt)
  }

  function MstDat(r: Reg): bv8 {
    r.p0.dat
  }

  // ---- the entity ----------------------------------------------------------------------------

  class Usb2PktRx {
    var r: Reg

    constructor ()
      ensures r == INIT
    {
      r := INIT;
    }

    // One clock edge.
    method Step(rst: Bit, i: In)
      modifies this
      ensures r == if rst == H then INIT else Next(old(r), i)
    {
      var v;
      if !Active(i) && r.state != WAIT_FOR_START {
        v := EndCycle(r, i);
      } else {
        v := ByteCycle(r, i);
      }
      r := v;
      if rst == H {
        r := INIT;
      }
    }
  }

  method EndCycle(r: Reg, i: In) returns (v: Reg)
    requires Ends(r, i)
    ensures v == Next(r, i)
  {
    var pid, sof, vld := if r.hdr.vld == H then PID_NONE else r.hdr.pid, L, L;
    var p0, p1, datDon, datErr := r.p0, r.p1, L, r.datErr;
    if r.state == WAIT_FOR_EOP {
      if (IsHsk(r.hdr.pid) || IsTok(r.hdr.pid)) && r.extraDat == L {
        vld := H;
        sof := ToBit(r.hdr.pid == PID_SOF);
      }
    }
    if r.state == DAT {
      datDon := H;
      p0, p1 := p0.(nxt := L), p1.(nxt := L);
      if r.crc == CHCK16 {
        datErr := L;
      }
    }
    v := Reg(WAIT_FOR_START, Hdr(pid, r.hdr.tokLo, r.hdr.tokHi, sof, vld), r.crc, r.extraDat,
             p0, p1, datDon, datErr, if IsRxCmd(i) then i.dat else r.rxCmd);
  }

  method ByteCycle(r: Reg, i: In) returns (v: Reg)
    requires !Ends(r, i)
    ensures v == Next(r, i)
  {
    hide Update, Crc5;
    var hdr := Hdr(if r.hdr.vld == H then PID_NONE else r.hdr.pid, r.hdr.tokLo, r.hdr.tokHi, L, L);
    var rxCmd := if IsRxCmd(i) then i.dat else r.rxCmd;
    match r.state {
      case WAIT_FOR_START =>
        var state := if Active(i) then WAIT_FOR_PID else WAIT_FOR_START;
        v := Reg(state, hdr, r.crc, r.extraDat, r.p0, r.p1, L, r.datErr, rxCmd);
      case WAIT_FOR_EOP =>
        var extraDat := if i.nxt == H then H else r.extraDat;
        v := Reg(WAIT_FOR_EOP, hdr, r.crc, extraDat, r.p0, r.p1, L, r.datErr, rxCmd);
      case WAIT_FOR_PID =>
        if i.nxt == H {
          v := PidCycle(r, i);
        } else {
          v := Reg(WAIT_FOR_PID, hdr, r.crc, r.extraDat, r.p0, r.p1, L, r.datErr, rxCmd);
        }
      case DAT =>
        if i.nxt == H {
          v := Reg(DAT, hdr, Update(r.crc, i.dat, POLY16), r.extraDat, r.p1, Slot(i.dat, H), L, r.datErr, rxCmd);
        } else {
          v := Reg(DAT, hdr, r.crc, r.extraDat, r.p0, r.p1, L, r.datErr, rxCmd);
        }
      case _ => v := TokenCycle(r, i);
    }
  }

  lemma TokenHdr(r: Reg, i: In)
    requires !Ends(r, i) && (r.state.TOK1? || r.state.TOK2?)
    ensures NextHdr(r, i) == Hdr(if r.hdr.vld == H then PID_NONE else r.hdr.pid,
                                 if r.state.TOK1? && i.nxt == H then i.dat else r.hdr.tokLo,
                                 if r.state.TOK2? && i.nxt == H then i.dat & 7 else r.hdr.tokHi, L, L)
  {
    hide PidOk, IsDat, IsHsk, IsTok;
  }

  lemma TokenOthers(r: Reg, i: In)
    requires !Ends(r, i) && (r.state.TOK1? || r.state.TOK2?)
    ensures NextState(r, i) == if i.nxt == L then r.state else if r.state.TOK1? then TOK2 else WAIT_FOR_EOP
    ensures NextCrc(r, i) == if r.state.TOK1? && i.nxt == H then Crc5(r.crc, i.dat) else r.crc
    ensures NextExtraDat(r, i) ==
            if r.state.TOK2? && i.nxt == H then ToBit(Crc5(r.crc, i.dat) != CHCK5) else r.extraDat
    ensures NextP0(r, i) == r.p0 && NextP1(r, i) == r.p1 && NextErr(r, i) == r.datErr
  {
    hide PidOk, IsDat, IsHsk, IsTok, Update, Crc5;
  }

  method TokenCycle(r: Reg, i: In) returns (v: Reg)
    requires !Ends(r, i) && (r.state.TOK1? || r.state.TOK2?)
    ensures v == Next(r, i)
  {
    hide Update, Crc5, NextHdr, NextErr, NextP0, NextP1, NextCrc, NextExtraDat, NextState;
    TokenHdr(r, i);
    TokenOthers(r, i);
    var pid := if r.hdr.vld == H then PID_NONE else r.hdr.pid;
    var state, tokLo, tokHi, crc, extraDat := r.state, r.hdr.tokLo, r.hdr.tokHi, r.crc, r.extraDat;
    if i.nxt == H {
      if r.state == TOK1 {
        state, tokLo, crc := TOK2, i.dat, Crc5(r.crc, i.dat);
      } else {
        state, tokHi, extraDat := WAIT_FOR_EOP, i.dat & 7, L;
        if Crc5(r.crc, i.dat) != CHCK5 {
          extraDat := H;
        }
      }
    }
    v := Reg(state, Hdr(pid, tokLo, tokHi, L, L), crc, extraDat, r.p0, r.p1, L, r.datErr,
             if IsRxCmd(i) then i.dat else r.rxCmd);
  }

  method PidCycle(r: Reg, i: In) returns (v: Reg)
    requires Gets(r, i, WAIT_FOR_PID)
    ensures v == Next(r, i)
  {
    var state, pid, vld, crc, extraDat, datErr := WAIT_FOR_EOP, PID_NONE, L, r.crc, r.extraDat, r.datErr;
    if PidOk(i.dat) {
      pid := i.dat & 0x0f;
      if IsTok(pid) {
        state, crc := TOK1, INIT5;
      } else if IsHsk(pid) {
        extraDat := L;
      } else if IsDat(pid) {
        crc, datErr, vld, state := INIT16, H, H, DAT;
      }
    }
    v := Reg(state, Hdr(pid, r.hdr.tokLo, r.hdr.tokHi, L, vld), crc, extraDat, r.p0, r.p1, L, datErr, r.rxCmd);
  }
}
