// The ULPI output buffer, core/hdl/UlpiIOBuf.vhd: two bytes of elasticity towards
// the PHY, the stop cycle with its status byte, and the done pulse.
module UlpiIOBuf {
  import opened Logic

  // The record r, and the registers at the pins.
  datatype Reg = Reg(
    buf: bv8, douVld: Bit, bufVld: Bit, trn: Bit, txBsy: Bit, sta: Bit,
    din: bv8, dir: Bit, nxt: Bit, stpI: Bit, dou: bv8, stp: Bit)

  // The PHY's side of the bus, and the user's.
  datatype Ib = Ib(dir: Bit, nxt: Bit, stp: Bit, dat: bv8)
  datatype In = In(ib: Ib, genStp: Bit, regOpr: Bit, frcStp: Bit, txVld: Bit, txDat: bv8, txSta: Bit)

  const INIT: Reg := Reg(0, L, L, L, L, L, 0, H, L, L, 0, H)

  function Fill(b: Bit): bv8 {
    if b == H then 0xff else 0
  }

  // ---- next-state equations --------------------------------------------------------

  // The PHY took the bus while bytes of ours were under way.
  predicate Aborts(r: Reg) {
    r.dir == H && (r.txBsy == H || (r.douVld == H && r.nxt == H))
  }

  // The last byte is taken and no other follows.
  predicate RunsDry(r: Reg, i: In) {
    i.txVld == L && i.ib.nxt == H && r.bufVld == L && r.douVld == H
  }

  predicate AppendsStatus(r: Reg, i: In) {
    RunsDry(r, i) && i.regOpr == L && r.sta == L
  }

  function NextDou(r: Reg, i: In): bv8 {
    if Aborts(r) || r.sta == H then 0
    else if i.txVld == H && r.douVld == L then i.txDat
    else if i.ib.nxt == H && r.bufVld == H then r.buf
    else if i.ib.nxt == H && i.txVld == H then i.txDat
    else if AppendsStatus(r, i) then Fill(i.txSta)
    else if RunsDry(r, i) && i.regOpr == H then 0
    else r.dou
  }

  function NextDouVld(r: Reg, i: In): Bit {
    if Aborts(r) || r.sta == H then L
    else if i.txVld == H then H
    else if RunsDry(r, i) && i.regOpr == H then L
    else r.douVld
  }

  // A byte that arrives while the output byte is stuck.
  predicate Parks(r: Reg, i: In) {
    i.txVld == H && r.douVld == H && i.ib.nxt == L && r.bufVld == L
  }

  function NextBufVld(r: Reg, i: In): Bit {
    if Aborts(r) then L
    else if Parks(r, i) then H
    else if i.ib.nxt == H && !(i.txVld == H && r.douVld == L) then L
    else r.bufVld
  }

  function NextSta(r: Reg, i: In): Bit {
    if AppendsStatus(r, i) then H
    else if RunsDry(r, i) && i.regOpr == H then i.genStp
    else L
  }

  function NextStp(r: Reg, i: In): Bit {
    if Aborts(r) then L
    else if AppendsStatus(r, i) then H
    else if RunsDry(r, i) && i.regOpr == H then i.genStp
    else i.frcStp
  }

  function NextTxBsy(r: Reg, i: In): Bit {
    if Aborts(r) || (r.txBsy == H && r.douVld == L) then L
    else if r.douVld == H && i.ib.dir == L && (i.ib.nxt == H || i.regOpr == H) then H
    else r.txBsy
  }

  function Next(r: Reg, i: In): Reg {
    Reg(if Parks(r, i) then i.txDat else r.buf, NextDouVld(r, i), NextBufVld(r, i),
        ToBit(i.ib.dir != r.dir), NextTxBsy(r, i), NextSta(r, i),
        i.ib.dat, i.ib.dir, i.ib.nxt, i.ib.stp, NextDou(r, i), NextStp(r, i))
  }

  // ---- outputs -----------------------------------------------------------------------

  function TxRdy(r: Reg): Bit {
    Or(Not(r.bufVld), Not(r.douVld))
  }

  function TxErr(r: Reg): Bit {
    ToBit(Aborts(r))
  }

  function TxDon(r: Reg): Bit {
    ToBit(Aborts(r) || (r.txBsy == H && r.douVld == L))
  }

  // ---- the entity ----------------------------------------------------------------------

  class UlpiIOBuf {
    var r: Reg

    constructor ()
      ensures r == INIT
    {
      r := INIT;
    }

    // One clock edge.
    method Step(rst: Bit, i: In)
      modifies this
      ensures r == if rst == H then INIT else Next(old(r), i)
    {
      var dou, douVld, bufVld, buf, stp, sta := Shuffle(r, i);
      var txBsy := r.txBsy;
      if r.douVld == H && i.ib.dir == L && (i.ib.nxt == H || i.regOpr == H) {
        txBsy := H;
      }
      if r.txBsy == H && r.douVld == L {
        txBsy := L;
      }
      if r.dir == H && (r.txBsy == H || (r.douVld == H && r.nxt == H)) {
        bufVld, douVld, txBsy, stp, dou := L, L, L, L, 0;
      }
      r := Reg(buf, douVld, bufVld, ToBit(i.ib.dir != r.dir), txBsy, sta,
               i.ib.dat, i.ib.dir, i.ib.nxt, i.ib.stp, dou, stp);
      if rst == H {
        r := INIT;
      }
    }
  }

  // The data movement, before an abort is taken into account.
  method Shuffle(r: Reg, i: In)
    returns (dou: bv8, douVld: Bit, bufVld: Bit, buf: bv8, stp: Bit, sta: Bit)
    ensures !Aborts(r) ==> dou == NextDou(r, i) && douVld == NextDouVld(r, i)
                           && bufVld == NextBufVld(r, i) && stp == NextStp(r, i)
    ensures buf == Next(r, i).buf && sta == NextSta(r, i)
  {
    if i.txVld == H {
      dou, douVld, bufVld, buf := TakeIn(r, i);
      stp, sta := i.frcStp, L;
    } else {
      dou, douVld, bufVld, stp, sta := PassOn(r, i);
      buf := r.buf;
    }
    if r.sta == H {
      douVld, dou := L, 0;
    }
  }

  // A byte comes in: to the output, or behind the one that is there.
  method TakeIn(r: Reg, i: In) returns (dou: bv8, douVld: Bit, bufVld: Bit, buf: bv8)
    requires i.txVld == H
    ensures !Aborts(r) && r.sta == L ==> dou == NextDou(r, i) && douVld == NextDouVld(r, i)
    ensures !Aborts(r) ==> bufVld == NextBufVld(r, i)
    ensures buf == Next(r, i).buf
  {
    dou, douVld, bufVld, buf := r.dou, r.douVld, r.bufVld, r.buf;
    if r.douVld == L {
      douVld, dou := H, i.txDat;
    } else if i.ib.nxt == H {
      if r.bufVld == H {
        dou, bufVld := r.buf, L;
      } else {
        dou := i.txDat;
      }
    } else if r.bufVld == L {
      bufVld, buf := H, i.txDat;
    }
  }

  // None comes in: the next byte moves up, or the packet is closed.
  method PassOn(r: Reg, i: In) returns (dou: bv8, douVld: Bit, bufVld: Bit, stp: Bit, sta: Bit)
    requires i.txVld == L
    ensures !Aborts(r) && r.sta == L ==> dou == NextDou(r, i) && douVld == NextDouVld(r, i)
    ensures !Aborts(r) ==> bufVld == NextBufVld(r, i) && stp == NextStp(r, i)
    ensures sta == NextSta(r, i)
  {
    hide Fill;
    dou, douVld, bufVld, stp, sta := r.dou, r.douVld, r.bufVld, i.frcStp, L;
    if i.ib.nxt == H {
      if r.bufVld == H {
        bufVld, dou := L, r.buf;
      } else if r.douVld == H {
        if i.regOpr == H {
          douVld, dou, stp, sta := L, 0, i.genStp, i.genStp;
        } else if r.sta == L {
          dou, stp, sta := Fill(i.txSta), H, H;
        }
      }
    }
  }
}
