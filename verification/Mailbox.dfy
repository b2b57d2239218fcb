// The mailbox between two clock domains, core/hdl/Usb2MboxSync.vhd.
module Mailbox {
  import opened Logic
  import opened CCSync

  type Word = seq<Bit>

  // All registers of the block; `ab` and `ba` are the chains that carry the token.
  datatype Mbox = Mbox(
    trigA: Bit, trigB: Bit, ab: Chain, ba: Chain, a2b: Word, b2a: Word,
    douA: Word, douB: Word, cenAr: Bit, cenBr: Bit)

  function Zeros(width: nat): Word {
    seq(width, _ => L)
  }

  function Init(stagesA2B: nat, stagesB2A: nat, widthA2B: nat, widthB2A: nat): Mbox
    requires stagesA2B > 0 && stagesB2A > 0
  {
    Mbox(L, L, Fresh(stagesA2B, L), Fresh(stagesB2A, L), Zeros(widthA2B), Zeros(widthB2A),
         Zeros(widthB2A), Zeros(widthA2B), L, L)
  }

  // The side that holds the token is enabled.
  function CenA(m: Mbox): Bit {
    ToBit(m.trigA != Q(m.ba))
  }

  function CenB(m: Mbox): Bit {
    ToBit(m.trigB == Q(m.ab))
  }

  // One edge of clock A, of clock B, or of both at the same time; `din` is the word
  // offered by that side.
  datatype Tick = A(dinA: Word) | B(dinB: Word) | Both(dinA: Word, dinB: Word)

  function EdgeA(m: Mbox, din: Word): Mbox {
    var m' := m.(trigA := Q(m.ba), ba := Shift(m.ba, m.trigB), cenAr := CenA(m));
    if CenA(m) == H then m'.(a2b := din, douA := m.b2a) else m'
  }

  function EdgeB(m: Mbox, din: Word): Mbox {
    var m' := m.(trigB := Not(Q(m.ab)), ab := Shift(m.ab, m.trigA), cenBr := CenB(m));
    if CenB(m) == H then m'.(b2a := din, douB := m.a2b) else m'
  }

  // The registers of side A after its edge with those of side B after its own.
  function Merge(a: Mbox, b: Mbox): Mbox {
    Mbox(a.trigA, b.trigB, b.ab, a.ba, a.a2b, b.b2a, a.douA, b.douB, a.cenAr, b.cenBr)
  }

  // Both sides see what was there before the edges.
  function EdgeBoth(m: Mbox, dinA: Word, dinB: Word): Mbox {
    Merge(EdgeA(m, dinA), EdgeB(m, dinB))
  }

  function Next(m: Mbox, t: Tick): Mbox {
    match t
    case A(din) => EdgeA(m, din)
    case B(din) => EdgeB(m, din)
    case Both(dinA, dinB) => EdgeBoth(m, dinA, dinB)
  }

  // The synchronous resets of the two sides.
  function ResetA(m: Mbox, widthA2B: nat, widthB2A: nat): Mbox {
    m.(trigA := L, a2b := Zeros(widthA2B), douA := Zeros(widthB2A), cenAr := L, ba := Fresh(|m.ba|, L))
  }

  function ResetB(m: Mbox, widthA2B: nat, widthB2A: nat): Mbox {
    m.(trigB := L, b2a := Zeros(widthB2A), douB := Zeros(widthA2B), cenBr := L, ab := Fresh(|m.ab|, L))
  }

  // An edge, or two, while either side may be held in reset.
  function NextReset(m: Mbox, t: Tick, rstA: Bit, rstB: Bit, widthA2B: nat, widthB2A: nat): Mbox {
    var a := if rstA == H then ResetA(m, widthA2B, widthB2A) else if t.B? then m else EdgeA(m, t.dinA);
    var b := if rstB == H then ResetB(m, widthA2B, widthB2A) else if t.A? then m else EdgeB(m, t.dinB);
    match t
    case A(_) => a
    case B(_) => b
    case Both(_, _) => Merge(a, b)
  }

  class Usb2MboxSync {
    const widthA2B: nat
    const widthB2A: nat
    const syncA2B: Usb2CCSync
    const syncB2A: Usb2CCSync
    var trigA: Bit
    var trigB: Bit
    var a2bData: Word
    var b2aData: Word
    var douA: Word
    var douB: Word
    var cenA: Bit
    var cenB: Bit

    ghost predicate Valid()
    {
      syncA2B != syncB2A && syncA2B.init == L && syncB2A.init == L
    }

    ghost function State(): Mbox
      reads this, syncA2B, syncB2A
    {
      Mbox(trigA, trigB, syncA2B.ccSync, syncB2A.ccSync, a2bData, b2aData, douA, douB, cenA, cenB)
    }

    constructor (stagesA2B: nat, stagesB2A: nat, widthA2B: nat, widthB2A: nat)
      requires stagesA2B > 0 && stagesB2A > 0
      ensures Valid() && fresh(syncA2B) && fresh(syncB2A)
      ensures this.widthA2B == widthA2B && this.widthB2A == widthB2A
      ensures State() == Init(stagesA2B, stagesB2A, widthA2B, widthB2A)
    {
      this.widthA2B, this.widthB2A := widthA2B, widthB2A;
      syncA2B := new Usb2CCSync(stagesA2B, L);
      syncB2A := new Usb2CCSync(stagesB2A, L);
      trigA, trigB := L, L;
      a2bData, b2aData := Zeros(widthA2B), Zeros(widthB2A);
      douA, douB, cenA, cenB := Zeros(widthB2A), Zeros(widthA2B), L, L;
    }

    // Process P_A and the chain towards A, given what B's side held before the edge.
    method ClockA(rst: Bit, dinA: Word, trigB0: Bit, b2a0: Word)
      requires Valid()
      modifies this`trigA, this`a2bData, this`douA, this`cenA, syncB2A
      ensures State() == if rst == H
                         then ResetA(old(State()), widthA2B, widthB2A)
                         else var e := EdgeA(old(State()).(trigB := trigB0, b2a := b2a0), dinA);
                              e.(trigB := trigB, b2a := b2aData)
    {
      var monA := Q(syncB2A.ccSync);
      syncB2A.Step(rst, trigB0);
      if rst == H {
        trigA, douA, cenA, a2bData := L, Zeros(widthB2A), L, Zeros(widthA2B);
      } else {
        cenA := if trigA != monA then H else L;
        trigA := monA;
        if cenA == H {
          a2bData, douA := dinA, b2a0;
        }
      }
    }

    // Process P_B and the chain towards B, given what A's side held before the edge.
    method ClockB(rst: Bit, dinB: Word, trigA0: Bit, a2b0: Word)
      requires Valid()
      modifies this`trigB, this`b2aData, this`douB, this`cenB, syncA2B
      ensures State() == if rst == H
                         then ResetB(old(State()), widthA2B, widthB2A)
                         else var e := EdgeB(old(State()).(trigA := trigA0, a2b := a2b0), dinB);
                              e.(trigA := trigA, a2b := a2bData)
    {
      var monB := Q(syncA2B.ccSync);
      syncA2B.Step(rst, trigA0);
      if rst == H {
        trigB, douB, cenB, b2aData := L, Zeros(widthA2B), L, Zeros(widthB2A);
      } else {
        cenB := if trigB == monB then H else L;
        trigB := Not(monB);
        if cenB == H {
          b2aData, douB := dinB, a2b0;
        }
      }
    }

    // The edges of either clock or of both, with the resets of the two sides.
    method Step(t: Tick, rstA: Bit, rstB: Bit)
      requires Valid()
      modifies this, syncA2B, syncB2A
      ensures State() == NextReset(old(State()), t, rstA, rstB, widthA2B, widthB2A)
      ensures rstA == L && rstB == L ==> State() == Next(old(State()), t)
    {
      match t {
        case A(din) => ClockA(rstA, din, trigB, b2aData);
        case B(din) => ClockB(rstB, din, trigA, a2bData);
        case Both(dinA, dinB) =>
          var trigA0, a2b0 := trigA, a2bData;
          ClockA(rstA, dinA, trigB, b2aData);
          ClockB(rstB, dinB, trigA0, a2b0);
      }
    }
  }
}
