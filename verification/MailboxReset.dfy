// The resets of the two sides of the mailbox: they may be released one after the other,
// in either order, and a reset of one side alone keeps the one token exactly in some
// positions of it.
module MailboxReset {
  import opened Logic
  import opened CCSync
  import opened Mailbox
  import opened MailboxProof

  // An edge and the level of the two resets at it.
  datatype Event = Event(t: Tick, rstA: Bit, rstB: Bit)

  function NextEvent(m: Mbox, e: Event, wa: nat, wb: nat): Mbox {
    NextReset(m, e.t, e.rstA, e.rstB, wa, wb)
  }

  function RunEvents(m: Mbox, es: seq<Event>, wa: nat, wb: nat): Mbox
    decreases es
  {
    if es == [] then m else RunEvents(NextEvent(m, es[0], wa, wb), es[1..], wa, wb)
  }

  lemma WithoutReset(m: Mbox, e: Event, wa: nat, wb: nat)
    requires e.rstA == L && e.rstB == L
    ensures NextEvent(m, e, wa, wb) == Next(m, e.t)
  {
  }

  // ---- both sides in reset ---------------------------------------------------------------

  predicate InitialA(m: Mbox, wa: nat, wb: nat) {
    m.trigA == L && m.ba == Fresh(|m.ba|, L) && m.a2b == Zeros(wa) && m.douA == Zeros(wb) && m.cenAr == L
  }

  predicate InitialB(m: Mbox, wa: nat, wb: nat) {
    m.trigB == L && m.ab == Fresh(|m.ab|, L) && m.b2a == Zeros(wb) && m.douB == Zeros(wa) && m.cenBr == L
  }

  predicate AllHeld(es: seq<Event>) {
    forall k :: 0 <= k < |es| ==> es[k].rstA == H && es[k].rstB == H
  }

  lemma {:induction false} HeldRun(m: Mbox, es: seq<Event>, wa: nat, wb: nat)
    requires AllHeld(es)
    ensures var m' := RunEvents(m, es, wa, wb);
            && |m'.ab| == |m.ab| && |m'.ba| == |m.ba|
            && (InitialA(m, wa, wb) || (exists k :: 0 <= k < |es| && HasA(es[k].t)) ==> InitialA(m', wa, wb))
            && (InitialB(m, wa, wb) || (exists k :: 0 <= k < |es| && HasB(es[k].t)) ==> InitialB(m', wa, wb))
    decreases es
  {
    if es != [] {
      var m1 := NextEvent(m, es[0], wa, wb);
      HeldStep(m, es[0], wa, wb);
      hide NextEvent, InitialA, InitialB, HasA, HasB;
      HeldRun(m1, es[1..], wa, wb);
      assert forall k :: 0 < k < |es| ==> es[k] == es[1..][k - 1];
    }
  }

  lemma HeldStep(m: Mbox, e: Event, wa: nat, wb: nat)
    requires e.rstA == H && e.rstB == H
    ensures var m' := NextEvent(m, e, wa, wb);
            && |m'.ab| == |m.ab| && |m'.ba| == |m.ba|
            && (InitialA(m, wa, wb) || HasA(e.t) ==> InitialA(m', wa, wb))
            && (InitialB(m, wa, wb) || HasB(e.t) ==> InitialB(m', wa, wb))
  {
  }

  // From any state, one edge of each clock with both resets up leads to the power-up state.
  lemma JointReset(m: Mbox, es: seq<Event>, a: nat, b: nat, wa: nat, wb: nat)
    requires AllHeld(es) && a < |es| && b < |es| && HasA(es[a].t) && HasB(es[b].t)
    ensures RunEvents(m, es, wa, wb) == Init(|m.ab|, |m.ba|, wa, wb)
  {
    HeldRun(m, es, wa, wb);
  }

  // ---- released one after the other ----------------------------------------------------------

  // Once released, a reset stays down.
  predicate Releases(es: seq<Event>, heldA: Bit, heldB: Bit)
    decreases es
  {
    es == [] ||
    ((heldA == L ==> es[0].rstA == L) && (heldB == L ==> es[0].rstB == L) && Releases(es[1..], es[0].rstA, es[0].rstB))
  }

  // The uses of a side that is not in reset.
  function UsesAt(m: Mbox, e: Event): seq<Use> {
    (if HasA(e.t) && e.rstA == L && CenA(m) == H then [UseA(e.t.dinA, m.b2a)] else []) +
    (if HasB(e.t) && e.rstB == L && CenB(m) == H then [UseB(e.t.dinB, m.a2b)] else [])
  }

  function EventUses(m: Mbox, es: seq<Event>, wa: nat, wb: nat): seq<Use>
    decreases es
  {
    if es == [] then [] else UsesAt(m, es[0]) + EventUses(NextEvent(m, es[0], wa, wb), es[1..], wa, wb)
  }

  // Side B has run first and waits with its word posted.
  predicate Posted(m: Mbox, wa: nat, wb: nat) {
    InitialA(m, wa, wb) && m.trigB == H && m.ab == Fresh(|m.ab|, L)
  }

  lemma PostedToken(m: Mbox, wa: nat, wb: nat)
    requires Posted(m, wa, wb)
    ensures Token(m, |m.ab| + 1)
  {
  }

  predicate Starting(m: Mbox, heldA: Bit, heldB: Bit, wa: nat, wb: nat) {
    && (heldB == H ==> InitialA(m, wa, wb) && InitialB(m, wa, wb))
    && (heldA == H ==> InitialA(m, wa, wb) && (InitialB(m, wa, wb) || Posted(m, wa, wb)))
  }

  // What one edge does to the token, the data and the turn.
  predicate Keeps(m: Mbox, pos: nat, us: seq<Use>, m': Mbox, pos': nat) {
    && Token(m', pos') && |m'.ab| == |m.ab| && |m'.ba| == |m.ba|
    && if us == [] then m'.a2b == m.a2b && m'.b2a == m.b2a && BTurn(m', pos') == BTurn(m, pos)
       else |us| == 1 && us[0].UseB? == BTurn(m, pos) && BTurn(m', pos') == !BTurn(m, pos)
            && (if us[0].UseB? then us[0].read == m.a2b == m'.a2b && m'.b2a == us[0].post
                else us[0].read == m.b2a == m'.b2a && m'.a2b == us[0].post)
  }

  lemma InitialIs(m: Mbox, wa: nat, wb: nat)
    requires InitialA(m, wa, wb) && InitialB(m, wa, wb)
    ensures m == Init(|m.ab|, |m.ba|, wa, wb) && Token(m, |m.ab|)
  {
    StartsAtB(|m.ab|, |m.ba|, wa, wb);
  }

  lemma OneToken(m: Mbox, p: nat, q: nat)
    requires Token(m, p) && Token(m, q)
    ensures p == q
  {
    assert Change(m, p) <==> p == q;
  }

  // While B is held nothing moves.
  lemma StepHeldB(m: Mbox, e: Event, wa: nat, wb: nat)
    requires InitialA(m, wa, wb) && InitialB(m, wa, wb) && e.rstB == H
    ensures NextEvent(m, e, wa, wb) == m && UsesAt(m, e) == []
  {
  }

  // While A alone is held B posts once and waits.
  lemma StepHeldA(m: Mbox, e: Event, wa: nat, wb: nat)
    requires InitialA(m, wa, wb) && (InitialB(m, wa, wb) || Posted(m, wa, wb)) && e.rstA == H && e.rstB == L
    ensures var m', us := NextEvent(m, e, wa, wb), UsesAt(m, e);
            && InitialA(m', wa, wb) && |m'.ab| == |m.ab| && |m'.ba| == |m.ba|
            && if InitialB(m, wa, wb) && HasB(e.t)
               then Posted(m', wa, wb) && us == [UseB(e.t.dinB, m.a2b)] && m'.b2a == e.t.dinB && m'.a2b == m.a2b
               else us == [] && m'.a2b == m.a2b && m'.b2a == m.b2a
                    && (InitialB(m, wa, wb) ==> InitialB(m', wa, wb))
                    && (Posted(m, wa, wb) ==> Posted(m', wa, wb))
  {
  }

  lemma StartStep(m: Mbox, pos: nat, e: Event, heldA: Bit, heldB: Bit, wa: nat, wb: nat) returns (pos': nat)
    requires Token(m, pos) && Starting(m, heldA, heldB, wa, wb)
    requires (heldA == L ==> e.rstA == L) && (heldB == L ==> e.rstB == L)
    ensures Keeps(m, pos, UsesAt(m, e), NextEvent(m, e, wa, wb), pos')
    ensures Starting(NextEvent(m, e, wa, wb), e.rstA, e.rstB, wa, wb)
  {
    hide Token, NextEvent, InitialA, InitialB, Posted, CenA, CenB, Next, Moved;
    pos' := pos;
    if e.rstB == H {
      StepHeldB(m, e, wa, wb);
    } else if e.rstA == H {
      hide UsesAt;
      pos' := StartStepA(m, pos, e, wa, wb);
    } else {
      WithoutReset(m, e, wa, wb);
      TokenMoves(m, pos, e.t);
      EdgeExchanges(m, pos, e.t);
      assert UsesAt(m, e) == UsesNow(m, e.t);
      pos' := Moved(m, pos, e.t);
    }
  }

  lemma StartStepA(m: Mbox, pos: nat, e: Event, wa: nat, wb: nat) returns (pos': nat)
    requires Token(m, pos) && InitialA(m, wa, wb) && (InitialB(m, wa, wb) || Posted(m, wa, wb))
    requires e.rstA == H && e.rstB == L
    ensures Keeps(m, pos, UsesAt(m, e), NextEvent(m, e, wa, wb), pos')
    ensures var m' := NextEvent(m, e, wa, wb); InitialA(m', wa, wb) && (InitialB(m', wa, wb) || Posted(m', wa, wb))
  {
    hide Token, NextEvent, UsesAt, InitialA, InitialB, Posted;
    var m' := NextEvent(m, e, wa, wb);
    StepHeldA(m, e, wa, wb);
    pos' := if InitialB(m', wa, wb) then |m.ab| else |m.ab| + 1;
    if InitialB(m, wa, wb) {
      InitialIs(m, wa, wb);
      OneToken(m, pos, |m.ab|);
    } else {
      PostedToken(m, wa, wb);
      OneToken(m, pos, |m.ab| + 1);
    }
    if InitialB(m', wa, wb) {
      InitialIs(m', wa, wb);
    } else {
      PostedToken(m', wa, wb);
    }
    NotBoth(m, wa, wb);
    NotBoth(m', wa, wb);
  }

  lemma NotBoth(m: Mbox, wa: nat, wb: nat)
    ensures !(InitialB(m, wa, wb) && Posted(m, wa, wb))
  {
  }

  lemma {:induction false} StartRun(m: Mbox, pos: nat, es: seq<Event>, heldA: Bit, heldB: Bit, wa: nat, wb: nat)
    returns (last: nat)
    requires Token(m, pos) && Starting(m, heldA, heldB, wa, wb) && Releases(es, heldA, heldB)
    ensures Exchange(EventUses(m, es, wa, wb), BTurn(m, pos), m.a2b, m.b2a)
    ensures Token(RunEvents(m, es, wa, wb), last)
    decreases es
  {
    hide Token, NextEvent, Starting, UsesAt, BTurn;
    last := pos;
    if es != [] {
      var pos' := StartStep(m, pos, es[0], heldA, heldB, wa, wb);
      var m' := NextEvent(m, es[0], wa, wb);
      last := StartRun(m', pos', es[1..], es[0].rstA, es[0].rstB, wa, wb);
      var us, rest := UsesAt(m, es[0]), EventUses(m', es[1..], wa, wb);
      if us == [] {
        assert us + rest == rest;
      } else {
        assert (us + rest)[1..] == rest && (us + rest)[0] == us[0];
      }
    }
  }

  // From power-up, with the two resets released at any time and in any order: there is one
  // token, and B's use comes first, the sides alternate, and every word is read once, in order.
  lemma StaggeredRelease(stagesA2B: nat, stagesB2A: nat, wa: nat, wb: nat, es: seq<Event>) returns (pos: nat)
    requires stagesA2B > 0 && stagesB2A > 0 && Releases(es, H, H)
    ensures var m := Init(stagesA2B, stagesB2A, wa, wb);
            var us := EventUses(m, es, wa, wb);
            && Token(RunEvents(m, es, wa, wb), pos)
            && forall k :: 0 <= k < |us| ==>
                 && (us[k].UseB? <==> k % 2 == 0)
                 && us[k].read == (if k == 0 then Zeros(wa) else us[k - 1].post)
  {
    hide Token, NextEvent, UsesAt, Releases;
    var m := Init(stagesA2B, stagesB2A, wa, wb);
    StartsAtB(stagesA2B, stagesB2A, wa, wb);
    pos := StartRun(m, stagesA2B, es, H, H, wa, wb);
    assert m.a2b == Zeros(wa);
    var us := EventUses(m, es, wa, wb);
    forall k | 0 <= k < |us|
      ensures us[k].UseB? <==> k % 2 == 0
      ensures us[k].read == (if k == 0 then Zeros(wa) else us[k - 1].post)
    {
      ExchangeAt(us, true, m.a2b, m.b2a, k);
    }
  }

  // ---- one side alone ----------------------------------------------------------------------------

  // Up to the token the ring shows trigA, behind it the opposite.
  lemma {:induction false} RingIs(m: Mbox, pos: nat, k: nat)
    requires Token(m, pos) && k < Size(m)
    ensures Ring(m, k) == if k <= pos then m.trigA else Not(m.trigA)
    decreases k
  {
    if k > 0 {
      assert Change(m, k - 1) <==> k - 1 == pos;
      hide Ring, Token;
      RingIs(m, pos, k - 1);
    }
  }

  // A reset of side A in the middle of a run keeps the one token if and only if no change
  // from H back to L is on its way to B.
  lemma ResetAloneA(m: Mbox, pos: nat, wa: nat, wb: nat)
    requires Token(m, pos)
    ensures (exists p :: Token(ResetA(m, wa, wb), p)) <==> !(0 < pos <= |m.ab| && m.trigA == H)
  {
    hide ResetA, Ring, Token;
    var m' := ResetA(m, wa, wb);
    ResetRingA(m, pos, wa, wb, 0);
    if 0 < pos <= |m.ab| && m.trigA == H {
      ResetRingA(m, pos, wa, wb, 1);
      ResetRingA(m, pos, wa, wb, pos);
      ResetRingA(m, pos, wa, wb, pos + 1);
      assert Change(m', 0) && Change(m', pos);
      forall p ensures !Token(m', p) {
        TwoChanges(m', 0, pos, p);
      }
    } else {
      var p := if pos <= |m.ab| && m.trigA == L then pos else if m.trigA == L || pos == 0 then |m.ab| + 1 else 0;
      KeepsTokenA(m, pos, wa, wb, p);
    }
  }

  lemma TwoChanges(m: Mbox, j: nat, k: nat, p: nat)
    requires j < Size(m) && k < Size(m) && j != k && Change(m, j) && Change(m, k)
    ensures !Token(m, p)
  {
  }

  lemma KeepsTokenA(m: Mbox, pos: nat, wa: nat, wb: nat, p: nat)
    requires Token(m, pos) && !(0 < pos <= |m.ab| && m.trigA == H)
    requires p == if pos <= |m.ab| && m.trigA == L then pos else if m.trigA == L || pos == 0 then |m.ab| + 1 else 0
    ensures Token(ResetA(m, wa, wb), p)
  {
    var m' := ResetA(m, wa, wb);
    assert Size(m') == Size(m) && p < Size(m);
    hide ResetA, Ring;
    ResetRingA(m, pos, wa, wb, 0);
    forall k | 0 <= k < Size(m') ensures Change(m', k) <==> k == p {
      ResetRingA(m, pos, wa, wb, k);
      if k + 1 < Size(m') {
        ResetRingA(m, pos, wa, wb, k + 1);
      }
    }
  }

  lemma ResetRingA(m: Mbox, pos: nat, wa: nat, wb: nat, k: nat)
    requires Token(m, pos) && k < Size(m)
    ensures Size(ResetA(m, wa, wb)) == Size(m)
    ensures Ring(ResetA(m, wa, wb), k) == if k == 0 then L else if k > |m.ab| + 1 then H
                                          else if k <= pos then m.trigA else Not(m.trigA)
  {
    RingIs(m, pos, k);
    hide Token;
  }

  // A reset of side B alone keeps it if and only if side A rests at L and B has not yet sent
  // the token further than its own register.
  lemma ResetAloneB(m: Mbox, pos: nat, wa: nat, wb: nat)
    requires Token(m, pos)
    ensures (exists p :: Token(ResetB(m, wa, wb), p)) <==> m.trigA == L && pos <= |m.ab| + 1
  {
    hide ResetB, Ring, Token;
    var m', n := ResetB(m, wa, wb), |m.ab|;
    ResetRingB(m, pos, wa, wb, n);
    ResetRingB(m, pos, wa, wb, n + 1);
    assert Change(m', n);
    if m.trigA == H {
      ResetRingB(m, pos, wa, wb, 0);
      ResetRingB(m, pos, wa, wb, 1);
      assert Change(m', 0);
      forall p ensures !Token(m', p) {
        TwoChanges(m', 0, n, p);
      }
    } else if pos > n + 1 {
      ResetRingB(m, pos, wa, wb, n + 2);
      assert Change(m', n + 1);
      forall p ensures !Token(m', p) {
        TwoChanges(m', n, n + 1, p);
      }
    } else {
      KeepsTokenB(m, pos, wa, wb);
    }
  }

  lemma KeepsTokenB(m: Mbox, pos: nat, wa: nat, wb: nat)
    requires Token(m, pos) && m.trigA == L && pos <= |m.ab| + 1
    ensures Token(ResetB(m, wa, wb), |m.ab|)
  {
    var m' := ResetB(m, wa, wb);
    assert Size(m') == Size(m);
    hide ResetB, Ring;
    ResetRingB(m, pos, wa, wb, 0);
    forall k | 0 <= k < Size(m') ensures Change(m', k) <==> k == |m.ab| {
      ResetRingB(m, pos, wa, wb, k);
      if k + 1 < Size(m') {
        ResetRingB(m, pos, wa, wb, k + 1);
      }
    }
  }

  lemma ResetRingB(m: Mbox, pos: nat, wa: nat, wb: nat, k: nat)
    requires Token(m, pos) && k < Size(m)
    ensures Size(ResetB(m, wa, wb)) == Size(m)
    ensures Ring(ResetB(m, wa, wb), k) == if k == 0 then m.trigA else if k <= |m.ab| then L
                                          else if k == |m.ab| + 1 then H
                                          else if k <= pos then m.trigA else Not(m.trigA)
  {
    RingIs(m, pos, k);
    hide Token;
  }
}
