// One token circulates between the two clocks, for any number of stages and any
// interleaving or coincidence of edges, and with it the data, without loss.
module MailboxProof {
  import opened Logic
  import opened CCSync
  import opened Mailbox

  // ---- the ring ----------------------------------------------------------------------

  function Size(m: Mbox): nat {
    |m.ab| + |m.ba| + 2
  }

  // trigA, the chain to B, inverted trigB, the inverted chain to A.
  function Ring(m: Mbox, k: nat): Bit
    requires k < Size(m)
  {
    var n := |m.ab|;
    if k == 0 then m.trigA
    else if k <= n then m.ab[k - 1]
    else if k == n + 1 then Not(m.trigB)
    else Not(m.ba[k - n - 2])
  }

  // Places k and k + 1 differ; the end of the ring is joined to its start inverted.
  predicate Change(m: Mbox, k: nat)
    requires k < Size(m)
  {
    if k + 1 < Size(m) then Ring(m, k) != Ring(m, k + 1) else Ring(m, k) == Ring(m, 0)
  }

  // The only change in the ring is at place `pos`.
  predicate Token(m: Mbox, pos: nat) {
    pos < Size(m) && forall k :: 0 <= k < Size(m) ==> (Change(m, k) <==> k == pos)
  }

  // Where the next edge takes the token: B's edges carry it over the first part of
  // the ring, A's edges over the second.
  function Moved(m: Mbox, pos: nat, t: Tick): nat {
    if (if pos <= |m.ab| then HasB(t) else HasA(t)) then (if pos + 1 < Size(m) then pos + 1 else 0) else pos
  }

  predicate HasA(t: Tick) {
    t.A? || t.Both?
  }

  predicate HasB(t: Tick) {
    t.B? || t.Both?
  }

  lemma StartsAtB(stagesA2B: nat, stagesB2A: nat, widthA2B: nat, widthB2A: nat)
    requires stagesA2B > 0 && stagesB2A > 0
    ensures Token(Init(stagesA2B, stagesB2A, widthA2B, widthB2A), stagesA2B)
    ensures var m := Init(stagesA2B, stagesB2A, widthA2B, widthB2A);
            && |m.a2b| == |m.douB| == widthA2B && |m.b2a| == |m.douA| == widthB2A && m.cenAr == L && m.cenBr == L
            && (forall k :: 0 <= k < widthA2B ==> m.a2b[k] == L && m.douB[k] == L)
            && (forall k :: 0 <= k < widthB2A ==> m.b2a[k] == L && m.douA[k] == L)
  {
  }

  // What an edge does to the ring.
  lemma RingShifts(m: Mbox, t: Tick, k: nat)
    requires k < Size(m)
    ensures var n, m' := |m.ab|, Next(m, t);
            |m'.ab| == n && |m'.ba| == |m.ba| &&
            Ring(m', k) == if 1 <= k <= n + 1 then (if HasB(t) then Ring(m, k - 1) else Ring(m, k))
                           else if !HasA(t) then Ring(m, k)
                           else if k == 0 then Not(Ring(m, Size(m) - 1)) else Ring(m, k - 1)
  {
  }

  // At most one side is enabled, namely the one the token has reached.
  lemma EnabledByToken(m: Mbox, pos: nat)
    requires Token(m, pos)
    ensures CenB(m) == H <==> pos == |m.ab|
    ensures CenA(m) == H <==> pos == Size(m) - 1
    ensures !(CenA(m) == H && CenB(m) == H)
  {
    assert Change(m, |m.ab|) <==> |m.ab| == pos;
    assert Change(m, Size(m) - 1) <==> Size(m) - 1 == pos;
  }

  lemma ChangeMoves(m: Mbox, pos: nat, t: Tick, k: nat)
    requires Token(m, pos) && k < Size(m)
    ensures Size(Next(m, t)) == Size(m) && (Change(Next(m, t), k) <==> k == Moved(m, pos, t))
  {
    hide Next, Ring;
    var m', last := Next(m, t), Size(m) - 1;
    RingShifts(m, t, 0);
    RingShifts(m, t, k);
    if k < last {
      RingShifts(m, t, k + 1);
    }
    assert Change(m, k) <==> k == pos;
    assert k > 0 ==> (Change(m, k - 1) <==> k - 1 == pos);
    assert Change(m, last) <==> last == pos;
  }

  // The invariant of every run: exactly one change, moving on by at most one place.
  lemma TokenMoves(m: Mbox, pos: nat, t: Tick)
    requires Token(m, pos)
    ensures Token(Next(m, t), Moved(m, pos, t))
    ensures |Next(m, t).ab| == |m.ab| && |Next(m, t).ba| == |m.ba|
  {
    RingShifts(m, t, 0);
    hide Next, Change;
    forall k | 0 <= k < Size(m) ensures Change(Next(m, t), k) <==> k == Moved(m, pos, t) {
      ChangeMoves(m, pos, t, k);
    }
  }

  // ---- runs and exchanges ----------------------------------------------------------------

  function Run(m: Mbox, ts: seq<Tick>): Mbox
    decreases ts
  {
    if ts == [] then m else Run(Next(m, ts[0]), ts[1..])
  }

  // An enabled edge: the side posts its word and reads the other side's.
  datatype Use = UseA(post: Word, read: Word) | UseB(post: Word, read: Word)

  function UsesNow(m: Mbox, t: Tick): seq<Use> {
    (if HasA(t) && CenA(m) == H then [UseA(t.dinA, m.b2a)] else []) +
    (if HasB(t) && CenB(m) == H then [UseB(t.dinB, m.a2b)] else [])
  }

  function Uses(m: Mbox, ts: seq<Tick>): seq<Use>
    decreases ts
  {
    if ts == [] then [] else UsesNow(m, ts[0]) + Uses(Next(m, ts[0]), ts[1..])
  }

  // The sides take turns, and each reads what the other posted in the use before.
  predicate Exchange(us: seq<Use>, bTurn: bool, a2b: Word, b2a: Word)
    decreases us
  {
    us == [] ||
    (us[0].UseB? == bTurn
     && us[0].read == (if bTurn then a2b else b2a)
     && (if bTurn then Exchange(us[1..], false, a2b, us[0].post) else Exchange(us[1..], true, us[0].post, b2a)))
  }

  predicate BTurn(m: Mbox, pos: nat) {
    pos <= |m.ab|
  }

  // One edge: the data registers change only at a use, and only on the user's side.
  lemma EdgeExchanges(m: Mbox, pos: nat, t: Tick)
    requires Token(m, pos)
    ensures var us, m' := UsesNow(m, t), Next(m, t);
            if us == [] then m'.a2b == m.a2b && m'.b2a == m.b2a && BTurn(m', Moved(m, pos, t)) == BTurn(m, pos)
            else |us| == 1 && us[0].UseB? == BTurn(m, pos) && BTurn(m', Moved(m, pos, t)) == !BTurn(m, pos)
                 && (if us[0].UseB? then us[0].read == m.a2b == m'.a2b && m'.b2a == us[0].post
                     else us[0].read == m.b2a == m'.b2a && m'.a2b == us[0].post)
  {
    EnabledByToken(m, pos);
    hide Token, CenA, CenB;
  }

  lemma {:induction false} RunExchanges(m: Mbox, pos: nat, ts: seq<Tick>)
    requires Token(m, pos)
    ensures Exchange(Uses(m, ts), BTurn(m, pos), m.a2b, m.b2a)
    decreases ts
  {
    if ts != [] {
      var t := ts[0];
      TokenMoves(m, pos, t);
      EdgeExchanges(m, pos, t);
      RunExchanges(Next(m, t), Moved(m, pos, t), ts[1..]);
      hide Next, Token, UsesNow, Moved;
      var us, rest := UsesNow(m, t), Uses(Next(m, t), ts[1..]);
      if us == [] {
        assert us + rest == rest;
      } else {
        assert (us + rest)[1..] == rest && (us + rest)[0] == us[0];
      }
    }
  }

  // From power-up: B is served first, the sides alternate for ever, every word posted
  // is read by the other side exactly once, in order, and nothing else is read.
  lemma ExchangeIsLossless(stagesA2B: nat, stagesB2A: nat, widthA2B: nat, widthB2A: nat, ts: seq<Tick>)
    requires stagesA2B > 0 && stagesB2A > 0
    ensures var us := Uses(Init(stagesA2B, stagesB2A, widthA2B, widthB2A), ts);
            forall k :: 0 <= k < |us| ==>
              && (us[k].UseB? <==> k % 2 == 0)
              && us[k].read == (if k == 0 then Zeros(widthA2B) else us[k - 1].post)
  {
    StartsAtB(stagesA2B, stagesB2A, widthA2B, widthB2A);
    var m := Init(stagesA2B, stagesB2A, widthA2B, widthB2A);
    RunExchanges(m, stagesA2B, ts);
    hide Uses, Token;
    var us := Uses(m, ts);
    forall k | 0 <= k < |us|
      ensures (us[k].UseB? <==> k % 2 == 0) && us[k].read == (if k == 0 then m.a2b else us[k - 1].post)
    {
      ExchangeAt(us, true, m.a2b, m.b2a, k);
    }
  }

  lemma {:induction false} ExchangeAt(us: seq<Use>, bTurn: bool, a2b: Word, b2a: Word, k: nat)
    requires Exchange(us, bTurn, a2b, b2a) && k < |us|
    ensures us[k].UseB? == (if k % 2 == 0 then bTurn else !bTurn)
    ensures us[k].read == if k == 0 then (if bTurn then a2b else b2a) else us[k - 1].post
    decreases us
  {
    if k > 0 {
      var u := us[0];
      ExchangeAt(us[1..], !bTurn, if bTurn then a2b else u.post, if bTurn then u.post else b2a, k - 1);
    }
  }

  // ---- how long a turn lasts ---------------------------------------------------------------

  function EdgesB(ts: seq<Tick>): nat {
    if ts == [] then 0 else (if HasB(ts[0]) then 1 else 0) + EdgesB(ts[1..])
  }

  function EdgesA(ts: seq<Tick>): nat {
    if ts == [] then 0 else (if HasA(ts[0]) then 1 else 0) + EdgesA(ts[1..])
  }

  lemma {:induction false} TravelsToB(m: Mbox, pos: nat, ts: seq<Tick>)
    requires Token(m, pos) && pos + EdgesB(ts) <= |m.ab|
    ensures Token(Run(m, ts), pos + EdgesB(ts)) && Run(m, ts).ab != [] && |Run(m, ts).ab| == |m.ab|
    ensures Uses(m, ts) == [] && Run(m, ts).a2b == m.a2b && Run(m, ts).b2a == m.b2a
    decreases ts
  {
    if ts != [] {
      EnabledByToken(m, pos);
      TokenMoves(m, pos, ts[0]);
      EdgeExchanges(m, pos, ts[0]);
      TravelsToB(Next(m, ts[0]), Moved(m, pos, ts[0]), ts[1..]);
      hide Next, Token, CenA, CenB;
    }
  }

  lemma {:induction false} TravelsToA(m: Mbox, pos: nat, ts: seq<Tick>)
    requires Token(m, pos) && |m.ab| < pos && pos + EdgesA(ts) < Size(m)
    ensures Token(Run(m, ts), pos + EdgesA(ts)) && Size(Run(m, ts)) == Size(m)
    ensures Uses(m, ts) == [] && Run(m, ts).a2b == m.a2b && Run(m, ts).b2a == m.b2a
    decreases ts
  {
    if ts != [] {
      EnabledByToken(m, pos);
      TokenMoves(m, pos, ts[0]);
      EdgeExchanges(m, pos, ts[0]);
      TravelsToA(Next(m, ts[0]), Moved(m, pos, ts[0]), ts[1..]);
      hide Next, Token, CenA, CenB;
    }
  }

  // After a use by A, the next use is B's, exactly one B edge after as many B edges as
  // the chain has stages, however many A edges fall between; the word A posted stays
  // in place all that time, and B reads it.
  lemma TurnOfB(m: Mbox, a: Tick, ts: seq<Tick>, b: Tick)
    requires Token(m, Size(m) - 1) && HasA(a)
    requires EdgesB(ts) == |m.ab| && HasB(b)
    ensures var m1 := Next(m, a);
            && UsesNow(m, a) == [UseA(a.dinA, m.b2a)]
            && Uses(m1, ts) == [] && Run(m1, ts).a2b == a.dinA
            && UsesNow(Run(m1, ts), b) == [UseB(b.dinB, a.dinA)]
            && Token(Next(Run(m1, ts), b), |m.ab| + 1)
  {
    hide Next, Token, CenA, CenB, Run, Uses;
    EnabledByToken(m, Size(m) - 1);
    TokenMoves(m, Size(m) - 1, a);
    EdgeExchanges(m, Size(m) - 1, a);
    var m1 := Next(m, a);
    TravelsToB(m1, 0, ts);
    var m2 := Run(m1, ts);
    EnabledByToken(m2, |m.ab|);
    TokenMoves(m2, |m.ab|, b);
    EdgeExchanges(m2, |m.ab|, b);
  }

  // And the same the other way round.
  lemma TurnOfA(m: Mbox, b: Tick, ts: seq<Tick>, a: Tick)
    requires Token(m, |m.ab|) && HasB(b)
    requires EdgesA(ts) == |m.ba| && HasA(a)
    ensures var m1 := Next(m, b);
            && UsesNow(m, b) == [UseB(b.dinB, m.a2b)]
            && Uses(m1, ts) == [] && Run(m1, ts).b2a == b.dinB
            && UsesNow(Run(m1, ts), a) == [UseA(a.dinA, b.dinB)]
            && Token(Next(Run(m1, ts), a), 0)
  {
    hide Next, Token, CenA, CenB, Run, Uses;
    EnabledByToken(m, |m.ab|);
    TokenMoves(m, |m.ab|, b);
    EdgeExchanges(m, |m.ab|, b);
    var m1 := Next(m, b);
    TravelsToA(m1, |m.ab| + 1, ts);
    var m2 := Run(m1, ts);
    EnabledByToken(m2, Size(m) - 1);
    TokenMoves(m2, Size(m) - 1, a);
    EdgeExchanges(m2, Size(m) - 1, a);
  }

  // ---- the registered outputs ------------------------------------------------------------------

  // What side A finds at its edges when it goes by the registered enable and word.
  function LateA(m: Mbox, ts: seq<Tick>): seq<Word>
    decreases ts
  {
    if ts == [] then []
    else (if HasA(ts[0]) then HeldA(m) else []) + LateA(Next(m, ts[0]), ts[1..])
  }

  function LateB(m: Mbox, ts: seq<Tick>): seq<Word>
    decreases ts
  {
    if ts == [] then []
    else (if HasB(ts[0]) then HeldB(m) else []) + LateB(Next(m, ts[0]), ts[1..])
  }

  function HeldA(m: Mbox): seq<Word> {
    if m.cenAr == H then [m.douA] else []
  }

  function HeldB(m: Mbox): seq<Word> {
    if m.cenBr == H then [m.douB] else []
  }

  function Reads(us: seq<Use>, byB: bool): seq<Word> {
    if us == [] then [] else (if us[0].UseB? == byB then [us[0].read] else []) + Reads(us[1..], byB)
  }

  lemma {:induction false} ReadsConcat(us: seq<Use>, vs: seq<Use>, byB: bool)
    ensures Reads(us + vs, byB) == Reads(us, byB) + Reads(vs, byB)
  {
    if us == [] {
      assert us + vs == vs;
    } else {
      assert (us + vs)[1..] == us[1..] + vs;
      ReadsConcat(us[1..], vs, byB);
    }
  }

  function TakenA(m: Mbox, t: Tick): seq<Word> {
    if HasA(t) then HeldA(m) else []
  }

  function TakenB(m: Mbox, t: Tick): seq<Word> {
    if HasB(t) then HeldB(m) else []
  }

  lemma RegisteredStep(m: Mbox, t: Tick)
    ensures TakenA(m, t) + HeldA(Next(m, t)) == HeldA(m) + Reads(UsesNow(m, t), false)
    ensures TakenB(m, t) + HeldB(Next(m, t)) == HeldB(m) + Reads(UsesNow(m, t), true)
  {
    ReadsNow(m, t);
    hide Reads, UsesNow;
  }

  lemma ReadsNow(m: Mbox, t: Tick)
    ensures Reads(UsesNow(m, t), false) == if HasA(t) && CenA(m) == H then [m.b2a] else []
    ensures Reads(UsesNow(m, t), true) == if HasB(t) && CenB(m) == H then [m.a2b] else []
  {
    hide CenA, CenB;
    var a := if HasA(t) && CenA(m) == H then [UseA(t.dinA, m.b2a)] else [];
    var b := if HasB(t) && CenB(m) == H then [UseB(t.dinB, m.a2b)] else [];
    ReadsConcat(a, b, false);
    ReadsConcat(a, b, true);
    assert Reads([], false) == [] && Reads([], true) == [];
  }

  lemma Regroup(now: seq<Word>, late: seq<Word>, end: seq<Word>, held: seq<Word>, held': seq<Word>,
                used: seq<Word>, later: seq<Word>)
    requires now + held' == held + used && late + end == held' + later
    ensures (now + late) + end == held + (used + later)
  {
    assert (now + late) + end == now + (late + end);
    assert now + (held' + later) == (now + held') + later;
  }

  // The registered outputs show every word read, once and in order, one edge of the
  // reader's clock later.
  lemma {:induction false} RegisteredOutputs(m: Mbox, ts: seq<Tick>)
    ensures LateA(m, ts) + HeldA(Run(m, ts)) == HeldA(m) + Reads(Uses(m, ts), false)
    ensures LateB(m, ts) + HeldB(Run(m, ts)) == HeldB(m) + Reads(Uses(m, ts), true)
    decreases ts
  {
    hide Next, UsesNow, HeldA, HeldB, Reads;
    if ts == [] {
      NoReads(m);
    } else {
      var t, m' := ts[0], Next(m, ts[0]);
      RegisteredStep(m, t);
      RegisteredOutputs(m', ts[1..]);
      ReadsConcat(UsesNow(m, t), Uses(m', ts[1..]), false);
      ReadsConcat(UsesNow(m, t), Uses(m', ts[1..]), true);
      var end := Run(m', ts[1..]);
      assert Uses(m, ts) == UsesNow(m, t) + Uses(m', ts[1..]) && Run(m, ts) == end;
      assert LateA(m, ts) == TakenA(m, t) + LateA(m', ts[1..]);
      assert LateB(m, ts) == TakenB(m, t) + LateB(m', ts[1..]);
      hide Run, Uses, LateA, LateB, TakenA, TakenB;
      Regroup(TakenA(m, t), LateA(m', ts[1..]), HeldA(end), HeldA(m), HeldA(m'),
              Reads(UsesNow(m, t), false), Reads(Uses(m', ts[1..]), false));
      Regroup(TakenB(m, t), LateB(m', ts[1..]), HeldB(end), HeldB(m), HeldB(m'),
              Reads(UsesNow(m, t), true), Reads(Uses(m', ts[1..]), true));
    }
  }

  lemma NoReads(m: Mbox)
    ensures [] + HeldA(m) == HeldA(m) + Reads([], false)
    ensures [] + HeldB(m) == HeldB(m) + Reads([], true)
  {
  }
}
