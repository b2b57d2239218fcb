// Which lists the descriptor compiler accepts: the pass over the list raises exactly when
// a descriptor comes before one that it needs.
module DescAccept {
  import opened Bytes
  import opened DescCompiler

  // Some descriptor of the type is among the first j.
  predicate Ever(ds: seq<Desc>, j: nat, t: Byte)
    requires j <= |ds|
  {
    j > 0 && (TypeOf(ds[j - 1]) == t || Ever(ds, j - 1, t))
  }

  // Among the first j one of type t stands behind the last of type `reset`.
  predicate Since(ds: seq<Desc>, j: nat, t: Byte, reset: Byte)
    requires j <= |ds|
  {
    j > 0 && (TypeOf(ds[j - 1]) == t || (TypeOf(ds[j - 1]) != reset && Since(ds, j - 1, t, reset)))
  }

  // What must have come before: a device closes one that has a configuration, the last of
  // which has an interface.
  predicate MayFollow(ds: seq<Desc>, j: nat, t: Byte)
    requires j <= |ds|
  {
    if t == DEVICE then
      Ever(ds, j, DEVICE) ==> Since(ds, j, CONFIGURATION, DEVICE) && Since(ds, j, INTERFACE, CONFIGURATION)
    else if t == CONFIGURATION then
      Ever(ds, j, DEVICE) && (Since(ds, j, CONFIGURATION, DEVICE) ==> Since(ds, j, INTERFACE, CONFIGURATION))
    else if t == INTERFACE then Ever(ds, j, CONFIGURATION)
    else t == ENDPOINT ==> Ever(ds, j, INTERFACE)
  }

  predicate Accepted(ds: seq<Desc>) {
    && (forall j :: 0 <= j < |ds| ==> MayFollow(ds, j, TypeOf(ds[j])))
    && MayFollow(ds, |ds|, DEVICE)
  }

  // Which variables of the loop are bound.
  predicate Tracks(ds: seq<Desc>, j: nat, s: Pass)
    requires j <= |ds|
  {
    && !s.devd.Unbound? && (s.devd.At? <==> Ever(ds, j, DEVICE)) && (s.numc.Value? <==> Ever(ds, j, DEVICE))
    && (s.cnfd.Unbound? <==> !Ever(ds, j, DEVICE)) && (s.cnfd.At? <==> Since(ds, j, CONFIGURATION, DEVICE))
    && (s.ifcd.Unbound? <==> !Ever(ds, j, CONFIGURATION)) && (s.ifcd.At? <==> Since(ds, j, INTERFACE, CONFIGURATION))
    && (s.ifn.Value? <==> Ever(ds, j, CONFIGURATION)) && (s.nume.Value? <==> Ever(ds, j, INTERFACE))
    && (Since(ds, j, CONFIGURATION, DEVICE) ==> Ever(ds, j, CONFIGURATION))
    && (Since(ds, j, INTERFACE, CONFIGURATION) ==> Ever(ds, j, INTERFACE))
  }

  lemma VisitTracks(ds: seq<Desc>, j: nat, s: Pass)
    requires Refs(s) && j < |ds| && j < |s.cur| && TypeOf(s.cur[j]) == TypeOf(ds[j]) && Tracks(ds, j, s)
    ensures Visit(s, j).Goes? <==> MayFollow(ds, j, TypeOf(ds[j]))
    ensures Visit(s, j).Goes? ==> Tracks(ds, j + 1, Visit(s, j).s)
  {
    hide AllProper, Set8, Set16;
  }

  lemma {:induction false} VisitsTrack(ds: seq<Desc>, j: nat, s: Pass)
    requires Refs(s) && j <= |ds| == |s.cur| && SameShape(ds, s.cur) && Tracks(ds, j, s)
    ensures Visits(s, j).Goes? <==> forall k :: j <= k < |ds| ==> MayFollow(ds, k, TypeOf(ds[k]))
    decreases |ds| - j
  {
    hide Visit, Tracks, Refs, SameShape, MayFollow;
    if j < |ds| {
      ShapeTypes(ds, s.cur, j);
      VisitTracks(ds, j, s);
      VisitKeeps(s, j);
      if Visit(s, j).Goes? {
        var r := Visit(s, j).s;
        ShapeTrans(ds, s.cur, r.cur);
        assert |r.cur| == |s.cur| by { ShapeLength(s.cur, r.cur); }
        VisitsTrack(ds, j + 1, r);
      }
    }
  }

  lemma ShapeLength(a: seq<Desc>, b: seq<Desc>)
    requires SameShape(a, b)
    ensures |a| == |b|
  {
  }

  lemma {:induction false} SameBefore(ds: seq<Desc>, es: seq<Desc>, j: nat, t: Byte, reset: Byte)
    requires j <= |ds| && ds <= es
    ensures Ever(ds, j, t) <==> Ever(es, j, t)
    ensures Since(ds, j, t, reset) <==> Since(es, j, t, reset)
  {
    if j > 0 {
      SameBefore(ds, es, j - 1, t, reset);
    }
  }

  lemma MayFollowBefore(ds: seq<Desc>, es: seq<Desc>, j: nat, t: Byte)
    requires j <= |ds| && ds <= es
    ensures MayFollow(ds, j, t) <==> MayFollow(es, j, t)
  {
    hide Ever, Since;
    SameBefore(ds, es, j, DEVICE, DEVICE);
    SameBefore(ds, es, j, CONFIGURATION, DEVICE);
    SameBefore(ds, es, j, INTERFACE, CONFIGURATION);
  }

  // The pass, on the list with the dummy device at its end, raises no exception if and only
  // if every descriptor, and the end, finds before it what it needs.
  lemma PassGoesIff(ds: seq<Desc>)
    requires AllProper(ds) && Proper(NEW_DEVICE)
    ensures var s := Start(ds + [NEW_DEVICE]);
            Refs(s) && (Visits(s, 0).Goes? <==> Accepted(ds))
  {
    hide Visits, MayFollow;
    var es := ds + [NEW_DEVICE];
    var s := Start(es);
    assert Refs(s) && Tracks(es, 0, s) && SameShape(es, s.cur);
    VisitsTrack(es, 0, s);
    forall j | 0 <= j <= |ds| ensures MayFollow(ds, j, TypeOf(es[j])) <==> MayFollow(es, j, TypeOf(es[j])) {
      MayFollowBefore(ds, es, j, TypeOf(es[j]));
    }
    assert TypeOf(es[|ds|]) == DEVICE;
    assert forall j :: 0 <= j < |ds| ==> es[j] == ds[j];
  }
}
