// The context that descriptors and strings are added to, and that `Wrapup` closes,
// scripts/Usb2Desc.py.
module DescContext {
  import opened Bytes
  import opened DescCompiler
  import opened DescProof
  import opened DescAccept

  // A string is kept as its UTF-16 code units, little endian.
  type Str = seq<Byte>

  function StringDesc(s: Str): Desc {
    [(2 + |s|) % 256, STRING] + s
  }

  function StringDescs(strs: seq<Str>): seq<Desc> {
    if strs == [] then [] else [StringDesc(strs[0])] + StringDescs(strs[1..])
  }

  // The string table, behind the descriptor of the language.
  function StringSection(strs: seq<Str>): seq<Desc> {
    if strs == [] then [] else [LANG_ID] + StringDescs(strs)
  }

  // A qualifier says what the device would be at the other speed.
  function Qualifier(d: Desc): Desc
    requires |d| == 18
  {
    [10, QUALIFIER, d[2], d[3], d[4], d[5], d[6], d[7], d[17], 0]
  }

  predicate AreDevices(g: seq<Desc>, devs: seq<nat>) {
    && (forall i :: 0 <= i < |devs| ==> devs[i] < |g| && TypeOf(g[devs[i]]) == DEVICE)
    && (forall i, j :: 0 <= i < j < |devs| ==> devs[i] < devs[j])
  }

  // Of the first two devices each is followed by the qualifier of the other.
  function Qualified(g: seq<Desc>, devs: seq<nat>): seq<Desc>
    requires AllProper(g) && AreDevices(g, devs)
  {
    if |devs| < 2 then g
    else
      var f, h := devs[0], devs[1];
      g[..f + 1] + [Qualifier(g[h])] + g[f + 1..h + 1] + [Qualifier(g[f])] + g[h + 1..]
  }

  lemma FilledShape(ds: seq<Desc>)
    requires AllProper(ds)
    ensures |FilledList(ds)| == |ds| && AllProper(FilledList(ds))
    ensures forall k :: 0 <= k < |ds| ==> TypeOf(FilledList(ds)[k]) == TypeOf(ds[k]) && |FilledList(ds)[k]| == |ds[k]|
  {
    hide Run, Number;
    forall k | 0 <= k < |ds|
      ensures Proper(Filled(ds, k)) && TypeOf(Filled(ds, k)) == TypeOf(ds[k]) && |Filled(ds, k)| == |ds[k]|
    {
      FilledOne(ds, k);
    }
  }

  lemma FilledOne(ds: seq<Desc>, k: nat)
    requires AllProper(ds) && k < |ds|
    ensures Proper(Filled(ds, k)) && TypeOf(Filled(ds, k)) == TypeOf(ds[k]) && |Filled(ds, k)| == |ds[k]|
  {
    hide Run, Number;
  }

  lemma {:induction false} DevicesAre(ds: seq<Desc>, j: nat)
    requires j <= |ds|
    ensures AreDevices(ds[..j], Devices(ds, j))
  {
    if j > 0 {
      DevicesAre(ds, j - 1);
      assert forall x :: 0 <= x < j - 1 ==> ds[..j][x] == ds[..j - 1][x];
    }
  }

  // The finished list.
  function Compiled(ds: seq<Desc>, strs: seq<Str>): seq<Desc>
    requires AllProper(ds)
  {
    FilledShape(ds);
    DevicesAre(ds, |ds|);
    assert ds[..|ds|] == ds;
    Qualified(FilledList(ds), Devices(ds, |ds|)) + StringSection(strs) + [TAIL]
  }

  // ---- devices found by the pass, whatever the list -----------------------------------------

  lemma VisitDevices(s: Pass, k: nat)
    requires Refs(s) && k < |s.cur| && AreDevices(s.cur[..k], s.devds) && Visit(s, k).Goes?
    ensures var r := Visit(s, k).s; |r.cur| == |s.cur| && AreDevices(r.cur[..k + 1], r.devds)
  {
    VisitKeeps(s, k);
    hide SameShape, Refs, CloseConfig, Set8;
    var r := Visit(s, k).s;
    assert r.devds == s.devds || (TypeOf(s.cur[k]) == DEVICE && r.devds == s.devds + [k]);
    hide Visit;
    assert |r.cur| == |s.cur| && forall x :: 0 <= x < |s.cur| ==> TypeOf(r.cur[x]) == TypeOf(s.cur[x]) by {
      TypesStay(s.cur, r.cur);
    }
    forall i | 0 <= i < |r.devds| ensures r.devds[i] < k + 1 && TypeOf(r.cur[..k + 1][r.devds[i]]) == DEVICE {
      assert i < |s.devds| ==> TypeOf(s.cur[..k][s.devds[i]]) == DEVICE;
    }
  }

  lemma TypesStay(a: seq<Desc>, b: seq<Desc>)
    requires SameShape(a, b)
    ensures |b| == |a| && forall x :: 0 <= x < |a| ==> TypeOf(b[x]) == TypeOf(a[x])
  {
  }

  lemma {:induction false} VisitsDevices(s: Pass, k: nat)
    requires Refs(s) && k <= |s.cur| && AreDevices(s.cur[..k], s.devds)
    ensures Visits(s, k).Goes? ==>
              var r := Visits(s, k).s; |r.cur| == |s.cur| && AllProper(r.cur) && AreDevices(r.cur, r.devds)
    decreases |s.cur| - k
  {
    hide Visit, AreDevices;
    if k == |s.cur| {
      assert s.cur[..k] == s.cur;
    } else {
      VisitKeeps(s, k);
      if Visit(s, k).Goes? {
        VisitDevices(s, k);
        VisitsDevices(Visit(s, k).s, k + 1);
      }
    }
  }

  lemma NewAtEnd(ds: seq<Desc>)
    requires AllProper(ds)
    ensures AllProper(ds + [NEW_DEVICE])
  {
    NewProper();
  }

  // What the pass finds, for any list that ends with the dummy.
  lemma PassFinds(ds: seq<Desc>)
    requires AllProper(ds) && ds != []
    ensures var s0 := Start(ds);
            Refs(s0) && (Visits(s0, 0).Goes? ==>
                           var r := Visits(s0, 0).s;
                           |r.cur| == |ds| && AllProper(r.cur) && AreDevices(r.cur, r.devds)
                           && (|r.devds| > 2 ==> AreDevices(r.cur[..|ds| - 1], r.devds[..2])))
  {
    hide Visits, AllProper;
    var s0 := Start(ds);
    VisitsDevices(s0, 0);
    if Visits(s0, 0).Goes? {
      var r := Visits(s0, 0).s;
      if |r.devds| > 2 {
        assert r.devds[0] < r.devds[1] < r.devds[2] < |ds|;
        assert forall i :: 0 <= i < 2 ==> r.cur[..|ds| - 1][r.devds[i]] == r.cur[r.devds[i]];
      }
    }
  }

  // The first two devices get each other's qualifier.
  method InsertQualifiers(g: seq<Desc>, devs: seq<nat>) returns (r: seq<Desc>)
    requires AllProper(g) && AreDevices(g, devs) && |devs| == 2
    ensures r == Qualified(g, devs)
  {
    var f, h := devs[0], devs[1];
    var hsq, fsq := Qualifier(g[f]), Qualifier(g[h]);
    var r1 := g[..f + 1] + [fsq] + g[f + 1..];
    // the second device has moved by one
    r := r1[..h + 2] + [hsq] + r1[h + 2..];
    InsertTwice(g, f, h, fsq, hsq);
  }

  lemma InsertTwice(g: seq<Desc>, f: nat, h: nat, x: Desc, y: Desc)
    requires f < h < |g|
    ensures var r := g[..f + 1] + [x] + g[f + 1..];
            r[..h + 2] + [y] + r[h + 2..] == g[..f + 1] + [x] + g[f + 1..h + 1] + [y] + g[h + 1..]
  {
    var r := g[..f + 1] + [x] + g[f + 1..];
    assert r[..h + 2] == g[..f + 1] + [x] + g[f + 1..h + 1];
    assert r[h + 2..] == g[h + 1..];
  }

  method AppendStrings(ds: seq<Desc>, strs: seq<Str>) returns (r: seq<Desc>)
    ensures r == ds + StringSection(strs)
  {
    r := ds;
    if |strs| > 0 {
      r := r + [LANG_ID];
      for i := 0 to |strs|
        invariant r + StringDescs(strs[i..]) == ds + [LANG_ID] + StringDescs(strs)
      {
        r := r + [StringDesc(strs[i])];
      }
      assert strs[|strs|..] == [];
      assert r + [] == r && ds + [LANG_ID] + StringDescs(strs) == ds + ([LANG_ID] + StringDescs(strs));
    } else {
      assert ds + [] == ds;
    }
  }

  lemma SameDevices(ds: seq<Desc>, devds: seq<nat>, strs: seq<Str>)
    requires AllProper(ds) && devds == Devices(ds, |ds|) + [|ds|]
    requires |devds| > 2 ==> AreDevices(FilledList(ds), devds[..2])
    ensures AllProper(FilledList(ds))
    ensures Compiled(ds, strs) == (if |devds| > 2 then Qualified(FilledList(ds), devds[..2]) else FilledList(ds))
                                  + StringSection(strs) + [TAIL]
  {
    hide FilledList, StringSection, AllProper, Devices;
    FilledShape(ds);
    DevicesAre(ds, |ds|);
    assert ds[..|ds|] == ds;
    FirstTwo(FilledList(ds), Devices(ds, |ds|), devds);
  }

  lemma FirstTwo(g: seq<Desc>, devs: seq<nat>, devds: seq<nat>)
    requires AllProper(g) && AreDevices(g, devs) && devds == devs + [|g|]
    requires |devds| > 2 ==> AreDevices(g, devds[..2])
    ensures Qualified(g, devs) == if |devds| > 2 then Qualified(g, devds[..2]) else g
  {
  }

  // The finished list after a pass, whatever the list was: the dummy is taken off, the
  // qualifiers, the strings and the sentinel are added.
  predicate Closable(s: Pass) {
    && s.cur != [] && AllProper(s.cur[..|s.cur| - 1])
    && (|s.devds| > 2 ==> AreDevices(s.cur[..|s.cur| - 1], s.devds[..2]))
  }

  function Closed(s: Pass, strs: seq<Str>): seq<Desc>
    requires Closable(s)
  {
    var g := s.cur[..|s.cur| - 1];
    (if |s.devds| > 2 then Qualified(g, s.devds[..2]) else g) + StringSection(strs) + [TAIL]
  }

  method FinishList(s: Pass, strs: seq<Str>) returns (r: seq<Desc>)
    requires Closable(s)
    ensures r == Closed(s, strs)
  {
    hide Qualified, AreDevices, StringSection, AllProper;
    r := s.cur[..|s.cur| - 1];
    if |s.devds| > 2 {
      r := InsertQualifiers(r, s.devds[..2]);
    }
    r := AppendStrings(r, strs);
    r := r + [TAIL];
  }

  // What becomes of a list.
  lemma PassCloses(ds: seq<Desc>, strs: seq<Str>)
    requires AllProper(ds)
    ensures var s := Start(ds + [NEW_DEVICE]);
            && AllProper(ds + [NEW_DEVICE]) && Refs(s) && (Visits(s, 0).Goes? <==> Accepted(ds))
            && (Visits(s, 0).Goes? ==> Closable(Visits(s, 0).s))
            && (Compilable(ds) ==> Visits(s, 0).Goes? && Closed(Visits(s, 0).s, strs) == Compiled(ds, strs))
  {
    hide Compiled, Qualified, AreDevices, FilledList, Compilable, Accepted, StringSection, Devices;
    NewAtEnd(ds);
    NewProper();
    PassGoesIff(ds);
    PassFinds(ds + [NEW_DEVICE]);
    if Compilable(ds) {
      PassFills(ds);
      SameDevices(ds, Visits(Start(ds + [NEW_DEVICE]), 0).s.devds, strs);
    }
  }

  // ---- the class -------------------------------------------------------------------------------------

  class Usb2DescContext {
    var descs: seq<Desc>
    var strtbl: seq<Str>
    var wrapped: bool

    ghost predicate Valid()
      reads this
    {
      && AllProper(descs)
      && (forall i :: 0 <= i < |strtbl| ==> strtbl[i] != [])
      && (forall i, j :: 0 <= i < j < |strtbl| ==> strtbl[i] != strtbl[j])
    }

    constructor ()
      ensures Valid() && descs == [] && strtbl == [] && !wrapped
    {
      descs, strtbl, wrapped := [], [], false;
    }

    // The factory methods: a descriptor is appended, unless the context is closed.
    method Append(d: Desc) returns (ok: bool)
      requires Valid() && Proper(d)
      modifies this`descs
      ensures Valid() && ok == !wrapped
      ensures descs == if ok then old(descs) + [d] else old(descs)
    {
      ok := !wrapped;
      if ok {
        descs := descs + [d];
      }
    }

    // The index of a string, entered if it is new.  Index 0 stands for no string.
    method AddString(s: Str) returns (ok: bool, index: nat)
      requires Valid()
      modifies this`strtbl
      ensures Valid() && ok == !wrapped
      ensures old(strtbl) <= strtbl && |strtbl| <= |old(strtbl)| + 1
      ensures !ok ==> strtbl == old(strtbl)
      ensures ok && s == [] ==> index == 0 && strtbl == old(strtbl)
      ensures ok && s != [] ==> 1 <= index <= |strtbl| && strtbl[index - 1] == s
      ensures ok && s in old(strtbl) ==> strtbl == old(strtbl)
    {
      index := 0;
      if wrapped {
        return false, 0;
      }
      ok := true;
      if s != [] {
        while index < |strtbl| && strtbl[index] != s
          invariant 0 <= index <= |strtbl| && forall i :: 0 <= i < index ==> strtbl[i] != s
        {
          index := index + 1;
        }
        if index == |strtbl| {
          strtbl := strtbl + [s];
        }
        index := index + 1;
      }
    }

    // An index above the table raises; below 1 there is no string.
    method GetString(i: int) returns (ok: bool, s: Option<Str>)
      requires Valid()
      ensures ok <==> i <= |strtbl|
      ensures ok ==> s == if i < 1 then None else Some(strtbl[i - 1])
    {
      if i < 1 {
        return true, None;
      }
      if i - 1 >= |strtbl| {
        return false, None;
      }
      return true, Some(strtbl[i - 1]);
    }

    // Closes the context.  It succeeds if and only if the list is accepted; then the list is
    // what the pass has made of it, and for a compilable list the compiled one.
    method Wrapup() returns (ok: bool)
      requires Valid()
      modifies this`descs, this`wrapped
      ensures old(wrapped) ==> !ok && descs == old(descs) && wrapped
      ensures ok ==> wrapped
      ensures !old(wrapped) ==> (ok <==> Accepted(old(descs)))
      ensures ok ==>
                var s := Start(old(descs) + [NEW_DEVICE]);
                Refs(s) && Visits(s, 0).Goes? && Closable(Visits(s, 0).s) && descs == Closed(Visits(s, 0).s, strtbl)
      ensures !old(wrapped) && Compilable(old(descs)) ==> ok && descs == Compiled(old(descs), strtbl)
    {
      hide Compiled, Compilable, Accepted, Refs, Closable, Closed, AllProper;
      if wrapped {
        return false;
      }
      PassCloses(descs, strtbl);
      // the dummy at the end closes the last device
      descs := descs + [NEW_DEVICE];
      var o := Count(descs);
      if o.Raises? {
        return false;
      }
      descs := FinishList(o.s, strtbl);
      wrapped, ok := true, true;
    }
  }
}
