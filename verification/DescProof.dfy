// The compiler's single pass computes, for every well-formed context, the numbers that
// the structure of the list defines.
module DescProof {
  import opened Bytes
  import opened DescCompiler

  // ---- runs and counts -----------------------------------------------------------------

  predicate NoEnd(ds: seq<Desc>, a: nat, b: nat, level: nat) {
    b <= |ds| && forall k :: a <= k < b ==> !Ends(ds[k], level)
  }

  lemma RunSome(d: Desc, rest: seq<Desc>, level: nat)
    ensures Run([d] + rest, level) == if Ends(d, level) then [] else [d] + Run(rest, level)
  {
    hide Ends;
    assert ([d] + rest)[1..] == rest;
  }

  // One more descriptor belongs to the run unless the run, or the descriptor, has ended it.
  lemma {:induction false} RunSnoc(ds: seq<Desc>, a: nat, j: nat, level: nat)
    requires a <= j < |ds|
    ensures Run(ds[a..j + 1], level) ==
            if NoEnd(ds, a, j, level) && !Ends(ds[j], level)
            then Run(ds[a..j], level) + [ds[j]] else Run(ds[a..j], level)
    decreases j - a
  {
    hide Ends, Run;
    if a < j {
      RunSnoc(ds, a + 1, j, level);
      assert ds[a..j + 1] == [ds[a]] + ds[a + 1..j + 1] && ds[a..j] == [ds[a]] + ds[a + 1..j];
      RunSome(ds[a], ds[a + 1..j + 1], level);
      RunSome(ds[a], ds[a + 1..j], level);
      assert NoEnd(ds, a, j, level) <==> !Ends(ds[a], level) && NoEnd(ds, a + 1, j, level);
      assert [ds[a]] + (Run(ds[a + 1..j], level) + [ds[j]]) == ([ds[a]] + Run(ds[a + 1..j], level)) + [ds[j]];
    } else {
      RunEmpty(level);
      RunSome(ds[j], [], level);
      assert ds[a..j + 1] == [ds[j]] + [] && ds[a..j] == [];
      assert [ds[j]] + [] == [] + [ds[j]];
    }
  }

  lemma RunEmpty(level: nat)
    ensures Run([], level) == []
  {
  }

  // A run is over at its first end, whatever follows.
  lemma {:induction false} RunStops(ds: seq<Desc>, a: nat, j: nat, level: nat)
    requires a <= j <= |ds| && (j < |ds| ==> Ends(ds[j], level))
    ensures Run(ds[a..], level) == Run(ds[a..j], level)
    decreases j - a
  {
    hide Ends;
    if a < j {
      RunStops(ds, a + 1, j, level);
      assert ds[a..][1..] == ds[a + 1..] && ds[a..j][1..] == ds[a + 1..j];
    } else if j < |ds| {
      assert ds[a..][0] == ds[j] && ds[a..j] == [];
    } else {
      assert ds[a..] == [] && ds[a..j] == [];
    }
  }

  lemma {:induction false} CountsSnoc(x: seq<Desc>, d: Desc)
    ensures Total(x + [d]) == Total(x) + |d|
    ensures Endpoints(x + [d]) == Endpoints(x) + (if TypeOf(d) == ENDPOINT then 1 else 0)
    ensures Interfaces(x + [d]) == Interfaces(x) + (if IsFirstSetting(d) then 1 else 0)
    ensures Configs(x + [d]) == Configs(x) + (if TypeOf(d) == CONFIGURATION then 1 else 0)
  {
    hide IsFirstSetting;
    if x == [] {
      assert x + [d] == [d] && [d][1..] == [];
    } else {
      assert (x + [d])[1..] == x[1..] + [d] && (x + [d])[0] == x[0];
      CountsSnoc(x[1..], d);
    }
  }

  // The counts over the run from a, as far as j.
  function EndpointsOf(ds: seq<Desc>, a: nat, j: nat): nat
    requires a <= j <= |ds|
  {
    Endpoints(Run(ds[a..j], 2))
  }

  function InterfacesOf(ds: seq<Desc>, a: nat, j: nat): nat
    requires a <= j <= |ds|
  {
    Interfaces(Run(ds[a..j], 1))
  }

  function BytesOf(ds: seq<Desc>, a: nat, j: nat): nat
    requires a <= j <= |ds|
  {
    Total(Run(ds[a..j], 1))
  }

  function ConfigsOf(ds: seq<Desc>, a: nat, j: nat): nat
    requires a <= j <= |ds|
  {
    Configs(Run(ds[a..j], 0))
  }

  // One more descriptor.
  lemma CountStep(ds: seq<Desc>, a: nat, j: nat)
    requires a <= j < |ds|
    ensures var d := ds[j];
            && EndpointsOf(ds, a, j + 1) == EndpointsOf(ds, a, j)
               + (if NoEnd(ds, a, j, 2) && !Ends(d, 2) && TypeOf(d) == ENDPOINT then 1 else 0)
            && InterfacesOf(ds, a, j + 1) == InterfacesOf(ds, a, j)
               + (if NoEnd(ds, a, j, 1) && !Ends(d, 1) && IsFirstSetting(d) then 1 else 0)
            && BytesOf(ds, a, j + 1) == BytesOf(ds, a, j) + (if NoEnd(ds, a, j, 1) && !Ends(d, 1) then |d| else 0)
            && ConfigsOf(ds, a, j + 1) == ConfigsOf(ds, a, j)
               + (if NoEnd(ds, a, j, 0) && !Ends(d, 0) && TypeOf(d) == CONFIGURATION then 1 else 0)
  {
    hide Ends, Run, NoEnd, Total, Endpoints, Interfaces, Configs, IsFirstSetting, TypeOf;
    RunSnoc(ds, a, j, 0);
    RunSnoc(ds, a, j, 1);
    RunSnoc(ds, a, j, 2);
    CountsSnoc(Run(ds[a..j], 0), ds[j]);
    CountsSnoc(Run(ds[a..j], 1), ds[j]);
    CountsSnoc(Run(ds[a..j], 2), ds[j]);
  }

  lemma CountNone(ds: seq<Desc>, j: nat)
    requires j <= |ds|
    ensures EndpointsOf(ds, j, j) == InterfacesOf(ds, j, j) == BytesOf(ds, j, j) == ConfigsOf(ds, j, j) == 0
  {
    assert ds[j..j] == [];
  }

  // ---- what the variables of the loop hold ---------------------------------------------

  predicate DeviceOpen(ds: seq<Desc>, s: Pass, j: nat) {
    && s.devd.At? && s.devd.k < j <= |ds| && TypeOf(ds[s.devd.k]) == DEVICE
    && s.numc == Value(ConfigsOf(ds, s.devd.k + 1, j)) && s.numc.n == Number(ds, j)
  }

  predicate ConfigOpen(ds: seq<Desc>, s: Pass, j: nat) {
    && s.cnfd.At? && s.cnfd.k < j <= |ds| && TypeOf(ds[s.cnfd.k]) == CONFIGURATION
    && s.totl == 9 + BytesOf(ds, s.cnfd.k + 1, j)
    && s.ifn == Value(InterfacesOf(ds, s.cnfd.k + 1, j) - 1)
  }

  predicate InterfaceOpen(ds: seq<Desc>, s: Pass, j: nat) {
    && s.ifcd.At? && s.ifcd.k < j <= |ds| && TypeOf(ds[s.ifcd.k]) == INTERFACE
    && s.nume == Value(EndpointsOf(ds, s.ifcd.k + 1, j))
  }

  // Which of them are under way, and that their runs have not ended before a sentinel.
  predicate Variables(ds: seq<Desc>, s: Pass, j: nat, m: Mode) {
    match m
    case NeedDevice => s.devd.Nothing?
    case NeedConfig =>
      DeviceOpen(ds, s, j) && s.cnfd.Nothing? && NoEnd(ds, s.devd.k + 1, j, 0)
    case NeedInterface =>
      && DeviceOpen(ds, s, j) && ConfigOpen(ds, s, j) && s.ifcd.Nothing?
      && NoEnd(ds, s.devd.k + 1, j, 0) && NoEnd(ds, s.cnfd.k + 1, j, 1)
    case InInterface =>
      && DeviceOpen(ds, s, j) && ConfigOpen(ds, s, j) && InterfaceOpen(ds, s, j)
      && NoEnd(ds, s.devd.k + 1, j, 0) && NoEnd(ds, s.cnfd.k + 1, j, 1) && NoEnd(ds, s.ifcd.k + 1, j, 2)
    case AfterSentinel =>
      DeviceOpen(ds, s, j) && ConfigOpen(ds, s, j) && InterfaceOpen(ds, s, j)
    case Bad => false
  }

  // Descriptor k of the list: done, under way, or not yet reached.
  function Expected(ds: seq<Desc>, s: Pass, j: nat, k: nat): Desc
    requires AllProper(ds) && j <= |ds| && k <= |ds|
  {
    if k == |ds| then NEW_DEVICE
    else if k >= j || s.devd == At(k) then ds[k]
    else if s.cnfd == At(k) then (if TypeOf(ds[k]) == CONFIGURATION then Numbered(ds, k) else ds[k])
    else if s.ifcd == At(k) && (ModeAt(ds, j).InInterface? || ModeAt(ds, j).AfterSentinel?) then ds[k]
    else Filled(ds, k)
  }

  ghost predicate Inv(ds: seq<Desc>, s: Pass, j: nat) {
    && AllProper(ds) && j <= |ds| && Refs(s) && |s.cur| == |ds| + 1
    && Variables(ds, s, j, ModeAt(ds, j)) && s.devds == Devices(ds, j)
    && forall k :: 0 <= k <= |ds| ==> s.cur[k] == Expected(ds, s, j, k)
  }

  // ---- steps ------------------------------------------------------------------------------

  // Each count goes on while its run does.
  lemma DeviceStays(ds: seq<Desc>, s: Pass, j: nat, r: Pass)
    requires DeviceOpen(ds, s, j) && j < |ds| && TypeOf(ds[j]) != DEVICE && r.devd == s.devd
    requires if NoEnd(ds, s.devd.k + 1, j, 0) && !Ends(ds[j], 0) && TypeOf(ds[j]) == CONFIGURATION
             then r.numc == Value(s.numc.n + 1) else r.numc == s.numc
    requires TypeOf(ds[j]) == CONFIGURATION ==> NoEnd(ds, s.devd.k + 1, j, 0)
    ensures DeviceOpen(ds, r, j + 1)
  {
    hide NoEnd, ConfigsOf;
    CountStep(ds, s.devd.k + 1, j);
  }

  lemma ConfigStays(ds: seq<Desc>, s: Pass, j: nat, r: Pass)
    requires ConfigOpen(ds, s, j) && j < |ds| && r.cnfd == s.cnfd
    requires var goes := NoEnd(ds, s.cnfd.k + 1, j, 1) && !Ends(ds[j], 1);
             && r.totl == s.totl + (if goes then |ds[j]| else 0)
             && r.ifn == (if goes && IsFirstSetting(ds[j]) then Value(s.ifn.n + 1) else s.ifn)
    ensures ConfigOpen(ds, r, j + 1)
  {
    hide NoEnd, BytesOf, InterfacesOf, Ends;
    CountStep(ds, s.cnfd.k + 1, j);
  }

  lemma InterfaceStays(ds: seq<Desc>, s: Pass, j: nat, r: Pass)
    requires InterfaceOpen(ds, s, j) && j < |ds| && r.ifcd == s.ifcd
    requires r.nume == if NoEnd(ds, s.ifcd.k + 1, j, 2) && !Ends(ds[j], 2) && TypeOf(ds[j]) == ENDPOINT
                       then Value(s.nume.n + 1) else s.nume
    ensures InterfaceOpen(ds, r, j + 1)
  {
    hide NoEnd, EndpointsOf, Ends;
    CountStep(ds, s.ifcd.k + 1, j);
  }

  lemma NoEndStep(ds: seq<Desc>, a: nat, j: nat, level: nat)
    requires j < |ds|
    ensures NoEnd(ds, a, j, level) && !Ends(ds[j], level) ==> NoEnd(ds, a, j + 1, level)
  {
    hide Ends;
  }

  // A descriptor that is neither device, configuration nor interface.
  lemma OthersVariables(ds: seq<Desc>, s: Pass, j: nat, m: Mode, r: Pass)
    requires Variables(ds, s, j, m) && j < |ds| && !After(m, ds[j]).Bad?
    requires TypeOf(ds[j]) != DEVICE && TypeOf(ds[j]) != CONFIGURATION && TypeOf(ds[j]) != INTERFACE
    requires TypeOf(ds[j]) == ENDPOINT ==> s.nume.Value?
    requires r == s.(nume := if TypeOf(ds[j]) == ENDPOINT then Value(s.nume.n + 1) else s.nume,
                     totl := if TypeOf(ds[j]) == SENTINEL then s.totl else s.totl + |ds[j]|)
    ensures Variables(ds, r, j + 1, After(m, ds[j]))
  {
    hide DeviceOpen, ConfigOpen, InterfaceOpen, NoEnd;
    assert s.devd.At? by { OpenAt(ds, s, j); }
    DeviceStays(ds, s, j, r);
    NoEndStep(ds, s.devd.k + 1, j, 0);
    if !m.NeedConfig? {
      ConfigStays(ds, s, j, r);
      assert s.cnfd.At? by { OpenAt(ds, s, j); }
      NoEndStep(ds, s.cnfd.k + 1, j, 1);
      if m.InInterface? {
        InterfaceStays(ds, s, j, r);
        assert s.ifcd.At? by { OpenAt(ds, s, j); }
        NoEndStep(ds, s.ifcd.k + 1, j, 2);
      }
    }
  }

  lemma OpenAt(ds: seq<Desc>, s: Pass, j: nat)
    ensures DeviceOpen(ds, s, j) ==> s.devd.At? && s.devd.k < j && s.numc.Value?
    ensures ConfigOpen(ds, s, j) ==> s.cnfd.At? && s.cnfd.k < j && s.ifn.Value?
    ensures InterfaceOpen(ds, s, j) ==> s.ifcd.At? && s.ifcd.k < j && s.nume.Value?
  {
  }

  lemma DeviceVariables(ds: seq<Desc>, s: Pass, j: nat, m: Mode, r: Pass)
    requires Variables(ds, s, j, m) && j < |ds| && TypeOf(ds[j]) == DEVICE && !After(m, ds[j]).Bad?
    requires r.devd == At(j) && r.numc == Value(0) && r.cnfd == Nothing
    ensures Variables(ds, r, j + 1, After(m, ds[j]))
  {
    hide ConfigsOf;
    CountNone(ds, j + 1);
  }

  lemma ConfigVariables(ds: seq<Desc>, s: Pass, j: nat, m: Mode, r: Pass)
    requires Variables(ds, s, j, m) && j < |ds| && TypeOf(ds[j]) == CONFIGURATION && !After(m, ds[j]).Bad?
    requires s.numc.Value? && r.devd == s.devd && r.numc == Value(s.numc.n + 1)
    requires r.cnfd == At(j) && r.ifcd == Nothing && r.totl == 9 && r.ifn == Value(-1)
    ensures Variables(ds, r, j + 1, After(m, ds[j]))
  {
    hide ConfigsOf, BytesOf, InterfacesOf, DeviceOpen;
    assert s.devd.At? by { OpenAt(ds, s, j); }
    CountNone(ds, j + 1);
    DeviceStays(ds, s, j, r);
    NoEndStep(ds, s.devd.k + 1, j, 0);
  }

  lemma InterfaceVariables(ds: seq<Desc>, s: Pass, j: nat, m: Mode, r: Pass)
    requires Variables(ds, s, j, m) && j < |ds| && TypeOf(ds[j]) == INTERFACE && !After(m, ds[j]).Bad?
    requires r.devd == s.devd && r.numc == s.numc && r.cnfd == s.cnfd
    requires s.ifn.Value? && r.ifn == if IsFirstSetting(ds[j]) then Value(s.ifn.n + 1) else s.ifn
    requires r.ifcd == At(j) && r.nume == Value(0) && r.totl == s.totl + |ds[j]|
    ensures Variables(ds, r, j + 1, After(m, ds[j]))
  {
    hide DeviceOpen, ConfigOpen, EndpointsOf, IsFirstSetting;
    assert s.devd.At? && s.cnfd.At? by { OpenAt(ds, s, j); }
    CountNone(ds, j + 1);
    DeviceStays(ds, s, j, r);
    ConfigStays(ds, s, j, r);
    NoEndStep(ds, s.devd.k + 1, j, 0);
    NoEndStep(ds, s.cnfd.k + 1, j, 1);
  }

  // ---- closing: the counts so far are the final ones -----------------------------------------

  predicate AtEnd(ds: seq<Desc>, j: nat, level: nat) {
    j <= |ds| && (j < |ds| ==> Ends(ds[j], level))
  }

  lemma ClosesInterface(ds: seq<Desc>, s: Pass, j: nat)
    requires AllProper(ds) && InterfaceOpen(ds, s, j) && AtEnd(ds, j, 2)
    ensures |ds[s.ifcd.k]| == 9 && Set8(ds[s.ifcd.k], 4, s.nume.n) == Filled(ds, s.ifcd.k)
  {
    hide Run, Ends, Endpoints;
    RunStops(ds, s.ifcd.k + 1, j, 2);
    assert Proper(ds[s.ifcd.k]);
  }

  lemma ClosesConfig(ds: seq<Desc>, s: Pass, j: nat)
    requires AllProper(ds) && ConfigOpen(ds, s, j) && AtEnd(ds, j, 1)
    ensures Proper(ds[s.cnfd.k]) && |Numbered(ds, s.cnfd.k)| == 9
    ensures Set8(Set16(Numbered(ds, s.cnfd.k), 2, s.totl), 4, s.ifn.n + 1) == Filled(ds, s.cnfd.k)
  {
    hide Run, Ends, Total, Interfaces, Set16;
    RunStops(ds, s.cnfd.k + 1, j, 1);
    assert Proper(ds[s.cnfd.k]);
    SetGet(Numbered(ds, s.cnfd.k), 2, s.totl);
  }

  lemma ClosesDevice(ds: seq<Desc>, s: Pass, j: nat)
    requires AllProper(ds) && DeviceOpen(ds, s, j) && AtEnd(ds, j, 0)
    ensures |ds[s.devd.k]| == 18 && Set8(ds[s.devd.k], 17, s.numc.n) == Filled(ds, s.devd.k)
  {
    hide Run, Ends, Configs;
    RunStops(ds, s.devd.k + 1, j, 0);
    assert Proper(ds[s.devd.k]);
  }

  lemma NumbersConfig(ds: seq<Desc>, s: Pass, j: nat)
    requires AllProper(ds) && DeviceOpen(ds, s, j) && j < |ds| && TypeOf(ds[j]) == CONFIGURATION
    ensures |ds[j]| == 9 && Proper(ds[j]) && Set8(ds[j], 5, s.numc.n + 1) == Numbered(ds, j)
  {
    hide ConfigsOf;
    assert Proper(ds[j]);
  }

  // ---- the invariant ---------------------------------------------------------------------------------

  lemma InvParts(ds: seq<Desc>, s: Pass, j: nat, k: nat)
    requires Inv(ds, s, j) && k <= |ds|
    ensures AllProper(ds) && j <= |ds| && Refs(s) && |s.cur| == |ds| + 1
    ensures Variables(ds, s, j, ModeAt(ds, j)) && s.devds == Devices(ds, j)
    ensures s.cur[k] == Expected(ds, s, j, k)
    ensures k < |ds| ==> Proper(ds[k])
  {
    hide Variables, Expected, Refs;
  }

  // How the visit changes the list, when nothing is missing.
  predicate Changes(ds: seq<Desc>, s: Pass, r: Pass, j: nat)
    requires AllProper(ds) && j < |ds|
  {
    && |r.cur| == |s.cur| == |ds| + 1
    && forall k :: 0 <= k <= |ds| && s.cur[k] == Expected(ds, s, j, k) ==> r.cur[k] == Expected(ds, r, j + 1, k)
  }

  lemma OthersList(ds: seq<Desc>, s: Pass, j: nat, r: Pass)
    requires AllProper(ds) && j < |ds| && |s.cur| == |ds| + 1 && Variables(ds, s, j, ModeAt(ds, j))
    requires TypeOf(ds[j]) != DEVICE && TypeOf(ds[j]) != CONFIGURATION && TypeOf(ds[j]) != INTERFACE
    requires !ModeAt(ds, j + 1).Bad?
    requires r.cur == s.cur && r.devd == s.devd && r.cnfd == s.cnfd && r.ifcd == s.ifcd
    ensures Changes(ds, s, r, j)
  {
    hide DeviceOpen, ConfigOpen, InterfaceOpen, Number, Numbered, AllProper, NoEnd;
    assert Proper(ds[j]) by { ProperAt(ds, j); }
    OpenAt(ds, s, j);
    ModeStep(ds, j);
    hide ModeAt;
    assert Filled(ds, j) == ds[j];
    hide Filled;
  }

  lemma ModeStep(ds: seq<Desc>, j: nat)
    requires j < |ds|
    ensures ModeAt(ds, j + 1) == After(ModeAt(ds, j), ds[j])
  {
  }

  lemma ProperAt(ds: seq<Desc>, j: nat)
    requires AllProper(ds) && j < |ds|
    ensures Proper(ds[j])
  {
  }

  lemma OthersStep(ds: seq<Desc>, s: Pass, j: nat)
    requires Inv(ds, s, j) && j < |ds| && !ModeAt(ds, j + 1).Bad?
    requires TypeOf(ds[j]) != DEVICE && TypeOf(ds[j]) != CONFIGURATION && TypeOf(ds[j]) != INTERFACE
    ensures Visit(s, j).Goes? && Inv(ds, Visit(s, j).s, j + 1)
  {
    hide Expected, Variables, Changes, AllProper;
    InvParts(ds, s, j, j);
    VisitKeeps(s, j);
    ModeStep(ds, j);
    assert s.cur[j] == ds[j] by { NotYet(ds, s, j); }
    EndpointsBound(ds, s, j);
    var r := Visit(s, j).s;
    OthersVariables(ds, s, j, ModeAt(ds, j), r);
    OthersList(ds, s, j, r);
    InvFromParts(ds, s, j, r);
  }

  lemma NotYet(ds: seq<Desc>, s: Pass, j: nat)
    requires AllProper(ds) && j < |ds|
    ensures Expected(ds, s, j, j) == ds[j]
  {
  }

  lemma EndpointsBound(ds: seq<Desc>, s: Pass, j: nat)
    requires j < |ds| && Variables(ds, s, j, ModeAt(ds, j)) && !After(ModeAt(ds, j), ds[j]).Bad?
    ensures TypeOf(ds[j]) == ENDPOINT ==> s.nume.Value?
  {
    hide NoEnd, EndpointsOf, ConfigsOf, InterfacesOf, BytesOf;
  }

  lemma InvFromParts(ds: seq<Desc>, s: Pass, j: nat, r: Pass)
    requires Inv(ds, s, j) && j < |ds| && Refs(r) && Variables(ds, r, j + 1, ModeAt(ds, j + 1))
    requires AllProper(ds) && Changes(ds, s, r, j)
    requires r.devds == s.devds + (if TypeOf(ds[j]) == DEVICE then [j] else [])
    ensures Inv(ds, r, j + 1)
  {
    hide Expected, Variables, Refs, AllProper;
  }

  // All three are under way.
  predicate AllOpen(ds: seq<Desc>, s: Pass, j: nat) {
    DeviceOpen(ds, s, j) && ConfigOpen(ds, s, j) && InterfaceOpen(ds, s, j)
  }

  // Closing an interface and its configuration leaves them as they are defined.
  lemma CloseList(ds: seq<Desc>, s: Pass, j: nat)
    requires AllProper(ds) && Refs(s) && |s.cur| == |ds| + 1 && AllOpen(ds, s, j) && AtEnd(ds, j, 1)
    requires s.cur[s.ifcd.k] == ds[s.ifcd.k] && s.cur[s.cnfd.k] == Numbered(ds, s.cnfd.k)
    ensures CanClose(s) && s.ifcd.k != s.cnfd.k && Proper(ds[s.ifcd.k]) && Proper(ds[s.cnfd.k])
    ensures CloseConfig(s) == s.(cur := s.cur[s.ifcd.k := Filled(ds, s.ifcd.k)][s.cnfd.k := Filled(ds, s.cnfd.k)])
  {
    hide Filled, Numbered, EndpointsOf, InterfacesOf, BytesOf, ConfigsOf, Set8, Set16, AllProper, Number, Ends;
    assert AtEnd(ds, j, 2) by { EndsDeeper(ds, j); }
    ProperAt(ds, s.ifcd.k);
    ProperAt(ds, s.cnfd.k);
    ClosesInterface(ds, s, j);
    ClosesConfig(ds, s, j);
  }

  lemma EndsDeeper(ds: seq<Desc>, j: nat)
    requires AtEnd(ds, j, 1)
    ensures AtEnd(ds, j, 2)
  {
  }

  // The list with the open descriptors closed.
  predicate OpenNow(ds: seq<Desc>, s: Pass, j: nat)
    requires AllProper(ds)
  {
    && AllOpen(ds, s, j) && (ModeAt(ds, j).InInterface? || ModeAt(ds, j).AfterSentinel?)
    && |s.cur| == |ds| + 1 && forall k :: 0 <= k <= |ds| ==> s.cur[k] == Expected(ds, s, j, k)
  }

  lemma OpenValues(ds: seq<Desc>, s: Pass, j: nat)
    requires AllProper(ds) && OpenNow(ds, s, j)
    ensures TypeOf(ds[s.cnfd.k]) == CONFIGURATION && Proper(ds[s.cnfd.k])
    ensures s.cur[s.ifcd.k] == ds[s.ifcd.k] && s.cur[s.cnfd.k] == Numbered(ds, s.cnfd.k)
      && s.cur[s.devd.k] == ds[s.devd.k]
  {
    hide Number, EndpointsOf, InterfacesOf, BytesOf, ConfigsOf, Set8, Filled, Numbered;
    assert Proper(ds[s.cnfd.k]);
    assert s.cur[s.ifcd.k] == Expected(ds, s, j, s.ifcd.k) && s.cur[s.cnfd.k] == Expected(ds, s, j, s.cnfd.k)
           && s.cur[s.devd.k] == Expected(ds, s, j, s.devd.k);
  }

  // A new device, or the end: everything before it is done.
  lemma DeviceCloses(ds: seq<Desc>, s: Pass, j: nat, k: nat)
    requires AllProper(ds) && Refs(s) && OpenNow(ds, s, j) && AtEnd(ds, j, 0) && k < j
    requires j <= |ds| && TypeOf(s.cur[j]) == DEVICE
    ensures OnDevice(s, j).Goes? && Proper(ds[k]) && |OnDevice(s, j).s.cur| == |s.cur|
    ensures OnDevice(s, j).s.cur[k] == Filled(ds, k)
  {
    hide Number, EndpointsOf, InterfacesOf, BytesOf, ConfigsOf, Set8, Filled, Numbered, CloseConfig, Ends;
    assert AtEnd(ds, j, 1) by { EndsAll(ds, j); }
    OpenValues(ds, s, j);
    CloseList(ds, s, j);
    ClosesDevice(ds, s, j);
    ProperAt(ds, k);
    assert s.cur[k] == Expected(ds, s, j, k);
  }

  lemma EndsAll(ds: seq<Desc>, j: nat)
    requires AtEnd(ds, j, 0)
    ensures AtEnd(ds, j, 1)
  {
  }

  lemma DeviceKeepsRest(ds: seq<Desc>, s: Pass, j: nat, k: nat)
    requires AllProper(ds) && Refs(s) && OpenNow(ds, s, j) && j <= k <= |ds| && TypeOf(s.cur[j]) == DEVICE
    requires OnDevice(s, j).Goes? && |OnDevice(s, j).s.cur| == |s.cur|
    ensures OnDevice(s, j).s.cur[k] == s.cur[k]
  {
    hide Number, EndpointsOf, InterfacesOf, BytesOf, ConfigsOf, Set8, Set16, Filled, Numbered;
  }

  lemma DeviceStep(ds: seq<Desc>, s: Pass, j: nat)
    requires Inv(ds, s, j) && j < |ds| && TypeOf(ds[j]) == DEVICE && !ModeAt(ds, j + 1).Bad?
    ensures Visit(s, j).Goes? && Inv(ds, Visit(s, j).s, j + 1)
  {
    hide AllProper, CloseConfig, DeviceOpen, ConfigOpen, InterfaceOpen, Filled, Numbered, Refs;
    InvParts(ds, s, j, j);
    ModeStep(ds, j);
    assert s.cur[j] == ds[j] by { NotYet(ds, s, j); }
    if !ModeAt(ds, j).NeedDevice? {
      OpenAt(ds, s, j);
      assert OpenNow(ds, s, j);
      LaterDevice(ds, s, j);
    } else {
      FirstDevice(ds, s, j);
    }
  }

  lemma OnlyFirst(ds: seq<Desc>, j: nat)
    requires j <= |ds| && ModeAt(ds, j).NeedDevice?
    ensures j == 0
  {
  }

  lemma FirstDevice(ds: seq<Desc>, s: Pass, j: nat)
    requires Inv(ds, s, j) && j < |ds| && TypeOf(ds[j]) == DEVICE && ModeAt(ds, j).NeedDevice?
    ensures Visit(s, j).Goes? && Inv(ds, Visit(s, j).s, j + 1)
  {
    hide AllProper, CloseConfig, Filled, Numbered, Expected, SameShape, Number, ConfigsOf;
    OnlyFirst(ds, j);
    InvParts(ds, s, j, j);
    assert s.cur[j] == ds[j] by { NotYet(ds, s, j); }
    VisitKeeps(s, j);
    ModeStep(ds, j);
    var r := Visit(s, j).s;
    DeviceVariables(ds, s, j, ModeAt(ds, j), r);
    forall k | 0 <= k <= |ds| ensures Expected(ds, r, 1, k) == Expected(ds, s, 0, k) {
      NothingDone(ds, s, r, k);
    }
    assert Changes(ds, s, r, j);
    InvFromParts(ds, s, j, r);
  }

  lemma NothingDone(ds: seq<Desc>, s: Pass, r: Pass, k: nat)
    requires AllProper(ds) && 0 < |ds| && k <= |ds| && r.devd == At(0)
    ensures Expected(ds, r, 1, k) == Expected(ds, s, 0, k)
  {
  }

  lemma LaterDevice(ds: seq<Desc>, s: Pass, j: nat)
    requires Inv(ds, s, j) && j < |ds| && TypeOf(ds[j]) == DEVICE && !ModeAt(ds, j + 1).Bad? && AllProper(ds)
    requires OpenNow(ds, s, j)
    ensures Visit(s, j).Goes? && Inv(ds, Visit(s, j).s, j + 1)
  {
    hide AllProper, CloseConfig, Filled, Numbered, Expected, SameShape, Number, ConfigsOf, OpenNow, Set8, OnDevice,
      DeviceOpen;
    InvParts(ds, s, j, j);
    assert s.cur[j] == ds[j] by { NotYet(ds, s, j); }
    VisitKeeps(s, j);
    ModeStep(ds, j);
    assert OnDevice(s, j).Goes? && |OnDevice(s, j).s.cur| == |s.cur| by { DeviceGoes(ds, s, j); }
    var r := Visit(s, j).s;
    assert r.devd == At(j) && r.numc == Value(0) && r.cnfd == Nothing
      && r.devds == s.devds + [j] by { DeviceSets(s, j); }
    DeviceVariables(ds, s, j, ModeAt(ds, j), r);
    forall k | 0 <= k <= |ds| ensures r.cur[k] == Expected(ds, r, j + 1, k) {
      if k < j {
        DeviceCloses(ds, s, j, k);
        DoneBefore(ds, r, j, k);
      } else {
        DeviceKeepsRest(ds, s, j, k);
        InvParts(ds, s, j, k);
        UntouchedAfter(ds, s, r, j, k);
      }
    }
    assert Changes(ds, s, r, j);
    InvFromParts(ds, s, j, r);
  }

  lemma DeviceGoes(ds: seq<Desc>, s: Pass, j: nat)
    requires AllProper(ds) && Refs(s) && OpenNow(ds, s, j) && TypeOf(s.cur[j]) == DEVICE && AtEnd(ds, j, 0)
    ensures OnDevice(s, j).Goes? && |OnDevice(s, j).s.cur| == |s.cur|
  {
    hide Number, EndpointsOf, InterfacesOf, BytesOf, ConfigsOf, Set8, Set16, Filled, Numbered, Expected;
  }

  lemma DeviceSets(s: Pass, j: nat)
    requires Refs(s) && j < |s.cur| && OnDevice(s, j).Goes?
    ensures var r := OnDevice(s, j).s;
            r.devd == At(j) && r.numc == Value(0) && r.cnfd == Nothing && r.devds == s.devds + [j] && r.ifcd == s.ifcd
  {
    hide Set8, Set16, AllProper;
  }

  lemma DoneBefore(ds: seq<Desc>, r: Pass, j: nat, k: nat)
    requires AllProper(ds) && k < j < |ds| && TypeOf(ds[j]) == DEVICE && r.devd == At(j) && r.cnfd == Nothing
    ensures Proper(ds[k]) && Expected(ds, r, j + 1, k) == Filled(ds, k)
  {
    hide Filled;
    ModeStep(ds, j);
    hide ModeAt;
    ProperAt(ds, k);
  }

  lemma UntouchedAfter(ds: seq<Desc>, s: Pass, r: Pass, j: nat, k: nat)
    requires AllProper(ds) && j <= k <= |ds| && j < |ds| && (k == j ==> r.devd == At(j))
    ensures Expected(ds, r, j + 1, k) == Expected(ds, s, j, k)
  {
  }

  lemma InvAgain(ds: seq<Desc>, s: Pass, j: nat, r: Pass)
    requires Inv(ds, s, j) && j < |ds| && Refs(r) && Variables(ds, r, j + 1, ModeAt(ds, j + 1)) && AllProper(ds)
    requires TypeOf(ds[j]) != DEVICE && r.devds == s.devds
    requires |r.cur| == |ds| + 1 && forall k :: 0 <= k <= |ds| ==> r.cur[k] == Expected(ds, r, j + 1, k)
    ensures Inv(ds, r, j + 1)
  {
    hide Expected, Variables, Refs, AllProper;
  }

  // ---- a configuration -------------------------------------------------------------------------------

  lemma ConfigStep(ds: seq<Desc>, s: Pass, j: nat)
    requires Inv(ds, s, j) && j < |ds| && TypeOf(ds[j]) == CONFIGURATION && !ModeAt(ds, j + 1).Bad?
    ensures Visit(s, j).Goes? && Inv(ds, Visit(s, j).s, j + 1)
  {
    hide AllProper, CloseConfig, DeviceOpen, ConfigOpen, InterfaceOpen, Filled, Numbered, Expected, Set8, OnConfig,
      SameShape, Inv, Variables, Refs, CanClose;
    InvParts(ds, s, j, j);
    ModeStep(ds, j);
    assert s.cur[j] == ds[j] by { NotYet(ds, s, j); }
    OpenAt(ds, s, j);
    ConfigGoes(ds, s, j);
    VisitKeeps(s, j);
    var r := Visit(s, j).s;
    assert |ds[j]| == 9 && ds[j][0] == 9 by { ProperAt(ds, j); }
    ConfigVariables(ds, s, j, ModeAt(ds, j), r);
    ConfigList(ds, s, j, j, r);
    forall k | 0 <= k <= |ds| ensures r.cur[k] == Expected(ds, r, j + 1, k) {
      ConfigList(ds, s, j, k, r);
    }
    InvAgain(ds, s, j, r);
  }

  lemma ConfigGoes(ds: seq<Desc>, s: Pass, j: nat)
    requires Inv(ds, s, j) && j < |ds| && TypeOf(ds[j]) == CONFIGURATION && Refs(s) && |s.cur| == |ds| + 1
    requires TypeOf(s.cur[j]) == CONFIGURATION && !After(ModeAt(ds, j), ds[j]).Bad?
    ensures DeviceOpen(ds, s, j) && s.numc.Value? && OnConfig(s, j).Goes?
    ensures ModeAt(ds, j).NeedConfig? ==> s.cnfd == Nothing
    ensures ModeAt(ds, j).InInterface? ==> AllOpen(ds, s, j)
    ensures var r := OnConfig(s, j).s;
            && r.devd == s.devd && r.devds == s.devds && r.numc == Value(s.numc.n + 1) && r.cnfd == At(j)
            && r.ifcd == Nothing && r.totl == 0 && r.ifn == Value(-1)
  {
    hide NoEnd, Expected, ConfigsOf, BytesOf, InterfacesOf, EndpointsOf, Number, Set8, Set16, AllProper;
  }

  lemma ConfigList(ds: seq<Desc>, s: Pass, j: nat, k: nat, r: Pass)
    requires Inv(ds, s, j) && j < |ds| && TypeOf(ds[j]) == CONFIGURATION && !After(ModeAt(ds, j), ds[j]).Bad?
      && k <= |ds|
    requires Refs(s) && |s.cur| == |ds| + 1 && s.cur[j] == ds[j] && OnConfig(s, j).Goes? && AllProper(ds)
    requires var o := OnConfig(s, j).s; r == o.(totl := r.totl)
    ensures |r.cur| == |ds| + 1 && r.cur[k] == Expected(ds, r, j + 1, k)
  {
    hide ConfigsOf, BytesOf, InterfacesOf, EndpointsOf, Number, Set8, Set16, AllProper, Filled, Numbered, NoEnd,
      CloseConfig, Ends;
    InvParts(ds, s, j, k);
    ConfigGoes(ds, s, j);
    NumbersConfig(ds, s, j);
    ModeStep(ds, j);
    if ModeAt(ds, j).InInterface? {
      assert AtEnd(ds, j, 1) by { ConfigEnds(ds, j); }
      forall i | 0 <= i <= |ds| ensures s.cur[i] == Expected(ds, s, j, i) {
        InvParts(ds, s, j, i);
      }
      OpenValues(ds, s, j);
      CloseList(ds, s, j);
    }
  }

  lemma ConfigEnds(ds: seq<Desc>, j: nat)
    requires j < |ds| && TypeOf(ds[j]) == CONFIGURATION
    ensures AtEnd(ds, j, 1) && AtEnd(ds, j, 2)
  {
  }

  // ---- an interface ----------------------------------------------------------------------------------

  lemma InterfaceStep(ds: seq<Desc>, s: Pass, j: nat)
    requires Inv(ds, s, j) && j < |ds| && TypeOf(ds[j]) == INTERFACE && !ModeAt(ds, j + 1).Bad?
    ensures Visit(s, j).Goes? && Inv(ds, Visit(s, j).s, j + 1)
  {
    hide AllProper, DeviceOpen, ConfigOpen, InterfaceOpen, Filled, Numbered, Expected, Set8, OnInterface, SameShape,
      Inv, Variables, Refs, IsFirstSetting;
    InvParts(ds, s, j, j);
    ModeStep(ds, j);
    assert s.cur[j] == ds[j] by { NotYet(ds, s, j); }
    OpenAt(ds, s, j);
    assert |ds[j]| == 9 && ds[j][0] == 9 by { ProperAt(ds, j); }
    InterfaceGoes(ds, s, j);
    VisitKeeps(s, j);
    var r := Visit(s, j).s;
    InterfaceVariables(ds, s, j, ModeAt(ds, j), r);
    InterfaceList(ds, s, j, j, r);
    forall k | 0 <= k <= |ds| ensures r.cur[k] == Expected(ds, r, j + 1, k) {
      InterfaceList(ds, s, j, k, r);
    }
    InvAgain(ds, s, j, r);
  }

  lemma InterfaceGoes(ds: seq<Desc>, s: Pass, j: nat)
    requires Inv(ds, s, j) && j < |ds| && TypeOf(ds[j]) == INTERFACE && Refs(s) && |s.cur| == |ds| + 1
    requires s.cur[j] == ds[j] && |ds[j]| == 9 && !After(ModeAt(ds, j), ds[j]).Bad?
    ensures OnInterface(s, j).Goes? && s.ifn.Value?
    ensures ModeAt(ds, j).NeedInterface? ==> s.ifcd == Nothing
    ensures ModeAt(ds, j).InInterface? ==> AllOpen(ds, s, j)
    ensures var r := OnInterface(s, j).s;
            && r.devd == s.devd && r.devds == s.devds && r.numc == s.numc && r.cnfd == s.cnfd && r.totl == s.totl
            && r.ifcd == At(j) && r.nume == Value(0)
            && r.ifn == (if IsFirstSetting(ds[j]) then Value(s.ifn.n + 1) else s.ifn)
  {
    hide NoEnd, Expected, ConfigsOf, BytesOf, InterfacesOf, EndpointsOf, Number, Set8, AllProper;
  }

  lemma InterfaceList(ds: seq<Desc>, s: Pass, j: nat, k: nat, r: Pass)
    requires Inv(ds, s, j) && j < |ds| && TypeOf(ds[j]) == INTERFACE && !After(ModeAt(ds, j), ds[j]).Bad? && k <= |ds|
    requires Refs(s) && |s.cur| == |ds| + 1 && s.cur[j] == ds[j] && |ds[j]| == 9 && OnInterface(s, j).Goes?
      && AllProper(ds)
    requires var o := OnInterface(s, j).s; r == o.(totl := r.totl)
    ensures |r.cur| == |ds| + 1 && r.cur[k] == Expected(ds, r, j + 1, k)
  {
    hide ConfigsOf, BytesOf, InterfacesOf, EndpointsOf, Number, Set8, Set16, AllProper, Filled, Numbered, NoEnd, Ends;
    InvParts(ds, s, j, k);
    InterfaceGoes(ds, s, j);
    ModeStep(ds, j);
    if ModeAt(ds, j).InInterface? {
      assert AtEnd(ds, j, 2) by { InterfaceEnds(ds, j); }
      forall i | 0 <= i <= |ds| ensures s.cur[i] == Expected(ds, s, j, i) {
        InvParts(ds, s, j, i);
      }
      OpenValues(ds, s, j);
      ClosesInterface(ds, s, j);
    }
  }

  lemma InterfaceEnds(ds: seq<Desc>, j: nat)
    requires j < |ds| && TypeOf(ds[j]) == INTERFACE
    ensures AtEnd(ds, j, 2)
  {
  }

  // ---- the whole pass -----------------------------------------------------------------------------------

  lemma AnyStep(ds: seq<Desc>, s: Pass, j: nat)
    requires Inv(ds, s, j) && j < |ds| && !ModeAt(ds, j + 1).Bad?
    ensures Visit(s, j).Goes? && Inv(ds, Visit(s, j).s, j + 1)
  {
    hide Inv, Visit, ModeAt;
    if TypeOf(ds[j]) == DEVICE {
      DeviceStep(ds, s, j);
    } else if TypeOf(ds[j]) == CONFIGURATION {
      ConfigStep(ds, s, j);
    } else if TypeOf(ds[j]) == INTERFACE {
      InterfaceStep(ds, s, j);
    } else {
      OthersStep(ds, s, j);
    }
  }

  lemma {:induction false} BadStays(ds: seq<Desc>, j: nat, k: nat)
    requires j <= k <= |ds| && !ModeAt(ds, k).Bad?
    ensures !ModeAt(ds, j).Bad?
    decreases k - j
  {
    if j < k {
      BadStays(ds, j + 1, k);
      ModeStep(ds, j);
    }
  }

  // The dummy device at the end of the list closes the last one.
  lemma LastStep(ds: seq<Desc>, s: Pass)
    requires Inv(ds, s, |ds|) && Compilable(ds)
    ensures Visits(s, |ds|).Goes?
    ensures var r := Visits(s, |ds|).s;
            r.cur == FilledList(ds) + [NEW_DEVICE] && r.devds == Devices(ds, |ds|) + [|ds|]
  {
    hide AllProper, Variables, Visits, FilledList, Expected;
    if ModeAt(ds, |ds|).NeedDevice? {
      OnlyFirst(ds, |ds|);
      LastOfNone(ds, s);
    } else {
      LastOfSome(ds, s);
    }
  }

  // Without any descriptor the pass sees the dummy alone.
  lemma LastOfNone(ds: seq<Desc>, s: Pass)
    requires Inv(ds, s, |ds|) && ds == []
    ensures Visits(s, |ds|).Goes?
    ensures var r := Visits(s, |ds|).s;
            r.cur == FilledList(ds) + [NEW_DEVICE] && r.devds == Devices(ds, |ds|) + [|ds|]
  {
    hide CloseConfig, Filled;
    assert ModeAt(ds, 0).NeedDevice?;
    assert s.cur == [NEW_DEVICE];
    assert Devices(ds, 0) == [];
    VisitsLast(s);
  }

  lemma LastOfSome(ds: seq<Desc>, s: Pass)
    requires Inv(ds, s, |ds|) && (ModeAt(ds, |ds|).InInterface? || ModeAt(ds, |ds|).AfterSentinel?)
    ensures Visits(s, |ds|).Goes?
    ensures var r := Visits(s, |ds|).s;
            r.cur == FilledList(ds) + [NEW_DEVICE] && r.devds == Devices(ds, |ds|) + [|ds|]
  {
    hide AllProper, CloseConfig, Filled, Numbered, Expected, SameShape, Number, OnDevice, DeviceOpen, ConfigOpen,
      InterfaceOpen;
    var n := |ds|;
    InvParts(ds, s, n, n);
    LastIsDevice(ds, s);
    assert OpenNow(ds, s, n);
    DeviceGoes(ds, s, n);
    DeviceSets(s, n);
    VisitKeeps(s, n);
    var r := Visit(s, n).s;
    assert Visits(s, n) == Goes(r) by { VisitsLast(s); }
    forall k | 0 <= k <= n ensures r.cur[k] == (FilledList(ds) + [NEW_DEVICE])[k] {
      if k < n {
        DeviceCloses(ds, s, n, k);
      } else {
        DeviceKeepsRest(ds, s, n, n);
      }
    }
  }

  lemma LastIsDevice(ds: seq<Desc>, s: Pass)
    requires AllProper(ds)
    ensures Expected(ds, s, |ds|, |ds|) == NEW_DEVICE && TypeOf(NEW_DEVICE) == DEVICE && AtEnd(ds, |ds|, 0)
  {
  }

  lemma VisitsLast(s: Pass)
    requires Refs(s) && s.cur != []
    ensures Visits(s, |s.cur| - 1) == Visit(s, |s.cur| - 1)
  {
    VisitKeeps(s, |s.cur| - 1);
    hide Visit;
  }

  lemma {:induction false} PassStep(ds: seq<Desc>, s: Pass, j: nat)
    requires Inv(ds, s, j) && Compilable(ds)
    ensures Refs(s) && j <= |s.cur| && Visits(s, j).Goes?
    ensures var r := Visits(s, j).s;
            r.cur == FilledList(ds) + [NEW_DEVICE] && r.devds == Devices(ds, |ds|) + [|ds|]
    decreases |ds| - j
  {
    hide Variables, Visit, FilledList, AllProper, ModeAt, Expected;
    assert Refs(s) && |s.cur| == |ds| + 1;
    if j == |ds| {
      LastStep(ds, s);
    } else {
      BadStays(ds, j + 1, |ds|);
      AnyStep(ds, s, j);
      VisitKeeps(s, j);
      PassStep(ds, Visit(s, j).s, j + 1);
    }
  }

  // The pass over such a list succeeds, and fills in exactly the numbers that
  // the structure of the list defines.
  lemma PassFills(ds: seq<Desc>)
    requires Compilable(ds)
    ensures var s0 := Start(ds + [NEW_DEVICE]);
            && Refs(s0) && Visits(s0, 0).Goes?
            && Visits(s0, 0).s.cur == FilledList(ds) + [NEW_DEVICE]
            && Visits(s0, 0).s.devds == Devices(ds, |ds|) + [|ds|]
  {
    hide FilledList, Visits, Inv, Refs, Compilable;
    var s0 := Start(ds + [NEW_DEVICE]);
    InvStarts(ds, s0);
    PassStep(ds, s0, 0);
  }

  lemma InvStarts(ds: seq<Desc>, s: Pass)
    requires Compilable(ds)
    requires s == Start(ds + [NEW_DEVICE])
    ensures Inv(ds, s, 0)
  {
    hide Filled, Numbered, Proper;
    assert AllProper(ds + [NEW_DEVICE]) by { NewProper(); }
    assert ModeAt(ds, 0).NeedDevice?;
    hide ModeAt;
  }

  lemma NewProper()
    ensures Proper(NEW_DEVICE)
  {
  }
}
