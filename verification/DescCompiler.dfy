// The descriptor compiler, scripts/Usb2Desc.py: a list of descriptors whose counts and
// total lengths are filled in at the end, with a string table and sentinels.
module DescCompiler {
  import opened Bytes

  // A descriptor is its bytes; the first is its length, the second its type.
  type Desc = d: seq<Byte> | |d| >= 2 witness [2, 0]

  const DEVICE: Byte := 0x01
  const CONFIGURATION: Byte := 0x02
  const STRING: Byte := 0x03
  const INTERFACE: Byte := 0x04
  const ENDPOINT: Byte := 0x05
  const QUALIFIER: Byte := 0x06
  const SENTINEL: Byte := 0xFF

  const LANG_ID: Desc := [4, STRING, 0x09, 0x04]
  const TAIL: Desc := [2, SENTINEL]
  const NEW_DEVICE: Desc := [18, DEVICE, 0, 2, 0, 0, 0, 0, 0, 0, 0, 0, 0, 2, 0, 0, 0, 0]

  function TypeOf(d: Desc): Byte {
    d[1]
  }

  // The constructors give every descriptor its length and a fixed size.
  predicate Proper(d: Desc) {
    && |d| < 256 && d[0] == |d|
    && (TypeOf(d) == DEVICE ==> |d| == 18)
    && (TypeOf(d) == CONFIGURATION || TypeOf(d) == INTERFACE ==> |d| == 9)
  }

  predicate AllProper(ds: seq<Desc>) {
    forall k :: 0 <= k < |ds| ==> Proper(ds[k])
  }

  function Set8(d: Desc, off: nat, v: int): Desc
    requires 2 <= off < |d|
  {
    d[off := v % 256]
  }

  // ---- what the numbers mean -----------------------------------------------------------

  // What ends a device (level 0), a configuration (1) and an interface (2).
  predicate Ends(d: Desc, level: nat) {
    var t := TypeOf(d);
    t == DEVICE || t == SENTINEL || t == STRING || (level >= 1 && t == CONFIGURATION) || (level >= 2 && t == INTERFACE)
  }

  // The descriptors that belong to one that precedes them.
  function Run(rest: seq<Desc>, level: nat): seq<Desc> {
    if rest == [] || Ends(rest[0], level) then [] else [rest[0]] + Run(rest[1..], level)
  }

  function Total(ds: seq<Desc>): nat {
    if ds == [] then 0 else |ds[0]| + Total(ds[1..])
  }

  function Endpoints(ds: seq<Desc>): nat {
    if ds == [] then 0 else (if TypeOf(ds[0]) == ENDPOINT then 1 else 0) + Endpoints(ds[1..])
  }

  predicate IsFirstSetting(d: Desc) {
    TypeOf(d) == INTERFACE && |d| > 3 && d[3] == 0
  }

  // Alternate settings do not count.
  function Interfaces(ds: seq<Desc>): nat {
    if ds == [] then 0 else (if IsFirstSetting(ds[0]) then 1 else 0) + Interfaces(ds[1..])
  }

  function Configs(ds: seq<Desc>): nat {
    if ds == [] then 0 else (if TypeOf(ds[0]) == CONFIGURATION then 1 else 0) + Configs(ds[1..])
  }

  // Configurations among the first j descriptors, since the last device.
  function Number(ds: seq<Desc>, j: nat): nat
    requires j <= |ds|
  {
    if j == 0 || TypeOf(ds[j - 1]) == DEVICE then 0
    else Number(ds, j - 1) + (if TypeOf(ds[j - 1]) == CONFIGURATION then 1 else 0)
  }

  // Descriptor k with its numbers filled in.
  function Numbered(ds: seq<Desc>, k: nat): Desc
    requires k < |ds| && Proper(ds[k]) && TypeOf(ds[k]) == CONFIGURATION
  {
    Set8(ds[k], 5, Number(ds, k + 1))
  }

  function Filled(ds: seq<Desc>, k: nat): Desc
    requires k < |ds| && Proper(ds[k])
  {
    var d, rest := ds[k], ds[k + 1..];
    if TypeOf(d) == DEVICE then Set8(d, 17, Configs(Run(rest, 0)))
    else if TypeOf(d) == CONFIGURATION then
      Set8(Set16(Numbered(ds, k), 2, |d| + Total(Run(rest, 1))), 4, Interfaces(Run(rest, 1)))
    else if TypeOf(d) == INTERFACE then Set8(d, 4, Endpoints(Run(rest, 2)))
    else d
  }

  function FilledList(ds: seq<Desc>): seq<Desc>
    requires AllProper(ds)
  {
    seq(|ds|, k requires 0 <= k < |ds| => Filled(ds, k))
  }

  // ---- well-formed contexts -----------------------------------------------------------------

  datatype Mode = NeedDevice | NeedConfig | NeedInterface | InInterface | AfterSentinel | Bad

  // Devices have configurations, which have interfaces, which have endpoints; nothing but a
  // device follows a sentinel; strings are not added by hand.
  function After(m: Mode, d: Desc): Mode {
    var t := TypeOf(d);
    if t == DEVICE then (if m.NeedDevice? || m.AfterSentinel? || m.InInterface? then NeedConfig else Bad)
    else if m.NeedDevice? || m.AfterSentinel? || m.Bad? then Bad
    else if t == CONFIGURATION then (if m.NeedInterface? then Bad else NeedInterface)
    else if t == INTERFACE then (if m.NeedConfig? then Bad else InInterface)
    else if t == ENDPOINT then (if m.InInterface? then m else Bad)
    else if t == SENTINEL then (if m.InInterface? then AfterSentinel else Bad)
    else if t == STRING then Bad
    else m
  }

  function ModeAt(ds: seq<Desc>, j: nat): Mode
    requires j <= |ds|
  {
    if j == 0 then NeedDevice else After(ModeAt(ds, j - 1), ds[j - 1])
  }

  // A list whose numbers its structure defines.
  predicate Compilable(ds: seq<Desc>) {
    AllProper(ds) && var m := ModeAt(ds, |ds|); m.NeedDevice? || m.InInterface? || m.AfterSentinel?
  }

  // What the walkers need besides: at least one device, a sentinel between any two, and
  // none at the end.
  predicate WellFormed(ds: seq<Desc>) {
    AllProper(ds) && ModeAt(ds, |ds|).InInterface? && Separated(ds)
  }

  predicate Separated(ds: seq<Desc>) {
    forall k :: 0 < k < |ds| && TypeOf(ds[k]) == DEVICE ==> TypeOf(ds[k - 1]) == SENTINEL
  }

  // The places of the devices among the first j.
  function Devices(ds: seq<Desc>, j: nat): seq<nat>
    requires j <= |ds|
  {
    if j == 0 then [] else Devices(ds, j - 1) + (if TypeOf(ds[j - 1]) == DEVICE then [j - 1] else [])
  }

  // ---- the pass over the list ---------------------------------------------------------------------

  // A variable that refers to a descriptor, before and after it is first assigned.
  datatype Ref = Unbound | Nothing | At(k: nat)
  datatype Num = NoValue | Value(n: int)
  datatype Outcome = Raises | Goes(s: Pass)

  // The list, and the variables of the loop.
  datatype Pass = Pass(
    cur: seq<Desc>, devds: seq<nat>, devd: Ref, cnfd: Ref, ifcd: Ref, numc: Num, totl: nat, ifn: Num, nume: Num)

  // Before the first turn of the loop.
  function Start(ds: seq<Desc>): Pass {
    Pass(ds, [], Nothing, Unbound, Unbound, NoValue, 0, NoValue, NoValue)
  }

  predicate Refers(s: Pass, r: Ref, type_: Byte) {
    r.At? ==> r.k < |s.cur| && TypeOf(s.cur[r.k]) == type_
  }

  predicate Refs(s: Pass) {
    && AllProper(s.cur) && Refers(s, s.devd, DEVICE) && Refers(s, s.cnfd, CONFIGURATION) && Refers(s, s.ifcd, INTERFACE)
  }

  function SetNum(cur: seq<Desc>, k: nat, off: nat, v: int): seq<Desc>
    requires k < |cur| && 2 <= off < |cur[k]|
  {
    cur[k := Set8(cur[k], off, v)]
  }

  // A list with the same types and lengths, whose numbers may differ.
  predicate SameShape(a: seq<Desc>, b: seq<Desc>) {
    |a| == |b| && forall k :: 0 <= k < |a| ==>
      |a[k]| == |b[k]| && a[k][0] == b[k][0] && a[k][1] == b[k][1]
      && (|a[k]| > 3 && TypeOf(a[k]) == INTERFACE ==> a[k][3] == b[k][3])
  }

  function CloseConfig(s: Pass): Pass
    requires Refs(s) && s.ifcd.At? && s.nume.Value? && s.cnfd.At? && s.ifn.Value?
  {
    var i, c := s.ifcd.k, s.cnfd.k;
    s.(cur := s.cur[i := Set8(s.cur[i], 4, s.nume.n)][c := Set8(Set16(s.cur[c], 2, s.totl), 4, s.ifn.n + 1)])
  }

  // The numbers of the interface and of the configuration under way are complete.  A
  // missing variable is an exception.
  method Close(s: Pass) returns (ok: bool, r: Pass)
    requires Refs(s)
    ensures ok <==> s.ifcd.At? && s.nume.Value? && s.cnfd.At? && s.ifn.Value?
    ensures r == if ok then CloseConfig(s) else s
  {
    r := s;
    if s.ifcd.At? && s.nume.Value? && s.cnfd.At? && s.ifn.Value? {
      var cur := SetNum(s.cur, s.ifcd.k, 4, s.nume.n);
      cur := cur[s.cnfd.k := Set16(cur[s.cnfd.k], 2, s.totl)];
      cur := SetNum(cur, s.cnfd.k, 4, s.ifn.n + 1);
      return true, s.(cur := cur);
    }
    ok := false;
  }

  lemma ShapeKeepsRefs(s: Pass, r: Pass)
    requires Refs(s) && SameShape(s.cur, r.cur) && r.devd == s.devd && r.cnfd == s.cnfd && r.ifcd == s.ifcd
    ensures Refs(r)
  {
  }

  lemma CloseKeeps(s: Pass)
    requires Refs(s) && s.ifcd.At? && s.nume.Value? && s.cnfd.At? && s.ifn.Value?
    ensures SameShape(s.cur, CloseConfig(s).cur) && Refs(CloseConfig(s))
    ensures CloseConfig(s) == s.(cur := CloseConfig(s).cur)
  {
    ShapeKeepsRefs(s, CloseConfig(s));
  }

  // ---- one descriptor ------------------------------------------------------------------------------

  predicate CanClose(s: Pass) {
    s.ifcd.At? && s.nume.Value? && s.cnfd.At? && s.ifn.Value?
  }

  function OnDevice(s: Pass, k: nat): Outcome
    requires Refs(s) && k < |s.cur|
  {
    if s.devd.At? && !(CanClose(s) && s.numc.Value?) then Raises
    else
      var t := if s.devd.At? then CloseConfig(s) else s;
      var cur := if s.devd.At? then t.cur[s.devd.k := Set8(t.cur[s.devd.k], 17, s.numc.n)] else t.cur;
      Goes(t.(cur := cur, numc := Value(0), cnfd := Nothing, devd := At(k), devds := s.devds + [k]))
  }

  function OnConfig(s: Pass, k: nat): Outcome
    requires Refs(s) && k < |s.cur| && TypeOf(s.cur[k]) == CONFIGURATION
  {
    if s.cnfd.Unbound? || s.numc.NoValue? || (s.cnfd.At? && !CanClose(s)) then Raises
    else
      var t := if s.cnfd.At? then CloseConfig(s) else s;
      Goes(t.(cur := t.cur[k := Set8(t.cur[k], 5, s.numc.n + 1)], cnfd := At(k), ifcd := Nothing, totl := 0,
              ifn := Value(-1), numc := Value(s.numc.n + 1)))
  }

  function OnInterface(s: Pass, k: nat): Outcome
    requires Refs(s) && k < |s.cur| && TypeOf(s.cur[k]) == INTERFACE
  {
    if s.ifcd.Unbound? || (s.ifcd.At? && s.nume.NoValue?) || (s.cur[k][3] == 0 && s.ifn.NoValue?) then Raises
    else
      var cur := if s.ifcd.At? then s.cur[s.ifcd.k := Set8(s.cur[s.ifcd.k], 4, s.nume.n)] else s.cur;
      Goes(s.(cur := cur, nume := Value(0), ifcd := At(k),
              ifn := if s.cur[k][3] == 0 then Value(s.ifn.n + 1) else s.ifn))
  }

  function OnAny(s: Pass, k: nat): Outcome
    requires Refs(s) && k < |s.cur|
  {
    var t := TypeOf(s.cur[k]);
    if t == DEVICE then OnDevice(s, k)
    else if t == CONFIGURATION then OnConfig(s, k)
    else if t == INTERFACE then OnInterface(s, k)
    else if t == ENDPOINT then (if s.nume.NoValue? then Raises else Goes(s.(nume := Value(s.nume.n + 1))))
    else Goes(s)
  }

  // A separating sentinel does not count.
  function Visit(s: Pass, k: nat): Outcome
    requires Refs(s) && k < |s.cur|
  {
    match OnAny(s, k)
    case Raises => Raises
    case Goes(t) => Goes(if TypeOf(s.cur[k]) == SENTINEL then t else t.(totl := t.totl + s.cur[k][0]))
  }

  method VisitDevice(s: Pass, k: nat) returns (o: Outcome)
    requires Refs(s) && k < |s.cur|
    ensures o == OnDevice(s, k)
  {
    var t := s;
    if s.devd.At? {
      var ok;
      ok, t := Close(s);
      if !ok || s.numc.NoValue? {
        return Raises;
      }
      CloseKeeps(s);
      t := t.(cur := SetNum(t.cur, s.devd.k, 17, s.numc.n));
    }
    o := Goes(t.(numc := Value(0), cnfd := Nothing, devd := At(k), devds := s.devds + [k]));
  }

  method VisitConfig(s: Pass, k: nat) returns (o: Outcome)
    requires Refs(s) && k < |s.cur| && TypeOf(s.cur[k]) == CONFIGURATION
    ensures o == OnConfig(s, k)
  {
    if s.cnfd.Unbound? || s.numc.NoValue? {
      return Raises;
    }
    var t := s;
    if s.cnfd.At? {
      var ok;
      ok, t := Close(s);
      if !ok {
        return Raises;
      }
      CloseKeeps(s);
    }
    var numc := s.numc.n + 1;
    o := Goes(t.(cnfd := At(k), ifcd := Nothing, totl := 0, ifn := Value(-1), numc := Value(numc),
                 cur := SetNum(t.cur, k, 5, numc)));
  }

  method VisitInterface(s: Pass, k: nat) returns (o: Outcome)
    requires Refs(s) && k < |s.cur| && TypeOf(s.cur[k]) == INTERFACE
    ensures o == OnInterface(s, k)
  {
    if s.ifcd.Unbound? || (s.ifcd.At? && s.nume.NoValue?) {
      return Raises;
    }
    var t := s;
    if s.ifcd.At? {
      t := t.(cur := SetNum(s.cur, s.ifcd.k, 4, s.nume.n));
    }
    t := t.(nume := Value(0), ifcd := At(k));
    if s.cur[k][3] == 0 {
      if s.ifn.NoValue? {
        return Raises;
      }
      t := t.(ifn := Value(s.ifn.n + 1));
    }
    o := Goes(t);
  }

  lemma SetKeeps(cur: seq<Desc>, k: nat, off: nat, v: int)
    requires AllProper(cur) && k < |cur| && 4 <= off < |cur[k]|
    ensures SameShape(cur, cur[k := Set8(cur[k], off, v)]) && AllProper(cur[k := Set8(cur[k], off, v)])
  {
  }

  lemma ShapeTrans(a: seq<Desc>, b: seq<Desc>, c: seq<Desc>)
    requires SameShape(a, b) && SameShape(b, c)
    ensures SameShape(a, c)
  {
  }

  lemma ShapeSame(a: seq<Desc>)
    ensures SameShape(a, a)
  {
  }

  // Proper descriptors of a kind are long enough for their numbers.
  lemma Sizes(cur: seq<Desc>, k: nat)
    requires AllProper(cur) && k < |cur|
    ensures TypeOf(cur[k]) == DEVICE ==> |cur[k]| == 18
    ensures TypeOf(cur[k]) == CONFIGURATION || TypeOf(cur[k]) == INTERFACE ==> |cur[k]| == 9
  {
  }

  lemma ShapeTypes(a: seq<Desc>, b: seq<Desc>, k: nat)
    requires SameShape(a, b) && k < |a|
    ensures TypeOf(a[k]) == TypeOf(b[k]) && |a[k]| == |b[k]|
  {
  }

  lemma VisitKeeps(s: Pass, k: nat)
    requires Refs(s) && k < |s.cur|
    ensures Visit(s, k).Goes? ==> Refs(Visit(s, k).s) && SameShape(s.cur, Visit(s, k).s.cur)
  {
    hide AllProper, SameShape, Set8, Set16, CloseConfig, OnDevice, OnConfig, OnInterface;
    ShapeSame(s.cur);
    var t := TypeOf(s.cur[k]);
    if t == DEVICE {
      DeviceKeeps(s, k);
    } else if t == CONFIGURATION {
      ConfigKeeps(s, k);
    } else if t == INTERFACE {
      InterfaceKeeps(s, k);
    }
  }

  lemma DeviceKeeps(s: Pass, k: nat)
    requires Refs(s) && k < |s.cur| && TypeOf(s.cur[k]) == DEVICE
    ensures OnDevice(s, k).Goes? ==> Refs(OnDevice(s, k).s) && SameShape(s.cur, OnDevice(s, k).s.cur)
  {
    hide AllProper, SameShape, Set8, Set16, CloseConfig, TypeOf;
    ShapeSame(s.cur);
    if s.devd.At? && CanClose(s) && s.numc.Value? {
      CloseKeeps(s);
      var cur := CloseConfig(s).cur;
      ShapeTypes(s.cur, cur, k);
      ShapeTypes(s.cur, cur, s.devd.k);
      Sizes(cur, s.devd.k);
      SetKeeps(cur, s.devd.k, 17, s.numc.n);
      var cur' := cur[s.devd.k := Set8(cur[s.devd.k], 17, s.numc.n)];
      ShapeTrans(s.cur, cur, cur');
      ShapeTypes(s.cur, cur', k);
      if s.ifcd.At? {
        ShapeTypes(s.cur, cur', s.ifcd.k);
      }
      KeepsRefs(s, OnDevice(s, k).s, k);
    } else if !s.devd.At? {
      KeepsRefs(s, OnDevice(s, k).s, k);
    }
  }

  // References stay good when shapes do and new ones point at the right kind.
  lemma KeepsRefs(s: Pass, r: Pass, k: nat)
    requires Refs(s) && SameShape(s.cur, r.cur) && k < |s.cur|
    requires r.devd == s.devd || (r.devd == At(k) && TypeOf(s.cur[k]) == DEVICE)
    requires r.cnfd == s.cnfd || r.cnfd == Nothing || (r.cnfd == At(k) && TypeOf(s.cur[k]) == CONFIGURATION)
    requires r.ifcd == s.ifcd || r.ifcd == Nothing || (r.ifcd == At(k) && TypeOf(s.cur[k]) == INTERFACE)
    ensures Refs(r)
  {
  }

  lemma ConfigKeeps(s: Pass, k: nat)
    requires Refs(s) && k < |s.cur| && TypeOf(s.cur[k]) == CONFIGURATION
    ensures OnConfig(s, k).Goes? ==> Refs(OnConfig(s, k).s) && SameShape(s.cur, OnConfig(s, k).s.cur)
  {
    hide AllProper, SameShape, Set8, Set16, CloseConfig, TypeOf;
    ShapeSame(s.cur);
    if OnConfig(s, k).Goes? {
      if s.cnfd.At? {
        CloseKeeps(s);
      }
      var cur := if s.cnfd.At? then CloseConfig(s).cur else s.cur;
      ShapeTypes(s.cur, cur, k);
      Sizes(s.cur, k);
      assert Refs(s) && AllProper(cur);
      SetKeeps(cur, k, 5, s.numc.n + 1);
      ShapeTrans(s.cur, cur, OnConfig(s, k).s.cur);
      KeepsRefs(s, OnConfig(s, k).s, k);
    }
  }

  lemma InterfaceKeeps(s: Pass, k: nat)
    requires Refs(s) && k < |s.cur| && TypeOf(s.cur[k]) == INTERFACE
    ensures OnInterface(s, k).Goes? ==> Refs(OnInterface(s, k).s) && SameShape(s.cur, OnInterface(s, k).s.cur)
  {
    hide AllProper, SameShape, Set8, Set16, TypeOf;
    ShapeSame(s.cur);
    if OnInterface(s, k).Goes? {
      if s.ifcd.At? {
        Sizes(s.cur, s.ifcd.k);
        SetKeeps(s.cur, s.ifcd.k, 4, s.nume.n);
      }
      KeepsRefs(s, OnInterface(s, k).s, k);
    }
  }

  // The whole pass.
  function Visits(s: Pass, k: nat): Outcome
    requires Refs(s) && k <= |s.cur|
    decreases |s.cur| - k
  {
    if k == |s.cur| then Goes(s)
    else
      VisitKeeps(s, k);
      match Visit(s, k)
      case Raises => Raises
      case Goes(t) => Visits(t, k + 1)
  }

  // The loop.
  method Count(ds: seq<Desc>) returns (o: Outcome)
    requires AllProper(ds)
    ensures o == Visits(Start(ds), 0)
  {
    hide Visit, AllProper;
    var s := Start(ds);
    ghost var s0 := s;
    for k := 0 to |ds|
      invariant Refs(s) && |s.cur| == |ds| && Visits(s0, 0) == Visits(s, k)
    {
      VisitKeeps(s, k);
      o := VisitOne(s, k);
      if o.Raises? {
        return;
      }
      s := o.s;
    }
    o := Goes(s);
  }

  method VisitOne(s: Pass, k: nat) returns (o: Outcome)
    requires Refs(s) && k < |s.cur|
    ensures o == Visit(s, k)
  {
    hide OnDevice, OnConfig, OnInterface, AllProper;
    o := Goes(s);
    var t := TypeOf(s.cur[k]);
    if t == DEVICE {
      o := VisitDevice(s, k);
    } else if t == CONFIGURATION {
      o := VisitConfig(s, k);
    } else if t == INTERFACE {
      o := VisitInterface(s, k);
    } else if t == ENDPOINT {
      o := if s.nume.NoValue? then Raises else Goes(s.(nume := Value(s.nume.n + 1)));
    }
    if o.Goes? && t != SENTINEL {
      o := Goes(o.s.(totl := o.s.totl + s.cur[k][0]));
    }
  }
}
