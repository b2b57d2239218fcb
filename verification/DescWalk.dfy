// Walking a compiled descriptor table, core/hdl/Usb2DescPkg.vhd.
module DescWalk {
  import opened Bytes
  import opened DescCompiler

  // ---- the table -------------------------------------------------------------------------

  // The bytes that are emitted for a list, and where descriptor k begins.
  function Flat(ds: seq<Desc>): seq<Byte> {
    if ds == [] then [] else Flat(ds[..|ds| - 1]) + ds[|ds| - 1]
  }

  function Off(ds: seq<Desc>, k: nat): nat
    requires k <= |ds|
  {
    if k == 0 then 0 else Off(ds, k - 1) + |ds[k - 1]|
  }

  predicate Sized(ds: seq<Desc>) {
    ds != [] && forall k :: 0 <= k < |ds| ==> |ds[k]| < 256 && ds[k][0] == |ds[k]|
  }

  lemma {:induction false} OffPrefix(ds: seq<Desc>, n: nat, k: nat)
    requires k <= n <= |ds|
    ensures Off(ds[..n], k) == Off(ds, k)
  {
    if k > 0 {
      OffPrefix(ds, n, k - 1);
    }
  }

  lemma {:induction false} FlatLength(ds: seq<Desc>)
    ensures |Flat(ds)| == Off(ds, |ds|)
  {
    if ds != [] {
      FlatLength(ds[..|ds| - 1]);
      OffPrefix(ds, |ds| - 1, |ds| - 1);
    }
  }

  lemma {:induction false} OffGrows(ds: seq<Desc>, j: nat, k: nat)
    requires j <= k <= |ds|
    ensures Off(ds, j) + 2 * (k - j) <= Off(ds, k)
  {
    if j < k {
      OffGrows(ds, j, k - 1);
    }
  }

  // Descriptor k stands at its offset.
  lemma {:induction false} FlatAt(ds: seq<Desc>, k: nat)
    requires k < |ds|
    ensures Off(ds, k + 1) == Off(ds, k) + |ds[k]| <= |Flat(ds)|
    ensures Flat(ds)[Off(ds, k)..Off(ds, k + 1)] == ds[k]
  {
    var n := |ds| - 1;
    FlatLength(ds[..n]);
    OffPrefix(ds, n, n);
    if k < n {
      FlatAt(ds[..n], k);
      OffPrefix(ds, n, k);
      OffPrefix(ds, n, k + 1);
      var f := Flat(ds[..n]);
      assert (f + ds[n])[Off(ds, k)..Off(ds, k + 1)] == f[Off(ds, k)..Off(ds, k + 1)];
    }
  }

  // The length and the type byte of descriptor k, and what follows it.
  lemma TableAt(ds: seq<Desc>, k: nat)
    requires Sized(ds) && k < |ds|
    ensures var d, x := Flat(ds), Off(ds, k);
            && x + 1 < |d| && d[x] == |ds[k]| && d[x + 1] == TypeOf(ds[k])
            && x + d[x] == Off(ds, k + 1)
            && (Off(ds, k + 1) >= |d| - 1 <==> k + 1 == |ds|)
  {
    FlatAt(ds, k);
    FlatLength(ds);
    OffGrows(ds, k + 1, |ds|);
    hide Flat, Off;
    var d, x := Flat(ds), Off(ds, k);
    assert d[x..x + |ds[k]|][0] == d[x] && d[x..x + |ds[k]|][1] == d[x + 1];
  }

  // ---- positions in the list ------------------------------------------------------------------

  predicate StopsAt(d: Desc) {
    TypeOf(d) >= 0x80
  }

  function Step(ds: seq<Desc>, k: int, a: bool): int
    requires -1 <= k < |ds|
    ensures -1 <= Step(ds, k, a) < |ds|
  {
    if k < 0 || k + 1 == |ds| || (a && StopsAt(ds[k + 1])) then -1 else k + 1
  }

  function Find(ds: seq<Desc>, k: int, t: Byte, a: bool): int
    requires -1 <= k < |ds|
    ensures -1 <= Find(ds, k, t, a) < |ds|
    ensures Find(ds, k, t, a) >= 0 ==> k <= Find(ds, k, t, a)
    decreases if k < 0 then 0 else |ds| - k
  {
    if k < 0 || TypeOf(ds[k]) == t then k else Find(ds, Step(ds, k, a), t, a)
  }

  function CountFrom(ds: seq<Desc>, k: int, t: Byte, a: bool): nat
    requires -1 <= k < |ds|
    decreases if k < 0 then 0 else |ds| - k
  {
    var f := Find(ds, k, t, a);
    if f < 0 then 0 else 1 + CountFrom(ds, Step(ds, f, a), t, a)
  }

  function Loc(ds: seq<Desc>, k: int): int
    requires -1 <= k < |ds|
  {
    if k < 0 then -1 else Off(ds, k)
  }

  // ---- the walkers --------------------------------------------------------------------------------

  // The overload without a type: -1 behind the last descriptor, and at a sentinel if
  // asked for.  A type with its top bit set is taken for a sentinel.
  function NextDescriptor(d: seq<Byte>, i: int, a: bool): int
    requires i < |d| && (i >= 0 ==> i + d[i] < |d| - 1 ==> i + d[i] + 1 < |d|)
  {
    if i < 0 then i
    else
      var x := i + d[i];
      if x >= |d| - 1 then -1
      else if a && d[x + 1] >= 0x80 then -1
      else x
  }

  lemma NextIsStep(ds: seq<Desc>, k: int, a: bool)
    requires Sized(ds) && -1 <= k < |ds|
    ensures Loc(ds, k) < |Flat(ds)|
    ensures NextDescriptor(Flat(ds), Loc(ds, k), a) == Loc(ds, Step(ds, k, a))
  {
    hide Flat, Off;
    if k >= 0 {
      TableAt(ds, k);
      if k + 1 < |ds| {
        TableAt(ds, k + 1);
      }
    }
  }

  // The next descriptor of a type, from i on.
  method FindType(d: seq<Byte>, i: int, t: Byte, a: bool, ghost ds: seq<Desc>, ghost k: int) returns (x: int)
    requires Sized(ds) && d == Flat(ds) && -1 <= k < |ds| && i == Loc(ds, k)
    ensures x == Loc(ds, Find(ds, k, t, a))
  {
    hide Flat, Off, Sized;
    x := i;
    ghost var j := k;
    ReadType(ds, j);
    while x >= 0 && d[x + 1] != t
      invariant -1 <= j < |ds| && x == Loc(ds, j) && x + 1 < |d|
      invariant j >= 0 ==> x >= 0 && d[x + 1] == TypeOf(ds[j])
      invariant Find(ds, k, t, a) == Find(ds, j, t, a)
      decreases if j < 0 then 0 else |ds| - j
    {
      NextIsStep(ds, j, a);
      x := NextDescriptor(d, x, a);
      j := Step(ds, j, a);
      ReadType(ds, j);
    }
  }

  lemma ReadType(ds: seq<Desc>, j: int)
    requires Sized(ds) && -1 <= j < |ds|
    ensures Loc(ds, j) + 1 < |Flat(ds)| && Loc(ds, j) >= -1
    ensures j >= 0 ==> Loc(ds, j) >= 0 && Flat(ds)[Loc(ds, j) + 1] == TypeOf(ds[j])
  {
    hide Flat, Off;
    if j >= 0 {
      TableAt(ds, j);
    } else {
      TableAt(ds, 0);
    }
  }

  // How many descriptors of a type there are from position i on.
  method CountDescriptors(d: seq<Byte>, low: nat, t: Byte, a: bool, ghost ds: seq<Desc>, ghost k: nat) returns (n: nat)
    requires Sized(ds) && d == Flat(ds) && k < |ds| && low == Loc(ds, k)
    ensures n == CountFrom(ds, k, t, a)
  {
    hide Flat, Off, Sized, Find, Step;
    var i: int := low;
    n := 0;
    CountNone(ds, t, a);
    ghost var j: int := k;
    while i >= 0
      invariant -1 <= j < |ds| && i == Loc(ds, j)
      invariant n + CountFrom(ds, j, t, a) == CountFrom(ds, k, t, a)
      decreases if j < 0 then 0 else |ds| - j
    {
      i := FindType(d, i, t, a, ds, j);
      ghost var f := Find(ds, j, t, a);
      CountStep(ds, j, t, a);
      LocSign(ds, f);
      if i >= 0 {
        n := n + 1;
        NextIsStep(ds, f, a);
        i := NextDescriptor(d, i, a);
        j := Step(ds, f, a);
      } else {
        j := -1;
      }
    }
  }

  lemma CountStep(ds: seq<Desc>, j: int, t: Byte, a: bool)
    requires -1 <= j < |ds|
    ensures var f := Find(ds, j, t, a);
            CountFrom(ds, j, t, a) == (if f < 0 then 0 else 1 + CountFrom(ds, Step(ds, f, a), t, a))
            && (f >= 0 ==> j >= 0 && (Step(ds, f, a) == -1 || Step(ds, f, a) > j))
  {
  }

  lemma CountNone(ds: seq<Desc>, t: Byte, a: bool)
    requires ds != []
    ensures CountFrom(ds, -1, t, a) == 0 && Loc(ds, -1) == -1
  {
  }

  lemma LocSign(ds: seq<Desc>, k: int)
    requires -1 <= k < |ds|
    ensures Loc(ds, k) >= 0 <==> k >= 0
  {
  }

  // The full-speed device, or the device after it.
  method DeviceDescriptorIndex(d: seq<Byte>, hs: bool, ghost ds: seq<Desc>) returns (i: int)
    requires Sized(ds) && d == Flat(ds)
    ensures i == Loc(ds, DeviceAt(ds, hs))
  {
    hide Flat, Off, Sized, Find, Step;
    assert Loc(ds, 0) == 0 && ds != [] by { FirstAtZero(ds); }
    i := FindType(d, 0, DEVICE, false, ds, 0);
    if hs {
      ghost var f := Find(ds, 0, DEVICE, false);
      NextIsStep(ds, f, false);
      i := NextDescriptor(d, i, false);
      i := FindType(d, i, DEVICE, false, ds, Step(ds, f, false));
    }
  }

  lemma FirstAtZero(ds: seq<Desc>)
    requires Sized(ds)
    ensures ds != [] && Loc(ds, 0) == 0
  {
  }

  function DeviceAt(ds: seq<Desc>, hs: bool): int
    requires ds != []
    ensures -1 <= DeviceAt(ds, hs) < |ds|
  {
    var f := Find(ds, 0, DEVICE, false);
    if hs then Find(ds, Step(ds, f, false), DEVICE, false) else f
  }

  // The configurations up to the next sentinel; -1 without a device.  Finding none is
  // a failure.
  method GetNumConfigurations(d: seq<Byte>, i: int, a: bool, ghost ds: seq<Desc>, ghost k: int)
    returns (ok: bool, nc: int)
    requires Sized(ds) && d == Flat(ds) && -1 <= k < |ds| && i == Loc(ds, k)
    ensures nc == (if k < 0 then -1 else CountFrom(ds, k, CONFIGURATION, a)) && (ok <==> nc != 0)
  {
    LocSign(ds, k);
    if i < 0 {
      return true, -1;
    }
    nc := CountDescriptors(d, i, CONFIGURATION, a, ds, k);
    ok := nc > 0;
  }

  // The positions that the table holds: the device's, and the configurations'.
  function TableFrom(ds: seq<Desc>, frm: int, n: nat): seq<int>
    requires -1 <= frm < |ds|
    decreases n
  {
    if n == 0 then []
    else
      var f := Find(ds, frm, CONFIGURATION, false);
      [f] + TableFrom(ds, Step(ds, f, false), n - 1)
  }

  function Locs(ds: seq<Desc>, ks: seq<int>): seq<int>
    requires forall i :: 0 <= i < |ks| ==> -1 <= ks[i] < |ds|
  {
    seq(|ks|, i requires 0 <= i < |ks| => Loc(ds, ks[i]))
  }

  lemma {:induction false} TableInRange(ds: seq<Desc>, frm: int, n: nat)
    requires -1 <= frm < |ds|
    ensures |TableFrom(ds, frm, n)| == n && forall i :: 0 <= i < n ==> -1 <= TableFrom(ds, frm, n)[i] < |ds|
    decreases n
  {
    hide Find, Step;
    if n > 0 {
      TableInRange(ds, Step(ds, Find(ds, frm, CONFIGURATION, false), false), n - 1);
    }
  }

  // The chosen speed's device, followed by its configurations.
  method GetConfigIdxTbl(d: seq<Byte>, hs: bool, ghost ds: seq<Desc>) returns (ok: bool, rv: seq<int>)
    requires Sized(ds) && d == Flat(ds)
    ensures ds != [] && var di := DeviceAt(ds, hs);
            if di < 0 then ok && rv == []
            else
              var nc := CountFrom(ds, di, CONFIGURATION, true);
              (ok <==> nc > 0) && (ok ==> rv == [Loc(ds, di)] + TableLocs(ds, di, nc))
  {
    hide Flat, Off, Sized, Find, Step, DeviceAt, CountFrom, TableLocs;
    FirstAtZero(ds);
    ghost var k := DeviceAt(ds, hs);
    var di := DeviceDescriptorIndex(d, hs, ds);
    var nc;
    ok, nc := GetNumConfigurations(d, di, true, ds, k);
    rv := [];
    if nc < 0 || !ok {
      return;
    }
    var frm := FindType(d, di, DEVICE, false, ds, k);
    DeviceIsFound(ds, hs);
    rv := [frm];
    ghost var j := k;
    for i := 0 to nc
      invariant -1 <= j < |ds| && frm == Loc(ds, j)
      invariant rv + TableLocs(ds, j, nc - i) == [Loc(ds, k)] + TableLocs(ds, k, nc)
    {
      ghost var f := Find(ds, j, CONFIGURATION, false);
      TableStep(ds, j, nc - i);
      var x := FindType(d, frm, CONFIGURATION, false, ds, j);
      ghost var rest := TableLocs(ds, Step(ds, f, false), nc - i - 1);
      assert rv + ([x] + rest) == (rv + [x]) + rest;
      rv := rv + [x];
      NextIsStep(ds, f, false);
      frm := NextDescriptor(d, x, false);
      j := Step(ds, f, false);
    }
    TableEnd(ds, j);
    assert rv + [] == rv;
  }

  function TableLocs(ds: seq<Desc>, frm: int, n: nat): seq<int>
    requires -1 <= frm < |ds|
  {
    TableInRange(ds, frm, n);
    Locs(ds, TableFrom(ds, frm, n))
  }

  lemma TableStep(ds: seq<Desc>, j: int, n: nat)
    requires -1 <= j < |ds| && n > 0
    ensures var f := Find(ds, j, CONFIGURATION, false);
            TableLocs(ds, j, n) == [Loc(ds, f)] + TableLocs(ds, Step(ds, f, false), n - 1)
  {
    hide Find, Step, Loc;
    TableInRange(ds, j, n);
    TableInRange(ds, Step(ds, Find(ds, j, CONFIGURATION, false), false), n - 1);
  }

  lemma TableEnd(ds: seq<Desc>, j: int)
    requires -1 <= j < |ds|
    ensures TableLocs(ds, j, 0) == []
  {
  }

  lemma DeviceIsFound(ds: seq<Desc>, hs: bool)
    requires ds != []
    ensures var k := DeviceAt(ds, hs); Find(ds, k, DEVICE, false) == k
  {
    FindsType(ds, 0, DEVICE, false);
    var f := Find(ds, 0, DEVICE, false);
    FindsType(ds, Step(ds, f, false), DEVICE, false);
  }

  // What is found: the first of its type, with no sentinel on the way if that matters.
  lemma {:induction false} FindsType(ds: seq<Desc>, k: int, t: Byte, a: bool)
    requires -1 <= k < |ds|
    ensures var f := Find(ds, k, t, a);
            if f < 0 then Find(ds, f, t, a) == f
            else k >= 0 && TypeOf(ds[f]) == t && Find(ds, f, t, a) == f
                 && (forall j :: k <= j < f ==> TypeOf(ds[j]) != t)
                 && (a ==> forall j :: k < j <= f ==> !StopsAt(ds[j]))
    decreases if k < 0 then 0 else |ds| - k
  {
    if k >= 0 && TypeOf(ds[k]) != t {
      FindsType(ds, Step(ds, k, a), t, a);
    }
  }

  // The n-th string, counting the language table as number 0.
  function NthString(ds: seq<Desc>, n: int): int
    requires ds != []
    ensures -1 <= NthString(ds, n) < |ds|
  {
    if n < 0 then -1 else StringsOn(ds, Find(ds, 0, STRING, false), n)
  }

  function StringsOn(ds: seq<Desc>, i: int, k: nat): int
    requires -1 <= i < |ds|
    ensures -1 <= StringsOn(ds, i, k) < |ds|
    decreases k
  {
    if k == 0 then i
    else
      var s := Step(ds, i, true);
      if s < 0 then -1
      else
        var f := Find(ds, s, STRING, true);
        if f < 0 then -1 else StringsOn(ds, f, k - 1)
  }

  method NthStringDescriptor(d: seq<Byte>, n: int, ghost ds: seq<Desc>) returns (i: int)
    requires Sized(ds) && d == Flat(ds)
    ensures ds != [] && i == Loc(ds, NthString(ds, n))
  {
    hide Flat, Off, Sized, Find, Step;
    FirstAtZero(ds);
    var k := n;
    if k < 0 {
      return -1;
    }
    i := FindType(d, 0, STRING, false, ds, 0);
    ghost var j := Find(ds, 0, STRING, false);
    while k > 0
      invariant -1 <= j < |ds| && i == Loc(ds, j) && 0 <= k
      invariant NthString(ds, n) == StringsOn(ds, j, k)
    {
      NextIsStep(ds, j, true);
      i := NextDescriptor(d, i, true);
      ghost var s := Step(ds, j, true);
      LocSign(ds, s);
      if i < 0 {
        return -1;
      }
      i := FindType(d, i, STRING, true, ds, s);
      ghost var f := Find(ds, s, STRING, true);
      LocSign(ds, f);
      if i < 0 {
        return -1;
      }
      j := f;
      k := k - 1;
    }
  }

  // The emitted bytes, descriptor after descriptor.
  method Emit(ds: seq<Desc>) returns (d: seq<Byte>)
    ensures d == Flat(ds)
  {
    d := [];
    for k := 0 to |ds|
      invariant d == Flat(ds[..k])
    {
      assert ds[..k + 1][..k] == ds[..k];
      d := d + ds[k];
    }
    assert ds[..|ds|] == ds;
  }
}
