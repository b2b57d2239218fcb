// Compiler and walkers agree: the numbers in the finished table are true of the finished
// table, and the walkers find in it what was put in.
module DescTheorems {
  import opened Bytes
  import opened DescCompiler
  import opened DescProof
  import opened DescContext
  import opened DescWalk

  // ---- the numbers of a list, in terms of that list ------------------------------------

  // The numbers of descriptor k are those of the descriptors that follow it.
  predicate Right(f: seq<Desc>, k: nat)
    requires k < |f|
  {
    var d, rest := f[k], f[k + 1..];
    && (TypeOf(d) == DEVICE ==> |d| == 18 && d[17] == Configs(Run(rest, 0)) % 256)
    && (TypeOf(d) == CONFIGURATION ==>
          && |d| == 9 && Get16(d, 2) == (|d| + Total(Run(rest, 1))) % 65536
          && d[4] == Interfaces(Run(rest, 1)) % 256 && d[5] == Number(f, k + 1) % 256)
    && (TypeOf(d) == INTERFACE ==> |d| == 9 && d[4] == Endpoints(Run(rest, 2)) % 256)
  }

  predicate AllRight(f: seq<Desc>) {
    forall k :: 0 <= k < |f| ==> Right(f, k)
  }

  // Lists whose numbers may differ.
  predicate Alike(a: seq<Desc>, b: seq<Desc>) {
    |a| == |b| && forall k :: 0 <= k < |a| ==>
      |a[k]| == |b[k]| && TypeOf(a[k]) == TypeOf(b[k]) && IsFirstSetting(a[k]) == IsFirstSetting(b[k])
  }

  lemma {:induction false} AlikeRuns(a: seq<Desc>, b: seq<Desc>, level: nat)
    requires Alike(a, b)
    ensures Alike(Run(a, level), Run(b, level))
  {
    hide IsFirstSetting;
    if a != [] && !Ends(a[0], level) {
      AlikeRuns(a[1..], b[1..], level);
    }
  }

  lemma {:induction false} AlikeCounts(a: seq<Desc>, b: seq<Desc>)
    requires Alike(a, b)
    ensures Total(a) == Total(b) && Endpoints(a) == Endpoints(b) && Interfaces(a) == Interfaces(b)
      && Configs(a) == Configs(b)
  {
    hide IsFirstSetting;
    if a != [] {
      AlikeCounts(a[1..], b[1..]);
    }
  }

  lemma {:induction false} AlikeNumber(a: seq<Desc>, b: seq<Desc>, j: nat)
    requires Alike(a, b) && j <= |a|
    ensures Number(a, j) == Number(b, j)
  {
    hide IsFirstSetting;
    if j > 0 {
      AlikeNumber(a, b, j - 1);
    }
  }

  lemma FilledAlike(ds: seq<Desc>)
    requires AllProper(ds)
    ensures Alike(FilledList(ds), ds)
  {
    hide Run, Number;
    forall k | 0 <= k < |ds|
      ensures |Filled(ds, k)| == |ds[k]| && TypeOf(Filled(ds, k)) == TypeOf(ds[k])
        && IsFirstSetting(Filled(ds, k)) == IsFirstSetting(ds[k])
    {
      FilledOne(ds, k);
      FilledSetting(ds, k);
    }
  }

  lemma FilledSetting(ds: seq<Desc>, k: nat)
    requires AllProper(ds) && k < |ds|
    ensures IsFirstSetting(Filled(ds, k)) == IsFirstSetting(ds[k])
  {
    hide Run, Number;
  }

  lemma FilledNumbers(ds: seq<Desc>, k: nat)
    requires AllProper(ds) && k < |ds|
    ensures var d, rest := Filled(ds, k), ds[k + 1..];
            && (TypeOf(d) == DEVICE ==> |d| == 18 && d[17] == Configs(Run(rest, 0)) % 256)
            && (TypeOf(d) == CONFIGURATION ==>
                  && |d| == 9 && Get16(d, 2) == (|d| + Total(Run(rest, 1))) % 65536
                  && d[4] == Interfaces(Run(rest, 1)) % 256 && d[5] == Number(ds, k + 1) % 256)
            && (TypeOf(d) == INTERFACE ==> |d| == 9 && d[4] == Endpoints(Run(rest, 2)) % 256)
  {
    hide Run, Number, Total, Configs, Interfaces, Endpoints, Set16;
    assert Proper(ds[k]);
    if TypeOf(ds[k]) == CONFIGURATION {
      SetGet(Numbered(ds, k), 2, |ds[k]| + Total(Run(ds[k + 1..], 1)));
    }
  }

  lemma FilledRight(ds: seq<Desc>)
    requires AllProper(ds)
    ensures AllRight(FilledList(ds))
  {
    hide Run, Number, Total, Configs, Interfaces, Endpoints, Get16, Filled, IsFirstSetting;
    FilledAlike(ds);
    var g := FilledList(ds);
    forall k | 0 <= k < |g| ensures Right(g, k) {
      FilledNumbers(ds, k);
      assert Alike(g[k + 1..], ds[k + 1..]);
      AlikeNumber(g, ds, k + 1);
      AlikeRuns(g[k + 1..], ds[k + 1..], 0);
      AlikeRuns(g[k + 1..], ds[k + 1..], 1);
      AlikeRuns(g[k + 1..], ds[k + 1..], 2);
      AlikeCounts(Run(g[k + 1..], 0), Run(ds[k + 1..], 0));
      AlikeCounts(Run(g[k + 1..], 1), Run(ds[k + 1..], 1));
      AlikeCounts(Run(g[k + 1..], 2), Run(ds[k + 1..], 2));
    }
  }

  // ---- what is put in later changes none of them ------------------------------------------------

  predicate IsEnd(d: Desc) {
    TypeOf(d) == STRING || TypeOf(d) == SENTINEL
  }

  lemma AppendRuns(g: seq<Desc>, y: seq<Desc>, a: nat, level: nat)
    requires a <= |g| && y != [] && IsEnd(y[0])
    ensures Run((g + y)[a..], level) == Run(g[a..], level)
  {
    hide Run;
    RunStops(g + y, a, |g|, level);
    assert (g + y)[a..|g|] == g[a..];
  }

  lemma {:induction false} AppendNumber(g: seq<Desc>, y: seq<Desc>, j: nat)
    requires j <= |g|
    ensures Number(g + y, j) == Number(g, j)
  {
    if j > 0 {
      AppendNumber(g, y, j - 1);
    }
  }

  lemma AppendRight(g: seq<Desc>, y: seq<Desc>)
    requires AllRight(g) && y != [] && forall i :: 0 <= i < |y| ==> IsEnd(y[i])
    ensures AllRight(g + y)
  {
    hide Run, Number, Total, Configs, Interfaces, Endpoints, Get16;
    var f := g + y;
    forall k | 0 <= k < |f| ensures Right(f, k) {
      if k < |g| {
        assert Right(g, k) && f[k] == g[k];
        AppendRuns(g, y, k + 1, 0);
        AppendRuns(g, y, k + 1, 1);
        AppendRuns(g, y, k + 1, 2);
        AppendNumber(g, y, k + 1);
      } else {
        assert IsEnd(f[k]);
      }
    }
  }

  function Insert(g: seq<Desc>, p: nat, q: Desc): seq<Desc>
    requires p < |g|
  {
    g[..p + 1] + [q] + g[p + 1..]
  }

  // The run of a descriptor in front of the device ends there.
  lemma InsertBefore(g: seq<Desc>, p: nat, q: Desc, a: nat, level: nat)
    requires p < |g| && TypeOf(g[p]) == DEVICE && a <= p
    ensures Run(Insert(g, p, q)[a..], level) == Run(g[a..], level)
  {
    hide Run;
    var f := Insert(g, p, q);
    RunStops(f, a, p, level);
    RunStops(g, a, p, level);
    assert f[a..p] == g[a..p];
  }

  lemma {:induction false} InsertNumber(g: seq<Desc>, p: nat, q: Desc, j: nat)
    requires p < |g| && TypeOf(q) == QUALIFIER && j <= |g|
    ensures Number(Insert(g, p, q), if j <= p + 1 then j else j + 1) == Number(g, j)
    ensures j == p + 1 ==> Number(Insert(g, p, q), j + 1) == Number(g, j)
  {
    var f := Insert(g, p, q);
    if j > 0 {
      InsertNumber(g, p, q, j - 1);
      if j <= p + 1 {
        assert f[j - 1] == g[j - 1];
      } else {
        assert f[j] == g[j - 1];
      }
      if j == p + 1 {
        assert f[j] == q;
      }
    }
  }

  lemma InsertRight(g: seq<Desc>, p: nat, q: Desc)
    requires AllRight(g) && p < |g| && TypeOf(g[p]) == DEVICE && TypeOf(q) == QUALIFIER
    ensures AllRight(Insert(g, p, q))
  {
    hide Run, Number, Total, Configs, Interfaces, Endpoints, Get16;
    var f := Insert(g, p, q);
    forall k | 0 <= k < |f| ensures Right(f, k) {
      if k < p {
        InsertRightBefore(g, p, q, k);
      } else if k == p {
        assert Right(g, p) && f[p] == g[p] && f[p + 1..] == [q] + g[p + 1..];
        QualifierRun(q, g[p + 1..]);
      } else if k > p + 1 {
        assert Right(g, k - 1) && f[k] == g[k - 1] && f[k + 1..] == g[k..];
        InsertNumber(g, p, q, k);
      }
    }
  }

  lemma InsertRightBefore(g: seq<Desc>, p: nat, q: Desc, k: nat)
    requires AllRight(g) && k < p < |g| && TypeOf(g[p]) == DEVICE && TypeOf(q) == QUALIFIER
    ensures Right(Insert(g, p, q), k)
  {
    hide Run, Number, Total, Configs, Interfaces, Endpoints, Get16;
    assert Right(g, k) && Insert(g, p, q)[k] == g[k];
    InsertBefore(g, p, q, k + 1, 0);
    InsertBefore(g, p, q, k + 1, 1);
    InsertBefore(g, p, q, k + 1, 2);
    InsertNumber(g, p, q, k + 1);
  }

  lemma QualifierRun(q: Desc, rest: seq<Desc>)
    requires TypeOf(q) == QUALIFIER
    ensures Configs(Run([q] + rest, 0)) == Configs(Run(rest, 0))
  {
    RunSome(q, rest, 0);
    var r := Run(rest, 0);
    assert ([q] + r)[1..] == r;
    hide Run;
  }

  lemma QualifiedRight(g: seq<Desc>, devs: seq<nat>)
    requires AllProper(g) && AreDevices(g, devs) && AllRight(g)
    ensures AllRight(Qualified(g, devs))
  {
    hide Right, AllProper;
    if |devs| >= 2 {
      var f, h := devs[0], devs[1];
      assert Proper(g[f]) && Proper(g[h]) by { ProperAt(g, f); ProperAt(g, h); }
      var g1 := Insert(g, f, Qualifier(g[h]));
      InsertRight(g, f, Qualifier(g[h]));
      assert g1[h + 1] == g[h];
      InsertRight(g1, h + 1, Qualifier(g[f]));
      InsertTwice(g, f, h, Qualifier(g[h]), Qualifier(g[f]));
    }
  }

  lemma {:induction false} StringsEnd(strs: seq<Str>)
    ensures |StringDescs(strs)| == |strs|
    ensures forall i :: 0 <= i < |strs| ==> StringDescs(strs)[i] == StringDesc(strs[i]) && IsEnd(StringDescs(strs)[i])
  {
    if strs != [] {
      StringsEnd(strs[1..]);
    }
  }

  // In the finished table every total length, and every count of interfaces, endpoints
  // and configurations, is that of the descriptors that follow in the table, up to the
  // next one that does not belong; and configurations are numbered from 1 in each device.
  lemma CompiledRight(ds: seq<Desc>, strs: seq<Str>)
    requires AllProper(ds)
    ensures AllRight(Compiled(ds, strs))
  {
    hide Right, AllProper, FilledList, Devices, Qualified;
    FilledShape(ds);
    DevicesAre(ds, |ds|);
    assert ds[..|ds|] == ds;
    FilledRight(ds);
    var g, devs := FilledList(ds), Devices(ds, |ds|);
    assert AreDevices(g, devs);
    QualifiedRight(g, devs);
    StringsEnd(strs);
    var b, y := Qualified(g, devs), StringSection(strs) + [TAIL];
    AppendRight(b, y);
    assert b + StringSection(strs) + [TAIL] == b + y;
  }

  // ---- total lengths are distances -----------------------------------------------------------------

  // Where the run of descriptor k ends.
  function RunEnd(f: seq<Desc>, k: nat, level: nat): (e: nat)
    requires k < |f|
    ensures k < e <= |f|
  {
    RunIs(f[k + 1..], level);
    k + 1 + |Run(f[k + 1..], level)|
  }

  lemma {:induction false} RunIs(rest: seq<Desc>, level: nat)
    ensures var n := |Run(rest, level)|;
            && n <= |rest| && Run(rest, level) == rest[..n] && (n < |rest| ==> Ends(rest[n], level))
            && forall j :: 0 <= j < n ==> !Ends(rest[j], level)
  {
    hide Ends;
    if rest != [] && !Ends(rest[0], level) {
      RunIs(rest[1..], level);
    }
  }

  lemma RunEndIs(f: seq<Desc>, k: nat, level: nat)
    requires k < |f|
    ensures var e := RunEnd(f, k, level);
            && k < e <= |f| && Run(f[k + 1..], level) == f[k + 1..e] && (e < |f| ==> Ends(f[e], level))
            && forall j :: k < j < e ==> !Ends(f[j], level)
  {
    hide Ends, Run;
    RunIs(f[k + 1..], level);
    forall j | k < j < RunEnd(f, k, level) ensures !Ends(f[j], level) {
      assert f[k + 1..][j - k - 1] == f[j];
    }
  }

  lemma {:induction false} TotalIsDistance(f: seq<Desc>, a: nat, b: nat)
    requires a <= b <= |f|
    ensures Total(f[a..b]) == Off(f, b) - Off(f, a)
    decreases b - a
  {
    if a < b {
      TotalIsDistance(f, a, b - 1);
      assert f[a..b] == f[a..b - 1] + [f[b - 1]];
      CountsSnoc(f[a..b - 1], f[b - 1]);
    } else {
      assert f[a..b] == [];
    }
  }

  // The total length stored in a configuration is the distance in bytes to the next
  // configuration, device, sentinel or string of the table (it has 16 bits).
  lemma TotalLengthIsDistance(ds: seq<Desc>, strs: seq<Str>, k: nat)
    requires AllProper(ds) && k < |Compiled(ds, strs)| && TypeOf(Compiled(ds, strs)[k]) == CONFIGURATION
    ensures var f := Compiled(ds, strs);
            var e := RunEnd(f, k, 1);
            && k < e < |f| && Ends(f[e], 1) && (forall j :: k < j < e ==> !Ends(f[j], 1))
            && |f[k]| == 9 && Off(f, k) <= Off(f, e) && Get16(f[k], 2) == (Off(f, e) - Off(f, k)) % 65536
  {
    hide Compiled, Get16, Run, Interfaces, Configs, Endpoints, AllProper, Ends;
    var f := Compiled(ds, strs);
    CompiledRight(ds, strs);
    assert Right(f, k);
    RunEndIs(f, k, 1);
    TotalIsDistance(f, k + 1, RunEnd(f, k, 1));
    OffGrows(f, k, RunEnd(f, k, 1));
    CompiledTail(ds, strs);
    assert f[|f| - 1] == TAIL;
    assert Ends(TAIL, 1) by { TailEnds(); }
  }

  lemma CompiledTail(ds: seq<Desc>, strs: seq<Str>)
    requires AllProper(ds)
    ensures Compiled(ds, strs) != [] && Compiled(ds, strs)[|Compiled(ds, strs)| - 1] == TAIL
  {
    hide FilledList, Qualified, Devices, AreDevices;
  }

  lemma TailEnds()
    ensures Ends(TAIL, 1) && TypeOf(TAIL) == SENTINEL
  {
  }

  // ---- well-formedness is kept -----------------------------------------------------------------------

  lemma {:induction false} AlikeMode(a: seq<Desc>, b: seq<Desc>, j: nat)
    requires Alike(a, b) && j <= |a|
    ensures ModeAt(a, j) == ModeAt(b, j)
  {
    hide IsFirstSetting;
    if j > 0 {
      AlikeMode(a, b, j - 1);
    }
  }

  lemma {:induction false} InsertMode(g: seq<Desc>, p: nat, q: Desc, j: nat)
    requires p < |g| && TypeOf(g[p]) == DEVICE && TypeOf(q) == QUALIFIER && j <= |g| && !ModeAt(g, j).Bad?
    ensures ModeAt(Insert(g, p, q), if j <= p then j else j + 1) == ModeAt(g, j)
  {
    var f := Insert(g, p, q);
    if j > 0 {
      InsertMode(g, p, q, j - 1);
      if j <= p {
        assert f[j - 1] == g[j - 1];
      } else if j == p + 1 {
        assert f[p] == g[p] && f[p + 1] == q;
        assert ModeAt(f, p + 1) == After(ModeAt(f, p), f[p]);
        assert ModeAt(f, p + 2) == After(ModeAt(f, p + 1), q);
      } else {
        assert f[j] == g[j - 1];
      }
    }
  }

  lemma QualifiedWellFormed(g: seq<Desc>, devs: seq<nat>)
    requires WellFormed(g) && AreDevices(g, devs)
    ensures WellFormed(Qualified(g, devs))
  {
    hide AllProper, ModeAt;
    if |devs| >= 2 {
      var f, h := devs[0], devs[1];
      ProperAt(g, f);
      ProperAt(g, h);
      InsertWellFormed(g, f, Qualifier(g[h]));
      var g1 := Insert(g, f, Qualifier(g[h]));
      assert g1[h + 1] == g[h];
      InsertWellFormed(g1, h + 1, Qualifier(g[f]));
      InsertTwice(g, f, h, Qualifier(g[h]), Qualifier(g[f]));
    }
  }

  lemma InsertWellFormed(g: seq<Desc>, p: nat, q: Desc)
    requires WellFormed(g) && p < |g| && TypeOf(g[p]) == DEVICE && TypeOf(q) == QUALIFIER && Proper(q)
    ensures WellFormed(Insert(g, p, q)) && |Insert(g, p, q)| == |g| + 1
  {
    hide ModeAt, Proper;
    InsertMode(g, p, q, |g|);
  }

  // What the finished table is made of.
  lemma CompiledParts(ds: seq<Desc>, strs: seq<Str>) returns (b: seq<Desc>)
    requires WellFormed(ds)
    ensures WellFormed(b) && Compiled(ds, strs) == b + StringSection(strs) + [TAIL]
    ensures AreDevices(FilledList(ds), Devices(ds, |ds|)) && AllProper(FilledList(ds))
      && b == Qualified(FilledList(ds), Devices(ds, |ds|))
  {
    hide AllProper, ModeAt, Qualified, FilledList, Devices, Filled;
    FilledShape(ds);
    DevicesAre(ds, |ds|);
    assert ds[..|ds|] == ds;
    FilledAlike(ds);
    AlikeMode(FilledList(ds), ds, |ds|);
    b := Qualified(FilledList(ds), Devices(ds, |ds|));
    QualifiedWellFormed(FilledList(ds), Devices(ds, |ds|));
  }

  // ---- strings ------------------------------------------------------------------------------------------

  lemma {:induction false} FormedTypes(b: seq<Desc>, n: nat, k: nat)
    requires k < n <= |b| && !ModeAt(b, n).Bad?
    ensures TypeOf(b[k]) != STRING
    decreases n
  {
    if k < n - 1 {
      FormedTypes(b, n - 1, k);
    }
  }

  // Nothing of the type before position m.
  lemma {:induction false} FindSkips(f: seq<Desc>, k: nat, m: nat, t: Byte)
    requires k <= m < |f| && TypeOf(f[m]) == t && forall j :: k <= j < m ==> TypeOf(f[j]) != t
    ensures Find(f, k, t, false) == m
    decreases m - k
  {
    if k < m {
      FindSkips(f, k + 1, m, t);
    }
  }

  lemma {:induction false} FindNone(f: seq<Desc>, k: nat, t: Byte)
    requires k < |f| && forall j :: k <= j < |f| ==> TypeOf(f[j]) != t
    ensures Find(f, k, t, false) == -1
    decreases |f| - k
  {
    if k + 1 < |f| {
      FindNone(f, k + 1, t);
    }
  }

  // String descriptors from position i to the tail behind them.
  lemma {:induction false} StringsFollow(f: seq<Desc>, i: nat, k: nat)
    requires i < |f| && forall j :: i <= j < |f| - 1 ==> TypeOf(f[j]) == STRING
    requires i + 1 < |f| && TypeOf(f[|f| - 1]) == SENTINEL
    ensures StringsOn(f, i, k) == if i + k < |f| - 1 then i + k else -1
    decreases k
  {
    if k > 0 && i + 2 < |f| {
      StringsFollow(f, i + 1, k - 1);
    }
  }

  // The walk to the n-th string finds the string whose index was handed out as n, the
  // language table for 0, and nothing for any other number.
  lemma StringFound(ds: seq<Desc>, strs: seq<Str>, n: int)
    requires WellFormed(ds)
    ensures Compiled(ds, strs) != []
    ensures var f, r := Compiled(ds, strs), NthString(Compiled(ds, strs), n);
            if 0 <= n <= |strs| && strs != []
            then r >= 0 && f[r] == (if n == 0 then LANG_ID else StringDesc(strs[n - 1]))
            else r == -1
  {
    hide ModeAt, AllProper, Compiled, Find, StringsOn, StringDesc, StringSection, StopsAt, FilledList, AreDevices,
      Qualified, Devices;
    var b := CompiledParts(ds, strs);
    StringsEnd(strs);
    var f, s := Compiled(ds, strs), StringSection(strs);
    assert f == b + s + [TAIL];
    assert strs == [] ==> s == [] by { SectionIs(strs); }
    forall j | 0 <= j < |b| ensures TypeOf(f[j]) != STRING {
      NoString(b, j);
    }
    if strs == [] {
      FindNone(f, 0, STRING);
      NoStrings(f, n);
    } else {
      assert |s| == |strs| + 1 && f[|b|] == s[0] == LANG_ID by { SectionIs(strs); }
      FindSkips(f, 0, |b|, STRING);
      forall j | |b| <= j < |f| - 1 ensures TypeOf(f[j]) == STRING {
        assert f[j] == s[j - |b|];
        StringTypes(strs, j - |b|);
      }
      if n >= 0 {
        StringsFollow(f, |b|, n);
        SectionIs(strs);
        assert n <= |strs| ==> f[|b| + n] == s[n];
      }
    }
  }

  lemma SectionIs(strs: seq<Str>)
    ensures if strs == [] then StringSection(strs) == []
            else |StringSection(strs)| == |strs| + 1 && StringSection(strs)[0] == LANG_ID
                 && forall n :: 0 < n <= |strs| ==> StringSection(strs)[n] == StringDesc(strs[n - 1])
  {
    StringsEnd(strs);
  }

  lemma NoString(b: seq<Desc>, j: nat)
    requires WellFormed(b) && j < |b|
    ensures TypeOf(b[j]) != STRING
  {
    FormedTypes(b, |b|, j);
  }

  lemma NoStrings(f: seq<Desc>, n: int)
    requires f != [] && Find(f, 0, STRING, false) == -1
    ensures NthString(f, n) == -1
  {
    hide Find;
  }

  lemma StringTypes(strs: seq<Str>, i: nat)
    requires i < |StringSection(strs)|
    ensures TypeOf(StringSection(strs)[i]) == STRING
  {
    StringsEnd(strs);
    if i > 0 {
      assert StringSection(strs)[i] == StringDescs(strs)[i - 1];
    }
  }

  // ---- the configuration table --------------------------------------------------------------------------

  // The positions of configurations among descriptors a to b.
  function Positions(f: seq<Desc>, a: nat, b: nat): seq<int>
    requires a <= b <= |f|
    decreases b - a
  {
    if a == b then [] else (if TypeOf(f[a]) == CONFIGURATION then [a] else []) + Positions(f, a + 1, b)
  }

  lemma {:induction false} PositionsAre(f: seq<Desc>, a: nat, b: nat)
    requires a <= b <= |f|
    ensures var ps := Positions(f, a, b);
            && (forall i :: 0 <= i < |ps| ==> a <= ps[i] < b && TypeOf(f[ps[i]]) == CONFIGURATION)
            && (forall i, j :: 0 <= i < j < |ps| ==> ps[i] < ps[j])
            && (forall k :: a <= k < b && TypeOf(f[k]) == CONFIGURATION ==> k in ps)
            && |ps| == Configs(f[a..b])
    decreases b - a
  {
    hide Configs;
    if a < b {
      PositionsAre(f, a + 1, b);
      assert f[a..b] == [f[a]] + f[a + 1..b];
      ConfigsCons(f[a], f[a + 1..b]);
    } else {
      assert f[a..b] == [];
      ConfigsNone();
    }
  }

  lemma FindHere(f: seq<Desc>, k: nat, a: bool)
    requires k < |f|
    ensures TypeOf(f[k]) == CONFIGURATION ==> Find(f, k, CONFIGURATION, a) == k
    ensures TypeOf(f[k]) != CONFIGURATION ==> Find(f, k, CONFIGURATION, a) == Find(f, Step(f, k, a), CONFIGURATION, a)
  {
  }

  // Counting up to a sentinel.
  lemma {:induction false} CountIs(f: seq<Desc>, k: nat, m: nat)
    requires k < m < |f| && StopsAt(f[m]) && forall j :: k < j < m ==> !StopsAt(f[j])
    ensures CountFrom(f, k, CONFIGURATION, true) == Configs(f[k..m])
    decreases m - k
  {
    hide StopsAt, Find, Configs;
    FindHere(f, k, true);
    DescWalk.CountStep(f, k, CONFIGURATION, true);
    assert f[k..m] == [f[k]] + f[k + 1..m];
    ConfigsCons(f[k], f[k + 1..m]);
    if k + 1 < m {
      CountIs(f, k + 1, m);
      DescWalk.CountStep(f, k + 1, CONFIGURATION, true);
    } else {
      assert f[k + 1..m] == [];
      ConfigsNone();
      NothingFrom(f);
    }
  }

  lemma ConfigsCons(d: Desc, rest: seq<Desc>)
    ensures Configs([d] + rest) == (if TypeOf(d) == CONFIGURATION then 1 else 0) + Configs(rest)
  {
    assert ([d] + rest)[1..] == rest;
  }

  lemma ConfigsNone()
    ensures Configs([]) == 0
  {
  }

  lemma NothingFrom(f: seq<Desc>)
    requires f != []
    ensures Find(f, -1, CONFIGURATION, true) == -1 && CountFrom(f, -1, CONFIGURATION, true) == 0
  {
  }

  // The table's entries are the positions.
  lemma {:induction false} TableIs(f: seq<Desc>, k: nat, m: nat)
    requires k <= m < |f|
    ensures TableFrom(f, k, Configs(f[k..m])) == Positions(f, k, m)
    decreases m - k
  {
    hide Find, Configs;
    FindHere(f, k, false);
    if k < m {
      assert f[k..m] == [f[k]] + f[k + 1..m];
      ConfigsCons(f[k], f[k + 1..m]);
      TableIs(f, k + 1, m);
      if TypeOf(f[k]) != CONFIGURATION {
        TableSkips(f, k, Configs(f[k..m]));
      }
    } else {
      assert f[k..m] == [];
      ConfigsNone();
    }
  }

  lemma TableSkips(f: seq<Desc>, k: nat, n: nat)
    requires k + 1 < |f| && TypeOf(f[k]) != CONFIGURATION
    ensures TableFrom(f, k, n) == TableFrom(f, k + 1, n)
  {
    FindHere(f, k, false);
  }

  // ---- sections of a well-formed list -----------------------------------------------------------------

  // A section ends at a sentinel or at the end of the list, and has configurations.
  lemma {:induction false} SectionMode(b: seq<Desc>, x: nat, j: nat)
    requires x < j <= |b| && TypeOf(b[x]) == DEVICE && !ModeAt(b, j).Bad? && forall k :: x < k < j ==> !Ends(b[k], 0)
    ensures var m := ModeAt(b, j); m.NeedConfig? || m.NeedInterface? || m.InInterface?
    ensures ModeAt(b, j).NeedConfig? <==> Configs(b[x + 1..j]) == 0
    decreases j - x
  {
    hide Configs;
    ModeStep(b, j - 1);
    if j == x + 1 {
      assert b[x + 1..j] == [];
      ConfigsNone();
    } else {
      SectionMode(b, x, j - 1);
      assert !Ends(b[j - 1], 0);
      assert b[x + 1..j] == b[x + 1..j - 1] + [b[j - 1]];
      CountsSnoc(b[x + 1..j - 1], b[j - 1]);
      hide ModeAt;
    }
  }

  lemma SectionEnds(b: seq<Desc>, x: nat)
    requires WellFormed(b) && x < |b| && TypeOf(b[x]) == DEVICE
    ensures var e := RunEnd(b, x, 0);
            && x < e <= |b| && (e < |b| ==> TypeOf(b[e]) == SENTINEL)
            && Configs(Run(b[x + 1..], 0)) >= 1
  {
    hide Run, Configs, AllProper;
    RunEndIs(b, x, 0);
    var e := RunEnd(b, x, 0);
    BadStays(b, e, |b|);
    SectionMode(b, x, e);
    if e < |b| {
      BadStays(b, e + 1, |b|);
      ModeStep(b, e);
      NoString(b, e);
    }
  }

  // The first descriptor from k on at which a counting walk stops.
  function StopFrom(f: seq<Desc>, k: nat): (m: nat)
    requires k <= |f|
    ensures k <= m <= |f| && (m < |f| ==> StopsAt(f[m])) && forall j :: k <= j < m ==> !StopsAt(f[j])
    decreases |f| - k
  {
    if k == |f| || StopsAt(f[k]) then k else StopFrom(f, k + 1)
  }

  // As far as the walk from the device at x sees its section.
  function SeenTo(f: seq<Desc>, x: nat): (m: nat)
    requires x < |f|
    ensures x < m <= RunEnd(f, x, 0)
  {
    if StopFrom(f, x + 1) < RunEnd(f, x, 0) then StopFrom(f, x + 1) else RunEnd(f, x, 0)
  }

  // The walkers count and list the configurations as far as they see.
  lemma SectionTable(ds: seq<Desc>, strs: seq<Str>, b: seq<Desc>, x: nat)
    requires WellFormed(ds) && WellFormed(b) && Compiled(ds, strs) == b + StringSection(strs) + [TAIL]
    requires x < |b| && TypeOf(b[x]) == DEVICE
    ensures var f := Compiled(ds, strs);
            var e := RunEnd(f, x, 0);
            && e < |f| && Configs(f[x + 1..e]) >= 1 && Run(f[x + 1..], 0) == f[x + 1..e]
            && CountFrom(f, x, CONFIGURATION, true) == Configs(f[x + 1..SeenTo(f, x)])
            && TableFrom(f, x, Configs(f[x + 1..SeenTo(f, x)])) == Positions(f, x + 1, SeenTo(f, x))
  {
    hide Run, Configs, ModeAt, AllProper, Compiled, CountFrom, Find, StringSection, StopsAt, StopFrom, RunEnd;
    var f, y := Compiled(ds, strs), StringSection(strs) + [TAIL];
    assert f == b + y;
    assert y != [] && forall i :: 0 <= i < |y| ==> IsEnd(y[i]) by { TailIsEnd(strs); }
    AppendRuns(b, y, x + 1, 0);
    SameEnd(f, b, x);
    SectionEnds(b, x);
    RunEndIs(f, x, 0);
    RunEndIs(b, x, 0);
    var e, m := RunEnd(f, x, 0), StopFrom(f, x + 1);
    assert f[x + 1..e] == b[x + 1..e];
    assert StopsAt(f[|f| - 1]) by { assert f[|f| - 1] == TAIL; Sentinels(TAIL); }
    assert m < |f|;
    assert e < |b| ==> m <= e by { if e < |b| { assert f[e] == b[e]; Sentinels(f[e]); } }
    forall j | e <= j < m ensures TypeOf(f[j]) == STRING {
      AfterSection(b, strs, f, e, j);
    }
    CountIs(f, x, m);
    TableIs(f, x, SeenTo(f, x));
    DeviceFirst(f, x, SeenTo(f, x), m);
  }

  lemma SameEnd(f: seq<Desc>, b: seq<Desc>, x: nat)
    requires x < |b| && x < |f| && Run(f[x + 1..], 0) == Run(b[x + 1..], 0)
    ensures RunEnd(f, x, 0) == RunEnd(b, x, 0)
  {
    hide Run;
  }

  lemma TailIsEnd(strs: seq<Str>)
    ensures var y := StringSection(strs) + [TAIL]; y != [] && forall i :: 0 <= i < |y| ==> IsEnd(y[i])
  {
    StringsEnd(strs);
  }

  lemma Sentinels(d: Desc)
    ensures TypeOf(d) == SENTINEL ==> StopsAt(d)
    ensures TypeOf(d) == STRING ==> !StopsAt(d)
    ensures TypeOf(TAIL) == SENTINEL
  {
  }

  lemma AfterSection(b: seq<Desc>, strs: seq<Str>, f: seq<Desc>, e: nat, j: nat)
    requires f == b + StringSection(strs) + [TAIL] && e == |b| <= j < |f| - 1
    ensures TypeOf(f[j]) == STRING
  {
    hide StringSection;
    assert f[j] == StringSection(strs)[j - |b|];
    StringTypes(strs, j - |b|);
  }

  // The device itself and what lies behind the run are no configurations.
  lemma DeviceFirst(f: seq<Desc>, x: nat, e: nat, m: nat)
    requires x < e <= m < |f| && TypeOf(f[x]) == DEVICE && forall j :: e <= j < m ==> TypeOf(f[j]) == STRING
    ensures Configs(f[x..m]) == Configs(f[x..e]) == Configs(f[x + 1..e])
    ensures Positions(f, x, e) == Positions(f, x + 1, e)
  {
    hide Configs;
    assert f[x..e] == [f[x]] + f[x + 1..e];
    ConfigsCons(f[x], f[x + 1..e]);
    ConfigsStop(f, x, e, m);
  }

  lemma {:induction false} ConfigsStop(f: seq<Desc>, x: nat, e: nat, m: nat)
    requires x <= e <= m <= |f| && forall j :: e <= j < m ==> TypeOf(f[j]) == STRING
    ensures Configs(f[x..m]) == Configs(f[x..e])
    decreases m
  {
    hide Configs;
    if e < m {
      ConfigsStop(f, x, e, m - 1);
      assert f[x..m] == f[x..m - 1] + [f[m - 1]];
      CountsSnoc(f[x..m - 1], f[m - 1]);
    }
  }

  // ---- devices ---------------------------------------------------------------------------------------------

  lemma {:induction false} DevicesAll(ds: seq<Desc>, j: nat, k: nat)
    requires k < j <= |ds|
    ensures k in Devices(ds, j) <==> TypeOf(ds[k]) == DEVICE
  {
    if k < j - 1 {
      DevicesAll(ds, j - 1, k);
    } else {
      DevicesAre(ds, j - 1);
    }
  }

  lemma {:induction false} FormedStarts(b: seq<Desc>, n: nat)
    requires 0 < n <= |b| && !ModeAt(b, n).Bad?
    ensures TypeOf(b[0]) == DEVICE
  {
    if n > 1 {
      FormedStarts(b, n - 1);
    }
  }

  // The first device, and the one that follows it.
  lemma FirstDevices(ds: seq<Desc>)
    requires WellFormed(ds)
    ensures var devs := Devices(ds, |ds|);
            && devs != [] && devs[0] == 0 && TypeOf(ds[0]) == DEVICE
            && (|devs| >= 2 ==>
                  0 < devs[1] < |ds| && TypeOf(ds[devs[1]]) == DEVICE
                  && forall k :: 0 < k < devs[1] ==> TypeOf(ds[k]) != DEVICE)
            && (|devs| < 2 ==> forall k :: 0 < k < |ds| ==> TypeOf(ds[k]) != DEVICE)
  {
    hide ModeAt, AllProper;
    assert ds != [] by { NotEmpty(ds); }
    FormedStarts(ds, |ds|);
    DevicesAre(ds, |ds|);
    DevicesAll(ds, |ds|, 0);
    forall k | 0 <= k < |ds| ensures k in Devices(ds, |ds|) <==> TypeOf(ds[k]) == DEVICE {
      DevicesAll(ds, |ds|, k);
    }
    hide Devices;
  }

  lemma NotEmpty(ds: seq<Desc>)
    requires WellFormed(ds)
    ensures ds != []
  {
  }

  // The walker finds the device of the chosen speed.
  lemma DeviceFound(ds: seq<Desc>, strs: seq<Str>, hs: bool)
    requires WellFormed(ds)
    ensures var f, devs, g := Compiled(ds, strs), Devices(ds, |ds|), FilledList(ds);
            && f != [] && devs != [] && devs[0] == 0
            && if hs && |devs| < 2 then DeviceAt(f, hs) == -1
               else
                 var i := if hs then 1 else 0;
                 var x := devs[i] + i;
                 devs[i] < |g| && DeviceAt(f, hs) == x && x < |f| - 1 && f[x] == g[devs[i]] && TypeOf(f[x]) == DEVICE
  {
    hide ModeAt, AllProper, Filled, Find, StringSection, AreDevices, Qualified, IsFirstSetting;
    FirstDevices(ds);
    var b := CompiledParts(ds, strs);
    var f, devs, g := Compiled(ds, strs), Devices(ds, |ds|), FilledList(ds);
    hide Compiled, Devices;
    assert f == b + StringSection(strs) + [TAIL];
    FilledAlike(ds);
    assert forall k :: 0 <= k < |ds| ==> TypeOf(g[k]) == TypeOf(ds[k]);
    hide FilledList, Alike;
    FirstOf(g, devs, b, f, strs);
    if hs {
      SecondOf(g, devs, b, f, strs);
    }
  }

  // The list with its qualifiers, between devices.
  predicate Finds(g: seq<Desc>, devs: seq<nat>, b: seq<Desc>, f: seq<Desc>, strs: seq<Str>) {
    && g != [] && AllProper(g) && AreDevices(g, devs)
    && b == Qualified(g, devs) && f == b + StringSection(strs) + [TAIL]
    && devs != [] && devs[0] == 0
    && (if |devs| >= 2 then forall k :: 0 < k < devs[1] ==> TypeOf(g[k]) != DEVICE
        else forall k :: 0 < k < |g| ==> TypeOf(g[k]) != DEVICE)
  }

  lemma FirstOf(g: seq<Desc>, devs: seq<nat>, b: seq<Desc>, f: seq<Desc>, strs: seq<Str>)
    requires Finds(g, devs, b, f, strs)
    ensures f != [] && DeviceAt(f, false) == 0 && 0 < |f| - 1 && f[0] == g[0] && TypeOf(f[0]) == DEVICE
  {
    hide AllProper, Find, StringSection;
    assert b[0] == g[0] && f[0] == b[0];
    FindSkips(f, 0, 0, DEVICE);
  }

  lemma SecondOf(g: seq<Desc>, devs: seq<nat>, b: seq<Desc>, f: seq<Desc>, strs: seq<Str>)
    requires Finds(g, devs, b, f, strs)
    ensures f != []
    ensures if |devs| < 2 then DeviceAt(f, true) == -1
            else devs[1] + 1 < |f| - 1 && DeviceAt(f, true) == devs[1] + 1
                 && f[devs[1] + 1] == g[devs[1]] && TypeOf(g[devs[1]]) == DEVICE
  {
    hide AllProper, Find, StringSection;
    FirstOf(g, devs, b, f, strs);
    FindSkips(f, 0, 0, DEVICE);
    if |devs| >= 2 {
      var h := devs[1];
      ProperAt(g, 0);
      ProperAt(g, h);
      BetweenDevices(g, h, b, devs);
      assert f[h + 1] == b[h + 1];
      forall j | 1 <= j < h + 1 ensures TypeOf(f[j]) != DEVICE {
        assert f[j] == b[j];
      }
      FindSkips(f, 1, h + 1, DEVICE);
    } else {
      forall j | 1 <= j < |f| ensures TypeOf(f[j]) != DEVICE {
        NoMoreDevices(g, strs, f, j);
      }
      FindNone(f, 1, DEVICE);
    }
  }

  lemma BetweenDevices(g: seq<Desc>, h: nat, b: seq<Desc>, devs: seq<nat>)
    requires AllProper(g) && AreDevices(g, devs) && |devs| >= 2 && devs[0] == 0 && devs[1] == h
      && b == Qualified(g, devs)
    requires forall k :: 0 < k < h ==> TypeOf(g[k]) != DEVICE
    ensures h + 1 < |b| && b[h + 1] == g[h] && forall j :: 1 <= j < h + 1 ==> TypeOf(b[j]) != DEVICE
  {
    ProperAt(g, 0);
    ProperAt(g, h);
    hide AllProper;
    var q := Qualifier(g[h]);
    assert b == g[..1] + [q] + g[1..h + 1] + [Qualifier(g[0])] + g[h + 1..];
    assert b[1] == q;
    assert forall j :: 2 <= j < h + 2 ==> b[j] == g[j - 1];
  }

  lemma NoMoreDevices(g: seq<Desc>, strs: seq<Str>, f: seq<Desc>, j: nat)
    requires f == g + StringSection(strs) + [TAIL] && 1 <= j < |f| && forall k :: 0 < k < |g| ==> TypeOf(g[k]) != DEVICE
    ensures TypeOf(f[j]) != DEVICE
  {
    hide StringSection;
    if |g| <= j < |f| - 1 {
      assert f[j] == StringSection(strs)[j - |g|];
      StringTypes(strs, j - |g|);
    }
  }

  // ---- numbers of configurations ------------------------------------------------------------------------------

  lemma {:induction false} NumberIs(f: seq<Desc>, x: nat, j: nat)
    requires x < j <= |f| && TypeOf(f[x]) == DEVICE && forall k :: x < k < j ==> TypeOf(f[k]) != DEVICE
    ensures Number(f, j) == Configs(f[x + 1..j])
    decreases j
  {
    hide Configs;
    if j == x + 1 {
      assert f[x + 1..j] == [];
      ConfigsNone();
    } else {
      NumberIs(f, x, j - 1);
      assert f[x + 1..j] == f[x + 1..j - 1] + [f[j - 1]];
      CountsSnoc(f[x + 1..j - 1], f[j - 1]);
    }
  }

  lemma {:induction false} PositionCount(f: seq<Desc>, a: nat, b: nat, i: nat)
    requires a <= b <= |f| && i < |Positions(f, a, b)|
    ensures a <= Positions(f, a, b)[i] < b && Configs(f[a..Positions(f, a, b)[i] + 1]) == i + 1
    decreases b - a
  {
    hide Configs;
    PositionsAre(f, a, b);
    var p := Positions(f, a, b)[i];
    assert f[a..p + 1] == [f[a]] + f[a + 1..p + 1];
    ConfigsCons(f[a], f[a + 1..p + 1]);
    ConfigsNone();
    if TypeOf(f[a]) != CONFIGURATION {
      PositionCount(f, a + 1, b, i);
    } else if i > 0 {
      PositionCount(f, a + 1, b, i - 1);
    } else {
      assert f[a + 1..p + 1] == [];
    }
  }

  // The configurations of the device at x, in order.
  function ConfigsAt(f: seq<Desc>, x: nat): seq<int>
    requires x < |f|
  {
    Positions(f, x + 1, RunEnd(f, x, 0))
  }

  // The device states their number, at least one, and each states its place among them.
  predicate NumbersConfigs(f: seq<Desc>, x: nat)
    requires x < |f|
  {
    var ps := ConfigsAt(f, x);
    && |ps| >= 1 && |f[x]| == 18 && f[x][17] == |ps| % 256
    && (forall i :: 0 <= i < |ps| ==> x < ps[i] < RunEnd(f, x, 0) && |f[ps[i]]| == 9 && f[ps[i]][5] == (i + 1) % 256)
  }

  // Those of them that the counting walk sees.
  function SeenConfigs(f: seq<Desc>, x: nat): seq<int>
    requires x < |f|
  {
    Positions(f, x + 1, SeenTo(f, x))
  }

  // What the walkers find for the device: its configurations as far as they see.
  predicate ListsSeen(f: seq<Desc>, x: nat)
    requires x < |f|
  {
    && CountFrom(f, x, CONFIGURATION, true) == |SeenConfigs(f, x)|
    && TableFrom(f, x, |SeenConfigs(f, x)|) == SeenConfigs(f, x)
  }

  // No type with its top bit set stands before a configuration of the device.
  predicate ClearView(f: seq<Desc>, x: nat)
    requires x < |f|
  {
    forall j, k :: x < j < k < RunEnd(f, x, 0) && StopsAt(f[j]) ==> TypeOf(f[k]) != CONFIGURATION
  }

  // The device of the chosen speed states the number of its configurations, and they
  // their places.  The table for that speed holds the device, and then its
  // configurations in order as far as the walk sees; it holds all of them, and no
  // others, if and only if no type with its top bit set stands before the last.
  lemma ConfigTable(ds: seq<Desc>, strs: seq<Str>, hs: bool)
    requires WellFormed(ds) && (hs ==> |Devices(ds, |ds|)| >= 2)
    ensures Compiled(ds, strs) != []
    ensures var f, x := Compiled(ds, strs), DeviceAt(Compiled(ds, strs), hs);
            && 0 <= x && TypeOf(f[x]) == DEVICE && NumbersConfigs(f, x) && ListsSeen(f, x)
            && RunEnd(f, x, 0) < |f| && Ends(f[RunEnd(f, x, 0)], 0)
            && (TableFrom(f, x, CountFrom(f, x, CONFIGURATION, true)) == ConfigsAt(f, x) <==> ClearView(f, x))
  {
    hide ModeAt, AllProper, Qualified, FilledList, Devices, Run, Find, StringSection, Ends, DeviceAt, AreDevices,
      NumbersConfigs, AllRight, RunEnd, SeenTo, Positions, ClearView, CountFrom, TableFrom, Configs;
    DeviceFound(ds, strs, hs);
    CompiledRight(ds, strs);
    var b := CompiledParts(ds, strs);
    var f := Compiled(ds, strs);
    var x := DeviceAt(f, hs);
    assert f == b + (StringSection(strs) + [TAIL]);
    hide Compiled;
    DeviceInside(b, strs, f, x);
    assert f[x] == b[x];
    SectionTable(ds, strs, b, x);
    RunEndIs(f, x, 0);
    Numbers(f, x);
    PositionsAre(f, x + 1, SeenTo(f, x));
    SeesAll(f, x);
  }

  lemma {:induction false} PositionsSplit(f: seq<Desc>, a: nat, b: nat, c: nat)
    requires a <= b <= c <= |f|
    ensures Positions(f, a, c) == Positions(f, a, b) + Positions(f, b, c)
    decreases b - a
  {
    if a < b {
      PositionsSplit(f, a + 1, b, c);
    }
  }

  lemma SeesAll(f: seq<Desc>, x: nat)
    requires x < |f|
    ensures SeenConfigs(f, x) == ConfigsAt(f, x) <==> ClearView(f, x)
  {
    hide RunEnd, Positions, StopFrom;
    var m, e := SeenTo(f, x), RunEnd(f, x, 0);
    PositionsSplit(f, x + 1, m, e);
    PositionsAre(f, m, e);
    var rest := Positions(f, m, e);
    assert SeenConfigs(f, x) == ConfigsAt(f, x) <==> rest == [];
    if rest == [] {
      forall j, k | x < j < k < e && StopsAt(f[j]) ensures TypeOf(f[k]) != CONFIGURATION {
        assert j >= m;
        assert TypeOf(f[k]) == CONFIGURATION ==> k in rest;
      }
    } else {
      var k := rest[0];
      assert m < e && StopsAt(f[m]) && TypeOf(f[k]) == CONFIGURATION && TypeOf(f[m]) != CONFIGURATION;
      assert x < m < k < e;
    }
  }

  // Such a list: the second configuration of its device stands behind a descriptor of
  // type 0x80, and is missing from the table.
  const HIDING: seq<Desc> :=
    [NEW_DEVICE, [9, CONFIGURATION, 0, 0, 0, 0, 0, 0, 0], [9, INTERFACE, 0, 0, 0, 0, 0, 0, 0], [2, 0x80],
     [9, CONFIGURATION, 0, 0, 0, 0, 0, 0, 0], [9, INTERFACE, 0, 0, 0, 0, 0, 0, 0]]

  lemma HighTypeHidesConfig()
    ensures WellFormed(HIDING)
    ensures var f := Compiled(HIDING, []);
            f != [] && DeviceAt(f, false) == 0
            && TableFrom(f, 0, CountFrom(f, 0, CONFIGURATION, true)) != ConfigsAt(f, 0)
  {
    hide FilledList, Qualified, Devices, AreDevices, Find, DeviceAt, CountFrom, TableFrom, NumbersConfigs, ListsSeen,
      ConfigsAt, SeenConfigs, AllProper, ModeAt, RunEnd, Compiled;
    HidingFormed();
    DeviceFound(HIDING, [], false);
    ConfigTable(HIDING, [], false);
    var f := Compiled(HIDING, []);
    HidingTypes();
    RunEndIs(f, 0, 0);
    assert !Ends(f[1], 0) && !Ends(f[2], 0) && !Ends(f[3], 0) && !Ends(f[4], 0) && StopsAt(f[3]);
    assert !ClearView(f, 0);
  }

  lemma HidingFormed()
    ensures WellFormed(HIDING)
  {
    assert forall k :: 0 <= k < 6 ==> Proper(HIDING[k]);
    hide AllProper;
    var ds := HIDING;
    assert ModeAt(ds, 0).NeedDevice?;
    ModeStep(ds, 0);
    ModeStep(ds, 1);
    ModeStep(ds, 2);
    ModeStep(ds, 3);
    ModeStep(ds, 4);
    ModeStep(ds, 5);
  }

  lemma HidingTypes()
    requires WellFormed(HIDING)
    ensures |Compiled(HIDING, [])| >= 6
    ensures forall k :: 0 <= k < 6 ==> TypeOf(Compiled(HIDING, [])[k]) == TypeOf(HIDING[k])
  {
    hide ModeAt, AllProper, Filled, AreDevices, FilledList, Compiled, Devices, WellFormed;
    var b := CompiledParts(HIDING, []);
    var devs := Devices(HIDING, 6);
    assert |devs| < 2 by { OneDevice(); }
    WellFormedProper(HIDING);
    assert b == FilledList(HIDING);
    FilledAlike(HIDING);
  }

  lemma OneDevice()
    ensures Devices(HIDING, 6) == [0]
  {
    var ds := HIDING;
    assert Devices(ds, 0) == [];
    assert Devices(ds, 1) == Devices(ds, 0) + [0];
    assert Devices(ds, 2) == Devices(ds, 1) + [];
    assert Devices(ds, 3) == Devices(ds, 2) + [];
    assert Devices(ds, 4) == Devices(ds, 3) + [];
    assert Devices(ds, 5) == Devices(ds, 4) + [];
  }

  lemma Numbers(f: seq<Desc>, x: nat)
    requires AllRight(f) && x < |f| && TypeOf(f[x]) == DEVICE
    requires var e := RunEnd(f, x, 0);
             && (forall k :: x < k < e ==> !Ends(f[k], 0)) && Run(f[x + 1..], 0) == f[x + 1..e]
             && Configs(f[x + 1..e]) >= 1
    ensures NumbersConfigs(f, x)
  {
    hide Configs, Run, Positions, TableFrom, CountFrom, RunEnd, Ends, Get16, Number;
    var e := RunEnd(f, x, 0);
    PositionsAre(f, x + 1, e);
    assert Right(f, x);
    hide AllRight, Right;
    forall i | 0 <= i < |ConfigsAt(f, x)|
      ensures var p := ConfigsAt(f, x)[i]; x < p < e && |f[p]| == 9 && f[p][5] == (i + 1) % 256
    {
      ConfigNumber(f, x, e, i);
    }
  }

  lemma DeviceInside(b: seq<Desc>, strs: seq<Str>, f: seq<Desc>, x: nat)
    requires f == b + (StringSection(strs) + [TAIL]) && x < |f| && TypeOf(f[x]) == DEVICE
    ensures x < |b|
  {
    TailIsEnd(strs);
    forall i | |b| <= i < |f| ensures TypeOf(f[i]) != DEVICE {
      assert f[i] == (StringSection(strs) + [TAIL])[i - |b|];
    }
  }

  lemma ConfigNumber(f: seq<Desc>, x: nat, e: nat, i: nat)
    requires AllRight(f) && x < e <= |f| && TypeOf(f[x]) == DEVICE && forall k :: x < k < e ==> !Ends(f[k], 0)
    requires i < |Positions(f, x + 1, e)|
    ensures var p := Positions(f, x + 1, e)[i]; x < p < e && |f[p]| == 9 && f[p][5] == (i + 1) % 256
  {
    hide Configs, Run, Get16, Number;
    PositionsAre(f, x + 1, e);
    PositionCount(f, x + 1, e, i);
    var p: nat := Positions(f, x + 1, e)[i];
    assert forall k :: x < k < p + 1 ==> !Ends(f[k], 0) && TypeOf(f[k]) != DEVICE;
    NumberIs(f, x, p + 1);
    assert Right(f, p);
  }

  // ---- the whole way ------------------------------------------------------------------------------------------

  lemma CompiledSized(ds: seq<Desc>, strs: seq<Str>)
    requires WellFormed(ds) && forall i :: 0 <= i < |strs| ==> |strs[i]| <= 253
    ensures Sized(Compiled(ds, strs))
  {
    hide ModeAt, StringSection, FilledList, Qualified, Devices, AreDevices;
    var b := CompiledParts(ds, strs);
    var f, s := Compiled(ds, strs), StringSection(strs);
    assert f == b + s + [TAIL];
    hide Compiled;
    forall k | 0 <= k < |f| ensures |f[k]| < 256 && f[k][0] == |f[k]| {
      if k < |b| {
        assert f[k] == b[k] && Proper(b[k]);
      } else if k < |f| - 1 {
        assert f[k] == s[k - |b|];
        SectionIs(strs);
      }
    }
  }

  // The offsets of the device at x and of the configurations the walk sees.
  function TableAtDevice(f: seq<Desc>, x: nat): seq<int>
    requires x < |f|
  {
    PositionsAre(f, x + 1, SeenTo(f, x));
    [Off(f, x)] + Locs(f, SeenConfigs(f, x))
  }

  // The bytes of a string stand at an offset of the table.
  predicate StringStands(d: seq<Byte>, at: int, s: Str) {
    0 <= at && at + 2 + |s| <= |d| && d[at..at + 2 + |s|] == StringDesc(s)
  }

  // Wraps a context up, emits its bytes and has them walked: the configuration table of
  // a speed, which fails when no configuration is seen, and the place of a string.
  method CompileAndWalk(c: Usb2DescContext, hs: bool, n: int) returns (d: seq<Byte>, ok: bool, tbl: seq<int>, at: int)
    requires c.Valid() && !c.wrapped && WellFormed(c.descs) && (hs ==> |Devices(c.descs, |c.descs|)| >= 2)
    requires forall i :: 0 <= i < |c.strtbl| ==> |c.strtbl[i]| <= 253
    modifies c`descs, c`wrapped
    ensures c.wrapped && AllProper(old(c.descs)) && c.descs == Compiled(old(c.descs), c.strtbl) && d == Flat(c.descs)
    ensures c.descs != [] && DeviceAt(c.descs, hs) >= 0
    ensures var x := DeviceAt(c.descs, hs);
            (ok <==> SeenConfigs(c.descs, x) != []) && (ok ==> tbl == TableAtDevice(c.descs, x))
            && (ClearView(c.descs, x) ==> ok && SeenConfigs(c.descs, x) == ConfigsAt(c.descs, x))
    ensures 1 <= n <= |c.strtbl| ==> StringStands(d, at, c.strtbl[n - 1])
    ensures n < 0 || n > |c.strtbl| || c.strtbl == [] ==> at == -1
  {
    hide WellFormed, Compilable, Compiled, Flat, Off, Sized, Find, Devices, TableFrom, CountFrom, DeviceAt, NthString,
      Positions, Run,
      StringStands, TableAtDevice, RunEnd, Ends, StringDesc, TableLocs, SeenConfigs, ClearView, SeenTo;
    ghost var ds := c.descs;
    WellFormedProper(ds);
    ok := c.Wrapup();
    ghost var f := c.descs;
    CompiledSized(ds, c.strtbl);
    ConfigTable(ds, c.strtbl, hs);
    StringFound(ds, c.strtbl, n);
    d := Emit(c.descs);
    ok, tbl := GetConfigIdxTbl(d, hs, f);
    SameTable(f, DeviceAt(f, hs));
    SeesAll(f, DeviceAt(f, hs));
    at := NthStringDescriptor(d, n, f);
    ghost var r := NthString(f, n);
    if 1 <= n <= |c.strtbl| {
      StandsThere(f, r, c.strtbl[n - 1]);
    }
  }

  lemma SameTable(f: seq<Desc>, x: nat)
    requires x < |f| && ListsSeen(f, x)
    ensures [Loc(f, x)] + TableLocs(f, x, CountFrom(f, x, CONFIGURATION, true)) == TableAtDevice(f, x)
  {
    hide Positions, TableFrom, CountFrom, Off, RunEnd, SeenTo;
  }

  lemma StandsThere(f: seq<Desc>, r: nat, s: Str)
    requires r < |f| && f[r] == StringDesc(s)
    ensures StringStands(Flat(f), Loc(f, r), s)
  {
    hide Flat, Off;
    FlatAt(f, r);
  }

  lemma WellFormedProper(ds: seq<Desc>)
    requires WellFormed(ds)
    ensures AllProper(ds) && Compilable(ds)
  {
  }
}
