// The finished descriptor table, byte by byte: each qualifier describes the device of the
// other speed, and each string descriptor carries its string.
module DescBytes {
  import opened Bytes
  import opened DescCompiler
  import opened DescProof
  import opened DescContext
  import opened DescWalk
  import opened DescTheorems

  // What a device of the other speed says about itself: version, class, subclass,
  // protocol, packet size, the number of its configurations, and a reserved zero.
  predicate Describes(q: Desc, other: Desc) {
    && |q| == 10 && |other| == 18 && q[0] == 10 && q[1] == 6
    && q[2] == other[2] && q[3] == other[3] && q[4] == other[4] && q[5] == other[5]
    && q[6] == other[6] && q[7] == other[7] && q[8] == other[17] && q[9] == 0
  }

  lemma QualifierDescribes(d: Desc)
    requires |d| == 18
    ensures Describes(Qualifier(d), d)
  {
  }

  // The places of the two devices and of what follows them.
  lemma QualifiedAt(g: seq<Desc>, devs: seq<nat>)
    requires AllProper(g) && AreDevices(g, devs) && |devs| >= 2 && devs[0] == 0
    ensures var b, h := Qualified(g, devs), devs[1];
            && |b| == |g| + 2 && 0 < h < |g| && |g[0]| == 18 && |g[h]| == 18
            && b[0] == g[0] && b[1] == Qualifier(g[h]) && b[h + 1] == g[h] && b[h + 2] == Qualifier(g[0])
  {
    ProperAt(g, 0);
    ProperAt(g, devs[1]);
    hide AllProper, Qualifier;
    var b, h := Qualified(g, devs), devs[1];
    assert b == g[..1] + [Qualifier(g[h])] + g[1..h + 1] + [Qualifier(g[0])] + g[h + 1..];
  }

  // In the table of a device with two speeds the descriptor after each device describes the
  // other one; its count of configurations is the number of those found there.
  lemma QualifiersCrossed(ds: seq<Desc>, strs: seq<Str>)
    requires WellFormed(ds) && |Devices(ds, |ds|)| >= 2
    ensures Compiled(ds, strs) != []
    ensures var f := Compiled(ds, strs); var x, y := DeviceAt(f, false), DeviceAt(f, true);
            && 0 <= x && x + 1 < y && y + 1 < |f| && TypeOf(f[x]) == DEVICE && TypeOf(f[y]) == DEVICE
            && Describes(f[x + 1], f[y]) && Describes(f[y + 1], f[x])
            && f[x + 1][8] == |ConfigsAt(f, y)| % 256 && f[y + 1][8] == |ConfigsAt(f, x)| % 256
  {
    hide ModeAt, AllProper, FilledList, Devices, StringSection, AreDevices, Compiled, DeviceAt, Qualified, Describes,
      Qualifier, WellFormed, ConfigsAt, ListsSeen, ClearView, RunEnd, TableFrom, CountFrom, Ends;
    WellFormedProper(ds);
    DeviceFound(ds, strs, false);
    DeviceFound(ds, strs, true);
    ConfigTable(ds, strs, false);
    ConfigTable(ds, strs, true);
    var b := CompiledParts(ds, strs);
    var f, g, devs := Compiled(ds, strs), FilledList(ds), Devices(ds, |ds|);
    QualifiedAt(g, devs);
    InFront(f, b, strs, 1);
    InFront(f, b, strs, devs[1] + 2);
    QualifierDescribes(g[0]);
    QualifierDescribes(g[devs[1]]);
    DescribesCount(f[1], f[devs[1] + 1]);
    DescribesCount(f[devs[1] + 2], f[0]);
  }

  lemma DescribesCount(q: Desc, other: Desc)
    requires Describes(q, other)
    ensures |q| == 10 && |other| == 18 && q[8] == other[17]
  {
  }

  lemma InFront(f: seq<Desc>, b: seq<Desc>, strs: seq<Str>, k: nat)
    requires f == b + StringSection(strs) + [TAIL] && k < |b|
    ensures k < |f| && f[k] == b[k]
  {
    hide StringSection;
  }

  lemma FlatByte(f: seq<Desc>, k: nat, i: nat)
    requires k < |f| && i < |f[k]|
    ensures Off(f, k) + i < |Flat(f)| && Flat(f)[Off(f, k) + i] == f[k][i]
  {
    FlatAt(f, k);
    hide Flat, Off;
    assert Flat(f)[Off(f, k)..Off(f, k) + |f[k]|][i] == Flat(f)[Off(f, k) + i];
  }

  // Byte i of the qualifier behind the device at x, in the table, is byte j of the device at y.
  lemma QualifierByte(f: seq<Desc>, x: nat, y: nat, i: nat, j: nat)
    requires x + 1 < |f| && y < |f| && |f[x]| == 18 && |f[y]| == 18 && |f[x + 1]| == 10 && i < 10 && j < 18
    requires f[x + 1][i] == f[y][j]
    ensures var d, p, q := Flat(f), Off(f, x), Off(f, y);
            p + 28 <= |d| && q + 18 <= |d| && d[p + 18 + i] == d[q + j]
  {
    assert Off(f, x + 1) == Off(f, x) + 18;
    hide Flat, Off;
    FlatByte(f, x + 1, i);
    FlatByte(f, x + 1, 9);
    FlatByte(f, y, j);
    FlatByte(f, y, 17);
  }

  // The same on the bytes of the table, p and q being the offsets of the two devices.
  lemma QualifierBytes(f: seq<Desc>, x: nat, y: nat)
    requires x + 1 < |f| && y < |f| && |f[x]| == 18 && Describes(f[x + 1], f[y])
    ensures var d, p, q := Flat(f), Off(f, x), Off(f, y);
            && p + 28 <= |d| && q + 18 <= |d| && d[p + 18] == 10 && d[p + 19] == 6
            && d[p + 20] == d[q + 2] && d[p + 21] == d[q + 3] && d[p + 22] == d[q + 4]
            && d[p + 23] == d[q + 5] && d[p + 24] == d[q + 6] && d[p + 25] == d[q + 7]
            && d[p + 26] == d[q + 17] && d[p + 27] == 0
  {
    assert Off(f, x + 1) == Off(f, x) + 18;
    hide Flat, Off;
    FlatByte(f, x + 1, 0);
    FlatByte(f, x + 1, 1);
    FlatByte(f, x + 1, 9);
    QualifierByte(f, x, y, 8, 17);
    QualifierByte(f, x, y, 2, 2);
    QualifierByte(f, x, y, 3, 3);
    QualifierByte(f, x, y, 4, 4);
    QualifierByte(f, x, y, 5, 5);
    QualifierByte(f, x, y, 6, 6);
    QualifierByte(f, x, y, 7, 7);
  }

  // The types in plain numbers.
  lemma TypeNumbers(d: Desc)
    ensures Ends(d, 2) <==> d[1] == 1 || d[1] == 255 || d[1] == 3 || d[1] == 2 || d[1] == 4
    ensures Endpoints([d]) == if d[1] == 5 then 1 else 0
    ensures Configs([d]) == if d[1] == 2 then 1 else 0
    ensures IsFirstSetting(d) <==> d[1] == 4 && |d| > 3 && d[3] == 0
  {
    assert [d][1..] == [];
    assert Endpoints([]) == 0 && Configs([]) == 0;
  }

  // The table begins with a device descriptor and ends with the sentinel.
  lemma TableEnds(ds: seq<Desc>, strs: seq<Str>)
    requires WellFormed(ds)
    ensures AllProper(ds)
    ensures var d := Flat(Compiled(ds, strs));
            |d| >= 20 && d[0] == 18 && d[1] == 1 && d[|d| - 2] == 2 && d[|d| - 1] == 255
  {
    hide WellFormed, Compiled, Flat, Off, FilledList, Devices, DeviceAt, StringSection, AreDevices, Qualified;
    WellFormedProper(ds);
    DeviceFound(ds, strs, false);
    var b := CompiledParts(ds, strs);
    var f := Compiled(ds, strs);
    FirstIsProper(f, ds);
    var n := |f| - 1;
    assert f[n] == TAIL;
    FlatByte(f, 0, 0);
    FlatByte(f, 0, 1);
    FlatByte(f, 0, 17);
    FlatByte(f, n, 0);
    FlatByte(f, n, 1);
    OffsAdd(f);
  }

  lemma FirstIsProper(f: seq<Desc>, ds: seq<Desc>)
    requires AllProper(ds) && f != [] && AllProper(FilledList(ds))
    requires 0 < |FilledList(ds)| && f[0] == FilledList(ds)[0] && TypeOf(f[0]) == DEVICE
    ensures |f[0]| == 18 && f[0][0] == 18 && f[0][1] == 1
  {
    hide FilledList, Devices;
    ProperAt(FilledList(ds), 0);
  }

  lemma OffsAdd(f: seq<Desc>)
    requires f != [] && f[|f| - 1] == TAIL && |f[0]| == 18
    ensures Off(f, 0) == 0 && |Flat(f)| == Off(f, |f| - 1) + 2 && Off(f, |f| - 1) >= 18
  {
    hide Flat;
    FlatLength(f);
    assert |f| > 1;
    OffGrows(f, |f| - 1);
  }

  lemma {:induction false} OffGrows(f: seq<Desc>, k: nat)
    requires 1 <= k <= |f|
    ensures Off(f, k) >= |f[0]|
    decreases k
  {
    if k > 1 {
      OffGrows(f, k - 1);
    }
  }

  // ---- strings ------------------------------------------------------------------------------

  // A string descriptor of s at a place of the table.
  predicate Carries(d: seq<Byte>, at: nat, s: Str) {
    && at + 2 + |s| <= |d| && d[at] == (2 + |s|) % 256 && d[at + 1] == 3
    && forall i :: 0 <= i < |s| ==> d[at + 2 + i] == s[i]
  }

  // The n-th string of the table is the one handed out as n, and string 0 says that the
  // language is US English.
  lemma StringBytes(ds: seq<Desc>, strs: seq<Str>, n: nat)
    requires WellFormed(ds) && n <= |strs| && strs != []
    ensures Compiled(ds, strs) != []
    ensures var f := Compiled(ds, strs); var r := NthString(f, n);
            && 0 <= r < |f|
            && Carries(Flat(f), Off(f, r), if n == 0 then [0x09, 0x04] else strs[n - 1])
  {
    hide WellFormed, Compiled, NthString, Flat, Off, StringDesc;
    WellFormedProper(ds);
    StringFound(ds, strs, n);
    var f := Compiled(ds, strs);
    var r := NthString(f, n);
    assert StringDesc([0x09, 0x04]) == LANG_ID by { LanguageString(); }
    StringCarried(f, r, if n == 0 then [0x09, 0x04] else strs[n - 1]);
  }

  lemma LanguageString()
    ensures StringDesc([0x09, 0x04]) == LANG_ID
  {
  }

  lemma StringCarried(f: seq<Desc>, r: nat, s: Str)
    requires r < |f| && f[r] == StringDesc(s)
    ensures Carries(Flat(f), Off(f, r), s)
  {
    hide Flat, Off;
    FlatByte(f, r, 0);
    FlatByte(f, r, 1);
    FlatByte(f, r, 1 + |s|);
    forall i | 0 <= i < |s| ensures Flat(f)[Off(f, r) + 2 + i] == s[i] {
      FlatByte(f, r, 2 + i);
    }
  }
}
