// Building a transfer block, test/ncm.py: items are collected in a list, and `Wrap`
// aligns the first pointer table, lays the items out and patches offsets, lengths and
// links back into their bytes.
module Ntb16 {
  import opened Bytes
  import opened NtbParser

  // The objects of the original; a pointer table refers to its datagrams by number.
  datatype Ndp = Ndp(bv: seq<Byte>, dgs: seq<nat>, idx: nat, locked: bool)
  datatype Dgram = Dgram(data: seq<Byte>, idx: nat)
  datatype Item = Header | Table(id: nat) | Datagram(id: nat) | Pad(len: nat)

  // A block under construction: the header's bytes, the list, and all objects.
  datatype Ntb = Ntb(nth: seq<Byte>, lst: seq<Item>, ndps: seq<Ndp>, dgs: seq<Dgram>)

  const NTH_INIT: seq<Byte> := NTH_SIG + [12, 0, 0, 0, 0, 0, 0, 0]

  function NdpInit(addCRC: bool): seq<Byte> {
    NDP_SIG + [if addCRC then 0x31 else 0x30, 16, 0, 0, 0, 0, 0, 0, 0, 0, 0, 0, 0]
  }

  // ---- well-formed objects ----------------------------------------------------------

  predicate Knows(b: Ntb, it: Item) {
    match it
    case Table(id) => id < |b.ndps|
    case Datagram(id) => id < |b.dgs|
    case _ => true
  }

  // A table of n datagrams: signature, length, n entries and a terminator of zeros; the
  // link and the entries are free.
  predicate Shaped(bv: seq<Byte>, n: nat) {
    && |bv| == 12 + 4 * (if n == 0 then 1 else n)
    && bv[..3] == NDP_SIG && (bv[3] == 0x30 || bv[3] == 0x31)
    && bv[4] == |bv| % 256 && bv[5] == |bv| / 256 % 256
    && (forall k :: 8 + 4 * n <= k < |bv| ==> bv[k] == 0)
  }

  // No object is listed twice.
  predicate Distinct(lst: seq<Item>) {
    forall j, k :: 0 <= j < k < |lst| ==> lst[j] == lst[k] ==> lst[j].Pad?
  }

  predicate Sound(b: Ntb) {
    && |b.nth| == NTH_LEN && b.nth[..4] == NTH_SIG && b.nth[4] == 12 && b.nth[5] == 0
    && b.lst != [] && b.lst[0] == Header
    && (forall k :: 0 <= k < |b.lst| ==> Knows(b, b.lst[k]))
    && Distinct(b.lst)
    && (forall id :: 0 <= id < |b.ndps| ==> Shaped(b.ndps[id].bv, |b.ndps[id].dgs|))
    && (forall id, j :: 0 <= id < |b.ndps| && 0 <= j < |b.ndps[id].dgs| ==> b.ndps[id].dgs[j] < |b.dgs|)
    && (forall id :: 0 <= id < |b.dgs| ==> b.dgs[id].data != [])
  }

  // No table is linked to another.
  predicate Unlinked(b: Ntb)
    requires Sound(b)
  {
    forall id :: 0 <= id < |b.ndps| ==> b.ndps[id].bv[6] == 0 && b.ndps[id].bv[7] == 0
  }

  // ---- layout ---------------------------------------------------------------------------

  function ItemBytes(b: Ntb, it: Item): seq<Byte>
    requires Knows(b, it)
  {
    match it
    case Header => b.nth
    case Table(id) => b.ndps[id].bv
    case Datagram(id) => b.dgs[id].data
    case Pad(len) => seq(len, _ => 0)
  }

  // The bytes of the first k items, and where item k begins.
  function Image(b: Ntb, k: nat): seq<Byte>
    requires Sound(b) && k <= |b.lst|
  {
    if k == 0 then [] else Image(b, k - 1) + ItemBytes(b, b.lst[k - 1])
  }

  function Pos(b: Ntb, k: nat): nat
    requires Sound(b) && k <= |b.lst|
  {
    if k == 0 then 0 else Pos(b, k - 1) + |ItemBytes(b, b.lst[k - 1])|
  }

  // The next table after item j among the first k items.
  function NextTable(lst: seq<Item>, j: nat, k: nat): Option<nat>
    requires k <= |lst|
  {
    if k <= j + 1 then None
    else match NextTable(lst, j, k - 1)
         case Some(t) => Some(t)
         case None => if lst[k - 1].Table? then Some(k - 1) else None
  }

  // A table's or the header's bytes with its link written, if it has one.
  function Linked(b: Ntb, bv: seq<Byte>, off: nat, next: Option<nat>): seq<Byte>
    requires Sound(b) && off + 1 < |bv| && (next.Some? ==> next.value <= |b.lst|)
  {
    match next
    case None => bv
    case Some(t) => Set16(bv, off, Pos(b, t))
  }

  // Padding in front of item i puts it on a multiple of 4.
  function Missing(b: Ntb, i: nat): nat
    requires Sound(b) && i <= |b.lst|
  {
    (4 - Pos(b, i) % 4) % 4
  }

  function PadAt(b: Ntb, i: nat): Ntb
    requires Sound(b) && i <= |b.lst|
  {
    if Missing(b, i) == 0 then b else b.(lst := b.lst[..i] + [Pad(Missing(b, i))] + b.lst[i..])
  }

  // The entries of a table: where its datagrams are, as stored in them, and their sizes.
  function Entries(b: Ntb, dgs: seq<nat>): seq<(nat, nat)>
    requires forall j :: 0 <= j < |dgs| ==> dgs[j] < |b.dgs|
  {
    seq(|dgs|, j requires 0 <= j < |dgs| => (b.dgs[dgs[j]].idx, |b.dgs[dgs[j]].data|))
  }

  // A table's bytes with the entries written.
  function Filled(bv: seq<Byte>, es: seq<(nat, nat)>): seq<Byte>
    requires |bv| >= 8 + 4 * |es|
    ensures |Filled(bv, es)| == |bv|
    decreases |es|
  {
    if es == [] then bv
    else
      var n := |es| - 1;
      Set16(Set16(Filled(bv, es[..n]), 8 + 4 * n, es[n].0), 10 + 4 * n, es[n].1)
  }

  // ---- what `Wrap` does -----------------------------------------------------------------------

  // Every listed object knows its place; nothing else changes.
  ghost predicate Placed(b: Ntb, c: Ntb)
    requires Sound(b)
  {
    && c.nth == b.nth && c.lst == b.lst && SameBytes(b, c)
    && (forall k :: 0 <= k < |b.lst| ==> PlacedAt(b, c, k))
  }

  // The objects of c are those of b but for their places.
  predicate SameBytes(b: Ntb, c: Ntb) {
    && |c.ndps| == |b.ndps| && |c.dgs| == |b.dgs|
    && (forall id :: 0 <= id < |b.ndps| ==> c.ndps[id] == b.ndps[id].(idx := c.ndps[id].idx))
    && (forall id :: 0 <= id < |b.dgs| ==> c.dgs[id].data == b.dgs[id].data)
  }

  predicate PlacedAt(b: Ntb, c: Ntb, k: nat)
    requires Sound(b) && k < |b.lst| && SameBytes(b, c)
  {
    match b.lst[k]
    case Table(id) => c.ndps[id].idx == Pos(b, k)
    case Datagram(id) => c.dgs[id].idx == Pos(b, k)
    case _ => true
  }

  // The bytes of the table at item j when the first k items have been dealt with.
  function TableBytes(c: Ntb, j: nat, k: nat): seq<Byte>
    requires Sound(c) && j < |c.lst| && k <= |c.lst| && c.lst[j].Table?
  {
    NextTableBound(c.lst, j, k);
    assert Knows(c, c.lst[j]);
    var n := c.ndps[c.lst[j].id];
    Linked(c, Filled(n.bv, Entries(c, n.dgs)), 6, NextTable(c.lst, j, k))
  }

  function HeaderBytes(c: Ntb, length: nat, k: nat): seq<Byte>
    requires Sound(c) && k <= |c.lst|
  {
    NextTableBound(c.lst, 0, k);
    Linked(c, Set16(c.nth, 8, length), 10, NextTable(c.lst, 0, k))
  }

  lemma {:induction false} NextTableBound(lst: seq<Item>, j: nat, k: nat)
    requires k <= |lst|
    ensures match NextTable(lst, j, k)
            case Some(t) => j < t < k && lst[t].Table? && (forall m :: j < m < t ==> !lst[m].Table?)
            case None => forall m :: j < m < k ==> !lst[m].Table?
  {
    if k > j + 1 {
      NextTableBound(lst, j, k - 1);
    }
  }

  // Entries, links and the block length are in place for the first k items; nothing
  // else is changed.
  ghost predicate Patched(c: Ntb, d: Ntb, length: nat, k: nat)
    requires Sound(c) && k <= |c.lst|
  {
    && d.lst == c.lst && d.dgs == c.dgs && |d.ndps| == |c.ndps|
    && d.nth == HeaderBytes(c, length, k)
    && (forall j :: 0 <= j < k && c.lst[j].Table? ==> TableDone(c, d, j, k))
    && (forall id :: 0 <= id < |c.ndps| && Table(id) !in c.lst[..k] ==> d.ndps[id] == c.ndps[id])
  }

  predicate TableDone(c: Ntb, d: Ntb, j: nat, k: nat)
    requires Sound(c) && j < k <= |c.lst| && |d.ndps| == |c.ndps| && c.lst[j].Table?
  {
    Knows(c, c.lst[j]) && d.ndps[c.lst[j].id] == c.ndps[c.lst[j].id].(bv := TableBytes(c, j, k))
  }

  lemma PlacedSound(b: Ntb, c: Ntb)
    requires Sound(b) && c.nth == b.nth && c.lst == b.lst && SameBytes(b, c)
    ensures Sound(c)
  {
  }

  lemma {:induction false} PlacedPos(b: Ntb, c: Ntb, k: nat)
    requires Sound(b) && Sound(c) && c.nth == b.nth && c.lst == b.lst && SameBytes(b, c) && k <= |b.lst|
    ensures Pos(c, k) == Pos(b, k)
  {
    if k > 0 {
      PlacedPos(b, c, k - 1);
    }
  }

  function SetIdx(c: Ntb, it: Item, p: nat): Ntb
    requires Knows(c, it)
  {
    match it
    case Table(id) => c.(ndps := c.ndps[id := c.ndps[id].(idx := p)])
    case Datagram(id) => c.(dgs := c.dgs[id := c.dgs[id].(idx := p)])
    case _ => c
  }

  predicate PlacedTo(b: Ntb, c: Ntb, k: nat)
    requires Sound(b) && k <= |b.lst|
  {
    c.nth == b.nth && c.lst == b.lst && SameBytes(b, c) && forall j :: 0 <= j < k ==> PlacedAt(b, c, j)
  }

  lemma DistinctFrom(lst: seq<Item>, k: nat)
    requires Distinct(lst) && k < |lst|
    ensures forall j :: 0 <= j < k && lst[j] == lst[k] ==> lst[k].Pad?
  {
  }

  lemma PlaceStep(b: Ntb, c: Ntb, k: nat)
    requires Sound(b) && k < |b.lst| && PlacedTo(b, c, k)
    ensures Knows(c, b.lst[k]) && PlacedTo(b, SetIdx(c, b.lst[k], Pos(b, k)), k + 1)
    ensures var c' := SetIdx(c, b.lst[k], Pos(b, k));
            Knows(c', b.lst[k]) && Pos(b, k) + |ItemBytes(c', b.lst[k])| == Pos(b, k + 1)
  {
    hide Shaped, Distinct;
    assert Distinct(b.lst);
    DistinctFrom(b.lst, k);
    assert Knows(b, b.lst[k]);
    var c' := SetIdx(c, b.lst[k], Pos(b, k));
    assert SameBytes(b, c');
    forall j | 0 <= j < k ensures PlacedAt(b, c', j) {
      assert PlacedAt(b, c, j) && Knows(b, b.lst[j]);
    }
  }

  // The second loop: positions.
  method Place(b: Ntb) returns (c: Ntb, total: nat)
    requires Sound(b)
    ensures Sound(c) && Placed(b, c) && total == Pos(b, |b.lst|)
  {
    hide Sound, SameBytes, PlacedAt, PlacedTo, Placed, ItemBytes, SetIdx;
    PlaceStarts(b);
    c := b;
    total := 0;
    for k := 0 to |b.lst|
      invariant PlacedTo(b, c, k) && total == Pos(b, k)
    {
      PlaceStep(b, c, k);
      var it := b.lst[k];
      c := SetIdx(c, it, total);
      total := total + |ItemBytes(c, it)|;
    }
    PlaceEnds(b, c);
  }

  lemma PlaceStarts(b: Ntb)
    requires Sound(b)
    ensures PlacedTo(b, b, 0)
  {
    SameSelf(b);
  }

  lemma PlaceEnds(b: Ntb, c: Ntb)
    requires Sound(b) && PlacedTo(b, c, |b.lst|)
    ensures Sound(c) && Placed(b, c)
  {
    PlacedSound(b, c);
  }

  // Writes a table's entries.
  method Fixup(bv: seq<Byte>, es: seq<(nat, nat)>) returns (r: seq<Byte>)
    requires |bv| >= 8 + 4 * |es|
    ensures r == Filled(bv, es)
  {
    r := bv;
    var pos := 8;
    for j := 0 to |es|
      invariant pos == 8 + 4 * j && r == Filled(bv, es[..j])
    {
      assert es[..j + 1][..j] == es[..j];
      r := Set16(r, pos, es[j].0);
      pos := pos + 2;
      r := Set16(r, pos, es[j].1);
      pos := pos + 2;
    }
    assert es[..|es|] == es;
  }

  // The last item among the first k that a table would be linked to.
  predicate LinksFrom(lst: seq<Item>, l: nat, k: nat)
    requires k <= |lst|
  {
    l < k && (l == 0 || lst[l].Table?) && forall m :: l < m < k ==> !lst[m].Table?
  }

  function Link(d: Ntb, from: Item, p: nat): Ntb
    requires Knows(d, from) && |d.nth| == NTH_LEN && (from.Table? ==> |d.ndps[from.id].bv| >= 8)
  {
    match from
    case Table(id) => d.(ndps := d.ndps[id := d.ndps[id].(bv := Set16(d.ndps[id].bv, 6, p))])
    case _ => d.(nth := Set16(d.nth, 10, p))
  }

  lemma OtherItem(c: Ntb, d: Ntb, length: nat, k: nat)
    requires Sound(c) && k < |c.lst| && !c.lst[k].Table? && Patched(c, d, length, k)
    ensures Patched(c, d, length, k + 1)
  {
    hide Sound, Pos, Entries, Filled;
    assert forall j :: 0 <= j <= k ==> NextTable(c.lst, j, k + 1) == NextTable(c.lst, j, k);
    forall j | 0 <= j < k + 1 && c.lst[j].Table? ensures TableDone(c, d, j, k + 1) {
      assert TableDone(c, d, j, k);
    }
    assert forall id :: Table(id) in c.lst[..k] ==> Table(id) in c.lst[..k + 1];
  }

  function Written(c: Ntb, d: Ntb, id: nat): Ntb
    requires Sound(c) && id < |c.ndps| && |d.ndps| == |c.ndps|
  {
    d.(ndps := d.ndps[id := d.ndps[id].(bv := Filled(c.ndps[id].bv, Entries(c, c.ndps[id].dgs)))])
  }

  lemma LinkTargets(c: Ntb, l: nat, k: nat)
    requires Sound(c) && k < |c.lst| && c.lst[k].Table? && LinksFrom(c.lst, l, k)
    ensures NextTable(c.lst, l, k) == None && NextTable(c.lst, l, k + 1) == Some(k)
    ensures NextTable(c.lst, k, k + 1) == None
    ensures forall j :: 0 <= j < l ==>
              NextTable(c.lst, j, k).Some? && NextTable(c.lst, j, k + 1) == NextTable(c.lst, j, k)
    ensures forall j :: l < j < k ==> !c.lst[j].Table?
    ensures c.lst[l].Header? <==> l == 0
  {
    hide Sound;
    NextTableBound(c.lst, l, k);
    assert c.lst[l].Header? <==> l == 0 by { HeaderIsFirst(c, l); }
    forall j | 0 <= j < l ensures NextTable(c.lst, j, k).Some? {
      NextTableBound(c.lst, j, k);
    }
  }

  lemma HeaderIsFirst(c: Ntb, l: nat)
    requires Sound(c) && l < |c.lst|
    ensures c.lst[l].Header? <==> l == 0
  {
    assert c.lst[0] == Header;
  }

  lemma DistinctTables(c: Ntb, j: nat, k: nat)
    requires Sound(c) && j < |c.lst| && k < |c.lst| && j != k && c.lst[j].Table? && c.lst[k].Table?
    ensures Knows(c, c.lst[j]) && Knows(c, c.lst[k]) && c.lst[j].id != c.lst[k].id
  {
    assert c.lst[j] != c.lst[k];
  }

  // What one more table changes: the last link gets its value.
  lemma BytesStep(c: Ntb, length: nat, k: nat, l: nat)
    requires Sound(c) && k < |c.lst| && c.lst[k].Table? && LinksFrom(c.lst, l, k)
    ensures Knows(c, c.lst[k]) && Knows(c, c.lst[l])
    ensures forall j :: 0 <= j < l && c.lst[j].Table? ==> TableBytes(c, j, k + 1) == TableBytes(c, j, k)
    ensures forall j :: l < j < k ==> !c.lst[j].Table?
    ensures var n := c.ndps[c.lst[k].id]; TableBytes(c, k, k + 1) == Filled(n.bv, Entries(c, n.dgs))
    ensures if l == 0
            then c.lst[l].Header? && HeaderBytes(c, length, k + 1) == Set16(HeaderBytes(c, length, k), 10, Pos(c, k))
            else c.lst[l].Table? && |TableBytes(c, l, k)| >= 8
                 && TableBytes(c, l, k + 1) == Set16(TableBytes(c, l, k), 6, Pos(c, k))
                 && HeaderBytes(c, length, k + 1) == HeaderBytes(c, length, k)
  {
    hide Pos, Entries, Filled, NextTable, Set16;
    LinkTargets(c, l, k);
    HeaderIsFirst(c, l);
    assert Knows(c, c.lst[k]) && Knows(c, c.lst[l]);
  }

  // The premise of a step at a table.
  ghost predicate AtTable(c: Ntb, d: Ntb, length: nat, k: nat, l: nat) {
    && Sound(c) && k < |c.lst| && c.lst[k].Table? && Knows(c, c.lst[k])
    && Patched(c, d, length, k) && LinksFrom(c.lst, l, k) && Knows(d, c.lst[l])
    && |d.nth| == NTH_LEN && forall id :: 0 <= id < |d.ndps| ==> |d.ndps[id].bv| >= 12
  }

  ghost function AfterTable(c: Ntb, d: Ntb, length: nat, k: nat, l: nat): Ntb
    requires AtTable(c, d, length, k, l)
  {
    Link(Written(c, d, c.lst[k].id), c.lst[l], Pos(c, k))
  }

  lemma TableStepAt(c: Ntb, d: Ntb, length: nat, k: nat, l: nat, j: nat)
    requires AtTable(c, d, length, k, l) && j <= k && c.lst[j].Table?
    ensures |AfterTable(c, d, length, k, l).ndps| == |c.ndps|
    ensures TableDone(c, AfterTable(c, d, length, k, l), j, k + 1)
  {
    BytesStep(c, length, k, l);
    NextUntouched(c, d, length, k);
    if j < k {
      DistinctTables(c, j, k);
      assert TableDone(c, d, j, k);
    }
    if l > 0 {
      DistinctTables(c, l, k);
      if j < l {
        DistinctTables(c, j, l);
      }
    }
    hide Sound, Pos, Entries, Filled, TableBytes, HeaderBytes, Set16, LinksFrom, Patched;
  }

  lemma TableStepRest(c: Ntb, d: Ntb, length: nat, k: nat, l: nat)
    requires AtTable(c, d, length, k, l)
    ensures var d' := AfterTable(c, d, length, k, l);
            d'.lst == c.lst && d'.dgs == c.dgs && |d'.ndps| == |c.ndps| && d'.nth == HeaderBytes(c, length, k + 1)
  {
    BytesStep(c, length, k, l);
    hide Distinct, Pos, Entries, Filled, TableBytes, HeaderBytes, Set16, LinksFrom, TableDone;
  }

  lemma TableStepOthers(c: Ntb, d: Ntb, length: nat, k: nat, l: nat, id: nat)
    requires AtTable(c, d, length, k, l) && id < |c.ndps| && Table(id) !in c.lst[..k + 1]
    ensures AfterTable(c, d, length, k, l).ndps[id] == c.ndps[id]
  {
    assert c.lst[..k + 1][k] == c.lst[k] && c.lst[..k + 1][l] == c.lst[l];
    assert forall m :: 0 <= m < k ==> c.lst[..k + 1][m] == c.lst[..k][m];
    TableStepRest(c, d, length, k, l);
    hide Sound, Pos, Entries, Filled, TableBytes, HeaderBytes, Set16, TableDone;
  }

  lemma TableStep(c: Ntb, d: Ntb, length: nat, k: nat, l: nat)
    requires AtTable(c, d, length, k, l)
    ensures Patched(c, AfterTable(c, d, length, k, l), length, k + 1)
  {
    assert Sound(c) && k < |c.lst|;
    hide AtTable, Pos, TableBytes, HeaderBytes, TableDone, AfterTable, Sound;
    TableStepRest(c, d, length, k, l);
    var d' := AfterTable(c, d, length, k, l);
    forall j | 0 <= j < k + 1 && c.lst[j].Table? ensures TableDone(c, d', j, k + 1) {
      TableStepAt(c, d, length, k, l, j);
    }
    forall id | 0 <= id < |c.ndps| && Table(id) !in c.lst[..k + 1] ensures d'.ndps[id] == c.ndps[id] {
      TableStepOthers(c, d, length, k, l, id);
    }
  }

  lemma DoneSizes(c: Ntb, d: Ntb, length: nat, k: nat)
    requires Sound(c) && k <= |c.lst| && Patched(c, d, length, k)
    ensures |d.nth| == NTH_LEN && forall id :: 0 <= id < |d.ndps| ==> |d.ndps[id].bv| == |c.ndps[id].bv| >= 12
    ensures forall m :: 0 <= m < |c.lst| ==> Knows(d, c.lst[m])
  {
    hide Pos, Entries, Filled, NextTable;
    forall id | 0 <= id < |d.ndps| ensures |d.ndps[id].bv| == |c.ndps[id].bv| >= 12 {
      if Table(id) in c.lst[..k] {
        var j :| 0 <= j < k && c.lst[j] == Table(id);
        assert TableDone(c, d, j, k);
      }
    }
    forall m | 0 <= m < |c.lst| ensures Knows(d, c.lst[m]) {
      assert Knows(c, c.lst[m]);
    }
  }

  // A table that is next has not been touched.
  lemma NextUntouched(c: Ntb, d: Ntb, length: nat, k: nat)
    requires Sound(c) && k < |c.lst| && c.lst[k].Table? && Patched(c, d, length, k)
    ensures Knows(c, c.lst[k]) && d.ndps[c.lst[k].id] == c.ndps[c.lst[k].id]
    ensures |c.ndps[c.lst[k].id].bv| >= 8 + 4 * |c.ndps[c.lst[k].id].dgs|
  {
    assert forall j :: 0 <= j < k ==> c.lst[j] != c.lst[k];
    assert Knows(c, c.lst[k]);
  }

  lemma EntriesKnown(c: Ntb, id: nat)
    requires Sound(c) && id < |c.ndps|
    ensures forall j :: 0 <= j < |c.ndps[id].dgs| ==> c.ndps[id].dgs[j] < |c.dgs|
  {
  }

  // One table: its entries, and the link of the object before it.
  method PatchTable(c: Ntb, d: Ntb, length: nat, k: nat, nxt: Item, ghost l: nat) returns (d': Ntb)
    requires Sound(c) && Placed(c, c) && k < |c.lst| && c.lst[k].Table?
    requires Patched(c, d, length, k) && LinksFrom(c.lst, l, k) && c.lst[l] == nxt
    ensures Patched(c, d', length, k + 1)
  {
    DoneSizes(c, d, length, k);
    NextUntouched(c, d, length, k);
    EntriesKnown(c, c.lst[k].id);
    PlacedHere(c, k);
    TableStep(c, d, length, k, l);
    hide Sound, Patched, Placed, Entries, Filled, Pos, LinksFrom, Set16;
    var id := c.lst[k].id;
    var bv := Fixup(d.ndps[id].bv, Entries(c, d.ndps[id].dgs));
    d' := d.(ndps := d.ndps[id := d.ndps[id].(bv := bv)]);
    d' := Link(d', nxt, d.ndps[id].idx);
  }

  lemma PatchStarts(c: Ntb, length: nat)
    requires Sound(c)
    ensures |c.nth| == NTH_LEN && c.lst != [] && c.lst[0] == Header
    ensures Patching(c, c.(nth := Set16(c.nth, 8, length)), length, 0, Header, 0)
  {
  }

  // What the third loop keeps: `nxt` is the object to be linked, at item l.
  ghost predicate Patching(c: Ntb, d: Ntb, length: nat, k: nat, nxt: Item, l: nat)
    requires Sound(c) && k <= |c.lst|
  {
    && Patched(c, d, length, k) && l < |c.lst| && c.lst[l] == nxt
    && (if k == 0 then l == 0 else LinksFrom(c.lst, l, k))
  }

  method PatchItem(c: Ntb, d: Ntb, length: nat, k: nat, nxt: Item, ghost l: nat)
    returns (d': Ntb, nxt': Item, ghost l': nat)
    requires Sound(c) && Placed(c, c) && k < |c.lst| && Patching(c, d, length, k, nxt, l)
    ensures Patching(c, d', length, k + 1, nxt', l')
  {
    hide Patched, Placed, Sound, LinksFrom;
    d', nxt', l' := d, nxt, l;
    if c.lst[k].Table? {
      PlacedHere(c, k);
      d' := PatchTable(c, d, length, k, nxt, l);
      nxt', l' := c.lst[k], k;
    } else {
      OtherItem(c, d, length, k);
    }
    LinksStep(c.lst, l', k);
  }

  lemma PatchEnds(c: Ntb, d: Ntb, length: nat, nxt: Item, l: nat)
    requires Sound(c) && Patching(c, d, length, |c.lst|, nxt, l)
    ensures Patched(c, d, length, |c.lst|)
  {
  }

  // The third loop: entries and links.
  method Patch(c: Ntb, length: nat) returns (d: Ntb)
    requires Sound(c) && Placed(c, c)
    ensures Patched(c, d, length, |c.lst|)
  {
    hide Placed, Sound, Patched, Patching;
    PatchStarts(c, length);
    d := c.(nth := Set16(c.nth, 8, length));
    var nxt := Header;
    ghost var l := 0;
    for k := 0 to |c.lst|
      invariant Patching(c, d, length, k, nxt, l)
    {
      d, nxt, l := PatchItem(c, d, length, k, nxt, l);
    }
    PatchEnds(c, d, length, nxt, l);
  }

  lemma LinksStep(lst: seq<Item>, l: nat, k: nat)
    requires k < |lst| && (if lst[k].Table? then l == k else if k == 0 then l == 0 else LinksFrom(lst, l, k))
    ensures LinksFrom(lst, l, k + 1)
  {
  }

  lemma PlacedHere(c: Ntb, k: nat)
    requires Sound(c) && Placed(c, c) && k < |c.lst| && c.lst[k].Table?
    ensures k > 0 && Knows(c, c.lst[k]) && c.ndps[c.lst[k].id].idx == Pos(c, k)
  {
    assert PlacedAt(c, c, k) && Knows(c, c.lst[k]) && c.lst[0] == Header;
  }

  lemma PadSound(b: Ntb, i: nat)
    requires Sound(b) && 0 < i <= |b.lst|
    ensures Sound(PadAt(b, i))
  {
    hide Pos;
    var b' := PadAt(b, i);
    if Missing(b, i) != 0 {
      forall j, k | 0 <= j < k < |b'.lst| && b'.lst[j] == b'.lst[k] ensures b'.lst[j].Pad? {
        var j', k' := if j > i then j - 1 else j, if k > i then k - 1 else k;
        assert j != i && k != i ==> b.lst[j'] == b'.lst[j] && b.lst[k'] == b'.lst[k];
      }
      forall k | 0 <= k < |b'.lst| ensures Knows(b', b'.lst[k]) {
        assert k < i ==> Knows(b, b.lst[k]);
        assert k > i ==> Knows(b, b.lst[k - 1]);
      }
    }
  }

  lemma {:induction false} FilledKeeps(bv: seq<Byte>, es: seq<(nat, nat)>, k: nat)
    requires |bv| >= 8 + 4 * |es| && k < |bv| && (k < 8 || k >= 8 + 4 * |es|)
    ensures Filled(bv, es)[k] == bv[k]
    decreases |es|
  {
    if es != [] {
      FilledKeeps(bv, es[..|es| - 1], k);
    }
  }

  lemma ShapedStays(bv: seq<Byte>, bv': seq<Byte>, n: nat)
    requires Shaped(bv, n) && |bv'| == |bv|
    requires forall k :: 0 <= k < |bv| && (k < 6 || k >= 8 + 4 * n) ==> bv'[k] == bv[k]
    ensures Shaped(bv', n)
  {
    assert bv'[..3] == bv[..3];
  }

  lemma TableShaped(c: Ntb, j: nat, k: nat)
    requires Sound(c) && j < |c.lst| && k <= |c.lst| && c.lst[j].Table?
    ensures Knows(c, c.lst[j]) && Shaped(TableBytes(c, j, k), |c.ndps[c.lst[j].id].dgs|)
  {
    hide NextTable, Pos;
    assert Knows(c, c.lst[j]);
    var n := c.ndps[c.lst[j].id];
    var es := Entries(c, n.dgs);
    forall k | 0 <= k < |n.bv| && (k < 6 || k >= 8 + 4 * |n.dgs|) ensures Filled(n.bv, es)[k] == n.bv[k] {
      FilledKeeps(n.bv, es, k);
    }
    ShapedStays(n.bv, TableBytes(c, j, k), |n.dgs|);
  }

  lemma PatchedSound(c: Ntb, d: Ntb, length: nat)
    requires Sound(c) && Patched(c, d, length, |c.lst|)
    ensures Sound(d) && d.lst == c.lst
  {
    hide TableBytes, NextTable, Pos, Shaped;
    forall id | 0 <= id < |d.ndps|
      ensures Shaped(d.ndps[id].bv, |d.ndps[id].dgs|) && d.ndps[id].dgs == c.ndps[id].dgs
    {
      if Table(id) in c.lst[..|c.lst|] {
        var j :| 0 <= j < |c.lst| && c.lst[j] == Table(id);
        assert TableDone(c, d, j, |c.lst|);
        TableShaped(c, j, |c.lst|);
      }
    }
    forall k | 0 <= k < |d.lst| ensures Knows(d, d.lst[k]) {
      assert Knows(c, c.lst[k]);
    }
    assert d.nth[..4] == c.nth[..4];
  }

  // The finished block: padded, every object placed, everything patched.
  ghost predicate Finished(a: Ntb, c: Ntb, d: Ntb, hasBlockLen: bool)
    requires Sound(a)
  {
    match NextTable(a.lst, 0, |a.lst|)
    case None => false
    case Some(i) =>
      && 0 < i < |a.lst| && Sound(PadAt(a, i)) && Sound(c) && Placed(PadAt(a, i), c)
      && Patched(c, d, if hasBlockLen then Pos(c, |c.lst|) else 0, |c.lst|)
  }

  lemma PlacedItself(b: Ntb, c: Ntb)
    requires Sound(b) && Sound(c) && Placed(b, c)
    ensures Placed(c, c) && c.lst == b.lst && Pos(c, |c.lst|) == Pos(b, |b.lst|)
  {
    hide Sound, Pos, SameBytes;
    PlacedPos(b, c, |c.lst|);
    assert SameBytes(c, c) by { SameSelf(c); }
    forall k | 0 <= k < |c.lst| ensures PlacedAt(c, c, k) {
      PlacedPos(b, c, k);
      assert PlacedAt(b, c, k);
    }
  }

  lemma SameSelf(c: Ntb)
    ensures SameBytes(c, c)
  {
  }

  lemma InitShaped(addCRC: bool)
    ensures Shaped(NdpInit(addCRC), 0) && NdpInit(addCRC)[6] == 0 && NdpInit(addCRC)[7] == 0
  {
  }

  lemma LongerShaped(bv: seq<Byte>, bv': seq<Byte>, n: nat)
    requires Shaped(bv, n)
    requires var l := bv + if n == 0 then [] else [0, 0, 0, 0]; bv' == Set16(l, 4, |l|)
    ensures Shaped(bv', n + 1) && bv'[3] == bv[3] && bv'[6] == bv[6] && bv'[7] == bv[7]
  {
    assert bv'[..3] == bv[..3];
  }

  lemma SoundWith(b: Ntb, id: nat, n: Ndp, dg: Dgram)
    requires Sound(b) && id < |b.ndps| && dg.data != []
    requires Shaped(n.bv, |n.dgs|) && forall j :: 0 <= j < |n.dgs| ==> n.dgs[j] <= |b.dgs|
    ensures var b' := b.(ndps := b.ndps[id := n], dgs := b.dgs + [dg]);
            Sound(b') && (Unlinked(b) && n.bv[6] == 0 && n.bv[7] == 0 ==> Unlinked(b'))
  {
    hide Shaped;
    var b' := b.(ndps := b.ndps[id := n], dgs := b.dgs + [dg]);
    forall k | 0 <= k < |b'.lst| ensures Knows(b', b'.lst[k]) {
      assert Knows(b, b.lst[k]);
    }
    assert forall m :: 0 <= m < |b.ndps| ==> Shaped(b.ndps[m].bv, |b.ndps[m].dgs|);
    UnlinkedWith(b, id, n, b');
  }

  lemma UnlinkedWith(b: Ntb, id: nat, n: Ndp, b': Ntb)
    requires Sound(b) && Sound(b') && id < |b.ndps| && b'.ndps == b.ndps[id := n]
    ensures |n.bv| >= 8 && (Unlinked(b) && n.bv[6] == 0 && n.bv[7] == 0 ==> Unlinked(b'))
  {
    assert Shaped(b'.ndps[id].bv, |b'.ndps[id].dgs|);
  }

  // The fourth byte of a table's signature says whether its datagrams carry a checksum.
  ghost predicate SignedFor(ndps: seq<Ndp>, crc: set<nat>) {
    forall id :: 0 <= id < |ndps| ==> |ndps[id].bv| >= 12 && ndps[id].bv[3] == if id in crc then 0x31 else 0x30
  }

  // Placing and patching leave the signatures and the sequence number alone.
  lemma PatchedSignature(b: Ntb, c: Ntb, d: Ntb, length: nat)
    requires Sound(b) && Sound(c) && Placed(b, c) && Patched(c, d, length, |c.lst|)
    ensures |d.ndps| == |b.ndps| && |d.nth| == NTH_LEN
    ensures forall id :: 0 <= id < |b.ndps| ==> |d.ndps[id].bv| >= 12
    ensures forall id :: 0 <= id < |b.ndps| ==> forall i :: 0 <= i < 6 ==> d.ndps[id].bv[i] == b.ndps[id].bv[i]
    ensures d.nth[6] == b.nth[6] && d.nth[7] == b.nth[7]
  {
    DoneSizes(c, d, length, |c.lst|);
    hide Sound, Pos, Entries, Shaped, Distinct;
    forall id | 0 <= id < |b.ndps|
      ensures forall i :: 0 <= i < 6 ==> d.ndps[id].bv[i] == b.ndps[id].bv[i]
    {
      PatchedTable(c, d, length, id);
    }
  }

  lemma PatchedTable(c: Ntb, d: Ntb, length: nat, id: nat)
    requires Sound(c) && id < |c.ndps| && Patched(c, d, length, |c.lst|)
    requires |d.ndps[id].bv| == |c.ndps[id].bv| >= 12
    ensures forall i :: 0 <= i < 6 ==> d.ndps[id].bv[i] == c.ndps[id].bv[i]
  {
    hide Pos, Entries, Shaped, Distinct, HeaderBytes, Filled, NextTable;
    if Table(id) in c.lst[..|c.lst|] {
      var j :| 0 <= j < |c.lst| && c.lst[j] == Table(id);
      assert TableDone(c, d, j, |c.lst|);
      var n := c.ndps[id];
      EntriesKnown(c, id);
      assert Shaped(n.bv, |n.dgs|);
      RoomForEntries(n.bv, |n.dgs|);
      EntriesLength(c, n.dgs);
      forall i | 0 <= i < 6 ensures Filled(n.bv, Entries(c, n.dgs))[i] == n.bv[i] {
        FilledKeeps(n.bv, Entries(c, n.dgs), i);
      }
    }
  }

  lemma EntriesLength(c: Ntb, dgs: seq<nat>)
    requires forall j :: 0 <= j < |dgs| ==> dgs[j] < |c.dgs|
    ensures |Entries(c, dgs)| == |dgs|
  {
  }

  lemma RoomForEntries(bv: seq<Byte>, n: nat)
    requires Shaped(bv, n)
    ensures |bv| >= 8 + 4 * n
  {
  }

  lemma WrapKeepsSignature(b: Ntb, i: nat, c: Ntb, d: Ntb, length: nat, crc: set<nat>)
    requires Sound(b) && i <= |b.lst| && Sound(PadAt(b, i)) && Sound(c) && Placed(PadAt(b, i), c)
    requires Patched(c, d, length, |c.lst|) && SignedFor(b.ndps, crc)
    ensures SignedFor(d.ndps, crc) && |d.nth| == NTH_LEN && |b.nth| == NTH_LEN
    ensures d.nth[6] == b.nth[6] && d.nth[7] == b.nth[7]
  {
    PatchedSignature(PadAt(b, i), c, d, length);
    hide Sound, Placed, Patched, Missing;
    assert PadAt(b, i).ndps == b.ndps && PadAt(b, i).nth == b.nth;
  }

  // ---- the class ------------------------------------------------------------------------------

  class Builder {
    var nth: seq<Byte>
    var lst: seq<Item>
    var ndps: seq<Ndp>
    var dgs: seq<Dgram>
    var locked: bool
    ghost var crc: set<nat>

    function State(): Ntb
      reads this
    {
      Ntb(nth, lst, ndps, dgs)
    }

    ghost predicate Valid()
      reads this
    {
      && Sound(State()) && (!locked ==> Unlinked(State()))
      && SignedFor(ndps, crc) && |nth| == NTH_LEN && nth[6] == 1 && nth[7] == 0
    }

    // The sequence number is counted in each header by itself, so that it is always 1.
    constructor ()
      ensures Valid() && !locked && lst == [Header] && ndps == [] && dgs == [] && crc == {}
    {
      nth := Set16(NTH_INIT, 6, 1);
      crc := {};
      lst := [Header];
      ndps := [];
      dgs := [];
      locked := false;
    }

    // A new table, with one unused entry and the terminator.
    method NewNdp(addCRC: bool) returns (id: nat)
      requires Valid()
      modifies this`ndps, this`crc
      ensures Valid()
      ensures id == |old(ndps)| && ndps == old(ndps) + [Ndp(NdpInit(addCRC), [], 0, false)]
      ensures ndps[id].bv[3] == (if addCRC then 0x31 else 0x30)
      ensures crc == if addCRC then old(crc) + {id} else old(crc) - {id}
    {
      hide Shaped;
      InitShaped(addCRC);
      id := |ndps|;
      ndps := ndps + [Ndp(NdpInit(addCRC), [], 0, false)];
      crc := if addCRC then crc + {id} else crc - {id};
    }

    // A new datagram, attached to a table, which makes room for its entry.
    method NewDgram(ndp: nat, data: seq<Byte>) returns (ok: bool, id: nat)
      requires Valid() && ndp < |ndps|
      modifies this`ndps, this`dgs
      ensures Valid() && (ok <==> data != [])
      ensures !ok ==> ndps == old(ndps) && dgs == old(dgs)
      ensures ok ==> id == |old(dgs)| && dgs == old(dgs) + [Dgram(data, 0)]
                     && |ndps| == |old(ndps)| && ndps[ndp].dgs == old(ndps)[ndp].dgs + [id]
                     && forall k :: 0 <= k < |ndps| && k != ndp ==> ndps[k] == old(ndps)[k]
    {
      id := |dgs|;
      if data == [] {
        return false, id;
      }
      var n := ndps[ndp];
      var bv := n.bv;
      if n.dgs != [] {
        bv := bv + [0, 0, 0, 0];
      }
      bv := Set16(bv, 4, |bv|);
      LongerShaped(n.bv, bv, |n.dgs|);
      SoundWith(State(), ndp, n.(bv := bv, dgs := n.dgs + [id]), Dgram(data, 0));
      hide Sound, Shaped, Set16;
      dgs := dgs + [Dgram(data, 0)];
      ndps := ndps[ndp := n.(bv := bv, dgs := n.dgs + [id])];
      ok := true;
    }

    // Puts an object into the list: once only, and a table into one block only.
    method Add(it: Item) returns (ok: bool)
      requires Valid() && Knows(State(), it) && (it.Table? || it.Datagram?)
      modifies this`lst, this`ndps
      ensures Valid()
      ensures ok <==> it !in old(lst) && !locked && (it.Table? ==> !old(ndps)[it.id].locked)
      ensures lst == if ok then old(lst) + [it] else old(lst)
      ensures ndps == if ok && it.Table? then old(ndps)[it.id := old(ndps)[it.id].(locked := true)] else old(ndps)
    {
      if it in lst || locked {
        return false;
      }
      if it.Table? {
        if ndps[it.id].locked {
          return false;
        }
        ndps := ndps[it.id := ndps[it.id].(locked := true)];
      }
      lst := lst + [it];
      ok := true;
    }

    // Closes the block, also one that is closed already.  Without a pointer table it
    // fails.  `c` is the block laid out but not yet patched.
    method Wrap(hasBlockLen: bool) returns (ok: bool, ghost c: Ntb)
      requires Valid()
      modifies this
      ensures Valid() && locked && crc == old(crc)
      ensures ok <==> exists k :: 0 <= k < |old(lst)| && old(lst)[k].Table?
      ensures !ok ==> State() == old(State())
      ensures ok ==> Finished(old(State()), c, State(), hasBlockLen)
    {
      hide Sound, Placed, Patched, PadAt, Missing, ItemBytes;
      locked := true;
      c := State();
      var i, idx := 0, 0;
      while i < |lst| && !lst[i].Table?
        invariant 0 <= i <= |lst| && idx == Pos(State(), i)
        invariant forall k :: 0 <= k < i ==> !lst[k].Table?
      {
        idx := idx + ItemLen(State(), i);
        i := i + 1;
      }
      if i == |lst| {
        return false, c;
      }
      FirstFound(State(), i);
      var b := State();
      var miss := (4 - idx % 4) % 4;
      if miss != 0 {
        lst := lst[..i] + [Pad(miss)] + lst[i..];
      }
      PadSound(b, i);
      assert State() == PadAt(b, i) by { PadIs(b, i, miss); }
      var placed, total := Place(State());
      PlacedItself(PadAt(b, i), placed);
      c := placed;
      var d := Patch(placed, if hasBlockLen then total else 0);
      PatchedSound(placed, d, if hasBlockLen then total else 0);
      WrapKeepsSignature(b, i, placed, d, if hasBlockLen then total else 0, crc);
      nth, ndps, dgs := d.nth, d.ndps, d.dgs;
      assert State() == d;
      ok := true;
    }

    // The bytes of the block.
    method Emit() returns (bytes: seq<Byte>)
      requires Valid()
      ensures bytes == Image(State(), |lst|)
    {
      hide Sound, ItemBytes;
      bytes := [];
      for k := 0 to |lst|
        invariant bytes == Image(State(), k)
      {
        bytes := bytes + BytesOf(State(), k);
      }
    }
  }

  // An item's length.
  function ItemLen(b: Ntb, i: nat): nat
    requires Sound(b) && i < |b.lst|
    ensures Pos(b, i + 1) == Pos(b, i) + ItemLen(b, i)
  {
    |ItemBytes(b, b.lst[i])|
  }

  function BytesOf(b: Ntb, k: nat): seq<Byte>
    requires Sound(b) && k < |b.lst|
    ensures Image(b, k + 1) == Image(b, k) + BytesOf(b, k)
  {
    assert Knows(b, b.lst[k]);
    ItemBytes(b, b.lst[k])
  }

  lemma PadIs(b: Ntb, i: nat, miss: nat)
    requires Sound(b) && i <= |b.lst| && miss == (4 - Pos(b, i) % 4) % 4
    ensures PadAt(b, i) == if miss == 0 then b else b.(lst := b.lst[..i] + [Pad(miss)] + b.lst[i..])
  {
  }

  lemma FirstFound(b: Ntb, i: nat)
    requires Sound(b) && i < |b.lst| && b.lst[i].Table? && forall k :: 0 <= k < i ==> !b.lst[k].Table?
    ensures i > 0 && NextTable(b.lst, 0, |b.lst|) == Some(i)
  {
    assert b.lst[0] == Header;
    NextTableBound(b.lst, 0, |b.lst|);
  }
}
