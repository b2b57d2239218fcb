// What is built is what is read: wrapping a block and parsing its bytes, alone or in
// front of other blocks, gives every table's datagrams in the order of the chain.
module NtbProof {
  import opened Bytes
  import opened NtbParser
  import opened Ntb16

  // ---- what a block holds --------------------------------------------------------------

  function Datas(b: Ntb, dgs: seq<nat>): seq<seq<Byte>>
    requires forall j :: 0 <= j < |dgs| ==> dgs[j] < |b.dgs|
  {
    if dgs == [] then [] else [b.dgs[dgs[0]].data] + Datas(b, dgs[1..])
  }

  predicate ItemsKnown(b: Ntb, lst: seq<Item>) {
    && (forall k :: 0 <= k < |lst| ==> Knows(b, lst[k]))
    && (forall id, j :: 0 <= id < |b.ndps| && 0 <= j < |b.ndps[id].dgs| ==> b.ndps[id].dgs[j] < |b.dgs|)
  }

  // The datagrams attached to each listed table.
  function Content(b: Ntb, lst: seq<Item>): Tables
    requires ItemsKnown(b, lst)
  {
    if lst == [] then []
    else if lst[0].Table? then
      assert Knows(b, lst[0]);
      [Datas(b, b.ndps[lst[0].id].dgs)] + Content(b, lst[1..])
    else Content(b, lst[1..])
  }

  // Every attached datagram of a listed table is listed.
  predicate Closed(b: Ntb)
    requires Sound(b)
  {
    forall k, j :: 0 <= k < |b.lst| && b.lst[k].Table? && Knows(b, b.lst[k]) && 0 <= j < |b.ndps[b.lst[k].id].dgs| ==>
      Datagram(b.ndps[b.lst[k].id].dgs[j]) in b.lst
  }

  // No listed table is longer than the parser accepts.
  predicate Fits(b: Ntb)
    requires Sound(b)
  {
    forall k :: 0 <= k < |b.lst| && b.lst[k].Table? && Knows(b, b.lst[k]) ==> |b.ndps[b.lst[k].id].bv| <= NDP_MAX
  }

  // ---- 16 bit fields ----------------------------------------------------------------------

  lemma {:induction false} FilledEntry(bv: seq<Byte>, es: seq<(nat, nat)>, j: nat)
    requires |bv| >= 8 + 4 * |es| && j < |es|
    ensures Get16(Filled(bv, es), 8 + 4 * j) == es[j].0 % 65536
    ensures Get16(Filled(bv, es), 10 + 4 * j) == es[j].1 % 65536
    decreases |es|
  {
    hide Set16;
    var n := |es| - 1;
    var f := Filled(bv, es[..n]);
    var g := Set16(f, 8 + 4 * n, es[n].0);
    SetGet(f, 8 + 4 * n, es[n].0);
    SetGet(g, 10 + 4 * n, es[n].1);
    if j < n {
      FilledEntry(bv, es[..n], j);
      assert es[..n][j] == es[j];
    }
  }

  // ---- the image ----------------------------------------------------------------------------

  lemma {:induction false} ImageLength(b: Ntb, k: nat)
    requires Sound(b) && k <= |b.lst|
    ensures |Image(b, k)| == Pos(b, k)
  {
    hide Sound, ItemBytes;
    if k > 0 {
      ImageLength(b, k - 1);
    }
  }

  lemma ItemSize(b: Ntb, k: nat)
    requires Sound(b) && k < |b.lst|
    ensures Knows(b, b.lst[k]) && Pos(b, k + 1) == Pos(b, k) + |ItemBytes(b, b.lst[k])|
    ensures b.lst[k].Table? ==>
              |ItemBytes(b, b.lst[k])| >= 16 && Shaped(b.ndps[b.lst[k].id].bv, |b.ndps[b.lst[k].id].dgs|)
    ensures b.lst[k].Datagram? ==> ItemBytes(b, b.lst[k]) != []
    ensures k == 0 ==> b.lst[k] == Header && |ItemBytes(b, b.lst[k])| == NTH_LEN
  {
    hide Distinct;
    assert Knows(b, b.lst[k]);
  }

  // Item j stands at its place.
  lemma {:induction false} ImageAt(b: Ntb, j: nat, k: nat)
    requires Sound(b) && j < k <= |b.lst|
    ensures Knows(b, b.lst[j]) && Pos(b, j + 1) == Pos(b, j) + |ItemBytes(b, b.lst[j])|
    ensures Pos(b, j + 1) <= |Image(b, k)| && Image(b, k)[Pos(b, j)..Pos(b, j + 1)] == ItemBytes(b, b.lst[j])
  {
    hide Sound, ItemBytes, Pos, Image;
    ImageLength(b, k - 1);
    ItemSize(b, j);
    ItemSize(b, k - 1);
    ImageSnoc(b, k);
    if j < k - 1 {
      ImageAt(b, j, k - 1);
      SliceLeft(Image(b, k - 1), ItemBytes(b, b.lst[k - 1]), Pos(b, j), Pos(b, j + 1));
    } else {
      SliceRight(Image(b, k - 1), ItemBytes(b, b.lst[j]));
    }
  }

  lemma ImageSnoc(b: Ntb, k: nat)
    requires Sound(b) && 0 < k <= |b.lst|
    ensures Knows(b, b.lst[k - 1]) && Image(b, k) == Image(b, k - 1) + ItemBytes(b, b.lst[k - 1])
  {
    hide ItemBytes;
  }

  lemma SliceLeft<T>(a: seq<T>, b: seq<T>, i: nat, j: nat)
    requires i <= j <= |a|
    ensures (a + b)[i..j] == a[i..j]
  {
  }

  lemma SliceRight<T>(a: seq<T>, b: seq<T>)
    ensures (a + b)[|a|..|a| + |b|] == b
  {
  }

  lemma {:induction false} PosGrows(b: Ntb, j: nat, k: nat)
    requires Sound(b) && j <= k <= |b.lst|
    ensures Pos(b, j) <= Pos(b, k)
    ensures 0 < j ==> Pos(b, j) >= NTH_LEN
    ensures j < k && b.lst[j].Table? ==> Pos(b, j) + 16 <= Pos(b, k)
  {
    hide Sound, ItemBytes;
    if j < k {
      PosGrows(b, j, k - 1);
      ItemSize(b, k - 1);
    } else if j > 0 {
      PosGrows(b, j - 1, k - 1);
      ItemSize(b, j - 1);
    }
  }

  // ---- a block that is laid out properly ---------------------------------------------------------

  function IndexOf(lst: seq<Item>, it: Item): (i: nat)
    requires it in lst
    ensures i < |lst| && lst[i] == it
  {
    if lst[0] == it then 0 else 1 + IndexOf(lst[1..], it)
  }

  function LinkOf(d: Ntb, k: nat): nat
    requires Sound(d)
  {
    match NextTable(d.lst, k, |d.lst|)
    case None => 0
    case Some(t) => if t <= |d.lst| then Pos(d, t) else 0
  }

  // Entry j of the table at item k names the place and the size of its datagram.
  ghost predicate EntryLaid(d: Ntb, k: nat, j: nat)
    requires Sound(d) && k < |d.lst| && d.lst[k].Table?
  {
    && Knows(d, d.lst[k])
    && var n := d.ndps[d.lst[k].id];
       j < |n.dgs| && n.dgs[j] < |d.dgs| && |n.bv| == 12 + 4 * |n.dgs|
       && Datagram(n.dgs[j]) in d.lst
       && Get16(n.bv, 8 + 4 * j) == Pos(d, IndexOf(d.lst, Datagram(n.dgs[j])))
       && Get16(n.bv, 10 + 4 * j) == |d.dgs[n.dgs[j]].data|
  }

  ghost predicate TableLaid(d: Ntb, k: nat)
    requires Sound(d) && k < |d.lst| && d.lst[k].Table?
  {
    && Knows(d, d.lst[k])
    && var n := d.ndps[d.lst[k].id];
       Shaped(n.bv, |n.dgs|) && Get16(n.bv, 6) == LinkOf(d, k)
       && forall j :: 0 <= j < |n.dgs| ==> EntryLaid(d, k, j)
  }

  ghost predicate Laid(d: Ntb) {
    && Sound(d) && Pos(d, |d.lst|) < 65536
    && Get16(d.nth, 8) == Pos(d, |d.lst|) && Get16(d.nth, 10) == LinkOf(d, 0)
    && forall k :: 0 <= k < |d.lst| && d.lst[k].Table? ==> TableLaid(d, k)
  }

  function Stream(d: Ntb, rest: seq<Byte>): seq<Byte>
    requires Sound(d)
  {
    Image(d, |d.lst|) + rest
  }

  // ---- reading it ---------------------------------------------------------------------------------

  lemma StreamAt(d: Ntb, k: nat, rest: seq<Byte>)
    requires Sound(d) && k < |d.lst|
    ensures Knows(d, d.lst[k]) && Pos(d, k + 1) == Pos(d, k) + |ItemBytes(d, d.lst[k])|
    ensures Pos(d, k + 1) <= Pos(d, |d.lst|) <= |Stream(d, rest)|
    ensures Stream(d, rest)[Pos(d, k)..Pos(d, k + 1)] == ItemBytes(d, d.lst[k])
  {
    hide Sound, ItemBytes, Pos, Image;
    ImageAt(d, k, |d.lst|);
    ImageLength(d, |d.lst|);
    PosGrows(d, k + 1, |d.lst|);
    var s, p, q := Image(d, |d.lst|), Pos(d, k), Pos(d, k + 1);
    assert (s + rest)[p..q] == s[p..q];
  }

  // The place named by an entry holds the datagram.
  lemma DatagramAt(d: Ntb, i: nat, rest: seq<Byte>)
    requires Sound(d) && i < |d.lst| && d.lst[i].Datagram?
    ensures d.lst[i].id < |d.dgs|
    ensures var data := d.dgs[d.lst[i].id].data;
            data != [] && Pos(d, i) > 0 && Slice(Stream(d, rest), Pos(d, i), Pos(d, i) + |data|) == data
  {
    hide Sound, Image, Stream, Pos;
    StreamAt(d, i, rest);
    ItemSize(d, i);
    ItemSize(d, 0);
    PosGrows(d, i, i);
  }

  lemma ReadOneEntry(d: Ntb, k: nat, rest: seq<Byte>, j: nat)
    requires Sound(d) && k < |d.lst| && d.lst[k].Table? && EntryLaid(d, k, j)
    ensures var n := d.ndps[d.lst[k].id];
            ReadDgrams(Stream(d, rest), n.bv, j)
            == Prepend([d.dgs[n.dgs[j]].data], ReadDgrams(Stream(d, rest), n.bv, j + 1))
  {
    hide Sound, Image, Stream, Pos, Get16, Slice, IndexOf, Field, ReadDgrams;
    var n := d.ndps[d.lst[k].id];
    var i := IndexOf(d.lst, Datagram(n.dgs[j]));
    DatagramAt(d, i, rest);
    EntryField(n.bv, j, Pos(d, i), |d.dgs[n.dgs[j]].data|);
    ReadDgramsStep(Stream(d, rest), n.bv, j, Pos(d, i));
  }

  lemma EntryField(bv: seq<Byte>, j: nat, b: nat, size: nat)
    requires 11 + 4 * j < |bv| && Get16(bv, 8 + 4 * j) == b && Get16(bv, 10 + 4 * j) == size
    ensures Field(bv, j, 8 + 4 * j) == Some(b) && Field(bv, j, 10 + 4 * j) == Some(size)
  {
  }

  lemma {:induction false} ReadEntries(d: Ntb, k: nat, rest: seq<Byte>, j: nat)
    requires Sound(d) && k < |d.lst| && d.lst[k].Table? && TableLaid(d, k) && j <= |d.ndps[d.lst[k].id].dgs|
    ensures forall m :: 0 <= m < |d.ndps[d.lst[k].id].dgs| ==> d.ndps[d.lst[k].id].dgs[m] < |d.dgs|
    ensures var n := d.ndps[d.lst[k].id]; ReadDgrams(Stream(d, rest), n.bv, j) == Ok(Datas(d, n.dgs[j..]))
    decreases |d.ndps[d.lst[k].id].dgs| - j
  {
    hide Sound, Image, Stream, Pos, Get16, ReadDgrams, IndexOf, LinkOf, Field;
    var n := d.ndps[d.lst[k].id];
    forall m | 0 <= m < |n.dgs| ensures n.dgs[m] < |d.dgs| && EntryLaid(d, k, m) {
      assert EntryLaid(d, k, m);
    }
    if j < |n.dgs| {
      ReadEntries(d, k, rest, j + 1);
      ReadOneEntry(d, k, rest, j);
      assert n.dgs[j..][1..] == n.dgs[j + 1..];
    } else {
      Terminator(n.bv, j);
      ReadDgramsStep(Stream(d, rest), n.bv, j, 0);
      assert ReadDgrams(Stream(d, rest), n.bv, j) == Ok([]);
      assert n.dgs[j..] == [];
      assert Datas(d, n.dgs[j..]) == [];
    }
  }

  lemma Terminator(bv: seq<Byte>, n: nat)
    requires Shaped(bv, n)
    ensures Field(bv, n, 8 + 4 * n) == Some(0)
  {
  }

  // The table at item k stands at its place, and its own bytes are found again.
  lemma ReadTable(d: Ntb, k: nat, rest: seq<Byte>)
    requires Sound(d) && k < |d.lst| && d.lst[k].Table? && Pos(d, |d.lst|) < 65536
    ensures Knows(d, d.lst[k]) && Pos(d, k) > 0
    ensures var bv := d.ndps[d.lst[k].id].bv;
            ReadNdp(Slice(Stream(d, rest), Pos(d, k), Pos(d, |d.lst|))) == if |bv| <= NDP_MAX then Ok(bv) else Raises
  {
    hide Sound, Image, Stream, Pos;
    StreamAt(d, k, rest);
    ItemSize(d, k);
    ItemSize(d, 0);
    PosGrows(d, k, k);
    var p, e, s := Pos(d, k), Pos(d, |d.lst|), Stream(d, rest);
    var bv := d.ndps[d.lst[k].id].bv;
    assert s[p..e][..|bv|] == s[p..p + |bv|] == bv;
    assert Slice(s, p, e) == s[p..e];
    NdpRead(bv, |d.ndps[d.lst[k].id].dgs|, s[p..e]);
  }

  lemma NdpRead(bv: seq<Byte>, n: nat, l: seq<Byte>)
    requires Shaped(bv, n) && |bv| <= |l| && l[..|bv|] == bv && |bv| < 65536
    ensures ReadNdp(l) == if |bv| <= NDP_MAX then Ok(bv) else Raises
  {
    Digits(|bv|);
    assert forall k :: 0 <= k < |bv| ==> l[..|bv|][k] == l[k];
    assert l[..3] == bv[..3];
    assert Get16(l, 4) == |bv|;
    assert Slice(l, 0, |bv|) == bv;
  }

  // What the chain from item k on gives.
  function Expected(d: Ntb, k: nat): Result<Tables>
    requires ItemsKnown(d, d.lst) && k < |d.lst| && d.lst[k].Table?
    decreases |d.lst| - k
  {
    assert Knows(d, d.lst[k]);
    NextTableBound(d.lst, k, |d.lst|);
    var n := d.ndps[d.lst[k].id];
    if |n.bv| > NDP_MAX then Raises
    else match NextTable(d.lst, k, |d.lst|)
         case None => Ok([Datas(d, n.dgs)])
         case Some(t) => Prepend([Datas(d, n.dgs)], Expected(d, t))
  }

  predicate TablesIn(d: Ntb, k: nat, left: set<nat>)
    requires Sound(d)
  {
    forall t :: k <= t < |d.lst| && d.lst[t].Table? ==> Pos(d, t) in left
  }

  lemma SoundKnown(d: Ntb)
    requires Sound(d)
    ensures ItemsKnown(d, d.lst)
  {
  }

  lemma {:induction false} ReadFrom(d: Ntb, k: nat, rest: seq<Byte>, left: set<nat>)
    requires Laid(d) && k < |d.lst| && d.lst[k].Table? && TablesIn(d, k, left)
    ensures ItemsKnown(d, d.lst)
    ensures ReadChain(Stream(d, rest), Pos(d, k), Pos(d, |d.lst|), left) == Expected(d, k)
    decreases |d.lst| - k
  {
    hide Sound, Image, Stream, Pos, Get16, ReadDgrams, ReadNdp, Slice, EntryLaid, Shaped, Datas, NextTable,
      ReadChain, ItemsKnown;
    SoundKnown(d);
    assert TableLaid(d, k);
    ReadTable(d, k, rest);
    NextTableBound(d.lst, k, |d.lst|);
    ItemSize(d, k);
    var n, s, b, e := d.ndps[d.lst[k].id], Stream(d, rest), Pos(d, k), Pos(d, |d.lst|);
    if |n.bv| <= NDP_MAX {
      ReadChainStep(s, b, e, left, n.bv);
      ReadEntries(d, k, rest, 0);
      assert n.dgs[0..] == n.dgs;
      match NextTable(d.lst, k, |d.lst|)
      case None =>
        ChainEnds(s, e, left - {b});
        PrependLast(Datas(d, n.dgs));
      case Some(t) =>
        LaterTables(d, k, t, left);
        ReadFrom(d, t, rest, left - {b});
    } else {
      ChainRaises(s, b, e, left);
    }
  }

  lemma PrependLast<T>(x: T)
    ensures Prepend([x], Ok([])) == Ok([x])
  {
    assert [x] + [] == [x];
  }

  lemma ChainEnds(l: seq<Byte>, e: nat, left: set<nat>)
    ensures ReadChain(l, 0, e, left) == Ok([])
  {
  }

  lemma ChainRaises(l: seq<Byte>, b: nat, e: nat, left: set<nat>)
    requires b != 0 && b in left && ReadNdp(Slice(l, b, e)).Raises?
    ensures ReadChain(l, b, e, left) == Raises
  {
  }

  lemma LaterTables(d: Ntb, k: nat, t: nat, left: set<nat>)
    requires Sound(d) && k < t < |d.lst| && d.lst[k].Table? && TablesIn(d, k, left)
    ensures TablesIn(d, t, left - {Pos(d, k)})
  {
    hide Sound, Pos;
    forall m | t <= m < |d.lst| && d.lst[m].Table? ensures Pos(d, m) in left - {Pos(d, k)} {
      PosGrows(d, k, m);
    }
  }

  // ---- wrapping lays a block out properly -------------------------------------------------------

  // A block ready to be sent: what was built (a), laid out (c) and finished (d).
  ghost predicate Sent(a: Ntb, c: Ntb, d: Ntb) {
    && Sound(a) && Unlinked(a) && Closed(a) && Finished(a, c, d, true)
    && Sound(d) && Pos(d, |d.lst|) < 65536
  }

  lemma {:induction false} PatchedPos(c: Ntb, d: Ntb, length: nat, k: nat)
    requires Sound(c) && Sound(d) && Patched(c, d, length, |c.lst|) && k <= |c.lst|
    ensures Pos(d, k) == Pos(c, k)
  {
    hide Sound, Patched, ItemBytes;
    if k > 0 {
      PatchedPos(c, d, length, k - 1);
      PatchedSize(c, d, length, k - 1);
      ItemSize(c, k - 1);
      ItemSize(d, k - 1);
    }
  }

  lemma PatchedSize(c: Ntb, d: Ntb, length: nat, k: nat)
    requires Sound(c) && Sound(d) && Patched(c, d, length, |c.lst|) && k < |c.lst|
    ensures d.lst == c.lst && Knows(c, c.lst[k]) && Knows(d, c.lst[k])
    ensures |ItemBytes(d, c.lst[k])| == |ItemBytes(c, c.lst[k])|
  {
    hide Distinct, Pos, Entries, NextTable;
    assert Knows(c, c.lst[k]) && Knows(d, d.lst[k]);
    if c.lst[k].Table? {
      assert TableDone(c, d, k, |c.lst|);
    }
  }

  // A finished table's link and entries.
  lemma FinishedTable(c: Ntb, d: Ntb, length: nat, k: nat)
    requires Sound(c) && Sound(d) && Patched(c, d, length, |c.lst|) && k < |c.lst| && c.lst[k].Table?
    requires Pos(c, |c.lst|) < 65536
    ensures d.lst == c.lst && Knows(c, c.lst[k]) && Knows(d, c.lst[k])
    ensures var m, n := c.ndps[c.lst[k].id], d.ndps[c.lst[k].id];
            && n.dgs == m.dgs && Shaped(n.bv, |n.dgs|) && |m.bv| == |n.bv|
            && (m.bv[6] == 0 && m.bv[7] == 0 ==> Get16(n.bv, 6) == LinkOf(c, k))
            && forall j :: 0 <= j < |m.dgs| ==>
                 && m.dgs[j] < |c.dgs| && 11 + 4 * j < |n.bv|
                 && Get16(n.bv, 8 + 4 * j) == c.dgs[m.dgs[j]].idx % 65536
                 && Get16(n.bv, 10 + 4 * j) == |c.dgs[m.dgs[j]].data| % 65536
  {
    hide Distinct, Pos, NextTable, Set16, Filled, Shaped, HeaderBytes;
    assert TableDone(c, d, k, |c.lst|);
    assert Knows(c, c.lst[k]) && Knows(d, d.lst[k]);
    var m, n := c.ndps[c.lst[k].id], d.ndps[c.lst[k].id];
    ItemSize(c, k);
    ShapedSize(m.bv, |m.dgs|);
    EntriesKnown(c, c.lst[k].id);
    var es := Entries(c, m.dgs);
    var filled := Filled(m.bv, es);
    TableShaped(c, k, |c.lst|);
    ShapedSize(n.bv, |n.dgs|);
    LinkWritten(c, filled, k);
    FilledKeeps(m.bv, es, 6);
    FilledKeeps(m.bv, es, 7);
    forall j | 0 <= j < |m.dgs|
      ensures 11 + 4 * j < |n.bv|
      ensures Get16(n.bv, 8 + 4 * j) == c.dgs[m.dgs[j]].idx % 65536
      ensures Get16(n.bv, 10 + 4 * j) == |c.dgs[m.dgs[j]].data| % 65536
    {
      FilledEntry(m.bv, es, j);
      assert es[j] == (c.dgs[m.dgs[j]].idx, |c.dgs[m.dgs[j]].data|);
    }
  }

  lemma ShapedSize(bv: seq<Byte>, n: nat)
    requires Shaped(bv, n)
    ensures |bv| >= 12 + 4 * n && |bv| >= 16 && (n > 0 ==> |bv| == 12 + 4 * n)
  {
  }

  lemma LinkWritten(c: Ntb, bv: seq<Byte>, k: nat)
    requires Sound(c) && k < |c.lst| && |bv| >= 16 && Pos(c, |c.lst|) < 65536
    ensures var next := NextTable(c.lst, k, |c.lst|);
            && (next.Some? ==> next.value < |c.lst|)
            && var w := Linked(c, bv, 6, next);
               |w| == |bv| && (forall i :: 8 <= i < |bv| ==> w[i] == bv[i])
               && (bv[6] == 0 && bv[7] == 0 ==> Get16(w, 6) == LinkOf(c, k))
  {
    hide Sound, Set16, NextTable, Pos;
    NextTableBound(c.lst, k, |c.lst|);
    match NextTable(c.lst, k, |c.lst|)
    case None =>
    case Some(t) =>
      SetGet(bv, 6, Pos(c, t));
      PosGrows(c, t, |c.lst|);
  }

  lemma PadItems(a: Ntb, i: nat, it: Item)
    requires Sound(a) && i <= |a.lst| && !it.Pad?
    ensures it in PadAt(a, i).lst <==> it in a.lst
  {
    hide Sound, Pos;
    var lst := PadAt(a, i).lst;
    if Missing(a, i) != 0 {
      assert a.lst == a.lst[..i] + a.lst[i..];
      assert it in lst <==> it in a.lst[..i] || it in a.lst[i..];
    }
  }

  // The laid out block: the objects of a, a padded list.
  lemma FinishedParts(a: Ntb, c: Ntb, d: Ntb, hasBlockLen: bool) returns (i: nat)
    requires Sound(a) && Finished(a, c, d, hasBlockLen)
    ensures 0 < i < |a.lst| && NextTable(a.lst, 0, |a.lst|) == Some(i) && a.lst[i].Table?
    ensures Sound(PadAt(a, i)) && Sound(c) && Placed(PadAt(a, i), c)
    ensures Patched(c, d, if hasBlockLen then Pos(c, |c.lst|) else 0, |c.lst|) && d.lst == c.lst == PadAt(a, i).lst
    ensures SameBytes(a, c)
  {
    hide Pos, Sound, PlacedAt, TableDone, HeaderBytes, NextTable;
    NextTableBound(a.lst, 0, |a.lst|);
    i := NextTable(a.lst, 0, |a.lst|).value;
  }

  lemma SentParts(a: Ntb, c: Ntb, d: Ntb) returns (i: nat)
    requires Sent(a, c, d)
    ensures 0 < i < |a.lst| && NextTable(a.lst, 0, |a.lst|) == Some(i) && a.lst[i].Table?
    ensures Sound(PadAt(a, i)) && Sound(c) && Placed(PadAt(a, i), c)
    ensures Patched(c, d, Pos(c, |c.lst|), |c.lst|) && d.lst == c.lst == PadAt(a, i).lst
    ensures SameBytes(a, c) && Pos(c, |c.lst|) < 65536
  {
    hide Pos, Sound, Closed, Unlinked, Finished, Patched, Placed, PadAt, SameBytes, NextTable;
    i := FinishedParts(a, c, d, true);
    PatchedPos(c, d, Pos(c, |c.lst|), |c.lst|);
  }

  lemma SentEntry(a: Ntb, c: Ntb, d: Ntb, k: nat, j: nat)
    requires Sent(a, c, d) && k < |d.lst| && d.lst[k].Table? && Knows(d, d.lst[k]) && j < |d.ndps[d.lst[k].id].dgs|
    ensures EntryLaid(d, k, j)
  {
    hide Sound, Patched, Placed, PadAt, Pos, NextTable, Sent, Finished, Unlinked, LinkOf, SameBytes, Get16, Shaped,
      Closed;
    assert Sound(a) && Sound(d) && Closed(a) by { SentSound(a, c, d); }
    var i := SentParts(a, c, d);
    var length := Pos(c, |c.lst|);
    FinishedTable(c, d, length, k);
    ShapedSize(d.ndps[d.lst[k].id].bv, |d.ndps[d.lst[k].id].dgs|);
    var x := d.ndps[d.lst[k].id].dgs[j];
    PadItems(a, i, d.lst[k]);
    SentObjects(a, c, d);
    ClosedAt(a, d.lst[k].id, j);
    PadItems(a, i, Datagram(x));
    var p := IndexOf(d.lst, Datagram(x));
    PlaceKnown(PadAt(a, i), c, p);
    PatchedPos(c, d, length, p);
    ItemSize(c, p);
    PosGrows(c, p + 1, |c.lst|);
    assert d.dgs == c.dgs by { PatchedDgs(c, d, length); }
  }

  lemma SentSound(a: Ntb, c: Ntb, d: Ntb)
    requires Sent(a, c, d)
    ensures Sound(a) && Sound(d) && Closed(a) && Unlinked(a) && Pos(d, |d.lst|) < 65536
  {
  }

  lemma PatchedDgs(c: Ntb, d: Ntb, length: nat)
    requires Sound(c) && Patched(c, d, length, |c.lst|)
    ensures d.dgs == c.dgs && |d.ndps| == |c.ndps|
  {
  }

  lemma ClosedAt(a: Ntb, id: nat, j: nat)
    requires Sound(a) && Closed(a) && Table(id) in a.lst && id < |a.ndps| && j < |a.ndps[id].dgs|
    ensures Datagram(a.ndps[id].dgs[j]) in a.lst
  {
    var k :| 0 <= k < |a.lst| && a.lst[k] == Table(id);
    assert Knows(a, a.lst[k]);
  }

  lemma PlaceKnown(b: Ntb, c: Ntb, p: nat)
    requires Sound(b) && Sound(c) && Placed(b, c) && p < |b.lst| && b.lst[p].Datagram?
    ensures c.lst == b.lst && Knows(c, c.lst[p]) && c.dgs[c.lst[p].id].idx == Pos(c, p)
  {
    hide Distinct, Shaped, Pos;
    assert PlacedAt(b, c, p);
    PlacedPos(b, c, p);
    assert Knows(c, c.lst[p]);
  }

  lemma SentTable(a: Ntb, c: Ntb, d: Ntb, k: nat)
    requires Sent(a, c, d) && k < |d.lst| && d.lst[k].Table?
    ensures TableLaid(d, k)
  {
    hide Sound, Patched, Placed, PadAt, Pos, NextTable, Sent, Finished, EntryLaid, Closed;
    SentSound(a, c, d);
    var i := SentParts(a, c, d);
    var length := Pos(c, |c.lst|);
    FinishedTable(c, d, length, k);
    NextTableBound(d.lst, k, |d.lst|);
    if NextTable(d.lst, k, |d.lst|).Some? {
      PatchedPos(c, d, length, NextTable(d.lst, k, |d.lst|).value);
    }
    forall j | 0 <= j < |d.ndps[d.lst[k].id].dgs| ensures EntryLaid(d, k, j) {
      SentEntry(a, c, d, k, j);
    }
  }

  lemma SentHeader(a: Ntb, c: Ntb, d: Ntb)
    requires Sent(a, c, d)
    ensures |d.nth| == NTH_LEN && Get16(d.nth, 8) == Pos(d, |d.lst|) && Get16(d.nth, 10) == LinkOf(d, 0)
  {
    hide Sound, Placed, PadAt, Pos, NextTable, Sent, Finished, EntryLaid, Closed, TableDone, Set16;
    SentSound(a, c, d);
    var i := SentParts(a, c, d);
    var length := Pos(c, |c.lst|);
    NextTableBound(c.lst, 0, |c.lst|);
    PatchedPos(c, d, length, |c.lst|);
    ItemSize(c, 0);
    SetGet(c.nth, 8, length);
    PadItems(a, i, a.lst[i]);
    match NextTable(c.lst, 0, |c.lst|)
    case None =>
    case Some(t) =>
      SetGet(Set16(c.nth, 8, length), 10, Pos(c, t));
      PosGrows(c, t, |c.lst|);
      PatchedPos(c, d, length, t);
  }

  // Wrapping puts the block's length, every link and every entry right.
  lemma SentLaid(a: Ntb, c: Ntb, d: Ntb)
    requires Sent(a, c, d)
    ensures Laid(d)
  {
    hide Sound, Pos, Sent, TableLaid, LinkOf, Closed, Unlinked, Get16;
    SentSound(a, c, d);
    SentHeader(a, c, d);
    forall k | 0 <= k < |d.lst| && d.lst[k].Table? ensures TableLaid(d, k) {
      SentTable(a, c, d, k);
    }
  }

  // ---- what is read is what was built -------------------------------------------------------------

  predicate FitsFrom(d: Ntb, k: nat)
    requires ItemsKnown(d, d.lst)
  {
    forall t :: k <= t < |d.lst| && d.lst[t].Table? && Knows(d, d.lst[t]) ==> |d.ndps[d.lst[t].id].bv| <= NDP_MAX
  }

  lemma {:induction false} ContentSkips(b: Ntb, k: nat, t: nat)
    requires ItemsKnown(b, b.lst) && k <= t <= |b.lst| && forall m :: k <= m < t ==> !b.lst[m].Table?
    ensures ItemsKnown(b, b.lst[k..]) && ItemsKnown(b, b.lst[t..]) && Content(b, b.lst[k..]) == Content(b, b.lst[t..])
    decreases t - k
  {
    SliceKnown(b, k);
    SliceKnown(b, t);
    hide ItemsKnown, Datas;
    if k < t {
      ContentSkips(b, k + 1, t);
      assert b.lst[k..][1..] == b.lst[k + 1..] && b.lst[k..][0] == b.lst[k];
    }
  }

  lemma SliceKnown(b: Ntb, k: nat)
    requires ItemsKnown(b, b.lst) && k <= |b.lst|
    ensures ItemsKnown(b, b.lst[k..]) && (k < |b.lst| ==> Knows(b, b.lst[k]))
  {
  }

  lemma {:induction false} ExpectedContent(d: Ntb, k: nat)
    requires ItemsKnown(d, d.lst) && k < |d.lst| && d.lst[k].Table?
    ensures ItemsKnown(d, d.lst[k..])
    ensures Expected(d, k) == if FitsFrom(d, k) then Ok(Content(d, d.lst[k..])) else Raises
    decreases |d.lst| - k
  {
    hide ItemsKnown, Datas, NextTable;
    SliceKnown(d, k);
    SliceKnown(d, k + 1);
    NextTableBound(d.lst, k, |d.lst|);
    assert d.lst[k..][1..] == d.lst[k + 1..] && d.lst[k..][0] == d.lst[k];
    match NextTable(d.lst, k, |d.lst|)
    case None =>
      ContentSkips(d, k + 1, |d.lst|);
      assert d.lst[|d.lst|..] == [];
      PrependLast(Datas(d, d.ndps[d.lst[k].id].dgs));
      FitsStep(d, k, |d.lst|);
    case Some(t) =>
      ContentSkips(d, k + 1, t);
      ExpectedContent(d, t);
      FitsStep(d, k, t);
  }

  lemma FitsStep(d: Ntb, k: nat, t: nat)
    requires ItemsKnown(d, d.lst) && k < t <= |d.lst| && d.lst[k].Table? && forall m :: k < m < t ==> !d.lst[m].Table?
    ensures Knows(d, d.lst[k])
    ensures FitsFrom(d, k) <==> |d.ndps[d.lst[k].id].bv| <= NDP_MAX && FitsFrom(d, t)
  {
    assert Knows(d, d.lst[k]);
  }

  // Content depends on the lists of datagrams and their data alone, and not on padding.
  predicate SameContent(a: Ntb, d: Ntb) {
    && |a.ndps| == |d.ndps| && |a.dgs| == |d.dgs|
    && (forall id :: 0 <= id < |a.ndps| ==> d.ndps[id].dgs == a.ndps[id].dgs)
    && (forall id :: 0 <= id < |a.dgs| ==> d.dgs[id].data == a.dgs[id].data)
  }

  lemma {:induction false} DatasSame(a: Ntb, d: Ntb, dgs: seq<nat>)
    requires SameContent(a, d) && forall j :: 0 <= j < |dgs| ==> dgs[j] < |a.dgs|
    ensures Datas(a, dgs) == Datas(d, dgs)
  {
    if dgs != [] {
      DatasSame(a, d, dgs[1..]);
    }
  }

  lemma {:induction false} ContentSame(a: Ntb, d: Ntb, lst: seq<Item>)
    requires SameContent(a, d) && ItemsKnown(a, lst)
    ensures ItemsKnown(d, lst) && Content(d, lst) == Content(a, lst)
  {
    if lst != [] {
      assert Knows(a, lst[0]);
      if lst[0].Table? {
        DatasSame(a, d, a.ndps[lst[0].id].dgs);
      }
      ContentSame(a, d, lst[1..]);
    }
  }

  lemma {:induction false} ContentConcat(b: Ntb, x: seq<Item>, y: seq<Item>)
    requires ItemsKnown(b, x) && ItemsKnown(b, y)
    ensures ItemsKnown(b, x + y) && Content(b, x + y) == Content(b, x) + Content(b, y)
  {
    if x == [] {
      assert x + y == y;
    } else {
      assert (x + y)[1..] == x[1..] + y && Knows(b, x[0]);
      ContentConcat(b, x[1..], y);
    }
  }

  lemma ContentPadded(a: Ntb, i: nat)
    requires Sound(a) && i <= |a.lst|
    ensures ItemsKnown(a, a.lst) && ItemsKnown(a, PadAt(a, i).lst) && Content(a, PadAt(a, i).lst) == Content(a, a.lst)
  {
    SoundKnown(a);
    hide Sound, Pos;
    if Missing(a, i) != 0 {
      var x, p, y := a.lst[..i], [Pad(Missing(a, i))], a.lst[i..];
      assert ItemsKnown(a, x) && ItemsKnown(a, p) && ItemsKnown(a, y);
      hide ItemsKnown;
      ContentConcat(a, x, y);
      ContentConcat(a, x, p);
      ContentConcat(a, x + p, y);
      assert x + y == a.lst;
      assert Content(a, p) == [] by { assert p[1..] == []; }
      assert Content(a, x) + [] == Content(a, x);
    }
  }

  // Objects before and after.
  lemma SentObjects(a: Ntb, c: Ntb, d: Ntb)
    requires Sent(a, c, d)
    ensures SameContent(a, d) && forall id :: 0 <= id < |a.ndps| ==> |d.ndps[id].bv| == |a.ndps[id].bv|
  {
    hide Pos, Sound, Sent, Placed, Patched, Closed, Unlinked, NextTable, Finished;
    SentSound(a, c, d);
    var i := SentParts(a, c, d);
    DoneSizes(c, d, Pos(c, |c.lst|), |c.lst|);
    PatchedAttached(c, d, Pos(c, |c.lst|));
  }

  lemma PatchedAttached(c: Ntb, d: Ntb, length: nat)
    requires Sound(c) && Patched(c, d, length, |c.lst|)
    ensures |d.ndps| == |c.ndps| && d.dgs == c.dgs
    ensures forall id :: 0 <= id < |d.ndps| ==> d.ndps[id].dgs == c.ndps[id].dgs
  {
    hide Pos, Sound, TableBytes, HeaderBytes;
    forall id | 0 <= id < |d.ndps| ensures d.ndps[id].dgs == c.ndps[id].dgs {
      if Table(id) in c.lst[..|c.lst|] {
        var j :| 0 <= j < |c.lst| && c.lst[j] == Table(id);
        assert TableDone(c, d, j, |c.lst|);
      }
    }
  }

  lemma SentFits(a: Ntb, c: Ntb, d: Ntb, t: nat)
    requires Sent(a, c, d) && NextTable(d.lst, 0, |d.lst|) == Some(t)
    ensures ItemsKnown(d, d.lst) && (Fits(a) <==> FitsFrom(d, t))
  {
    hide Pos, Sent, Sound, Closed, Unlinked, Patched, Placed, PadAt, SameBytes, NextTable, Shaped;
    SentSound(a, c, d);
    SentObjects(a, c, d);
    SoundKnown(d);
    SoundKnown(a);
    var i := SentParts(a, c, d);
    NextTableBound(d.lst, 0, |d.lst|);
    ItemSize(d, 0);
    if FitsFrom(d, t) {
      forall k | 0 <= k < |a.lst| && a.lst[k].Table? && Knows(a, a.lst[k])
        ensures |a.ndps[a.lst[k].id].bv| <= NDP_MAX
      {
        PadItems(a, i, a.lst[k]);
        var m :| 0 <= m < |d.lst| && d.lst[m] == a.lst[k];
        assert m >= t && Knows(d, d.lst[m]);
      }
    }
    if Fits(a) {
      forall m | t <= m < |d.lst| && d.lst[m].Table? && Knows(d, d.lst[m])
        ensures |d.ndps[d.lst[m].id].bv| <= NDP_MAX
      {
        PadItems(a, i, d.lst[m]);
        var k :| 0 <= k < |a.lst| && a.lst[k] == d.lst[m];
        assert Knows(a, a.lst[k]);
      }
    }
  }

  // The round trip.  A finished block, whatever follows it, is read back as exactly the
  // datagrams that were attached to its tables, in the order of the list, if and only if
  // no table is longer than the parser's limit; otherwise the parser refuses it.
  lemma RoundTrip(a: Ntb, c: Ntb, d: Ntb, rest: seq<Byte>)
    requires Sent(a, c, d)
    ensures ItemsKnown(a, a.lst)
    ensures ReadBlock(Stream(d, rest)) ==
            if Fits(a) then Ok(Block(Content(a, a.lst), |Image(d, |d.lst|)|)) else Raises
  {
    hide Pos, Sent, Sound, Closed, Unlinked, Patched, Placed, PadAt, SameBytes, NextTable, Shaped, Image, Expected,
      ReadChain, FitsFrom, Content, TableLaid, AllOffsets, Fits, ItemsKnown, Get16, SameContent;
    SentSound(a, c, d);
    SentLaid(a, c, d);
    var i := SentParts(a, c, d);
    NextTableBound(d.lst, 0, |d.lst|);
    PadItems(a, i, a.lst[i]);
    TableListed(d, a.lst[i]);
    var t := NextTable(d.lst, 0, |d.lst|).value;
    SoundKnown(a);
    SoundKnown(d);
    AllTablesIn(d, t);
    ReadFrom(d, t, rest, AllOffsets());
    ExpectedContent(d, t);
    SentFits(a, c, d, t);
    FirstContent(d, t);
    ContentPadded(a, i);
    SentObjects(a, c, d);
    ContentSame(a, d, d.lst);
    ImageLength(d, |d.lst|);
    HeaderRead(d, rest);
  }

  lemma TableListed(d: Ntb, it: Item)
    requires Sound(d) && it in d.lst && it.Table?
    ensures NextTable(d.lst, 0, |d.lst|).Some?
  {
    NextTableBound(d.lst, 0, |d.lst|);
    var m :| 0 <= m < |d.lst| && d.lst[m] == it;
    HeaderIsFirst(d, m);
  }

  lemma AllTablesIn(d: Ntb, t: nat)
    requires Sound(d) && Pos(d, |d.lst|) < 65536
    ensures TablesIn(d, t, AllOffsets())
  {
    hide Sound, Pos;
    forall m | t <= m < |d.lst| && d.lst[m].Table? ensures Pos(d, m) in AllOffsets() {
      PosGrows(d, m, |d.lst|);
      assert IsOffset(Pos(d, m));
    }
  }

  lemma FirstContent(d: Ntb, t: nat)
    requires ItemsKnown(d, d.lst) && NextTable(d.lst, 0, |d.lst|) == Some(t) && Sound(d)
    ensures t < |d.lst| && ItemsKnown(d, d.lst[t..]) && Content(d, d.lst[t..]) == Content(d, d.lst)
  {
    hide NextTable, Content, Shaped, Distinct;
    NextTableBound(d.lst, 0, |d.lst|);
    assert d.lst[0] == Header;
    ContentSkips(d, 0, t);
    assert d.lst[0..] == d.lst;
  }

  lemma HeaderRead(d: Ntb, rest: seq<Byte>)
    requires Sound(d)
    ensures var s := Stream(d, rest);
            |s| >= NTH_LEN && s[..4] == NTH_SIG && Get16(s, 4) == NTH_LEN
            && Get16(s, 8) == Get16(d.nth, 8) && Get16(s, 10) == Get16(d.nth, 10)
  {
    StreamAt(d, 0, rest);
    HeaderIsFirst(d, 0);
    hide Stream, Image, Distinct;
    var s := Stream(d, rest);
    assert s[0..NTH_LEN] == d.nth;
    assert forall k :: 0 <= k < NTH_LEN ==> s[0..NTH_LEN][k] == s[k];
    assert s[..4] == d.nth[..4];
  }

  // ---- offsets -------------------------------------------------------------------------------------

  lemma {:induction false} PadPos(a: Ntb, i: nat, j: nat)
    requires Sound(a) && 0 < i <= |a.lst| && j <= i
    ensures Sound(PadAt(a, i)) && Pos(PadAt(a, i), j) == Pos(a, j)
  {
    hide Sound, PadAt, ItemBytes, Pos, Knows;
    PadSound(a, i);
    PosZero(a);
    PosZero(PadAt(a, i));
    if j > 0 {
      PadPos(a, i, j - 1);
      PadKeepsItem(a, i, j - 1);
      ItemSize(a, j - 1);
      ItemSize(PadAt(a, i), j - 1);
    }
  }

  lemma PadKeepsItem(a: Ntb, i: nat, j: nat)
    requires Sound(a) && j < i <= |a.lst|
    ensures j < |PadAt(a, i).lst| && PadAt(a, i).lst[j] == a.lst[j]
    ensures Knows(a, a.lst[j]) && Knows(PadAt(a, i), a.lst[j])
    ensures ItemBytes(PadAt(a, i), a.lst[j]) == ItemBytes(a, a.lst[j])
  {
    hide Missing, Pos, Shaped, Distinct;
    assert Knows(a, a.lst[j]);
  }

  // The header points at the first table, on a multiple of 4.
  lemma FirstTableAligned(a: Ntb, c: Ntb, d: Ntb)
    requires Sent(a, c, d)
    ensures |d.nth| == NTH_LEN && Get16(d.nth, 10) > 0 && Get16(d.nth, 10) % 4 == 0
  {
    hide Pos, Sent, Sound, Closed, Unlinked, Patched, Placed, SameBytes, NextTable, Shaped, TableLaid, Get16;
    SentSound(a, c, d);
    var i := SentParts(a, c, d);
    SentHeader(a, c, d);
    FirstAligned(a, d, i);
    PatchedPosAt(a, c, d, i);
  }

  // In a finished block every stored link, a table's or the header's, is 0 or points
  // further up, inside the block.
  lemma OffsetsIncrease(a: Ntb, c: Ntb, d: Ntb, k: nat)
    requires Sent(a, c, d) && k < |d.lst| && d.lst[k].Table?
    ensures Knows(d, d.lst[k]) && |d.nth| == NTH_LEN && |d.ndps[d.lst[k].id].bv| >= 8
    ensures var link := Get16(d.ndps[d.lst[k].id].bv, 6);
            link == 0 || Pos(d, k) < link < Get16(d.nth, 8)
    ensures 0 < Get16(d.nth, 10) < Get16(d.nth, 8)
  {
    hide Pos, Sent, Sound, NextTable, Closed, Unlinked, Patched, Placed, Get16, LinkOf, EntryLaid;
    SentSound(a, c, d);
    SentLaid(a, c, d);
    assert TableLaid(d, k);
    SentHeader(a, c, d);
    FirstTableAligned(a, c, d);
    LinksRise(d, k);
    HeaderIsFirst(d, 0);
    LinksRise(d, 0);
  }

  lemma LinksRise(d: Ntb, k: nat)
    requires Sound(d) && k < |d.lst| && (d.lst[k].Table? || k == 0)
    ensures LinkOf(d, k) == 0 || Pos(d, k) < LinkOf(d, k) < Pos(d, |d.lst|)
  {
    hide Pos, Sound, NextTable;
    NextTableBound(d.lst, k, |d.lst|);
    match NextTable(d.lst, k, |d.lst|)
    case None =>
    case Some(t) =>
      PosRises(d, k, t);
      PosGrows(d, t, |d.lst|);
  }

  // Items before a later one that is not empty lie strictly lower.
  lemma PosRises(d: Ntb, k: nat, t: nat)
    requires Sound(d) && k < t <= |d.lst| && (d.lst[k].Table? || k == 0)
    ensures Pos(d, k) < Pos(d, t)
  {
    hide Pos, Sound;
    if k == 0 {
      ItemSize(d, 0);
      PosGrows(d, 1, t);
      PosZero(d);
    } else {
      PosGrows(d, k, t);
    }
  }

  lemma PosZero(d: Ntb)
    requires Sound(d)
    ensures Pos(d, 0) == 0
  {
  }

  // The first table of the padded list.
  lemma FirstAligned(a: Ntb, d: Ntb, i: nat)
    requires Sound(a) && Sound(d) && NextTable(a.lst, 0, |a.lst|) == Some(i) && 0 < i < |a.lst|
      && d.lst == PadAt(a, i).lst
    ensures Sound(PadAt(a, i))
    ensures NextTable(d.lst, 0, |d.lst|).Some?
    ensures var t := NextTable(d.lst, 0, |d.lst|).value; 0 < t < |d.lst| && Pos(PadAt(a, i), t) % 4 == 0
  {
    hide Sound, NextTable, Pos, Missing;
    NextTableBound(a.lst, 0, |a.lst|);
    NextTableBound(d.lst, 0, |d.lst|);
    HeaderIsFirst(a, 0);
    PadPos(a, i, i);
    PadSize(a, i);
    var t := if Missing(a, i) == 0 then i else i + 1;
    assert d.lst[t] == a.lst[i];
    assert forall m :: 0 < m < t ==> !d.lst[m].Table?;
  }

  lemma PadSize(a: Ntb, i: nat)
    requires Sound(a) && 0 < i < |a.lst| && Sound(PadAt(a, i)) && Pos(PadAt(a, i), i) == Pos(a, i)
    ensures if Missing(a, i) == 0 then Pos(PadAt(a, i), i) % 4 == 0 else Pos(PadAt(a, i), i + 1) % 4 == 0
  {
    hide Sound, Pos;
    if Missing(a, i) != 0 {
      var b := PadAt(a, i);
      assert b.lst[i] == Pad(Missing(a, i));
      ItemSize(b, i);
      RoundsUp(Pos(a, i));
    }
  }

  lemma RoundsUp(p: nat)
    ensures (p + (4 - p % 4) % 4) % 4 == 0
  {
  }

  lemma PatchedPosAt(a: Ntb, c: Ntb, d: Ntb, i: nat)
    requires Sent(a, c, d) && NextTable(a.lst, 0, |a.lst|) == Some(i)
    requires NextTable(d.lst, 0, |d.lst|).Some? && 0 < NextTable(d.lst, 0, |d.lst|).value < |d.lst|
    requires 0 < i < |a.lst| && Sound(PadAt(a, i))
    ensures d.lst == PadAt(a, i).lst
    ensures var t := NextTable(d.lst, 0, |d.lst|).value; LinkOf(d, 0) == Pos(PadAt(a, i), t) > 0
  {
    hide Pos, Sent, Sound, Closed, Unlinked, Patched, PadAt, SameBytes, NextTable, PlacedAt;
    SentSound(a, c, d);
    var i' := SentParts(a, c, d);
    var t := NextTable(d.lst, 0, |d.lst|).value;
    PatchedPos(c, d, Pos(c, |c.lst|), t);
    PlacedPos(PadAt(a, i), c, t);
    PosGrows(d, t, t);
  }

  // ---- without a block length ------------------------------------------------------------------------

  // A block wrapped without its length cannot be read: the parser takes the length for
  // the end of every table.
  lemma NoLengthRaises(a: Ntb, c: Ntb, d: Ntb, rest: seq<Byte>)
    requires Sound(a) && Finished(a, c, d, false) && Sound(d) && Pos(d, |d.lst|) < 65536
    ensures ReadBlock(Stream(d, rest)) == Raises
  {
    hide Pos, Sound, Placed, PadAt, NextTable, Get16, Stream, SameBytes, Patched, Finished, ReadChain, AllOffsets;
    HeaderRead(d, rest);
    var i := FinishedParts(a, c, d, false);
    PadItems(a, i, a.lst[i]);
    TableListed(c, a.lst[i]);
    NextTableBound(c.lst, 0, |c.lst|);
    var t := NextTable(c.lst, 0, |c.lst|).value;
    PatchedPos(c, d, 0, |c.lst|);
    PosGrows(c, t, t);
    PosGrows(c, t, |c.lst|);
    PatchedHeader(c, d, 0, t);
    HeaderFields(c.nth, 0, Pos(c, t));
    NothingToRead(Stream(d, rest), Pos(c, t));
  }

  lemma PatchedHeader(c: Ntb, d: Ntb, length: nat, t: nat)
    requires Sound(c) && Patched(c, d, length, |c.lst|) && NextTable(c.lst, 0, |c.lst|) == Some(t) && t < |c.lst|
    ensures |c.nth| == NTH_LEN && d.nth == Set16(Set16(c.nth, 8, length), 10, Pos(c, t))
  {
    hide Pos, NextTable, TableDone, Distinct, Shaped;
  }

  lemma HeaderFields(nth: seq<Byte>, length: nat, p: nat)
    requires |nth| == NTH_LEN && length < 65536 && p < 65536
    ensures var n := Set16(Set16(nth, 8, length), 10, p); |n| == NTH_LEN && Get16(n, 8) == length && Get16(n, 10) == p
  {
    hide Set16;
    SetGet(nth, 8, length);
    SetGet(Set16(nth, 8, length), 10, p);
  }

  lemma NothingToRead(l: seq<Byte>, b: nat)
    requires 0 < b < 65536
    ensures ReadChain(l, b, 0, AllOffsets()) == Raises
  {
    assert IsOffset(b);
  }

  // ---- blocks back to back ---------------------------------------------------------------------------

  datatype Wrapped = Wrapped(a: Ntb, c: Ntb, d: Ntb)

  ghost predicate AllSent(ws: seq<Wrapped>) {
    forall k :: 0 <= k < |ws| ==> Sent(ws[k].a, ws[k].c, ws[k].d) && Fits(ws[k].a)
  }

  ghost function Streams(ws: seq<Wrapped>): seq<Byte>
    requires AllSent(ws)
  {
    if ws == [] then [] else
      assert Sent(ws[0].a, ws[0].c, ws[0].d);
      Stream(ws[0].d, Streams(ws[1..]))
  }

  ghost function Contents(ws: seq<Wrapped>): Tables
    requires AllSent(ws)
  {
    if ws == [] then [] else
      assert Sent(ws[0].a, ws[0].c, ws[0].d);
      SoundKnown(ws[0].a);
      Content(ws[0].a, ws[0].a.lst) + Contents(ws[1..])
  }

  // Any number of blocks, one after the other, are read back block by block.
  lemma {:induction false} BlocksRoundTrip(ws: seq<Wrapped>)
    requires AllSent(ws)
    ensures ReadBlocks(Streams(ws)) == Ok(Contents(ws))
  {
    hide Sent, Fits, Content, ReadBlock, Sound;
    if ws != [] {
      var w := ws[0];
      assert Sent(w.a, w.c, w.d);
      SentSound(w.a, w.c, w.d);
      assert Fits(w.a);
      BlocksRoundTrip(ws[1..]);
      RoundTrip(w.a, w.c, w.d, Streams(ws[1..]));
      NextBlock(w.d, Streams(ws[1..]));
      ReadBlocksStep(Streams(ws));
    }
  }

  lemma NextBlock(d: Ntb, rest: seq<Byte>)
    requires Sound(d)
    ensures |Image(d, |d.lst|)| >= NTH_LEN && From(Stream(d, rest), |Image(d, |d.lst|)|) == rest
  {
    StreamAt(d, 0, rest);
    ItemSize(d, 0);
    ImageLength(d, |d.lst|);
    hide Sound, Image;
    assert (Image(d, |d.lst|) + rest)[|Image(d, |d.lst|)|..] == rest;
  }

  // The whole way: wrap what was built, emit its bytes, parse them.
  method Loopback(b: Builder) returns (ok: bool, r: Result<Block>)
    requires b.Valid() && !b.locked && Closed(b.State())
    modifies b
    ensures ok <==> exists k :: 0 <= k < |old(b.lst)| && old(b.lst)[k].Table?
    ensures b.Valid() && ItemsKnown(old(b.State()), old(b.lst))
    ensures ok && |Image(b.State(), |b.lst|)| < 65536 ==>
              r == if Fits(old(b.State()))
                   then Ok(Block(Content(old(b.State()), old(b.lst)), |Image(b.State(), |b.lst|)|)) else Raises
  {
    hide Sound, Unlinked, Closed, Finished, Fits, Content, Image, ReadBlock, ItemsKnown;
    ghost var a := b.State();
    SoundKnown(a);
    assert Sound(a) && Unlinked(a) && Closed(a);
    r := Raises;
    ghost var c;
    ok, c := b.Wrap(true);
    if ok {
      var bytes := b.Emit();
      r := ParseBlock(bytes);
      ghost var d := b.State();
      ImageLength(d, |d.lst|);
      if |bytes| < 65536 {
        assert Sent(a, c, d);
        RoundTrip(a, c, d, []);
        assert Stream(d, []) == bytes;
      }
    }
  }
}
