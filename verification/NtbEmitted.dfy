// The bytes of an emitted block that the reader does not look at, or looks at in the same
// words as the builder: signatures, header, padding.
module NtbEmitted {
  import opened Bytes
  import opened NtbParser
  import opened Ntb16
  import opened NtbProof

  lemma ByteAt(d: Ntb, k: nat, rest: seq<Byte>, i: nat)
    requires Sound(d) && k < |d.lst| && Knows(d, d.lst[k]) && i < |ItemBytes(d, d.lst[k])|
    ensures Pos(d, k) + i < |Stream(d, rest)| && Stream(d, rest)[Pos(d, k) + i] == ItemBytes(d, d.lst[k])[i]
  {
    hide Sound, ItemBytes, Pos, Stream, Image;
    StreamAt(d, k, rest);
    assert Stream(d, rest)[Pos(d, k)..Pos(d, k + 1)][i] == Stream(d, rest)[Pos(d, k) + i];
  }

  // The block begins with "NCMH", its own header's length and the sequence number.
  lemma EmittedHeader(a: Ntb, c: Ntb, d: Ntb, rest: seq<Byte>)
    requires Sent(a, c, d)
    ensures var s := Stream(d, rest);
            && |s| >= 12 && s[0] == 0x4E && s[1] == 0x43 && s[2] == 0x4D && s[3] == 0x48 && s[4] == 12 && s[5] == 0
            && |a.nth| == 12 && s[6] == a.nth[6] && s[7] == a.nth[7]
  {
    hide Sent, Sound, Stream, Pos, ItemBytes;
    SentSound(a, c, d);
    SentSigned(a, c, d);
    FirstIsHeader(d);
    HeaderStarts(d);
    ByteAt(d, 0, rest, 0);
    ByteAt(d, 0, rest, 1);
    ByteAt(d, 0, rest, 2);
    ByteAt(d, 0, rest, 3);
    ByteAt(d, 0, rest, 4);
    ByteAt(d, 0, rest, 5);
    ByteAt(d, 0, rest, 6);
    ByteAt(d, 0, rest, 7);
    ByteAt(d, 0, rest, 11);
  }

  lemma FirstIsHeader(d: Ntb)
    requires Sound(d)
    ensures d.lst != [] && d.lst[0] == Header && ItemBytes(d, d.lst[0]) == d.nth && |d.nth| == 12 && Pos(d, 0) == 0
  {
  }

  lemma HeaderStarts(d: Ntb)
    requires Sound(d)
    ensures |d.nth| == 12 && d.nth[0] == 0x4E && d.nth[1] == 0x43 && d.nth[2] == 0x4D && d.nth[3] == 0x48
    ensures d.nth[4] == 12 && d.nth[5] == 0
  {
    assert d.nth[..4][0] == d.nth[0] && d.nth[..4][1] == d.nth[1];
    assert d.nth[..4][2] == d.nth[2] && d.nth[..4][3] == d.nth[3];
  }

  // Wrapping keeps the sequence number and the start of every table.
  lemma SentSigned(a: Ntb, c: Ntb, d: Ntb)
    requires Sent(a, c, d)
    ensures |d.nth| == |a.nth| == 12 && d.nth[6] == a.nth[6] && d.nth[7] == a.nth[7]
    ensures |d.ndps| == |a.ndps|
    ensures forall id :: 0 <= id < |a.ndps| ==> |d.ndps[id].bv| >= 12 && |a.ndps[id].bv| >= 12
    ensures forall id :: 0 <= id < |a.ndps| ==> d.ndps[id].bv[3] == a.ndps[id].bv[3]
  {
    hide Pos, Sent, Sound, NextTable, Closed, Unlinked, Patched, Placed, Shaped;
    SentSound(a, c, d);
    var i := SentParts(a, c, d);
    PadKeeps(a, i);
    PatchedSignature(PadAt(a, i), c, d, Pos(c, |c.lst|));
    TablesLong(a);
  }

  lemma PadKeeps(a: Ntb, i: nat)
    requires Sound(a) && i <= |a.lst|
    ensures PadAt(a, i).ndps == a.ndps && PadAt(a, i).nth == a.nth && |a.nth| == 12
  {
  }

  lemma TablesLong(a: Ntb)
    requires Sound(a)
    ensures forall id :: 0 <= id < |a.ndps| ==> |a.ndps[id].bv| >= 12
  {
    assert forall id :: 0 <= id < |a.ndps| ==> Shaped(a.ndps[id].bv, |a.ndps[id].dgs|);
  }

  // Every table begins with "NCM" and the digit it was made with.
  lemma EmittedTable(a: Ntb, c: Ntb, d: Ntb, rest: seq<Byte>, k: nat)
    requires Sent(a, c, d) && k < |d.lst| && d.lst[k].Table?
    ensures var s, p := Stream(d, rest), Pos(d, k);
            && d.lst[k].id < |a.ndps| && p + 12 <= |s| && s[p] == 0x4E && s[p + 1] == 0x43 && s[p + 2] == 0x4D
            && |a.ndps[d.lst[k].id].bv| >= 12 && s[p + 3] == a.ndps[d.lst[k].id].bv[3]
  {
    hide Sent, Sound, Stream, Pos, ItemBytes;
    SentSound(a, c, d);
    SentSigned(a, c, d);
    TableStarts(d, k);
    ByteAt(d, k, rest, 0);
    ByteAt(d, k, rest, 1);
    ByteAt(d, k, rest, 2);
    ByteAt(d, k, rest, 3);
    ByteAt(d, k, rest, 11);
  }

  lemma TableStarts(d: Ntb, k: nat)
    requires Sound(d) && k < |d.lst| && d.lst[k].Table?
    ensures Knows(d, d.lst[k]) && ItemBytes(d, d.lst[k]) == d.ndps[d.lst[k].id].bv
    ensures var bv := d.ndps[d.lst[k].id].bv; |bv| >= 12 && bv[0] == 0x4E && bv[1] == 0x43 && bv[2] == 0x4D
  {
    assert Knows(d, d.lst[k]);
    var bv := d.ndps[d.lst[k].id].bv;
    assert Shaped(bv, |d.ndps[d.lst[k].id].dgs|);
    assert bv[..3][0] == bv[0] && bv[..3][1] == bv[1] && bv[..3][2] == bv[2];
  }

  // Padding is zeros.
  lemma EmittedPad(d: Ntb, rest: seq<Byte>, k: nat, i: nat)
    requires Sound(d) && k < |d.lst| && d.lst[k].Pad? && i < d.lst[k].len
    ensures Pos(d, k) + i < |Stream(d, rest)| && Stream(d, rest)[Pos(d, k) + i] == 0
  {
    ByteAt(d, k, rest, i);
  }

  // A block is within the reader's limit if and only if no listed table has more than 22
  // datagrams.
  lemma FitsIs(a: Ntb)
    requires Sound(a)
    ensures Fits(a) <==>
            forall k :: 0 <= k < |a.lst| && a.lst[k].Table? && Knows(a, a.lst[k]) ==> |a.ndps[a.lst[k].id].dgs| <= 22
  {
    forall k | 0 <= k < |a.lst| && a.lst[k].Table? && Knows(a, a.lst[k])
      ensures |a.ndps[a.lst[k].id].bv| <= 100 <==> |a.ndps[a.lst[k].id].dgs| <= 22
    {
      assert Shaped(a.ndps[a.lst[k].id].bv, |a.ndps[a.lst[k].id].dgs|);
    }
  }

  // The first table stands on the first multiple of 4 behind what is listed before it.
  lemma FirstTablePlaced(a: Ntb, c: Ntb, d: Ntb, i: nat)
    requires Sent(a, c, d) && NextTable(a.lst, 0, |a.lst|) == Some(i) && i <= |a.lst| && Sound(a)
    ensures |d.nth| == NTH_LEN && Pos(a, i) <= Get16(d.nth, 10) < Pos(a, i) + 4
  {
    hide Pos, Sent, Sound, Closed, Unlinked, Patched, Placed, SameBytes, NextTable, Shaped, TableLaid, Get16;
    SentSound(a, c, d);
    var i' := SentParts(a, c, d);
    SentHeader(a, c, d);
    FirstAligned(a, d, i);
    PatchedPosAt(a, c, d, i);
    PaddingIsShort(a, d, i);
  }

  lemma PaddingIsShort(a: Ntb, d: Ntb, i: nat)
    requires Sound(a) && Sound(d) && NextTable(a.lst, 0, |a.lst|) == Some(i) && 0 < i < |a.lst|
    requires d.lst == PadAt(a, i).lst && Sound(PadAt(a, i)) && NextTable(d.lst, 0, |d.lst|).Some?
    ensures var t := NextTable(d.lst, 0, |d.lst|).value;
            t <= |PadAt(a, i).lst| && Pos(a, i) <= Pos(PadAt(a, i), t) < Pos(a, i) + 4
  {
    hide Sound, NextTable, Pos;
    NextTableBound(a.lst, 0, |a.lst|);
    NextTableBound(d.lst, 0, |d.lst|);
    PadPos(a, i, i);
    HeaderIsFirst(a, 0);
    var b := PadAt(a, i);
    if Missing(a, i) != 0 {
      assert b.lst[i] == Pad(Missing(a, i)) && b.lst[i + 1] == a.lst[i];
      ItemSize(b, i);
      assert forall m :: 0 < m < i ==> b.lst[m] == a.lst[m];
    }
  }

  // ---- what the reader refuses -----------------------------------------------------------

  lemma RefusedTables(l: seq<Byte>)
    ensures ReadNdp(l).Ok? <==>
            |l| >= 6 && l[0] == 0x4E && l[1] == 0x43 && l[2] == 0x4D && (l[3] == 0x30 || l[3] == 0x31)
            && 0 < Word(l[4], l[5]) <= 100
    ensures !ReadNdp(l).Ok? ==> ReadNdp(l) == Raises
  {
    if |l| >= 6 {
      assert l[..3] == [l[0], l[1], l[2]];
    }
  }

  lemma RefusedBlocks(l: seq<Byte>)
    requires !(|l| >= 12 && l[0] == 0x4E && l[1] == 0x43 && l[2] == 0x4D && l[3] == 0x48 && l[4] == 12 && l[5] == 0)
    ensures ReadBlock(l) == Raises
  {
    hide ReadChain, AllOffsets;
    if |l| >= 12 {
      assert l[..4] == [l[0], l[1], l[2], l[3]];
    }
  }

  // A table that is full to its end, without the terminator.
  predicate Full(l: seq<Byte>, bv: seq<Byte>, n: nat) {
    && |bv| == 8 + 4 * n
    && forall j :: 0 <= j < n ==>
         Get16(bv, 8 + 4 * j) != 0 && Slice(l, Get16(bv, 8 + 4 * j), Get16(bv, 8 + 4 * j) + Get16(bv, 10 + 4 * j)) != []
  }

  lemma {:induction false} FullRest(l: seq<Byte>, bv: seq<Byte>, n: nat, k: nat)
    requires Full(l, bv, n) && k <= n
    ensures if n >= 2 then ReadDgrams(l, bv, k).Ok? && |ReadDgrams(l, bv, k).value| == n - k
            else ReadDgrams(l, bv, k) == Raises
    decreases n - k
  {
    hide ReadDgrams, Slice, Get16, Full, Field;
    if k < n {
      FullRest(l, bv, n, k + 1);
      FullEntry(l, bv, n, k);
      ReadEntry(l, bv, k, Get16(bv, 8 + 4 * k), Get16(bv, 10 + 4 * k));
    } else {
      FullEnd(l, bv, n);
    }
  }

  lemma FullEnd(l: seq<Byte>, bv: seq<Byte>, n: nat)
    requires Full(l, bv, n)
    ensures ReadDgrams(l, bv, n) == if n >= 2 then Ok([]) else Raises
  {
    hide Slice;
    assert Field(bv, n, 8 + 4 * n) == if n >= 2 then Some(0) else None;
  }

  lemma FullEntry(l: seq<Byte>, bv: seq<Byte>, n: nat, k: nat)
    requires Full(l, bv, n) && k < n
    ensures |bv| == 8 + 4 * n && Get16(bv, 8 + 4 * k) != 0
    ensures Slice(l, Get16(bv, 8 + 4 * k), Get16(bv, 8 + 4 * k) + Get16(bv, 10 + 4 * k)) != []
    ensures Field(bv, k, 8 + 4 * k) == Some(Get16(bv, 8 + 4 * k))
    ensures Field(bv, k, 10 + 4 * k) == Some(Get16(bv, 10 + 4 * k))
  {
    hide Slice;
  }

  lemma ReadEntry(l: seq<Byte>, bv: seq<Byte>, k: nat, b: nat, size: nat)
    requires Field(bv, k, 8 + 4 * k) == Some(b) && Field(bv, k, 10 + 4 * k) == Some(size)
    requires b != 0 && Slice(l, b, b + size) != []
    ensures ReadDgrams(l, bv, k) == match ReadDgrams(l, bv, k + 1)
                                    case Ok(rest) => Ok([Slice(l, b, b + size)] + rest)
                                    case other => other
  {
    hide Field, Slice;
  }

  // Reading attaches the datagrams to the table, which grows by it: a table of two datagrams
  // or more that lacks its terminator is read all the same, one of a single datagram or none
  // is refused.
  lemma MissingTerminator(l: seq<Byte>, bv: seq<Byte>, n: nat)
    requires Full(l, bv, n)
    ensures if n >= 2 then ReadDgrams(l, bv, 0).Ok? && |ReadDgrams(l, bv, 0).value| == n
            else ReadDgrams(l, bv, 0) == Raises
  {
    hide ReadDgrams, Full;
    FullRest(l, bv, n, 0);
  }

  // From the builder to the bytes: the emitted block says of each table whether it was made
  // with checksums, and it is number 1.
  method EmitWrapped(b: Builder) returns (ok: bool, bytes: seq<Byte>)
    requires b.Valid() && !b.locked && Closed(b.State())
    modifies b
    ensures b.Valid() && b.crc == old(b.crc)
    ensures ok <==> exists k :: 0 <= k < |old(b.lst)| && old(b.lst)[k].Table?
    ensures ok && |bytes| < 65536 ==>
              && |bytes| >= 12 && bytes[6] == 1 && bytes[7] == 0
              && forall k :: 0 <= k < |b.lst| && b.lst[k].Table? ==>
                   Pos(b.State(), k) + 12 <= |bytes|
                   && bytes[Pos(b.State(), k) + 3] == if b.lst[k].id in b.crc then 0x31 else 0x30
  {
    hide Sound, Closed, Finished, Image, Pos;
    ghost var a := b.State();
    ghost var crc := b.crc;
    assert Sound(a) && Unlinked(a) && Closed(a) && SignedFor(a.ndps, crc);
    bytes := [];
    ghost var c;
    ok, c := b.Wrap(true);
    if ok {
      bytes := b.Emit();
      ghost var d := b.State();
      ImageLength(d, |d.lst|);
      if |bytes| < 65536 {
        assert Sent(a, c, d);
        assert Stream(d, []) == bytes;
        EmittedHeader(a, c, d, []);
        forall k | 0 <= k < |b.lst| && b.lst[k].Table?
          ensures Pos(d, k) + 12 <= |bytes|
          ensures bytes[Pos(d, k) + 3] == if b.lst[k].id in b.crc then 0x31 else 0x30
        {
          EmittedTable(a, c, d, [], k);
          assert d.lst[k].id < |a.ndps|;
        }
      }
    }
  }
}
