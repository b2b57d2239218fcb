// A wrapped block's chain of tables, walked as the reader's loop is written: it only
// climbs, so that reading a block that was sent always ends.
module NtbSent {
  import opened Bytes
  import opened NtbParser
  import opened Ntb16
  import opened NtbProof
  import opened NtbHangs

  // One turn at a table's place: on to the next table, or out at one that is too long.
  lemma TurnAtTable(d: Ntb, k: nat, rest: seq<Byte>)
    requires Laid(d) && k < |d.lst| && d.lst[k].Table?
    ensures Pos(d, k) > 0
    ensures var next := Turn(Stream(d, rest), Pos(d, k), Pos(d, |d.lst|));
            next == None || next == Some(LinkOf(d, k))
  {
    hide Sound, Pos, Stream, ReadNdp, ReadDgrams, Slice, EntryLaid, LinkOf, NextTable, Datas, Get16;
    assert TableLaid(d, k);
    ReadTable(d, k, rest);
    ReadEntries(d, k, rest, 0);
  }

  lemma LinkIsTable(d: Ntb, k: nat) returns (t: nat)
    requires Sound(d) && k < |d.lst| && LinkOf(d, k) != 0
    ensures t < |d.lst| && d.lst[t].Table? && LinkOf(d, k) == Pos(d, t)
  {
    hide Sound, Pos, NextTable;
    NextTableBound(d.lst, k, |d.lst|);
    t := NextTable(d.lst, k, |d.lst|).value;
  }

  lemma HasHeader(d: Ntb)
    requires Sound(d)
    ensures d.lst != []
  {
  }

  // The loop only ever stands at the place of a table.
  lemma {:induction false} Stands(d: Ntb, rest: seq<Byte>, n: nat) returns (k: nat)
    requires Laid(d) && Going(Stream(d, rest), LinkOf(d, 0), Pos(d, |d.lst|), n)
    ensures k < |d.lst| && d.lst[k].Table?
    ensures After(Stream(d, rest), LinkOf(d, 0), Pos(d, |d.lst|), n) == Some(Pos(d, k))
    decreases n
  {
    hide Sound, Pos, Stream, LinkOf, NextTable, Turn, TableLaid, Get16;
    var s, b, e := Stream(d, rest), LinkOf(d, 0), Pos(d, |d.lst|);
    if n == 0 {
      assert After(s, b, e, 0) == Some(b);
      HasHeader(d);
      k := LinkIsTable(d, 0);
    } else {
      StopsThere(s, b, e, n - 1, 1);
      var j := Stands(d, rest, n - 1);
      TurnAtTable(d, j, rest);
      AfterNext(s, b, e, n - 1, Pos(d, j));
      k := LinkIsTable(d, j);
    }
  }

  lemma SentClimbs(a: Ntb, c: Ntb, d: Ntb, rest: seq<Byte>)
    requires Sent(a, c, d)
    ensures Laid(d) && Climbing(Stream(d, rest), LinkOf(d, 0), Pos(d, |d.lst|))
  {
    hide Sound, Pos, Stream, LinkOf, NextTable, After, Turn, TableLaid, Get16, Sent;
    SentLaid(a, c, d);
    var s, b, e := Stream(d, rest), LinkOf(d, 0), Pos(d, |d.lst|);
    forall n: nat | Going(s, b, e, n) ensures Rises(s, e, After(s, b, e, n).value) {
      var k := Stands(d, rest, n);
      TurnAtTable(d, k, rest);
      LinksRise(d, k);
    }
  }

  // Whatever follows it, a block that was sent is read to an end, also one whose tables
  // are too long for the reader.
  lemma SentReturns(a: Ntb, c: Ntb, d: Ntb, rest: seq<Byte>)
    requires Sent(a, c, d)
    ensures !ReadBlock(Stream(d, rest)).Hangs?
  {
    hide Sound, Pos, Stream, LinkOf, Climbing, Sent, TableLaid, Get16;
    SentClimbs(a, c, d, rest);
    HeaderRead(d, rest);
    RisingLinksReturn(Stream(d, rest));
  }
}
