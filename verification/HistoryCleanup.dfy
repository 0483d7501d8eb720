/**
 The loops that clean a queue's history index while they page through it: clear_terminal,
 clean_expired and archive_to_sqlite.  Each deletes entries under its own offset, by a different
 rule for the offset.  Without concurrent writers they end, and they remove what they are for and
 nothing else.
 */
module HistoryCleanup {

  type Id = nat

  /** What the loops read of an audit record. */
  datatype Record = Record(terminal: bool, operational: bool, finished: int)

  // ---------- Sequences without some elements ----------

  /** What ZREM leaves of an index. */
  function Drop(xs: seq<Id>, gone: set<Id>): (kept: seq<Id>)
    ensures |kept| <= |xs|
  {
    if xs == [] then [] else if xs[0] in gone then Drop(xs[1..], gone) else [xs[0]] + Drop(xs[1..], gone)
  }

  lemma {:induction false} DropMembers(xs: seq<Id>, gone: set<Id>)
    ensures forall x :: x in Drop(xs, gone) <==> x in xs && x !in gone
  {
    if xs != [] {
      DropMembers(xs[1..], gone);
      assert xs == [xs[0]] + xs[1..];
    }
  }

  lemma {:induction false} DropNone(xs: seq<Id>, gone: set<Id>)
    requires forall x <- xs :: x !in gone
    ensures Drop(xs, gone) == xs
  {
    if xs != [] { DropNone(xs[1..], gone); }
  }

  lemma {:induction false} DropTwice(xs: seq<Id>, a: set<Id>, b: set<Id>)
    ensures Drop(Drop(xs, a), b) == Drop(xs, a + b)
  {
    if xs != [] {
      DropTwice(xs[1..], a, b);
      var rest := Drop(xs[1..], a);
      if xs[0] !in a { assert ([xs[0]] + rest)[0] == xs[0] && ([xs[0]] + rest)[1..] == rest; }
    }
  }

  lemma ConsAppend(x: Id, xs: seq<Id>, ys: seq<Id>)
    ensures [x] + (xs + ys) == ([x] + xs) + ys
  {
  }

  lemma {:induction false} DropAppend(xs: seq<Id>, ys: seq<Id>, gone: set<Id>)
    ensures Drop(xs + ys, gone) == Drop(xs, gone) + Drop(ys, gone)
  {
    if xs == [] {
      assert xs + ys == ys;
    } else {
      DropAppend(xs[1..], ys, gone);
      assert (xs + ys)[0] == xs[0] && (xs + ys)[1..] == xs[1..] + ys;
      ConsAppend(xs[0], Drop(xs[1..], gone), Drop(ys, gone));
    }
  }

  predicate NoRepeats(xs: seq<Id>) {
    forall i, j :: 0 <= i < j < |xs| ==> xs[i] != xs[j]
  }

  lemma {:induction false} DropOne(xs: seq<Id>, id: Id)
    requires NoRepeats(xs)
    ensures |Drop(xs, {id})| == |xs| - (if id in xs then 1 else 0)
    ensures NoRepeats(Drop(xs, {id}))
  {
    if xs != [] {
      var rest := Drop(xs[1..], {id});
      DropOne(xs[1..], id);
      DropMembers(xs[1..], {id});
      assert xs == [xs[0]] + xs[1..];
      assert xs[0] !in rest;
      if xs[0] == id { DropNone(xs[1..], {id}); }
    }
  }

  // ---------- Which entries go ----------

  /** clear_terminal removes entries without a record, and ended tasks without a message. */
  predicate Cleared(records: map<Id, Record>, id: Id) {
    id !in records || (records[id].terminal && !records[id].operational)
  }

  function ClearedOf(records: map<Id, Record>, entries: seq<Id>): set<Id> {
    set id | id in entries && Cleared(records, id)
  }

  /** One entry of the scan: the part before it has lost what goes, the part after it is untouched. */
  lemma NextEntry(all: seq<Id>, gone: set<Id>, k: nat)
    requires k < |all| && NoRepeats(all)
    ensures Drop(all[..k + 1], gone) + all[k + 1..] ==
      if all[k] in gone then Drop(Drop(all[..k], gone) + all[k..], {all[k]}) else Drop(all[..k], gone) + all[k..]
    ensures |Drop(all[..k + 1], gone)| == |Drop(all[..k], gone)| + (if all[k] in gone then 0 else 1)
  {
    var id, front, back := all[k], Drop(all[..k], gone), all[k + 1..];
    assert all[..k + 1] == all[..k] + [id] && all[k..] == [id] + back;
    DropAppend(all[..k], [id], gone);
    LastDrop(id, gone);
    if id in gone {
      assert front + [] == front;
      DropMembers(all[..k], gone);
      DropFromMiddle(front, id, back);
    } else {
      assert (front + [id]) + back == front + ([id] + back);
    }
  }

  lemma LastDrop(id: Id, gone: set<Id>)
    ensures Drop([id], gone) == if id in gone then [] else [id]
  {
    assert [id][1..] == [];
  }

  lemma DropFromMiddle(front: seq<Id>, id: Id, back: seq<Id>)
    requires id !in front && id !in back
    ensures Drop(front + ([id] + back), {id}) == front + back
  {
    DropAppend(front, [id] + back, {id});
    DropAppend([id], back, {id});
    LastDrop(id, {id});
    DropNone(front, {id});
    DropNone(back, {id});
    assert [] + back == back;
  }

  lemma BatchIsNext(entries: seq<Id>, front: seq<Id>, all: seq<Id>, k: nat, offset: nat, size: nat)
    requires k <= |all| && entries == front + all[k..] && offset == |front| && offset + size <= |entries|
    ensures k + size <= |all| && entries[offset..offset + size] == all[k..k + size]
  {
  }

  /** The state of clear_terminal when the first `k` entries have been dealt with. */
  predicate Cleaned(all: seq<Id>, before: map<Id, Record>, k: nat, entries: seq<Id>, records: map<Id, Record>)
    requires k <= |all|
  {
    entries == Drop(all[..k], ClearedOf(before, all)) + all[k..] && records == before - Gone(all, before, k)
  }

  /** How many of the first `k` entries stay. */
  function Kept(all: seq<Id>, before: map<Id, Record>, k: nat): nat
    requires k <= |all|
  {
    |Drop(all[..k], ClearedOf(before, all))|
  }

  /** The ids that went among the first `k` entries. */
  function Gone(all: seq<Id>, before: map<Id, Record>, k: nat): set<Id>
    requires k <= |all|
  {
    set id | id in all[..k] && id in ClearedOf(before, all)
  }

  lemma GoneNext(all: seq<Id>, before: map<Id, Record>, k: nat)
    requires NoRepeats(all) && k < |all|
    ensures all[k] !in Gone(all, before, k)
    ensures Gone(all, before, k + 1) == Gone(all, before, k) + (if Cleared(before, all[k]) then {all[k]} else {})
  {
    assert all[..k + 1] == all[..k] + [all[k]];
  }

  lemma CleanNext(all: seq<Id>, before: map<Id, Record>, k: nat, entries: seq<Id>, records: map<Id, Record>)
    requires NoRepeats(all) && k < |all| && Cleaned(all, before, k, entries, records)
    ensures all[k] in entries && Cleared(records, all[k]) == Cleared(before, all[k])
    ensures if Cleared(before, all[k]) then Cleaned(all, before, k + 1, Drop(entries, {all[k]}), records - {all[k]})
            else Cleaned(all, before, k + 1, entries, records)
    ensures Kept(all, before, k + 1) == Kept(all, before, k) + (if Cleared(before, all[k]) then 0 else 1)
  {
    NextEntry(all, ClearedOf(before, all), k);
    GoneNext(all, before, k);
    assert all[k] in all[k..];
    assert before - Gone(all, before, k) - {all[k]} == before - (Gone(all, before, k) + {all[k]});
  }

  lemma CleanEnd(all: seq<Id>, before: map<Id, Record>, k: nat, entries: seq<Id>, records: map<Id, Record>)
    requires k <= |all| && Cleaned(all, before, k, entries, records) && Kept(all, before, k) >= |entries|
    ensures entries == Drop(all, ClearedOf(before, all)) && records == before - ClearedOf(before, all)
  {
    assert |all[k..]| == 0 && all[..k] == all;
    assert Drop(all, ClearedOf(before, all)) + [] == Drop(all, ClearedOf(before, all));
    assert Gone(all, before, k) == ClearedOf(before, all);
  }

  // ---------- Entries that are due ----------

  /** Which entries a cleaner or archiver takes: the queue's real containers, and a time limit. */
  datatype Rule = Rule(held: set<Id>, cutoff: int, strict: bool)

  /** An ended task without any message that ended in time. */
  predicate Due(records: map<Id, Record>, r: Rule, id: Id) {
    && id in records && records[id].terminal && !records[id].operational && id !in r.held
    && (if r.strict then records[id].finished < r.cutoff else records[id].finished <= r.cutoff)
  }

  /** What leaves the index: due entries, and entries whose record is gone already. */
  predicate Goes(records: map<Id, Record>, r: Rule, id: Id) {
    id !in records || Due(records, r, id)
  }

  function GoesOf(records: map<Id, Record>, r: Rule, entries: seq<Id>): set<Id> {
    set id | id in entries && Goes(records, r, id)
  }

  /** Records are kept, or flagged as having a message when the containers show one. */
  ghost predicate Same(before: map<Id, Record>, records: map<Id, Record>, r: Rule, gone: set<Id>) {
    && (forall id :: id in records <==> id in before && id !in gone)
    && (forall id <- records ::
          || records[id] == before[id]
          || (id in r.held && before[id].terminal && records[id] == before[id].(operational := true)))
  }

  lemma SameGoes(before: map<Id, Record>, records: map<Id, Record>, r: Rule, gone: set<Id>, id: Id)
    requires Same(before, records, r, gone) && id !in gone
    ensures Goes(records, r, id) == Goes(before, r, id) && Due(records, r, id) == Due(before, r, id)
  {
  }

  /** Nothing due is left among these entries. */
  predicate NoneGoes(before: map<Id, Record>, r: Rule, entries: seq<Id>) {
    forall id <- entries :: !Goes(before, r, id)
  }

  lemma AllDropped(all: seq<Id>, done: set<Id>, gone: set<Id>)
    requires done <= gone && forall id <- Drop(all, done) :: id !in gone
    ensures Drop(all, done) == Drop(all, gone)
  {
    DropTwice(all, done, gone);
    DropNone(Drop(all, done), gone);
    assert done + gone == gone;
  }

  /** What the first `i` entries of a batch lose, and which of those still had a record. */
  function Lost(before: map<Id, Record>, r: Rule, batch: seq<Id>, i: nat): set<Id>
    requires i <= |batch|
  {
    set id | id in batch[..i] && Goes(before, r, id)
  }

  function Deleted(before: map<Id, Record>, r: Rule, batch: seq<Id>, i: nat): set<Id>
    requires i <= |batch|
  {
    set id | id in batch[..i] && Due(before, r, id)
  }

  lemma NothingLost(before: map<Id, Record>, r: Rule, batch: seq<Id>, entries: seq<Id>, done: set<Id>)
    ensures Lost(before, r, batch, 0) == {} && Deleted(before, r, batch, 0) == {}
    ensures Drop(entries, Lost(before, r, batch, 0)) == entries && done + Lost(before, r, batch, 0) == done
  {
    DropNone(entries, Lost(before, r, batch, 0));
  }

  lemma LostNext(before: map<Id, Record>, r: Rule, batch: seq<Id>, i: nat)
    requires i < |batch| && batch[i] !in batch[..i]
    ensures Lost(before, r, batch, i + 1)
      == Lost(before, r, batch, i) + (if Goes(before, r, batch[i]) then {batch[i]} else {})
    ensures Deleted(before, r, batch, i + 1)
      == Deleted(before, r, batch, i) + (if Due(before, r, batch[i]) then {batch[i]} else {})
    ensures batch[i] !in Lost(before, r, batch, i) && batch[i] !in Deleted(before, r, batch, i)
  {
    assert batch[..i + 1] == batch[..i] + [batch[i]];
  }

  /** How far a batch has come: what it lost so far is gone from the index and the records, and counted. */
  ghost predicate Partway(before: map<Id, Record>, r: Rule, batch: seq<Id>, i: nat, start: seq<Id>, done: set<Id>,
                          entries: seq<Id>, records: map<Id, Record>, removed: nat, cleaned: nat)
    requires i <= |batch|
  {
    var lost, deleted := Lost(before, r, batch, i), Deleted(before, r, batch, i);
    entries == Drop(start, lost) && Same(before, records, r, done + lost) && removed == |lost| && cleaned == |deleted|
  }

  lemma PartwayNext(before: map<Id, Record>, r: Rule, batch: seq<Id>, i: nat, start: seq<Id>, done: set<Id>,
                    entries: seq<Id>, records: map<Id, Record>, removed: nat, cleaned: nat, x: nat, y: nat,
                    entries': seq<Id>, records': map<Id, Record>)
    requires i < |batch| && batch[i] !in batch[..i]
      && Partway(before, r, batch, i, start, done, entries, records, removed, cleaned)
    requires x == (if Goes(before, r, batch[i]) then 1 else 0) && y == (if Due(before, r, batch[i]) then 1 else 0)
    requires entries' == if x == 1 then Drop(entries, {batch[i]}) else entries
    requires var now := done + Lost(before, r, batch, i);
      Same(before, records', r, if x == 1 then now + {batch[i]} else now)
    ensures Partway(before, r, batch, i + 1, start, done, entries', records', removed + x, cleaned + y)
  {
    var id, lost := batch[i], Lost(before, r, batch, i);
    LostNext(before, r, batch, i);
    DropTwice(start, lost, {id});
    if x == 1 {
      assert done + (lost + {id}) == done + lost + {id};
    } else {
      assert lost + {} == lost;
    }
    if y == 0 { assert Deleted(before, r, batch, i) + {} == Deleted(before, r, batch, i); }
  }

  /** A batch that loses what goes; before it nothing was left to go, and nothing is then left in it. */
  lemma BatchSettled(entries: seq<Id>, offset: nat, size: nat, before: map<Id, Record>, r: Rule, lost: set<Id>)
    requires offset + size <= |entries| && NoneGoes(before, r, entries[..offset])
    requires lost == Lost(before, r, entries[offset..offset + size], size)
    ensures lost == {} ==> NoneGoes(before, r, entries[..offset + size]) && Drop(entries, lost) == entries
    ensures offset + size == |entries| ==> NoneGoes(before, r, Drop(entries, lost))
    ensures lost != {} ==> |Drop(entries, lost)| < |entries|
  {
    assert entries[..offset + size] == entries[..offset] + entries[offset..offset + size];
    if lost == {} {
      DropNone(entries, lost);
      forall id <- entries[..offset + size] ensures !Goes(before, r, id) {
        assert id in entries[offset..offset + size] ==> id !in lost;
      }
    } else {
      var id :| id in lost;
      DropLoses(entries, lost, id);
    }
    if offset + size == |entries| {
      assert entries[..offset + size] == entries;
      DropMembers(entries, lost);
    }
  }

  lemma {:induction false} DropLoses(xs: seq<Id>, gone: set<Id>, id: Id)
    requires id in xs && id in gone
    ensures |Drop(xs, gone)| < |xs|
  {
    if xs[0] !in gone {
      assert xs == [xs[0]] + xs[1..];
      DropLoses(xs[1..], gone, id);
    }
  }

  function DueOf(records: map<Id, Record>, r: Rule, ids: set<Id>): set<Id> {
    set id | id in ids && Due(records, r, id)
  }

  /** Between two batches: `done` has been removed, and nothing before the offset has to go. */
  ghost predicate Sweeping(before: map<Id, Record>, r: Rule, all: seq<Id>, done: set<Id>, offset: nat,
                           entries: seq<Id>, records: map<Id, Record>, total: nat)
  {
    && entries == Drop(all, done) && done <= GoesOf(before, r, all) && Same(before, records, r, done)
    && offset <= |entries| && NoneGoes(before, r, entries[..offset])
    && total == |DueOf(before, r, done)|
  }

  lemma {:induction false} DropKeepsNoRepeats(xs: seq<Id>, gone: set<Id>)
    requires NoRepeats(xs)
    ensures NoRepeats(Drop(xs, gone))
  {
    if xs != [] {
      DropKeepsNoRepeats(xs[1..], gone);
      DropMembers(xs[1..], gone);
      assert xs == [xs[0]] + xs[1..];
    }
  }

  lemma CountNext(before: map<Id, Record>, r: Rule, done: set<Id>, batch: seq<Id>)
    requires forall id <- batch :: id !in done
    ensures var lost := Lost(before, r, batch, |batch|);
      |DueOf(before, r, done + lost)| == |DueOf(before, r, done)| + |Deleted(before, r, batch, |batch|)|
  {
    var lost, deleted := Lost(before, r, batch, |batch|), Deleted(before, r, batch, |batch|);
    assert batch[..|batch|] == batch;
    assert DueOf(before, r, done + lost) == DueOf(before, r, done) + deleted;
    assert DueOf(before, r, done) !! deleted;
  }

  lemma DueNext(before: map<Id, Record>, r: Rule, done: set<Id>, batch: seq<Id>, archived: set<Id>)
    ensures archived + DueOf(before, r, done) + Deleted(before, r, batch, |batch|)
      == archived + DueOf(before, r, done + Lost(before, r, batch, |batch|))
  {
    assert batch[..|batch|] == batch;
  }

  lemma BatchOk(all: seq<Id>, done: set<Id>, offset: nat, size: nat)
    requires NoRepeats(all) && offset + size <= |Drop(all, done)|
    ensures NoRepeats(Drop(all, done)[offset..offset + size])
    ensures forall id <- Drop(all, done)[offset..offset + size] :: id !in done
  {
    DropKeepsNoRepeats(all, done);
    DropMembers(all, done);
  }

  /** Deleting the rows leaves the other records as they were. */
  lemma ArchiveEffect(before: map<Id, Record>, records: map<Id, Record>, r: Rule, done: set<Id>, rows: set<Id>,
                      stale: set<Id>)
    requires Same(before, records, r, done) && forall id <- stale :: id !in before
    ensures Same(before, records - rows, r, done + (rows + stale))
  {
  }

  lemma BatchMembers(all: seq<Id>, done: set<Id>, offset: nat, size: nat)
    requires offset + size <= |Drop(all, done)|
    ensures forall id <- Drop(all, done)[offset..offset + size] :: id in all && id !in done
  {
    DropMembers(all, done);
  }

  lemma SweepNext(before: map<Id, Record>, r: Rule, all: seq<Id>, done: set<Id>, offset: nat, size: nat,
                  entries: seq<Id>, total: nat, entries': seq<Id>, removed: nat, cleaned: nat)
    requires entries == Drop(all, done) && done <= GoesOf(before, r, all) && offset + size <= |entries|
    requires NoneGoes(before, r, entries[..offset]) && total == |DueOf(before, r, done)|
    requires var batch := entries[offset..offset + size];
      && entries' == Drop(entries, Lost(before, r, batch, size)) && removed == |Lost(before, r, batch, size)|
      && cleaned == |Deleted(before, r, batch, size)|
    ensures var lost := Lost(before, r, entries[offset..offset + size], size);
      var offset' := if removed > 0 then 0 else offset + size;
      && entries' == Drop(all, done + lost) && done + lost <= GoesOf(before, r, all)
      && offset' <= |entries'| && NoneGoes(before, r, entries'[..offset'])
      && total + cleaned == |DueOf(before, r, done + lost)|
  {
    var batch := entries[offset..offset + size];
    var lost := Lost(before, r, batch, size);
    assert total + cleaned == |DueOf(before, r, done + lost)| && done + lost <= GoesOf(before, r, all) by {
      BatchMembers(all, done, offset, size);
      CountNext(before, r, done, batch);
      LostGoes(before, r, batch, all);
    }
    assert entries' == Drop(all, done + lost) by { DropTwice(all, done, lost); }
    var offset' := if removed > 0 then 0 else offset + size;
    assert offset' <= |entries'| && NoneGoes(before, r, entries'[..offset']) by {
      SettledPart(entries, offset, size, before, r, entries', removed);
    }
  }

  lemma SettledPart(entries: seq<Id>, offset: nat, size: nat, before: map<Id, Record>, r: Rule, entries': seq<Id>,
                    removed: nat)
    requires offset + size <= |entries| && NoneGoes(before, r, entries[..offset])
    requires var lost := Lost(before, r, entries[offset..offset + size], size);
      entries' == Drop(entries, lost) && removed == |lost|
    ensures var offset' := if removed > 0 then 0 else offset + size;
      offset' <= |entries'| && NoneGoes(before, r, entries'[..offset'])
  {
    var lost := Lost(before, r, entries[offset..offset + size], size);
    BatchSettled(entries, offset, size, before, r, lost);
    if removed == 0 { assert lost == {}; }
  }

  /** A batch moves the sweep on: from the start again if it lost anything, else past the batch. */
  lemma SweepStep(before: map<Id, Record>, r: Rule, all: seq<Id>, done: set<Id>, offset: nat, size: nat, batch: seq<Id>,
                  entries: seq<Id>,
                  records: map<Id, Record>, total: nat, entries': seq<Id>, records': map<Id, Record>, removed: nat,
                  cleaned: nat)
    requires Sweeping(before, r, all, done, offset, entries, records, total) && offset + size <= |entries|
    requires batch == entries[offset..offset + size]
    requires Partway(before, r, batch, |batch|, entries, done, entries', records', removed, cleaned)
    ensures var lost := Lost(before, r, batch, |batch|);
      && Sweeping(before, r, all, done + lost, if removed > 0 then 0 else offset + size, entries', records',
                  total + cleaned)
      && (removed > 0 ==> |entries'| < |entries|) && (removed == 0 ==> entries' == entries)
      && (offset + size == |entries| ==> NoneGoes(before, r, entries'))
  {
    SweepNext(before, r, all, done, offset, size, entries, total, entries', removed, cleaned);
    SweepProgress(before, r, offset, size, entries, done, entries', records', removed, cleaned);
  }

  /** The index shrinks or the offset grows, and a batch that reaches the end leaves nothing to go. */
  lemma SweepProgress(before: map<Id, Record>, r: Rule, offset: nat, size: nat, entries: seq<Id>, done: set<Id>,
                      entries': seq<Id>, records': map<Id, Record>, removed: nat, cleaned: nat)
    requires offset + size <= |entries| && NoneGoes(before, r, entries[..offset])
    requires Partway(before, r, entries[offset..offset + size], size, entries, done, entries', records', removed,
                     cleaned)
    ensures (removed > 0 ==> |entries'| < |entries|) && (removed == 0 ==> entries' == entries)
    ensures offset + size == |entries| ==> NoneGoes(before, r, entries')
  {
    var lost := Lost(before, r, entries[offset..offset + size], size);
    BatchSettled(entries, offset, size, before, r, lost);
    if removed == 0 { assert lost == {}; }
  }

  lemma LostGoes(before: map<Id, Record>, r: Rule, batch: seq<Id>, all: seq<Id>)
    requires forall id <- batch :: id in all
    ensures Lost(before, r, batch, |batch|) <= GoesOf(before, r, all)
  {
    assert batch[..|batch|] == batch;
  }

  lemma WholePrefix(xs: seq<Id>)
    ensures xs[..|xs|] == xs
  {
  }

  lemma SweepEnds(before: map<Id, Record>, r: Rule, all: seq<Id>, done: set<Id>, offset: nat, entries: seq<Id>,
                  records: map<Id, Record>, total: nat)
    requires Sweeping(before, r, all, done, offset, entries, records, total) && NoneGoes(before, r, entries)
    ensures var gone := GoesOf(before, r, all);
      done == gone && entries == Drop(all, gone) && Same(before, records, r, gone) && total == |DueOf(before, r, gone)|
  {
    var gone := GoesOf(before, r, all);
    DropMembers(all, done);
    AllDropped(all, done, gone);
    assert done == gone;
  }

  class HistoryLog {
    var entries: seq<Id>
    var records: map<Id, Record>
    var archive: set<Id>

    /** The script of clear_terminal on one entry; it answers what ZREM answers. */
    method ClearOne(id: Id) returns (removed: nat)
      requires NoRepeats(entries) && id in entries
      modifies this`entries, this`records
      ensures removed == if Cleared(old(records), id) then 1 else 0
      ensures entries == if removed == 1 then Drop(old(entries), {id}) else old(entries)
      ensures records == if removed == 1 then old(records) - {id} else old(records)
      ensures NoRepeats(entries) && |entries| == |old(entries)| - removed
    {
      DropOne(entries, id);
      if id !in records {
        entries := Drop(entries, {id});
        assert records - {id} == records;
        return 1;
      }
      if !records[id].terminal || records[id].operational { return 0; }
      records := records - {id};
      entries := Drop(entries, {id});
      return 1;
    }

    /** clear_terminal: the offset skips exactly the entries of each batch that stayed. */
    method ClearTerminal(batchSize: nat) returns (removed: nat)
      requires NoRepeats(entries) && batchSize >= 1
      modifies this`entries, this`records
      ensures entries == Drop(old(entries), ClearedOf(old(records), old(entries)))
      ensures records == old(records) - ClearedOf(old(records), old(entries))
      ensures removed == |old(entries)| - |entries|
    {
      ghost var all, before := entries, records;
      ghost var k := 0;
      removed := 0;
      var offset := 0;
      assert all[..0] == [] && all[0..] == all && [] + all == all && before - {} == before;
      while offset < |entries|
        invariant k <= |all| && NoRepeats(all) && NoRepeats(entries)
        invariant Cleaned(all, before, k, entries, records) && offset == Kept(all, before, k)
        invariant removed == |all| - |entries|
        decreases |all| - k
      {
        var size := if offset + batchSize < |entries| then batchSize else |entries| - offset;
        BatchIsNext(entries, Drop(all[..k], ClearedOf(before, all)), all, k, offset, size);
        var batchRemoved := ClearBatch(entries[offset..offset + size], all, before, k);
        k := k + size;
        removed := removed + batchRemoved;
        offset := offset + size - batchRemoved;
      }
      CleanEnd(all, before, k, entries, records);
    }

    method ClearNth(id: Id, ghost all: seq<Id>, ghost before: map<Id, Record>, ghost k: nat) returns (removed: nat)
      requires NoRepeats(all) && k < |all| && id == all[k]
      requires NoRepeats(entries) && Cleaned(all, before, k, entries, records)
      modifies this`entries, this`records
      ensures NoRepeats(entries) && Cleaned(all, before, k + 1, entries, records)
      ensures |entries| == |old(entries)| - removed && removed <= 1
      ensures Kept(all, before, k + 1) == Kept(all, before, k) + 1 - removed
    {
      CleanNext(all, before, k, entries, records);
      removed := ClearOne(id);
    }

    method ClearBatch(batch: seq<Id>, ghost all: seq<Id>, ghost before: map<Id, Record>, ghost k: nat)
      returns (removed: nat)
      requires NoRepeats(all) && k + |batch| <= |all| && forall i :: 0 <= i < |batch| ==> batch[i] == all[k + i]
      requires NoRepeats(entries) && Cleaned(all, before, k, entries, records)
      modifies this`entries, this`records
      ensures NoRepeats(entries) && Cleaned(all, before, k + |batch|, entries, records)
      ensures |entries| == |old(entries)| - removed && removed <= |batch|
      ensures Kept(all, before, k + |batch|) == Kept(all, before, k) + |batch| - removed
    {
      removed := 0;
      var i := 0;
      while i < |batch|
        invariant 0 <= i <= |batch| && removed <= i
        invariant NoRepeats(entries) && Cleaned(all, before, k + i, entries, records)
        invariant |entries| == |old(entries)| - removed
        invariant Kept(all, before, k + i) == Kept(all, before, k) + i - removed
      {
        var r := ClearNth(batch[i], all, before, k + i);
        removed := removed + r;
        i := i + 1;
      }
    }

    // ---------- clean_expired ----------

    /** One entry of clean_expired: a stale entry, a task that is over, or one whose message is still around. */
    method ExpireOne(id: Id, r: Rule) returns (removed: nat, cleaned: nat)
      modifies this`entries, this`records
      ensures removed == if Goes(old(records), r, id) then 1 else 0
      ensures cleaned == if Due(old(records), r, id) then 1 else 0
      ensures entries == if removed == 1 then Drop(old(entries), {id}) else old(entries)
      ensures records == if cleaned == 1 then old(records) - {id}
        else if id in old(records) && old(records)[id].terminal && id in r.held
        then old(records)[id := old(records)[id].(operational := true)] else old(records)
    {
      if id !in records {
        entries := Drop(entries, {id});
        return 1, 0;
      }
      var rec := records[id];
      if !rec.terminal { return 0, 0; }
      if id in r.held {
        records := records[id := rec.(operational := true)];
        return 0, 0;
      }
      if if r.strict then rec.finished >= r.cutoff else rec.finished > r.cutoff { return 0, 0; }
      // _delete_if_still_archivable looks at the record again.
      if rec.operational { return 0, 0; }
      records := records - {id};
      entries := Drop(entries, {id});
      return 1, 1;
    }

    method ExpireNth(id: Id, r: Rule, ghost before: map<Id, Record>, ghost done: set<Id>)
      returns (removed: nat, cleaned: nat)
      requires Same(before, records, r, done) && id !in done
      modifies this`entries, this`records
      ensures removed == (if Goes(before, r, id) then 1 else 0) && cleaned == (if Due(before, r, id) then 1 else 0)
      ensures entries == if removed == 1 then Drop(old(entries), {id}) else old(entries)
      ensures Same(before, records, r, if removed == 1 then done + {id} else done)
    {
      SameGoes(before, records, r, done, id);
      removed, cleaned := ExpireOne(id, r);
    }

    method ExpireBatch(batch: seq<Id>, r: Rule, ghost before: map<Id, Record>, ghost done: set<Id>)
      returns (removed: nat, cleaned: nat)
      requires NoRepeats(batch) && Same(before, records, r, done) && forall id <- batch :: id !in done
      modifies this`entries, this`records
      ensures Partway(before, r, batch, |batch|, old(entries), done, entries, records, removed, cleaned)
    {
      removed, cleaned := 0, 0;
      NothingLost(before, r, batch, entries, done);
      var i := 0;
      while i < |batch|
        invariant 0 <= i <= |batch|
        invariant Partway(before, r, batch, i, old(entries), done, entries, records, removed, cleaned)
      {
        removed, cleaned := ExpireNext(batch, i, r, before, old(entries), done, removed, cleaned);
        i := i + 1;
      }
    }

    method ExpireNext(batch: seq<Id>, i: nat, r: Rule, ghost before: map<Id, Record>, ghost start: seq<Id>,
                      ghost done: set<Id>, removed: nat, cleaned: nat)
      returns (removed': nat, cleaned': nat)
      requires i < |batch| && batch[i] !in batch[..i] && batch[i] !in done
      requires Partway(before, r, batch, i, start, done, entries, records, removed, cleaned)
      modifies this`entries, this`records
      ensures Partway(before, r, batch, i + 1, start, done, entries, records, removed', cleaned')
    {
      LostNext(before, r, batch, i);
      var x, y := ExpireNth(batch[i], r, before, done + Lost(before, r, batch, i));
      PartwayNext(before, r, batch, i, start, done, old(entries), old(records), removed, cleaned, x, y, entries,
                  records);
      removed', cleaned' := removed + x, cleaned + y;
    }

    /** clean_expired: after a batch that removed anything it starts over, else it moves past the batch. */
    method CleanExpired(r: Rule, batchSize: nat) returns (total: nat)
      requires NoRepeats(entries) && batchSize >= 1
      modifies this`entries, this`records
      ensures var gone := GoesOf(old(records), r, old(entries));
        && entries == Drop(old(entries), gone)
        && Same(old(records), records, r, gone)
        && total == |DueOf(old(records), r, gone)|
    {
      ghost var all, before, done := entries, records, {};
      DropNone(all, {});
      total := 0;
      var offset: nat := 0;
      while offset < |entries|
        invariant Sweeping(before, r, all, done, offset, entries, records, total)
        decreases |entries|, |entries| - offset
      {
        var size := if offset + batchSize < |entries| then batchSize else |entries| - offset;
        offset, total, done := SweepBatch(offset, size, r, before, all, done, total);
        if size < batchSize { break; }
      }
      WholePrefix(entries);
      SweepEnds(before, r, all, done, offset, entries, records, total);
    }

    method SweepBatch(offset: nat, size: nat, r: Rule, ghost before: map<Id, Record>, ghost all: seq<Id>,
                      ghost done: set<Id>, total: nat)
      returns (offset': nat, total': nat, ghost done': set<Id>)
      requires NoRepeats(all) && size >= 1 && offset + size <= |entries|
      requires Sweeping(before, r, all, done, offset, entries, records, total)
      modifies this`entries, this`records
      ensures Sweeping(before, r, all, done', offset', entries, records, total')
      ensures |entries| < |old(entries)| || (entries == old(entries) && offset' == offset + size)
      ensures offset + size == |old(entries)| ==> NoneGoes(before, r, entries)
    {
      var batch := entries[offset..offset + size];
      BatchOk(all, done, offset, size);
      var removed, cleaned := ExpireBatch(batch, r, before, done);
      SweepStep(before, r, all, done, offset, size, batch, old(entries), old(records), total, entries, records, removed,
                cleaned);
      offset', total' := if removed > 0 then 0 else offset + size, total + cleaned;
      done' := done + Lost(before, r, batch, |batch|);
    }

    // ---------- archive_to_sqlite ----------

    /** The reads of one batch: the rows to archive, and the entries whose record is gone. */
    method SelectRows(batch: seq<Id>, r: Rule, ghost before: map<Id, Record>, ghost done: set<Id>)
      returns (rows: set<Id>, stale: set<Id>)
      requires Same(before, records, r, done) && forall id <- batch :: id !in done
      ensures rows == Deleted(before, r, batch, |batch|)
      ensures rows + stale == Lost(before, r, batch, |batch|) && rows !! stale
    {
      rows, stale := {}, {};
      for i := 0 to |batch|
        invariant rows == Deleted(before, r, batch, i)
        invariant rows + stale == Lost(before, r, batch, i) && rows !! stale
      {
        var id := batch[i];
        assert batch[..i + 1] == batch[..i] + [id];
        SameGoes(before, records, r, done, id);
        if id !in records {
          stale := stale + {id};
        } else if records[id].terminal && !records[id].operational && id !in r.held
                  && (if r.strict then records[id].finished < r.cutoff else records[id].finished <= r.cutoff) {
          rows := rows + {id};
        }
      }
    }

    /** Rows are written to the archive before they are deleted. */
    method ArchiveBatch(batch: seq<Id>, r: Rule, ghost before: map<Id, Record>, ghost done: set<Id>,
                        ghost archived: set<Id>)
      returns (removed: nat, written: nat)
      requires NoRepeats(batch) && Same(before, records, r, done) && forall id <- batch :: id !in done
      requires archive == archived + DueOf(before, r, done)
      modifies this
      ensures Partway(before, r, batch, |batch|, old(entries), done, entries, records, removed, written)
      ensures archive == archived + DueOf(before, r, done + Lost(before, r, batch, |batch|))
    {
      DueNext(before, r, done, batch, archived);
      var rows, stale := SelectRows(batch, r, before, done);
      archive := archive + rows;
      ArchiveEffect(before, records, r, done, rows, stale);
      DropTwice(entries, rows, stale);
      entries := Drop(entries, rows);
      records := records - rows;
      entries := Drop(entries, stale);
      removed, written := |rows + stale|, |rows|;
    }

    /** archive_to_sqlite: the same sweep as clean_expired, batch by batch, with the rows kept elsewhere. */
    method ArchiveToSqlite(r: Rule, batchSize: nat) returns (total: nat)
      requires NoRepeats(entries) && batchSize >= 1
      modifies this
      ensures var gone := GoesOf(old(records), r, old(entries));
        && entries == Drop(old(entries), gone)
        && Same(old(records), records, r, gone)
        && archive == old(archive) + DueOf(old(records), r, gone)
        && total == |DueOf(old(records), r, gone)|
    {
      ghost var all, before, done := entries, records, {};
      DropNone(all, {});
      total := 0;
      var offset: nat := 0;
      while offset < |entries|
        invariant Sweeping(before, r, all, done, offset, entries, records, total)
        invariant archive == old(archive) + DueOf(before, r, done)
        decreases |entries|, |entries| - offset
      {
        var size := if offset + batchSize < |entries| then batchSize else |entries| - offset;
        offset, total, done := SweepArchive(offset, size, r, before, all, done, total, old(archive));
        if size < batchSize { break; }
      }
      WholePrefix(entries);
      SweepEnds(before, r, all, done, offset, entries, records, total);
    }

    method SweepArchive(offset: nat, size: nat, r: Rule, ghost before: map<Id, Record>, ghost all: seq<Id>,
                        ghost done: set<Id>, total: nat,
                        ghost archived: set<Id>)
      returns (offset': nat, total': nat, ghost done': set<Id>)
      requires NoRepeats(all) && size >= 1 && offset + size <= |entries|
      requires Sweeping(before, r, all, done, offset, entries, records, total)
        && archive == archived + DueOf(before, r, done)
      modifies this
      ensures Sweeping(before, r, all, done', offset', entries, records, total')
        && archive == archived + DueOf(before, r, done')
      ensures |entries| < |old(entries)| || (entries == old(entries) && offset' == offset + size)
      ensures offset + size == |old(entries)| ==> NoneGoes(before, r, entries)
    {
      var batch := entries[offset..offset + size];
      BatchOk(all, done, offset, size);
      var removed, cleaned := ArchiveBatch(batch, r, before, done, archived);
      SweepStep(before, r, all, done, offset, size, batch, old(entries), old(records), total, entries, records, removed,
                cleaned);
      offset', total' := if removed > 0 then 0 else offset + size, total + cleaned;
      done' := done + Lost(before, r, batch, |batch|);
    }
  }
}
