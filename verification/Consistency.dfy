/**
 The queue's own checker, `check_consistency`.  It is proved to report exactly what it looks for, on
 any store; on a store whose history is a run of the scripts it is silent.
 */
module Consistency {
  import opened Prelude
  import opened TaskModel
  import opened TaskInvariants
  import opened Containers
  import opened RedisStore

  // ---------- Where messages are ----------

  datatype Where = InReady | InDlq | InProcessing | InDelay

  datatype Entry = Entry(where: Where, id: TaskId)

  datatype Source = Source(where: Where, messages: seq<Message>)

  function EntriesOf(where: Where, messages: seq<Message>): seq<Entry> {
    if messages == [] then [] else [Entry(where, messages[0].id)] + EntriesOf(where, messages[1..])
  }

  function Concat(sources: seq<Source>): seq<Entry> {
    if sources == [] then [] else EntriesOf(sources[0].where, sources[0].messages) + Concat(sources[1..])
  }

  function WorkerSources(l: Lists, workers: seq<Worker>): seq<Source> {
    if workers == [] then []
    else [Source(InProcessing, WorkerList(l, workers[0]))] + WorkerSources(l, workers[1..])
  }

  /** The lists in the order the checker reads them. */
  function Sources(l: Lists, workers: seq<Worker>): seq<Source> {
    [Source(InReady, l.ready), Source(InDlq, l.dlq)] + WorkerSources(l, workers)
  }

  /** Every message of the queue; `delayed` is the order in which ZSCAN returns the delay set. */
  function Inventory(l: Lists, workers: seq<Worker>, delayed: seq<Message>): seq<Entry> {
    Concat(Sources(l, workers)) + EntriesOf(InDelay, delayed)
  }

  function At(locations: map<TaskId, seq<Where>>, id: TaskId): seq<Where> {
    if id in locations then locations[id] else []
  }

  /** locations.setdefault(id, []).append(where), entry by entry. */
  function Locate(locations: map<TaskId, seq<Where>>, entries: seq<Entry>): map<TaskId, seq<Where>>
    decreases |entries|
  {
    if entries == [] then locations
    else Locate(locations[entries[0].id := At(locations, entries[0].id) + [entries[0].where]], entries[1..])
  }

  lemma {:induction false} LocateAppend(locations: map<TaskId, seq<Where>>, entries: seq<Entry>, e: Entry)
    ensures var before := Locate(locations, entries);
      Locate(locations, entries + [e]) == before[e.id := At(before, e.id) + [e.where]]
    decreases |entries|
  {
    if entries == [] {
      assert [e][1..] == [];
    } else {
      assert (entries + [e])[1..] == entries[1..] + [e];
      LocateAppend(locations[entries[0].id := At(locations, entries[0].id) + [entries[0].where]], entries[1..], e);
    }
  }

  /** The checker knows about a task exactly the places where one of its messages was scanned. */
  lemma {:induction false} LocatedIff(entries: seq<Entry>, id: TaskId, where: Where)
    ensures where in At(Locate(map[], entries), id) <==> Entry(where, id) in entries
    ensures At(Locate(map[], entries), id) == [] <==> forall e <- entries :: e.id != id
    decreases |entries|
  {
    if entries != [] {
      var n := |entries| - 1;
      var front, last := entries[..n], entries[n];
      assert entries == front + [last];
      LocatedIff(front, id, where);
      LocateAppend(map[], front, last);
    }
  }

  lemma {:induction false} EntriesIff(where: Where, messages: seq<Message>, e: Entry)
    ensures e in EntriesOf(where, messages) <==> e.where == where && exists m :: m in messages && m.id == e.id
  {
    if messages != [] {
      EntriesIff(where, messages[1..], e);
      assert messages == [messages[0]] + messages[1..];
    }
  }

  lemma {:induction false} ConcatIff(sources: seq<Source>, e: Entry)
    ensures e in Concat(sources) <==> exists s :: s in sources && e in EntriesOf(s.where, s.messages)
  {
    if sources != [] {
      ConcatIff(sources[1..], e);
      assert sources == [sources[0]] + sources[1..];
    }
  }

  lemma {:induction false} WorkerSourcesIff(l: Lists, workers: seq<Worker>, s: Source)
    ensures s in WorkerSources(l, workers) <==> exists w :: w in workers && s == Source(InProcessing, WorkerList(l, w))
  {
    if workers != [] {
      WorkerSourcesIff(l, workers[1..], s);
      assert workers == [workers[0]] + workers[1..];
    }
  }

  // ---------- The scan ----------

  /** Reads messages until `limit`, and says whether that was all of them. */
  method ScanMessages(s: Store, workers: seq<Worker>, delayed: seq<Message>, limit: nat)
    returns (locations: map<TaskId, seq<Where>>, complete: bool)
    requires limit >= 1
    ensures locations == Locate(map[], Take(Inventory(s.lists, workers, delayed), limit))
    ensures complete <==> |Inventory(s.lists, workers, delayed)| < limit
  {
    var sources := Sources(s.lists, workers);
    ghost var all := Inventory(s.lists, workers, delayed);
    ghost var done: seq<Entry> := [];
    ghost var rest := all;
    var scanned, i := 0, 0;
    locations := map[];
    while i < |sources| && scanned < limit
      invariant 0 <= i <= |sources| && scanned <= limit
      invariant all == done + rest && scanned == |done| && locations == Locate(map[], done)
      invariant scanned < limit ==> rest == Concat(sources[i..]) + EntriesOf(InDelay, delayed)
    {
      ghost var after := Concat(sources[i + 1..]) + EntriesOf(InDelay, delayed);
      assert rest == EntriesOf(sources[i].where, sources[i].messages) + after;
      locations, scanned, done, rest := ScanList(locations, scanned, limit, sources[i], all, done, rest, after);
      i := i + 1;
    }
    if scanned < limit {
      assert rest == EntriesOf(InDelay, delayed) + [];
      locations, scanned, done, rest :=
        ScanList(locations, scanned, limit, Source(InDelay, delayed), all, done, rest, []);
    }
    assert scanned < limit ==> done == all;
    assert scanned == limit ==> done == all[..limit];
    complete := scanned < limit;
  }

  /** One list of the scan, cut off at the limit. */
  method ScanList(locations: map<TaskId, seq<Where>>, scanned: nat, limit: nat, source: Source,
                  ghost all: seq<Entry>, ghost done: seq<Entry>, ghost rest: seq<Entry>, ghost after: seq<Entry>)
    returns (locations': map<TaskId, seq<Where>>, scanned': nat, ghost done': seq<Entry>, ghost rest': seq<Entry>)
    requires scanned < limit && all == done + rest && scanned == |done| && locations == Locate(map[], done)
    requires rest == EntriesOf(source.where, source.messages) + after
    ensures scanned' <= limit && all == done' + rest' && scanned' == |done'| && locations' == Locate(map[], done')
    ensures scanned' < limit ==> rest' == after
  {
    locations', scanned', done', rest' := locations, scanned, done, rest;
    var j := 0;
    while j < |source.messages| && scanned' < limit
      invariant 0 <= j <= |source.messages| && scanned' <= limit
      invariant all == done' + rest' && scanned' == |done'| && locations' == Locate(map[], done')
      invariant rest' == EntriesOf(source.where, source.messages[j..]) + after
    {
      var id := source.messages[j].id;
      NextEntry(done', rest', Entry(source.where, id), EntriesOf(source.where, source.messages[j + 1..]) + after);
      LocateAppend(map[], done', Entry(source.where, id));
      locations' := locations'[id := At(locations', id) + [source.where]];
      done', rest' := done' + [rest'[0]], rest'[1..];
      scanned' := scanned' + 1;
      j := j + 1;
    }
  }

  lemma NextEntry(done: seq<Entry>, rest: seq<Entry>, e: Entry, after: seq<Entry>)
    requires rest == [e] + after
    ensures done + rest == (done + [rest[0]]) + rest[1..] && rest[0] == e && rest[1..] == after
  {
  }

  // ---------- The issues ----------

  datatype Issue =
    | NoHeartbeat(w: Worker)
    | OrphanOwner(key: Key, of: TaskId)
    | StaleIndex(id: TaskId)
    | LiveWithoutMessage(id: TaskId)
    | TerminalHasMessage(id: TaskId)
    | FailedOutsideDlq(id: TaskId)
    | FlagMismatch(id: TaskId)

  predicate Seen(entries: seq<Entry>, id: TaskId) {
    exists e :: e in entries && e.id == id
  }

  /** What the checker asked the store: worker lists, the delay scan, owner keys, the history index, the limit. */
  datatype Query = Query(workers: seq<Worker>, delayed: seq<Message>, ownerKeys: seq<Key>, index: seq<TaskId>,
                         limit: nat)

  /** What each report claims about the store, as far as the scan could see. */
  predicate Justified(l: Lists, records: map<TaskId, Record>, owners: map<Key, Owner>, heartbeats: map<Worker, Time>,
                      q: Query, x: Issue)
  {
    var all := Inventory(l, q.workers, q.delayed);
    var seen, complete := Take(all, q.limit), |all| < q.limit;
    match x
    case NoHeartbeat(w) => w in q.workers && WorkerList(l, w) != [] && w !in heartbeats
    case OrphanOwner(k, id) =>
      k in Take(q.ownerKeys, q.limit) && k in owners && owners[k].taskId == id && owners[k].outcome == Live
        && id !in records
    case StaleIndex(id) => id in Take(q.index, q.limit) && id !in records
    case LiveWithoutMessage(id) =>
      id in Take(q.index, q.limit) && id in records && records[id].outcome == Live && complete && !Seen(seen, id)
    case TerminalHasMessage(id) =>
      id in Take(q.index, q.limit) && id in records && records[id].outcome in {Completed, Skipped, Cancelled}
        && Seen(seen, id)
    case FailedOutsideDlq(id) =>
      id in Take(q.index, q.limit) && id in records && records[id].outcome == Failed
      && exists e :: e in seen && e.id == id && e.where != InDlq
    case FlagMismatch(id) =>
      id in Take(q.index, q.limit) && id in records && (complete || Seen(seen, id))
      && records[id].operational != Seen(seen, id)
  }

  function HeartbeatIssues(l: Lists, heartbeats: map<Worker, Time>, w: Worker): seq<Issue> {
    if WorkerList(l, w) != [] && w !in heartbeats then [NoHeartbeat(w)] else []
  }

  function OwnerIssues(owners: map<Key, Owner>, records: map<TaskId, Record>, k: Key): seq<Issue> {
    if k in owners && owners[k].outcome == Live && owners[k].taskId !in records then [OrphanOwner(k, owners[k].taskId)]
      else []
  }

  function RecordIssues(records: map<TaskId, Record>, locations: map<TaskId, seq<Where>>, complete: bool,
                        id: TaskId): seq<Issue> {
    if id !in records then [StaleIndex(id)]
    else
      var rec, places := records[id], At(locations, id);
      var known := places != [] || complete;
      (if rec.outcome == Live && places == [] && known then [LiveWithoutMessage(id)] else [])
      + (if rec.outcome in {Completed, Skipped, Cancelled} && places != [] then [TerminalHasMessage(id)] else [])
      + (if rec.outcome == Failed && (exists p :: p in places && p != InDlq) then [FailedOutsideDlq(id)] else [])
      + (if known && rec.operational != (places != []) then [FlagMismatch(id)] else [])
  }

  /** One pass of a loop that appends its findings. */
  function Gather<A>(xs: seq<A>, f: A -> seq<Issue>): seq<Issue> {
    if xs == [] then [] else Gather(xs[..|xs| - 1], f) + f(xs[|xs| - 1])
  }

  lemma {:induction false} GatherIff<A(!new)>(xs: seq<A>, f: A -> seq<Issue>, x: Issue)
    ensures x in Gather(xs, f) <==> exists a :: a in xs && x in f(a)
  {
    if xs != [] {
      var n := |xs| - 1;
      GatherIff(xs[..n], f, x);
      assert xs == xs[..n] + [xs[n]];
    }
  }

  method GatherAll<A>(xs: seq<A>, f: A -> seq<Issue>) returns (issues: seq<Issue>)
    ensures issues == Gather(xs, f)
  {
    issues := [];
    for i := 0 to |xs|
      invariant issues == Gather(xs[..i], f)
    {
      assert xs[..i + 1][..i] == xs[..i];
      issues := issues + f(xs[i]);
    }
    assert xs[..|xs|] == xs;
  }

  /** check_consistency: it reports exactly what holds of the scanned part of the store. */
  method CheckConsistency(s: Store, q: Query) returns (issues: seq<Issue>)
    requires q.limit >= 1
    ensures forall x :: x in issues <==> Justified(s.lists, s.records, s.owners, s.heartbeats, q, x)
  {
    var locations, complete := ScanMessages(s, q.workers, q.delayed, q.limit);
    var l, records, owners, heartbeats := s.lists, s.records, s.owners, s.heartbeats;
    var beats := GatherAll(q.workers, w => HeartbeatIssues(l, heartbeats, w));
    var owned := GatherAll(Take(q.ownerKeys, q.limit), k => OwnerIssues(owners, records, k));
    var recorded := GatherAll(Take(q.index, q.limit), id => RecordIssues(records, locations, complete, id));
    issues := beats + owned + recorded;
    forall x ensures x in issues <==> Justified(l, records, owners, heartbeats, q, x) {
      IssuesAreJustified(l, records, owners, heartbeats, q, locations, complete, x);
    }
  }

  lemma RecordIssueIff(records: map<TaskId, Record>, entries: seq<Entry>, complete: bool, id: TaskId, x: Issue)
    ensures x in RecordIssues(records, Locate(map[], entries), complete, id) <==>
      match x
      case NoHeartbeat(_) => false
      case OrphanOwner(_, _) => false
      case StaleIndex(i) => i == id && id !in records
      case LiveWithoutMessage(i) =>
        i == id && id in records && records[id].outcome == Live && complete && !Seen(entries, id)
      case TerminalHasMessage(i) =>
        i == id && id in records && records[id].outcome in {Completed, Skipped, Cancelled} && Seen(entries, id)
      case FailedOutsideDlq(i) =>
        i == id && id in records && records[id].outcome == Failed && exists e ::
          e in entries && e.id == id && e.where != InDlq
      case FlagMismatch(i) =>
        i == id && id in records && (complete || Seen(entries, id)) && records[id].operational != Seen(entries, id)
  {
    LocatedIff(entries, id, InReady);
    var places := At(Locate(map[], entries), id);
    forall p: Where ensures p in places <==> Entry(p, id) in entries { LocatedIff(entries, id, p); }
    assert (exists p :: p in places && p != InDlq)
      <==> (exists e :: e in entries && e.id == id && e.where != InDlq) by {
      if p :| p in places && p != InDlq { assert Entry(p, id) in entries; }
      if e :| e in entries && e.id == id && e.where != InDlq { assert e == Entry(e.where, id) && e.where in places; }
    }
  }

  lemma IssuesAreJustified(l: Lists, records: map<TaskId, Record>, owners: map<Key, Owner>,
                           heartbeats: map<Worker, Time>,
                           q: Query, locations: map<TaskId, seq<Where>>, complete: bool, x: Issue)
    requires var all := Inventory(l, q.workers, q.delayed);
      locations == Locate(map[], Take(all, q.limit)) && (complete <==> |all| < q.limit)
    ensures x in Gather(q.workers, w => HeartbeatIssues(l, heartbeats, w))
                 + Gather(Take(q.ownerKeys, q.limit), k => OwnerIssues(owners, records, k))
                 + Gather(Take(q.index, q.limit), id => RecordIssues(records, locations, complete, id))
            <==> Justified(l, records, owners, heartbeats, q, x)
  {
    var beat := w => HeartbeatIssues(l, heartbeats, w);
    var own := k => OwnerIssues(owners, records, k);
    var rec := id => RecordIssues(records, locations, complete, id);
    GatherIff(q.workers, beat, x);
    GatherIff(Take(q.ownerKeys, q.limit), own, x);
    GatherIff(Take(q.index, q.limit), rec, x);
    var seen := Take(Inventory(l, q.workers, q.delayed), q.limit);
    forall id: TaskId { RecordIssueIff(records, seen, complete, id, x); }
  }

  // ---------- Silence ----------

  function WhereOf(p: Place): Where {
    match p
    case Ready => InReady
    case Dlq => InDlq
    case Processing(_) => InProcessing
    case Delay(_) => InDelay
  }

  /** The registry names every worker whose list is not empty, and ZSCAN returns the whole delay set. */
  ghost predicate Covers(l: Lists, workers: seq<Worker>, delayed: seq<Message>) {
    && (forall w: Worker :: WorkerList(l, w) != [] ==> w in workers)
    && (forall m :: m in delayed <==> m in l.delay)
  }

  lemma EntryOfListed(l: Lists, workers: seq<Worker>, delayed: seq<Message>, where: Where, m: Message)
    requires Covers(l, workers, delayed)
    requires match where
      case InReady => m in l.ready
      case InDlq => m in l.dlq
      case InDelay => m in l.delay
      case InProcessing => exists w: Worker :: m in WorkerList(l, w)
    ensures Entry(where, m.id) in Inventory(l, workers, delayed)
  {
    var e := Entry(where, m.id);
    ConcatIff(Sources(l, workers), e);
    EntriesIff(InDelay, delayed, e);
    var all := Sources(l, workers);
    match where
    case InReady => assert all[0] in all; EntriesIff(InReady, l.ready, e);
    case InDlq => assert all[1] in all; EntriesIff(InDlq, l.dlq, e);
    case InDelay =>
    case InProcessing =>
      var w :| m in WorkerList(l, w);
      var src := Source(InProcessing, WorkerList(l, w));
      WorkerSourcesIff(l, workers, src);
      EntriesIff(InProcessing, WorkerList(l, w), e);
      assert src in all;
  }

  lemma ListedOfEntry(l: Lists, workers: seq<Worker>, delayed: seq<Message>, e: Entry) returns (m: Message)
    requires e in Inventory(l, workers, delayed) && forall m :: m in delayed <==> m in l.delay
    ensures m.id == e.id
    ensures match e.where
      case InReady => m in l.ready
      case InDlq => m in l.dlq
      case InDelay => m in l.delay
      case InProcessing => exists w: Worker :: m in WorkerList(l, w)
  {
    EntriesIff(InDelay, delayed, e);
    if e in EntriesOf(InDelay, delayed) {
      m :| m in delayed && m.id == e.id;
    } else {
      ConcatIff(Sources(l, workers), e);
      var s :| s in Sources(l, workers) && e in EntriesOf(s.where, s.messages);
      EntriesIff(s.where, s.messages, e);
      WorkerSourcesIff(l, workers, s);
      m :| m in s.messages && m.id == e.id;
    }
  }

  /** A full scan finds a task in exactly the container of its slot. */
  lemma ScannedIffSlot(l: Lists, tasks: map<TaskId, Task>, workers: seq<Worker>, delayed: seq<Message>, id: TaskId,
                       where: Where)
    requires ListsMirror(l, tasks) && Covers(l, workers, delayed)
    requires id in tasks && tasks[id].slot.Some? ==> tasks[id].slot.value.msg.id == id
    ensures Entry(where, id) in Inventory(l, workers, delayed)
      <==> (id in tasks && tasks[id].slot.Some? && WhereOf(tasks[id].slot.value.place) == where)
  {
    if id in tasks && tasks[id].slot.Some? && WhereOf(tasks[id].slot.value.place) == where {
      var slot := tasks[id].slot.value;
      assert InSlot(tasks, slot.place, slot.msg);
      EntryOfListed(l, workers, delayed, where, slot.msg);
    }
    if Entry(where, id) in Inventory(l, workers, delayed) {
      var m := ListedOfEntry(l, workers, delayed, Entry(where, id));
      match where
      case InReady => assert InSlot(tasks, Ready, m);
      case InDlq => assert InSlot(tasks, Dlq, m);
      case InDelay => assert InSlot(tasks, Delay(l.delay[m]), m);
      case InProcessing =>
        var w :| m in WorkerList(l, w);
        assert InSlot(tasks, Processing(w), m);
    }
  }

  /** In any scan, cut short or not, what was seen of a task is where its one message is. */
  lemma SeenIsSlot(l: Lists, tasks: map<TaskId, Task>, q: Query, id: TaskId)
    requires ListsMirror(l, tasks) && Covers(l, q.workers, q.delayed)
    requires id in tasks && tasks[id].slot.Some? ==> tasks[id].slot.value.msg.id == id
    ensures var all := Inventory(l, q.workers, q.delayed); var seen := Take(all, q.limit);
      && (forall e :: e in seen && e.id == id ==>
            id in tasks && tasks[id].slot.Some? && e.where == WhereOf(tasks[id].slot.value.place))
      && (|all| < q.limit && id in tasks && tasks[id].slot.Some? ==> Seen(seen, id))
  {
    var all := Inventory(l, q.workers, q.delayed);
    forall where ensures Entry(where, id) in all
      <==> (id in tasks && tasks[id].slot.Some? && WhereOf(tasks[id].slot.value.place) == where)
    {
      ScannedIffSlot(l, tasks, q.workers, q.delayed, id, where);
    }
    forall e | e in Take(all, q.limit) && e.id == id ensures e == Entry(e.where, id) && e in all {}
    if |all| < q.limit && id in tasks && tasks[id].slot.Some? {
      assert Take(all, q.limit) == all && Entry(WhereOf(tasks[id].slot.value.place), id) in all;
    }
  }

  lemma NoRecordIssue(l: Lists, records: map<TaskId, Record>, deadlines: map<TaskId, Time>, s: State,
                      heartbeats: map<Worker, Time>, q: Query, x: Issue)
    requires TasksOk(s) && ListsMirror(l, s.tasks) && HashesMirror(records, deadlines, s.tasks)
    requires Covers(l, q.workers, q.delayed)
    requires x.LiveWithoutMessage? || x.TerminalHasMessage? || x.FailedOutsideDlq? || x.FlagMismatch?
    ensures !Justified(l, records, s.owners, heartbeats, q, x)
  {
    if x.id in records {
      HashesAt(records, deadlines, s.tasks, x.id);
      SeenIsSlot(l, s.tasks, q, x.id);
    }
  }

  /**
   On every store whose history is a run of the scripts, and for every limit, the checker is silent
   about tasks and owners; at most it names workers without a heartbeat and expired history entries.
   */
  lemma CheckerIsSilent(run: seq<Action>, store: Store, q: Query, x: Issue)
    requires FreshRun(EMPTY, run) && store.Valid() && store.state == Run(EMPTY, run)
    requires Covers(store.lists, q.workers, q.delayed)
    requires Justified(store.lists, store.records, store.owners, store.heartbeats, q, x)
    ensures x.NoHeartbeat? || x.StaleIndex?
  {
    EmptyOk();
    RunKeepsInv(EMPTY, run);
    var s := store.state;
    if x.OrphanOwner? {
      HashesAt(store.records, store.deadlines, s.tasks, x.of);
    } else if !x.NoHeartbeat? && !x.StaleIndex? {
      NoRecordIssue(store.lists, store.records, store.deadlines, s, store.heartbeats, q, x);
    }
  }

  predicate IsInList(s: State, id: TaskId, w: Worker) {
    id in s.tasks && s.tasks[id].slot.Some? && s.tasks[id].slot.value.place == Processing(w)
  }

  /** A worker is named exactly if a task's message is in its list and its heartbeat has lapsed. */
  lemma LostWorkersAreNamed(store: Store, q: Query, w: Worker)
    requires store.Valid() && TasksOk(store.state)
    ensures Justified(store.lists, store.records, store.owners, store.heartbeats, q, NoHeartbeat(w))
       <==> w in q.workers && w !in store.state.heartbeats && exists id :: IsInList(store.state, id, w)
  {
    var s := store.state;
    if WorkerList(store.lists, w) != [] {
      assert InSlot(s.tasks, Processing(w), WorkerList(store.lists, w)[0]);
      assert IsInList(s, WorkerList(store.lists, w)[0].id, w);
    }
    forall id | IsInList(s, id, w)
      ensures WorkerList(store.lists, w) != []
    {
      assert TaskOk(id, s.tasks[id]);
      assert InSlot(s.tasks, Processing(w), s.tasks[id].slot.value.msg);
    }
  }

  /** An index entry is reported stale exactly if the record it names is gone. */
  lemma StaleEntriesAreNamed(store: Store, q: Query, id: TaskId)
    requires store.Valid()
    ensures Justified(store.lists, store.records, store.owners, store.heartbeats, q, StaleIndex(id))
       <==> id in Take(q.index, q.limit) && RecordOf(store.state, id).None?
  {
    HashesAt(store.records, store.deadlines, store.state.tasks, id);
  }

  // ---------- Conservation over the real containers ----------

  function Total(l: Lists, workers: seq<Worker>): nat {
    if workers == [] then 0 else |WorkerList(l, workers[0])| + Total(l, workers[1..])
  }

  function IdsIn(tasks: map<TaskId, Task>, place: Place): set<TaskId> {
    set id | id in tasks && tasks[id].slot.Some? && tasks[id].slot.value.place == place
  }

  predicate SlotIds(tasks: map<TaskId, Task>) {
    forall id <- tasks :: tasks[id].slot.Some? ==> tasks[id].slot.value.msg.id == id
  }

  lemma {:induction false} DistinctIds(xs: seq<Message>, ids: set<TaskId>)
    requires forall i, j :: 0 <= i < j < |xs| ==> xs[i].id != xs[j].id
    requires forall id: TaskId :: id in ids <==> exists m :: m in xs && m.id == id
    ensures |xs| == |ids|
  {
    if xs == [] {
      assert ids == {};
    } else {
      var id := xs[0].id;
      assert id in ids;
      forall x: TaskId ensures x in ids - {id} <==> exists m :: m in xs[1..] && m.id == x {
        if x in ids - {id} {
          var m :| m in xs && m.id == x;
          assert m in xs[1..];
        }
      }
      DistinctIds(xs[1..], ids - {id});
    }
  }

  /** A list is as long as the set of tasks whose slot it is. */
  lemma ListCounts(xs: seq<Message>, tasks: map<TaskId, Task>, place: Place)
    requires ListMirrors(xs, tasks, place) && SlotIds(tasks)
    ensures |xs| == |IdsIn(tasks, place)|
  {
    forall i, j | 0 <= i < j < |xs| ensures xs[i].id != xs[j].id {
      assert InSlot(tasks, place, xs[i]) && InSlot(tasks, place, xs[j]);
    }
    forall id: TaskId ensures id in IdsIn(tasks, place) <==> exists m :: m in xs && m.id == id {
      if id in IdsIn(tasks, place) { assert InSlot(tasks, place, tasks[id].slot.value.msg); }
    }
    DistinctIds(xs, IdsIn(tasks, place));
  }

  function RunningIds(tasks: map<TaskId, Task>, workers: seq<Worker>): set<TaskId> {
    set id | id in tasks && tasks[id].slot.Some? && tasks[id].slot.value.place.Processing?
             && tasks[id].slot.value.place.worker in workers
  }

  lemma RunningSplit(tasks: map<TaskId, Task>, workers: seq<Worker>)
    requires workers != [] && workers[0] !in workers[1..]
    ensures |RunningIds(tasks, workers)| == |IdsIn(tasks, Processing(workers[0]))| + |RunningIds(tasks, workers[1..])|
  {
    var first, others := IdsIn(tasks, Processing(workers[0])), RunningIds(tasks, workers[1..]);
    assert workers == [workers[0]] + workers[1..];
    assert RunningIds(tasks, workers) == first + others;
    assert first !! others;
  }

  lemma {:induction false} WorkersCount(l: Lists, tasks: map<TaskId, Task>, workers: seq<Worker>)
    requires ListsMirror(l, tasks) && SlotIds(tasks)
    requires forall i, j :: 0 <= i < j < |workers| ==> workers[i] != workers[j]
    ensures Total(l, workers) == |RunningIds(tasks, workers)|
  {
    if workers == [] {
      assert RunningIds(tasks, workers) == {};
    } else {
      var w, rest := workers[0], workers[1..];
      WorkersCount(l, tasks, rest);
      ListCounts(WorkerList(l, w), tasks, Processing(w));
      RunningSplit(tasks, workers);
    }
  }

  function DelayedIds(tasks: map<TaskId, Task>): set<TaskId> {
    set id | id in tasks && tasks[id].slot.Some? && tasks[id].slot.value.place.Delay?
  }

  lemma {:induction false} InjectiveImage(ms: set<Message>, ids: set<TaskId>)
    requires forall m, n :: m in ms && n in ms && m.id == n.id ==> m == n
    requires forall id: TaskId :: id in ids <==> exists m :: m in ms && m.id == id
    ensures |ms| == |ids|
  {
    if ms == {} {
      assert ids == {};
    } else {
      var m :| m in ms;
      forall x: TaskId ensures x in ids - {m.id} <==> exists n :: n in ms - {m} && n.id == x {
        if x in ids - {m.id} {
          var n :| n in ms && n.id == x;
          assert n in ms - {m};
        }
      }
      InjectiveImage(ms - {m}, ids - {m.id});
    }
  }

  lemma DelayCounts(delay: map<Message, Time>, tasks: map<TaskId, Task>)
    requires DelayMirrors(delay, tasks) && SlotIds(tasks)
    ensures |delay| == |DelayedIds(tasks)|
  {
    forall m, n | m in delay.Keys && n in delay.Keys && m.id == n.id ensures m == n {
      assert InSlot(tasks, Delay(delay[m]), m) && InSlot(tasks, Delay(delay[n]), n);
    }
    forall id: TaskId ensures id in DelayedIds(tasks) <==> exists m :: m in delay.Keys && m.id == id {
      if id in DelayedIds(tasks) { assert InSlot(tasks, tasks[id].slot.value.place, tasks[id].slot.value.msg); }
      if m :| m in delay.Keys && m.id == id { assert InSlot(tasks, Delay(delay[m]), m); }
    }
    InjectiveImage(delay.Keys, DelayedIds(tasks));
  }

  lemma LiveIsQueued(s: State, l: Lists, workers: seq<Worker>)
    requires TasksOk(s) && ListsMirror(l, s.tasks) && forall w: Worker :: WorkerList(l, w) != [] ==> w in workers
    requires forall i, j :: 0 <= i < j < |workers| ==> workers[i] != workers[j]
    ensures |WithOutcome(s.tasks, Live)| == |l.ready| + Total(l, workers) + |l.delay|
  {
    ListCounts(l.ready, s.tasks, Ready);
    WorkersCount(l, s.tasks, workers);
    DelayCounts(l.delay, s.tasks);
    forall id <- s.tasks | s.tasks[id].slot.Some? && s.tasks[id].slot.value.place.Processing?
      ensures s.tasks[id].slot.value.place.worker in workers
    {
      assert InSlot(s.tasks, s.tasks[id].slot.value.place, s.tasks[id].slot.value.msg);
    }
    LiveSplit(s, workers);
  }

  lemma LiveSplit(s: State, workers: seq<Worker>)
    requires TasksOk(s)
    requires forall id <- s.tasks :: s.tasks[id].slot.Some? && s.tasks[id].slot.value.place.Processing? ==>
      s.tasks[id].slot.value.place.worker in workers
    ensures |WithOutcome(s.tasks, Live)|
      == |IdsIn(s.tasks, Ready)| + |RunningIds(s.tasks, workers)| + |DelayedIds(s.tasks)|
  {
    var ready, running, delayed := IdsIn(s.tasks, Ready), RunningIds(s.tasks, workers), DelayedIds(s.tasks);
    forall id: TaskId ensures id in WithOutcome(s.tasks, Live) <==> id in ready + running + delayed {
      if id in s.tasks { assert TaskOk(id, s.tasks[id]); }
    }
    SizeOfThree(WithOutcome(s.tasks, Live), ready, running, delayed);
  }

  lemma SizeOfThree(all: set<TaskId>, a: set<TaskId>, b: set<TaskId>, c: set<TaskId>)
    requires forall id: TaskId :: id in all <==> id in a + b + c
    requires a !! b && (a + b) !! c
    ensures |all| == |a| + |b| + |c|
  {
    assert all == a + b + c;
  }

  /**
   Conservation, on the lists and counters themselves: what was accepted is waiting, running,
   delayed, or has been counted out once.
   */
  lemma StoreConservation(run: seq<Action>, store: Store, workers: seq<Worker>)
    requires FreshRun(EMPTY, run) && store.Valid() && store.state == Run(EMPTY, run)
    requires forall w: Worker :: WorkerList(store.lists, w) != [] ==> w in workers
    requires forall i, j :: 0 <= i < j < |workers| ==> workers[i] != workers[j]
    ensures store.metrics.accepted ==
      |store.lists.ready| + Total(store.lists, workers) + |store.lists.delay|
      + store.metrics.completed + store.metrics.failed + store.metrics.skipped + store.metrics.cancelled
  {
    EmptyOk();
    RunKeepsInv(EMPTY, run);
    LiveIsQueued(store.state, store.lists, workers);
  }
}
