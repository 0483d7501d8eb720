/**
 rebuild_observation_indexes: a recount of the deadline index and the counters from the records and
 the containers.  On a store whose history is a run of the scripts it changes no counter, and it
 changes the index exactly when a popped message with a deadline has not been begun yet.
 */
module Observation {
  import opened Prelude
  import opened TaskModel
  import opened TaskInvariants
  import opened Containers
  import opened RedisStore
  import opened Consistency

  /** The answers of the store's scans; ids and messages come back once each. */
  datatype Scans = Scans(workers: seq<Worker>, delayed: seq<Message>, index: seq<TaskId>)

  predicate IdIn(messages: seq<Message>, id: TaskId) {
    exists m :: m in messages && m.id == id
  }

  function RunningIn(l: Lists, workers: seq<Worker>): set<TaskId> {
    if workers == [] then {}
    else RunningIn(l, workers[..|workers| - 1]) + set m | m in WorkerList(l, workers[|workers| - 1]) :: m.id
  }

  /** Does the rebuild index this record? */
  predicate Indexed(rec: Record, running: bool) {
    rec.outcome == Live && !running && rec.location != AtProcessing && rec.spec.deadline.Some?
  }

  function FreshIndex(records: map<TaskId, Record>, running: set<TaskId>, index: seq<TaskId>): map<TaskId, Time> {
    map id | id in index && id in records && Indexed(records[id], id in running) :: records[id].spec.deadline.value
  }

  function CountOf(records: map<TaskId, Record>, index: seq<TaskId>, o: Outcome): nat {
    if index == [] then 0
    else
      var id := index[|index| - 1];
      CountOf(records, index[..|index| - 1], o) + (if id in records && records[id].outcome == o then 1 else 0)
  }

  function RetriesIn(delayed: seq<Message>): nat {
    if delayed == [] then 0
    else RetriesIn(delayed[..|delayed| - 1]) + (if delayed[|delayed| - 1].reason == OnRetry then 1 else 0)
  }

  function Max(a: int, b: int): int { if a > b then a else b }

  function FreshMetrics(m: Metrics, records: map<TaskId, Record>, index: seq<TaskId>, delayed: seq<Message>): Metrics {
    m.(completed := Max(m.completed, CountOf(records, index, Completed)),
       failed := Max(m.failed, CountOf(records, index, Failed)),
       skipped := Max(m.skipped, CountOf(records, index, Skipped)),
       cancelled := Max(m.cancelled, CountOf(records, index, Cancelled)),
       retryWait := RetriesIn(delayed))
  }

  method CollectRunning(l: Lists, workers: seq<Worker>) returns (running: set<TaskId>)
    ensures running == RunningIn(l, workers)
  {
    running := {};
    for i := 0 to |workers|
      invariant running == RunningIn(l, workers[..i])
    {
      assert workers[..i + 1][..i] == workers[..i];
      var messages := WorkerList(l, workers[i]);
      ghost var before := running;
      for j := 0 to |messages|
        invariant running == before + set m | m in messages[..j] :: m.id
      {
        assert messages[..j + 1] == messages[..j] + [messages[j]];
        running := running + {messages[j].id};
      }
      assert messages[..|messages|] == messages;
    }
    assert workers[..|workers|] == workers;
  }

  method Recount(records: map<TaskId, Record>, running: set<TaskId>, index: seq<TaskId>)
    returns (deadlines: map<TaskId, Time>, completed: nat, failed: nat, skipped: nat, cancelled: nat)
    ensures deadlines == FreshIndex(records, running, index)
    ensures completed == CountOf(records, index, Completed) && failed == CountOf(records, index, Failed)
    ensures skipped == CountOf(records, index, Skipped) && cancelled == CountOf(records, index, Cancelled)
  {
    deadlines, completed, failed, skipped, cancelled := map[], 0, 0, 0, 0;
    for i := 0 to |index|
      invariant deadlines == FreshIndex(records, running, index[..i])
      invariant completed == CountOf(records, index[..i], Completed) && failed == CountOf(records, index[..i], Failed)
      invariant skipped == CountOf(records, index[..i], Skipped) && cancelled == CountOf(records, index[..i], Cancelled)
    {
      var id := index[i];
      FreshIndexNext(records, running, index, i);
      assert index[..i + 1][..i] == index[..i];
      if id in records {
        var rec := records[id];
        match rec.outcome
        case Completed => completed := completed + 1;
        case Failed => failed := failed + 1;
        case Skipped => skipped := skipped + 1;
        case Cancelled => cancelled := cancelled + 1;
        case Live =>
          if id !in running && rec.location != AtProcessing && rec.spec.deadline.Some? {
            deadlines := deadlines[id := rec.spec.deadline.value];
          }
      }
    }
    assert index[..|index|] == index;
  }

  lemma FreshIndexNext(records: map<TaskId, Record>, running: set<TaskId>, index: seq<TaskId>, i: nat)
    requires i < |index|
    ensures FreshIndex(records, running, index[..i + 1]) ==
      if index[i] in records && Indexed(records[index[i]], index[i] in running)
      then FreshIndex(records, running, index[..i])[index[i] := records[index[i]].spec.deadline.value]
      else FreshIndex(records, running, index[..i])
  {
    assert index[..i + 1] == index[..i] + [index[i]];
  }

  method CountRetries(delayed: seq<Message>) returns (n: nat)
    ensures n == RetriesIn(delayed)
  {
    n := 0;
    for i := 0 to |delayed|
      invariant n == RetriesIn(delayed[..i])
    {
      assert delayed[..i + 1][..i] == delayed[..i];
      if delayed[i].reason == OnRetry { n := n + 1; }
    }
    assert delayed[..|delayed|] == delayed;
  }

  /** rebuild_observation_indexes; it refuses while any worker is alive. */
  method RebuildIndexes(s: Store, q: Scans) returns (done: bool)
    modifies s`deadlines, s`metrics
    ensures done <==> s.heartbeats == map[]
    ensures !done ==> s.deadlines == old(s.deadlines) && s.metrics == old(s.metrics)
    ensures done ==> s.deadlines == FreshIndex(s.records, RunningIn(s.lists, q.workers), q.index)
    ensures done ==> s.metrics == FreshMetrics(old(s.metrics), s.records, q.index, q.delayed)
  {
    if s.heartbeats != map[] { return false; }
    var running := CollectRunning(s.lists, q.workers);
    var deadlines, completed, failed, skipped, cancelled := Recount(s.records, running, q.index);
    var retries := CountRetries(q.delayed);
    s.deadlines := deadlines;
    s.metrics := s.metrics.(completed := Max(s.metrics.completed, completed), failed := Max(s.metrics.failed, failed),
                            skipped := Max(s.metrics.skipped, skipped),
                            cancelled := Max(s.metrics.cancelled, cancelled),
                            retryWait := retries);
    return true;
  }

  // ---------- The recount finds what the scripts kept ----------

  /** The scans are complete and free of repetitions. */
  ghost predicate Complete(l: Lists, records: map<TaskId, Record>, q: Scans) {
    && Covers(l, q.workers, q.delayed) && NoDup(q.delayed)
    && (forall id <- records :: id in q.index)
    && (forall i, j :: 0 <= i < j < |q.index| ==> q.index[i] != q.index[j])
  }

  lemma {:induction false} RunningIff(l: Lists, workers: seq<Worker>, id: TaskId)
    ensures id in RunningIn(l, workers) <==> exists w: Worker :: w in workers && IdIn(WorkerList(l, w), id)
  {
    if workers != [] {
      var n := |workers| - 1;
      RunningIff(l, workers[..n], id);
      assert workers == workers[..n] + [workers[n]];
      if id in RunningIn(l, workers) && id !in RunningIn(l, workers[..n]) {
        assert IdIn(WorkerList(l, workers[n]), id);
      }
      if w: Worker :| w in workers && IdIn(WorkerList(l, w), id) && w !in workers[..n] {
        var m :| m in WorkerList(l, w) && m.id == id;
      }
    }
  }

  lemma RunningIffProcessing(l: Lists, tasks: map<TaskId, Task>, workers: seq<Worker>, id: TaskId)
    requires ListsMirror(l, tasks) && SlotIds(tasks) && forall w: Worker :: WorkerList(l, w) != [] ==> w in workers
    ensures id in RunningIn(l, workers)
      <==> id in tasks && tasks[id].slot.Some? && tasks[id].slot.value.place.Processing?
  {
    RunningIff(l, workers, id);
    if id in tasks && tasks[id].slot.Some? && tasks[id].slot.value.place.Processing? {
      var w := tasks[id].slot.value.place.worker;
      assert InSlot(tasks, Processing(w), tasks[id].slot.value.msg);
      assert IdIn(WorkerList(l, w), id);
    }
    if w: Worker :| w in workers && IdIn(WorkerList(l, w), id) {
      var m :| m in WorkerList(l, w) && m.id == id;
      assert InSlot(tasks, Processing(w), m);
    }
  }

  function Counted(records: map<TaskId, Record>, index: seq<TaskId>, o: Outcome): set<TaskId> {
    set id | id in index && id in records && records[id].outcome == o
  }

  lemma {:induction false} CountIsSize(records: map<TaskId, Record>, index: seq<TaskId>, o: Outcome)
    requires forall i, j :: 0 <= i < j < |index| ==> index[i] != index[j]
    ensures CountOf(records, index, o) == |Counted(records, index, o)|
  {
    var all := Counted(records, index, o);
    if index == [] {
      assert all == {};
    } else {
      var n := |index| - 1;
      CountIsSize(records, index[..n], o);
      assert index == index[..n] + [index[n]] && index[n] !in index[..n];
      var front := Counted(records, index[..n], o);
      if index[n] in records && records[index[n]].outcome == o {
        assert all == front + {index[n]};
      } else {
        assert all == front;
      }
    }
  }

  lemma CountsAgree(records: map<TaskId, Record>, deadlines: map<TaskId, Time>, tasks: map<TaskId, Task>,
                    index: seq<TaskId>, o: Outcome)
    requires HashesMirror(records, deadlines, tasks) && forall id <- records :: id in index
    requires forall i, j :: 0 <= i < j < |index| ==> index[i] != index[j]
    ensures CountOf(records, index, o) == |WithOutcome(tasks, o)|
  {
    CountIsSize(records, index, o);
    var counted := Counted(records, index, o);
    forall id: TaskId ensures id in counted <==> id in WithOutcome(tasks, o) {
      HashesAt(records, deadlines, tasks, id);
    }
    assert counted == WithOutcome(tasks, o);
  }

  function RetryIds(delayed: seq<Message>): set<TaskId> {
    set m | m in delayed && m.reason == OnRetry :: m.id
  }

  lemma {:induction false} RetriesAreIds(delayed: seq<Message>)
    requires forall i, j :: 0 <= i < j < |delayed| ==> delayed[i].id != delayed[j].id
    ensures RetriesIn(delayed) == |RetryIds(delayed)|
  {
    var all := RetryIds(delayed);
    if delayed == [] {
      assert all == {};
    } else {
      var n := |delayed| - 1;
      RetriesAreIds(delayed[..n]);
      assert delayed == delayed[..n] + [delayed[n]];
      var front, last := RetryIds(delayed[..n]), delayed[n];
      if last.reason == OnRetry {
        assert all == front + {last.id};
        assert last.id !in front;
      } else {
        assert all == front;
      }
    }
  }

  lemma RetriesAgree(l: Lists, tasks: map<TaskId, Task>, delayed: seq<Message>)
    requires DelayMirrors(l.delay, tasks) && SlotIds(tasks) && NoDup(delayed)
    requires forall m :: m in delayed <==> m in l.delay
    ensures RetriesIn(delayed) == |RetryWaiting(tasks)|
  {
    forall i, j | 0 <= i < j < |delayed| ensures delayed[i].id != delayed[j].id {
      DelayedIff(l.delay, tasks, delayed[i]);
      DelayedIff(l.delay, tasks, delayed[j]);
    }
    RetriesAreIds(delayed);
    var ids := RetryIds(delayed);
    forall id: TaskId ensures id in ids <==> id in RetryWaiting(tasks) {
      if id in RetryWaiting(tasks) { DelayedIff(l.delay, tasks, tasks[id].slot.value.msg); }
      if m :| m in delayed && m.reason == OnRetry && m.id == id { DelayedIff(l.delay, tasks, m); }
    }
    assert ids == RetryWaiting(tasks);
  }

  /** A popped message that has not been begun, of a task with a deadline. */
  predicate PoppedWithDeadline(t: Task) {
    && t.slot.Some? && t.slot.value.place.Processing?
    && t.record.Some? && t.record.value.location != AtProcessing && t.record.value.spec.deadline.Some?
  }

  /** The recount never moves a counter of a store whose history is a run of the scripts. */
  lemma RebuildKeepsMetrics(run: seq<Action>, store: Store, q: Scans)
    requires FreshRun(EMPTY, run) && store.Valid() && store.state == Run(EMPTY, run)
    requires Complete(store.lists, store.records, q)
    ensures FreshMetrics(store.metrics, store.records, q.index, q.delayed) == store.metrics
  {
    EmptyOk();
    RunKeepsInv(EMPTY, run);
    MetricsAgree(store.state, store.lists, store.records, store.deadlines, q);
  }

  lemma MetricsAgree(s: State, l: Lists, records: map<TaskId, Record>, deadlines: map<TaskId, Time>, q: Scans)
    requires CountersOk(s) && TasksOk(s) && ListsMirror(l, s.tasks) && HashesMirror(records, deadlines, s.tasks)
    requires Complete(l, records, q)
    ensures FreshMetrics(s.metrics, records, q.index, q.delayed) == s.metrics
  {
    forall o: Outcome ensures CountOf(records, q.index, o) <= Counter(s.metrics, o) {
      CountsAgree(records, deadlines, s.tasks, q.index, o);
    }
    assert CountOf(records, q.index, Completed) <= Counter(s.metrics, Completed);
    assert CountOf(records, q.index, Failed) <= Counter(s.metrics, Failed);
    assert CountOf(records, q.index, Skipped) <= Counter(s.metrics, Skipped);
    assert CountOf(records, q.index, Cancelled) <= Counter(s.metrics, Cancelled);
    RetriesAgree(l, s.tasks, q.delayed);
  }

  lemma FreshAt(s: State, l: Lists, records: map<TaskId, Record>, deadlines: map<TaskId, Time>, q: Scans, id: TaskId)
    requires TasksOk(s) && ListsMirror(l, s.tasks) && HashesMirror(records, deadlines, s.tasks)
      && Complete(l, records, q)
    ensures Lookup(FreshIndex(records, RunningIn(l, q.workers), q.index), id) ==
      if id in s.tasks && PoppedWithDeadline(s.tasks[id]) then None else Lookup(deadlines, id)
    ensures id in s.tasks && PoppedWithDeadline(s.tasks[id]) ==> Lookup(deadlines, id).Some?
  {
    HashesAt(records, deadlines, s.tasks, id);
    RunningIffProcessing(l, s.tasks, q.workers, id);
  }

  lemma IndexAgrees(s: State, l: Lists, records: map<TaskId, Record>, deadlines: map<TaskId, Time>, q: Scans)
    requires TasksOk(s) && ListsMirror(l, s.tasks) && HashesMirror(records, deadlines, s.tasks)
      && Complete(l, records, q)
    ensures FreshIndex(records, RunningIn(l, q.workers), q.index) == deadlines
      <==> (forall id <- s.tasks :: !PoppedWithDeadline(s.tasks[id]))
  {
    var recount := FreshIndex(records, RunningIn(l, q.workers), q.index);
    forall id: TaskId
      ensures Lookup(recount, id) == if id in s.tasks && PoppedWithDeadline(s.tasks[id]) then None
        else Lookup(deadlines, id)
      ensures id in s.tasks && PoppedWithDeadline(s.tasks[id]) ==> Lookup(deadlines, id).Some?
    {
      FreshAt(s, l, records, deadlines, q, id);
    }
    if forall id <- s.tasks :: !PoppedWithDeadline(s.tasks[id]) {
      forall id: TaskId ensures id in recount <==> id in deadlines {
        assert Lookup(recount, id) == Lookup(deadlines, id);
      }
      forall id <- recount ensures recount[id] == deadlines[id] { assert Lookup(recount, id) == Lookup(deadlines, id); }
    } else {
      var id :| id in s.tasks && PoppedWithDeadline(s.tasks[id]);
      assert Lookup(recount, id) != Lookup(deadlines, id);
    }
  }

  /** The rebuilt index is the kept one if and only if no popped task with a deadline waits to be begun. */
  lemma RebuildKeepsIndex(run: seq<Action>, store: Store, q: Scans)
    requires FreshRun(EMPTY, run) && store.Valid() && store.state == Run(EMPTY, run)
    requires Complete(store.lists, store.records, q)
    ensures FreshIndex(store.records, RunningIn(store.lists, q.workers), q.index) == store.deadlines
      <==> (forall id <- store.state.tasks :: !PoppedWithDeadline(store.state.tasks[id]))
  {
    EmptyOk();
    RunKeepsInv(EMPTY, run);
    IndexAgrees(store.state, store.lists, store.records, store.deadlines, q);
  }

  // ---------- The entries that are dropped ----------

  function WithDeadline(deadline: Time): TaskSpec {
    TaskSpec(None, None, None, None, None, Some(deadline), 1, 0)
  }

  /** A worker pops a task with a deadline, and its heartbeat runs out before it begins. */
  function PopsAndVanishes(w: Worker, deadline: Time, ttl: nat): seq<Action> {
    [AEnqueue(0, WithDeadline(deadline), 0, Reject), AHeartbeat(w, ttl),
     APop(w, NewMessage(0, WithDeadline(deadline), 0)), ATick(ttl)]
  }

  lemma RunOfFour(s: State, run: seq<Action>)
    requires |run| == 4
    ensures Run(s, run) == Step(Step(Step(Step(s, run[0]).0, run[1]).0, run[2]).0, run[3]).0
    ensures Fresh(s, run[0]) && (forall a <- run[1..] :: a.AHeartbeat? || a.APop? || a.ATick?) ==> FreshRun(s, run)
  {
    var s1 := Step(s, run[0]).0;
    var s2 := Step(s1, run[1]).0;
    var s3 := Step(s2, run[2]).0;
    var s4 := Step(s3, run[3]).0;
    assert run[1] in run[1..] && run[2] in run[1..] && run[3] in run[1..];
    assert Run(s4, run[4..]) == s4;
    assert Run(s3, run[3..]) == s4 && (Fresh(s3, run[3]) ==> FreshRun(s3, run[3..]));
    assert Run(s2, run[2..]) == s4;
    assert Run(s1, run[1..]) == s4;
  }

  lemma VanishingRun(w: Worker, deadline: Time, ttl: nat) returns (run: seq<Action>)
    ensures run == PopsAndVanishes(w, deadline, ttl) && |run| == 4
    ensures run[0] == AEnqueue(0, WithDeadline(deadline), 0, Reject) && run[1] == AHeartbeat(w, ttl)
    ensures run[2] == APop(w, NewMessage(0, WithDeadline(deadline), 0)) && run[3] == ATick(ttl)
    ensures Fresh(EMPTY, run[0]) && forall a <- run[1..] :: a.AHeartbeat? || a.APop? || a.ATick?
  {
    run := PopsAndVanishes(w, deadline, ttl);
  }

  lemma VanishedState(w: Worker, deadline: Time, ttl: nat)
    ensures var m := NewMessage(0, WithDeadline(deadline), 0);
      var s := Tick(Pop(Heartbeat(Enqueue(EMPTY, 0, WithDeadline(deadline), 0, Reject).0, w, ttl).0, w, m).0, ttl).0;
      && s.heartbeats == map[] && 0 in s.tasks && PoppedWithDeadline(s.tasks[0]) && s.tasks[0].due == Some(deadline)
  {
    var s1 := Admit(EMPTY, 0, WithDeadline(deadline), None, 0);
    assert Enqueue(EMPTY, 0, WithDeadline(deadline), 0, Reject).0 == s1;
    assert Holds(Heartbeat(s1, w, ttl).0, Ready, NewMessage(0, WithDeadline(deadline), 0));
  }

  /**
   The rebuild's own condition, that no worker is alive, does not keep it from dropping an entry: for
   every deadline and every heartbeat there is a run that ends with no heartbeat and a popped task
   with that deadline.
   */
  lemma VanishedWorkerLeavesEntry(w: Worker, deadline: Time, ttl: nat)
    ensures FreshRun(EMPTY, PopsAndVanishes(w, deadline, ttl))
    ensures var s := Run(EMPTY, PopsAndVanishes(w, deadline, ttl));
      && s.heartbeats == map[] && 0 in s.tasks && PoppedWithDeadline(s.tasks[0]) && s.tasks[0].due == Some(deadline)
  {
    VanishedState(w, deadline, ttl);
    var run := VanishingRun(w, deadline, ttl);
    RunOfFour(EMPTY, run);
  }
}
