/**
 The scripts as they run: command by command over lists, a sorted set, hashes and counters, with
 their early returns.  `state` is the abstract state the commands add up to; every method is
 proved to perform exactly the corresponding step of `TaskModel` on it, whatever the interleaving
 of calls, and to leave the lists in the stated order.
 */
module RedisStore {
  import opened Prelude
  import opened VersionOrder
  import opened TaskModel
  import opened Containers
  import opened Backoff
  import StrayRecords

  // ---------- Hashes against tasks ----------

  function DueIn(tasks: map<TaskId, Task>, id: TaskId): Option<Time> {
    if id in tasks then tasks[id].due else None
  }

  function RecordIn(tasks: map<TaskId, Task>, id: TaskId): Option<Record> {
    if id in tasks then tasks[id].record else None
  }

  /** The hashes hold the records, and the deadline index its entries. */
  ghost predicate HashesMirror(records: map<TaskId, Record>, deadlines: map<TaskId, Time>, tasks: map<TaskId, Task>) {
    forall id: TaskId :: Lookup(records, id) == RecordIn(tasks, id) && Lookup(deadlines, id) == DueIn(tasks, id)
  }

  function SetTo<K, V>(m: map<K, V>, k: K, v: Option<V>): map<K, V> {
    if v.Some? then m[k := v.value] else m - {k}
  }

  /** One task changes: its hash and its deadline entry follow. */
  lemma HashesPut(records: map<TaskId, Record>, deadlines: map<TaskId, Time>, tasks: map<TaskId, Task>, id: TaskId,
                  t: Task)
    requires HashesMirror(records, deadlines, tasks)
    ensures HashesMirror(SetTo(records, id, t.record), SetTo(deadlines, id, t.due), tasks[id := t])
  {
    forall x: TaskId
      ensures Lookup(SetTo(records, id, t.record), x) == RecordIn(tasks[id := t], x)
      ensures Lookup(SetTo(deadlines, id, t.due), x) == DueIn(tasks[id := t], x)
    {
      assert Lookup(records, x) == RecordIn(tasks, x);
    }
  }

  lemma HashesAt(records: map<TaskId, Record>, deadlines: map<TaskId, Time>, tasks: map<TaskId, Task>, id: TaskId)
    requires HashesMirror(records, deadlines, tasks)
    ensures Lookup(records, id) == RecordIn(tasks, id) && Lookup(deadlines, id) == DueIn(tasks, id)
  {
  }

  // ---------- Runs of one loop ----------

  /** One RPOPLPUSH moves the border between what is drained and what is left. */
  lemma DrainOne(all: seq<Message>, rest: seq<Message>, m: Message, done: seq<Message>, ready: seq<Message>)
    requires all == (rest + [m]) + done
    ensures all == rest + ([m] + done) && ([m] + done)[1..] == done
    ensures [m] + (done + ready) == ([m] + done) + ready
  {
  }

  /** A worker's list drained oldest first, the order of RPOPLPUSH. */
  ghost function AfterStale(s: State, w: Worker, messages: seq<Message>): State {
    if messages == [] then s else RecoverStale(AfterStale(s, w, messages[1..]), w, messages[0]).0
  }

  ghost function StaleRun(w: Worker, messages: seq<Message>): seq<Action> {
    if messages == [] then [] else StaleRun(w, messages[1..]) + [ARecoverStale(w, messages[0])]
  }

  lemma {:induction false} StaleIsARun(s: State, w: Worker, messages: seq<Message>)
    ensures FreshRun(s, StaleRun(w, messages)) && AfterStale(s, w, messages) == Run(s, StaleRun(w, messages))
  {
    if messages != [] {
      StaleIsARun(s, w, messages[1..]);
      ThenRecovers(s, StaleRun(w, messages[1..]), w, messages[0]);
    }
  }

  lemma ThenRecovers(s: State, run: seq<Action>, w: Worker, m: Message)
    requires FreshRun(s, run)
    ensures FreshRun(s, run + [ARecoverStale(w, m)])
    ensures Run(s, run + [ARecoverStale(w, m)]) == RecoverStale(Run(s, run), w, m).0
  {
    RunThen(s, run, ARecoverStale(w, m));
  }

  lemma {:induction false} RunThen(s: State, run: seq<Action>, a: Action)
    ensures Run(s, run + [a]) == Step(Run(s, run), a).0
    ensures FreshRun(s, run) && Fresh(Run(s, run), a) ==> FreshRun(s, run + [a])
    decreases |run|
  {
    if run == [] {
      assert [a][1..] == [];
    } else {
      assert (run + [a])[1..] == run[1..] + [a];
      RunThen(Step(s, run[0]).0, run[1..], a);
    }
  }

  ghost function AfterAbandoned(s: State, w: Worker, messages: seq<Message>, protected: set<Message>,
                                spent: set<TaskId>): State {
    if messages == [] then s
    else
      var m := messages[|messages| - 1];
      var s1 := AfterAbandoned(s, w, messages[..|messages| - 1], protected, spent);
      if m in protected then s1 else RecoverAbandoned(s1, w, m, m.id in spent).0
  }

  ghost function AbandonedRun(w: Worker, messages: seq<Message>, protected: set<Message>,
                              spent: set<TaskId>): seq<Action> {
    if messages == [] then []
    else
      var m := messages[|messages| - 1];
      AbandonedRun(w, messages[..|messages| - 1], protected, spent)
      + (if m in protected then [] else [ARecoverAbandoned(w, m, m.id in spent)])
  }

  /** Recovering what a worker has abandoned is a run of single recovery steps over its unprotected messages. */
  lemma {:induction false} AbandonedIsARun(s: State, w: Worker, messages: seq<Message>, protected: set<Message>,
                                           spent: set<TaskId>)
    ensures FreshRun(s, AbandonedRun(w, messages, protected, spent))
    ensures AfterAbandoned(s, w, messages, protected, spent) == Run(s, AbandonedRun(w, messages, protected, spent))
  {
    if messages != [] {
      var m, front := messages[|messages| - 1], messages[..|messages| - 1];
      AbandonedIsARun(s, w, front, protected, spent);
      var run := AbandonedRun(w, front, protected, spent);
      if m in protected { assert run + [] == run; } else { RunThen(s, run, ARecoverAbandoned(w, m, m.id in spent)); }
    }
  }

  lemma AbandonedNext(s: State, w: Worker, all: seq<Message>, i: nat, protected: set<Message>, spent: set<TaskId>)
    requires i < |all|
    ensures AfterAbandoned(s, w, all[..i + 1], protected, spent) ==
      if all[i] in protected then AfterAbandoned(s, w, all[..i], protected, spent)
      else RecoverAbandoned(AfterAbandoned(s, w, all[..i], protected, spent), w, all[i], all[i].id in spent).0
  {
    assert all[..i + 1][..i] == all[..i];
  }

  function KeepOnly(messages: seq<Message>, keep: set<Message>): seq<Message> {
    if messages == [] then []
    else
      KeepOnly(messages[..|messages| - 1], keep)
      + (if messages[|messages| - 1] in keep then [messages[|messages| - 1]] else [])
  }

  lemma {:induction false} KeptAreKept(messages: seq<Message>, keep: set<Message>)
    ensures forall m :: m in KeepOnly(messages, keep) <==> m in messages && m in keep
  {
    if messages != [] {
      var n := |messages| - 1;
      KeptAreKept(messages[..n], keep);
      assert messages == messages[..n] + [messages[n]];
    }
  }

  /** One turn over the worker's list: its head part is already filtered, its tail untouched. */
  lemma KeepNext(all: seq<Message>, i: nat, keep: set<Message>)
    requires i < |all|
    ensures all[i] in keep ==> KeepOnly(all[..i], keep) + all[i..] == KeepOnly(all[..i + 1], keep) + all[i + 1..]
    ensures all[i] !in keep ==>
      && KeepOnly(all[..i], keep) == KeepOnly(all[..i + 1], keep)
      && all[i] in KeepOnly(all[..i], keep) + all[i..]
      && RemoveFirst(KeepOnly(all[..i], keep) + all[i..], all[i]) == KeepOnly(all[..i + 1], keep) + all[i + 1..]
  {
    assert all[..i + 1][..i] == all[..i];
    assert all[i..] == [all[i]] + all[i + 1..];
    KeptAreKept(all[..i], keep);
    if all[i] !in keep { RemoveMiddle(KeepOnly(all[..i], keep), all[i], all[i + 1..]); }
  }

  lemma ExpiredHashes(records: map<TaskId, Record>, deadlines: map<TaskId, Time>, tasks: map<TaskId, Task>, now: Time)
    requires HashesMirror(records, deadlines, tasks)
    ensures HashesMirror(map id | id in records && !Expired(records[id].expireAt, now) :: records[id], deadlines,
                         map id | id in tasks :: ExpireTask(tasks[id], now))
  {
    var records' := map id | id in records && !Expired(records[id].expireAt, now) :: records[id];
    var tasks' := map id | id in tasks :: ExpireTask(tasks[id], now);
    forall x: TaskId
      ensures Lookup(records', x) == RecordIn(tasks', x) && Lookup(deadlines, x) == DueIn(tasks', x)
    {
      HashesAt(records, deadlines, tasks, x);
    }
  }

  /** The dead-letter list holds at most one message of a task: the one in its slot. */
  lemma DeadLetterOf(dlq: seq<Message>, tasks: map<TaskId, Task>, id: TaskId, m: Option<Message>)
    requires ListMirrors(dlq, tasks, Dlq) && (id in tasks && tasks[id].slot.Some? ==> tasks[id].slot.value.msg.id == id)
    requires if m.Some? then m.value in dlq && m.value.id == id else forall x <- dlq :: x.id != id
    ensures m == if id in tasks && tasks[id].slot.Some? && tasks[id].slot.value.place.Dlq?
                 then Some(tasks[id].slot.value.msg) else None
  {
    if id in tasks && tasks[id].slot.Some? && tasks[id].slot.value.place.Dlq? {
      assert InSlot(tasks, Dlq, tasks[id].slot.value.msg);
    }
  }

  // ---------- Due messages ----------

  function Due(delay: map<Message, Time>, now: Time): set<Message> {
    set m | m in delay && delay[m] <= now
  }

  function Reversed(messages: seq<Message>): seq<Message> {
    if messages == [] then [] else [messages[|messages| - 1]] + Reversed(messages[..|messages| - 1])
  }

  ghost function AfterDue(s: State, moved: seq<Message>): State {
    if moved == [] then s else MoveDue(AfterDue(s, moved[..|moved| - 1]), moved[|moved| - 1]).0
  }

  ghost function DueRun(moved: seq<Message>): seq<Action> {
    if moved == [] then [] else DueRun(moved[..|moved| - 1]) + [AMoveDue(moved[|moved| - 1])]
  }

  /** Moving due messages is a run of single moves. */
  lemma {:induction false} DueIsARun(s: State, moved: seq<Message>)
    ensures FreshRun(s, DueRun(moved)) && AfterDue(s, moved) == Run(s, DueRun(moved))
  {
    if moved != [] {
      var n := |moved| - 1;
      DueIsARun(s, moved[..n]);
      RunThen(s, DueRun(moved[..n]), AMoveDue(moved[n]));
    }
  }

  /** The order of a sorted set: by score, and by the entries' text where scores are equal. */
  predicate NotAfter(delay: map<Message, Time>, text: Message -> string, x: Message, y: Message)
    requires x in delay && y in delay
  {
    delay[x] < delay[y] || (delay[x] == delay[y] && !TextBefore(text(y), text(x)))
  }

  lemma NotAfterOrders(delay: map<Message, Time>, text: Message -> string, x: Message, y: Message, z: Message)
    requires x in delay && y in delay && z in delay
    ensures NotAfter(delay, text, x, x)
    ensures NotAfter(delay, text, x, y) || NotAfter(delay, text, y, x)
    ensures NotAfter(delay, text, x, y) && NotAfter(delay, text, y, z) ==> NotAfter(delay, text, x, z)
  {
    TextIrreflexive(text(x));
    TextTotal(text(x), text(y));
    TextTotal(text(y), text(z));
    if TextBefore(text(x), text(y)) && TextBefore(text(y), text(x)) { TextTransitive(text(x), text(y), text(x)); }
    if TextBefore(text(z), text(x)) && TextBefore(text(x), text(y)) { TextTransitive(text(z), text(x), text(y)); }
  }

  /**
   `moved` are entries of `before` that were due, in the order of the sorted set; `after` is the rest
   of `before`, and nothing in it stood before anything moved.
   */
  predicate EarliestFirst(before: map<Message, Time>, after: map<Message, Time>, moved: seq<Message>, now: Time,
                          text: Message -> string) {
    && NoDup(moved)
    && (forall m <- moved :: m in before && before[m] <= now)
    && (forall i, j :: 0 <= i < j < |moved| && moved[i] in before && moved[j] in before
          ==> NotAfter(before, text, moved[i], moved[j]))
    && after == before - (set m | m in moved)
    && (forall m <- moved, x <- after :: m in before && x in before && NotAfter(before, text, m, x))
  }

  predicate IsFirst(delay: map<Message, Time>, text: Message -> string, due: set<Message>, x: Message)
    requires due <= delay.Keys
  {
    x in due && forall y <- due :: NotAfter(delay, text, x, y)
  }

  lemma {:induction false} EarliestExists(delay: map<Message, Time>, text: Message -> string,
                                          due: set<Message>) returns (x: Message)
    requires due != {} && due <= delay.Keys
    ensures IsFirst(delay, text, due, x)
  {
    var a :| a in due;
    if due == {a} {
      x := a;
      NotAfterOrders(delay, text, a, a, a);
    } else {
      var b := EarliestExists(delay, text, due - {a});
      NotAfterOrders(delay, text, a, b, a);
      x := if NotAfter(delay, text, a, b) then a else b;
      forall y <- due ensures NotAfter(delay, text, x, y) {
        NotAfterOrders(delay, text, a, b, y);
        assert y == a || y in due - {a};
      }
    }
  }

  /** What stands first among the due entries stands first in the whole set. */
  lemma FirstOfAll(delay: map<Message, Time>, text: Message -> string, now: Time, m: Message)
    requires IsFirst(delay, text, Due(delay, now), m)
    ensures forall x <- delay :: NotAfter(delay, text, m, x)
  {
    forall x <- delay ensures NotAfter(delay, text, m, x) {
      if delay[x] <= now { assert x in Due(delay, now); }
    }
  }

  lemma EarliestNext(before: map<Message, Time>, delay: map<Message, Time>, moved: seq<Message>, now: Time,
                     text: Message -> string, m: Message)
    requires EarliestFirst(before, delay, moved, now, text)
    requires IsFirst(delay, text, Due(delay, now), m)
    ensures EarliestFirst(before, delay - {m}, moved + [m], now, text)
    ensures |Due(delay - {m}, now)| == |Due(delay, now)| - 1
  {
    FirstOfAll(delay, text, now, m);
    assert Due(delay - {m}, now) == Due(delay, now) - {m};
    var all := moved + [m];
    assert delay - {m} == before - (set x | x in all) by { assert (set x | x in all) == (set x | x in moved) + {m}; }
    assert NoDup(all) && forall x <- all :: x in moved || x == m;
    forall i, j | 0 <= i < j < |all| && all[i] in before && all[j] in before
      ensures NotAfter(before, text, all[i], all[j]) {
      if j == |moved| { assert all[i] in moved && m in delay; }
    }
    forall x <- delay - {m} ensures NotAfter(before, text, m, x) { assert NotAfter(delay, text, m, x); }
  }

  lemma MovedNext(s: State, moved: seq<Message>, m: Message, ready: seq<Message>)
    ensures Reversed(moved + [m]) + ready == [m] + (Reversed(moved) + ready)
    ensures AfterDue(s, moved + [m]) == MoveDue(AfterDue(s, moved), m).0
  {
    assert (moved + [m])[..|moved|] == moved;
  }

  /** BRPOPLPUSH takes from the right, so what was moved first is popped first. */
  lemma {:induction false} PoppedInDueOrder(moved: seq<Message>, k: nat)
    requires k < |moved|
    ensures |Reversed(moved)| == |moved| && Reversed(moved)[|moved| - 1 - k] == moved[k]
  {
    var n := |moved| - 1;
    if n > 0 { PoppedInDueOrder(moved[..n], if k < n then k else 0); }
  }

  /** The fields a purge writes. */
  function PurgedRecord(rec: Record, now: Time, ttl: nat): Record {
    rec.(outcome := if rec.outcome == Live then Cancelled else rec.outcome,
         operational := false, location := AtHistory,
         finishedAt := if rec.outcome == Live then Some(now) else rec.finishedAt,
         expireAt := Some(now + ttl))
  }

  lemma PurgeEffect(s: State, raw: Message, rec: Record, delayed: bool, policy: IdentityPolicy, ttl: nat)
    returns (s': State)
    requires RecordToPurge(s, raw) == rec
    ensures var outcome := if rec.outcome == Live then Cancelled else rec.outcome;
      var m := if delayed then LeaveRetryWait(s.metrics, raw) else s.metrics;
      && (s', WasRemoved(outcome)) == CancelHeld(s, raw, delayed, policy, ttl)
      && s' == s.(tasks := s.tasks[raw.id := Task(Some(PurgedRecord(rec, s.now, ttl)), None, None)],
                  owners := CancelOwner(s, raw.id, rec.spec.logicalKey, policy, outcome),
                  leases := DropLease(s.leases, rec.spec.concurrencyKey, raw.leaseToken),
                  metrics := if outcome == Cancelled then m.(cancelled := m.cancelled + 1) else m)
  {
    s' := CancelHeld(s, raw, delayed, policy, ttl).0;
  }

  lemma DeferEffect(s: State, raw: Message, rec: Record, deferral: nat, m: Message) returns (s': State)
    requires raw.id in s.tasks
    requires m == raw.(availableAt := s.now + deferral, reason := OnConcurrency, leaseToken := None)
    ensures (s', WasDeferred(m)) == BeginDeferred(s, raw, rec, deferral)
    ensures s' == Put(s, raw.id,
                      Task(Some(rec.(location := AtDelay)), Some(Slot(Delay(s.now + deferral), m)),
                           s.tasks[raw.id].due))
  {
    s' := BeginDeferred(s, raw, rec, deferral).0;
  }

  class Store {
    var now: Time
    var lists: Lists
    var records: map<TaskId, Record>
    var deadlines: map<TaskId, Time>
    var owners: map<Key, Owner>
    var register: map<Key, Version>
    var leases: map<Key, Lease>
    var heartbeats: map<Worker, Time>
    var metrics: Metrics
    ghost var state: State

    ghost predicate TablesMirror()
      reads this
    {
      && now == state.now && owners == state.owners && register == state.register && leases == state.leases
      && heartbeats == state.heartbeats && metrics == state.metrics
    }

    ghost predicate Mirrored()
      reads this
    {
      ListsMirror(lists, state.tasks) && HashesMirror(records, deadlines, state.tasks)
    }

    ghost predicate Valid()
      reads this
    {
      TablesMirror() && Mirrored()
    }

    constructor ()
      ensures Valid() && state == EMPTY
    {
      now, lists, records, deadlines := 0, Lists([], map[], map[], []), map[], map[];
      owners, register, leases, heartbeats := map[], map[], map[], map[];
      metrics, state := EMPTY.metrics, EMPTY;
    }

    /** The commands so far add up to this state. */
    ghost method Reflect(s': State)
      requires ListsMirror(lists, s'.tasks) && HashesMirror(records, deadlines, s'.tasks)
      requires now == s'.now && owners == s'.owners && register == s'.register && leases == s'.leases
      requires heartbeats == s'.heartbeats && metrics == s'.metrics
      modifies this`state
      ensures Valid() && state == s'
    {
      state := s';
    }

    /** finalize_owner. */
    method FinalizeOwnerHash(id: TaskId, key: Option<Key>, outcome: Outcome)
      requires TablesMirror()
      modifies this`owners
      ensures owners == FinalizeOwner(state, id, key, outcome)
    {
      if key.None? || key.value !in owners { return; }
      var o := owners[key.value];
      if o.taskId != id { return; }
      if o.dedupUntil.Some? && o.dedupUntil.value > now {
        owners := owners[key.value := o.(outcome := outcome, expireAt := Some(CeilSecond(o.dedupUntil.value)))];
      } else {
        owners := owners - {key.value};
      }
    }

    /** A terminal transition finalizes the owner, gives back the lease and counts the outcome. */
    method SettleTables(raw: Message, outcome: Outcome, token: Option<Token>)
      requires TablesMirror()
      modifies this`owners, this`leases, this`metrics
      ensures owners == FinalizeOwner(state, raw.id, raw.spec.logicalKey, outcome)
      ensures leases == DropLease(state.leases, raw.spec.concurrencyKey, token)
      ensures metrics == CountOutcome(state.metrics, outcome)
    {
      FinalizeOwnerHash(raw.id, raw.spec.logicalKey, outcome);
      leases := DropLease(leases, raw.spec.concurrencyKey, token);
      metrics := CountOutcome(metrics, outcome);
    }

    /** LREM or ZREM the message, push its successor, and write the task's hash and deadline entry. */
    method MoveTask(from: Place, raw: Message, to: Place, next: Message, rec: Option<Record>, due: Option<Time>)
      requires Mirrored() && Holds(state, from, raw) && next.id == raw.id
      modifies this`lists, this`records, this`deadlines
      ensures lists == PushTo(RemoveFrom(old(lists), from, raw), to, next)
      ensures ListsMirror(lists, state.tasks[raw.id := Task(rec, Some(Slot(to, next)), due)])
      ensures HashesMirror(records, deadlines, state.tasks[raw.id := Task(rec, Some(Slot(to, next)), due)])
    {
      ghost var t := Task(rec, Some(Slot(to, next)), due);
      MoveMirrors(lists, state.tasks, from, raw, to, next, t);
      HashesPut(records, deadlines, state.tasks, raw.id, t);
      lists := RemoveFrom(lists, from, raw);
      lists := PushTo(lists, to, next);
      records := SetTo(records, raw.id, rec);
      deadlines := SetTo(deadlines, raw.id, due);
    }

    /** LREM or ZREM the message for good. */
    method DropTask(from: Place, raw: Message, rec: Option<Record>, due: Option<Time>)
      requires Mirrored() && Holds(state, from, raw)
      modifies this`lists, this`records, this`deadlines
      ensures lists == RemoveFrom(old(lists), from, raw)
      ensures ListsMirror(lists, state.tasks[raw.id := Task(rec, None, due)])
      ensures HashesMirror(records, deadlines, state.tasks[raw.id := Task(rec, None, due)])
    {
      RemoveMirrors(lists, state.tasks, from, raw, Task(rec, None, due));
      HashesPut(records, deadlines, state.tasks, raw.id, Task(rec, None, due));
      lists := RemoveFrom(lists, from, raw);
      records := SetTo(records, raw.id, rec);
      deadlines := SetTo(deadlines, raw.id, due);
    }

    /** The terminal transition of a message that leaves the queue. */
    method EndTask(w: Worker, raw: Message, rec: Record, outcome: Outcome, token: Option<Token>, ttl: nat)
      requires Valid() && Holds(state, Processing(w), raw) && RecordOf(state, raw.id) == Some(rec)
      modifies this
      ensures Valid() && state == Finish(old(state), raw, rec, outcome, None, token, ttl)
      ensures lists == RemoveFrom(old(lists), Processing(w), raw)
    {
      DropTask(Processing(w), raw, Some(rec.(outcome := outcome, operational := false, location := AtHistory,
                                             finishedAt := Some(now), expireAt := Some(now + ttl))), None);
      SettleTables(raw, outcome, token);
      state := Finish(state, raw, rec, outcome, None, token, ttl);
    }

    /** The terminal transition of a message that is kept in the dead-letter list. */
    method BuryTask(w: Worker, raw: Message, rec: Record, dlq: Message, token: Option<Token>, ttl: nat)
      requires Valid() && Holds(state, Processing(w), raw) && RecordOf(state, raw.id) == Some(rec) && dlq.id == raw.id
      modifies this
      ensures Valid() && state == Finish(old(state), raw, rec, Failed, Some(dlq), token, ttl)
      ensures lists == PushTo(RemoveFrom(old(lists), Processing(w), raw), Dlq, dlq)
    {
      MoveTask(Processing(w), raw, Dlq, dlq,
               Some(rec.(outcome := Failed, operational := true, location := AtDlq, finishedAt := Some(now))), None);
      SettleTables(raw, Failed, token);
      state := Finish(state, raw, rec, Failed, Some(dlq), token, ttl);
    }

    /** COMPLETE_TASK. */
    method CompleteTask(w: Worker, raw: Message, ttl: nat) returns (reply: Reply)
      requires Valid()
      modifies this
      ensures Valid() && (state, reply) == Complete(old(state), w, raw, ttl)
      ensures lists == if reply == WasCompleted then RemoveFrom(old(lists), Processing(w), raw) else old(lists)
    {
      HashesAt(records, deadlines, state.tasks, raw.id);
      if raw.id !in records { return MissingTask; }
      var rec := records[raw.id];
      if rec.outcome != Live { return AlreadyTerminal(rec.outcome); }
      assert raw in WorkerList(lists, w) <==> InSlot(state.tasks, Processing(w), raw);
      if raw !in WorkerList(lists, w) { return NotFound; }
      EndTask(w, raw, rec, Completed, raw.leaseToken, ttl);
      return WasCompleted;
    }

    method ScheduleRetry(w: Worker, raw: Message, rec: Record, next: Message, runAt: Time)
      requires Valid() && Holds(state, Processing(w), raw) && RecordOf(state, raw.id) == Some(rec) && next.id == raw.id
      modifies this
      ensures Valid() && state == RetryScheduled(old(state), raw, rec, next, runAt)
      ensures lists == PushTo(RemoveFrom(old(lists), Processing(w), raw), Delay(runAt), next)
    {
      ghost var s' := RetryScheduled(state, raw, rec, next, runAt);
      HashesAt(records, deadlines, state.tasks, raw.id);
      MoveTask(Processing(w), raw, Delay(runAt), next, Some(rec.(location := AtDelay, operational := true)),
               if rec.spec.deadline.Some? then rec.spec.deadline else Lookup(deadlines, raw.id));
      metrics := metrics.(retryWait := metrics.retryWait + 1);
      leases := DropLease(leases, raw.spec.concurrencyKey, raw.leaseToken);
      Reflect(s');
    }

    /** RETRY_TASK. */
    method RetryTask(w: Worker, raw: Message, next: Message, runAt: Time, ttl: nat) returns (reply: Reply)
      requires Valid() && next.id == raw.id
      modifies this
      ensures Valid() && (state, reply) == RetryScript(old(state), w, raw, next, runAt, ttl)
    {
      HashesAt(records, deadlines, state.tasks, raw.id);
      if raw.id !in records { return MissingTask; }
      var rec := records[raw.id];
      if rec.outcome != Live { return AlreadyTerminal(rec.outcome); }
      assert raw in WorkerList(lists, w) <==> InSlot(state.tasks, Processing(w), raw);
      if raw !in WorkerList(lists, w) { return NotFound; }
      if rec.spec.deadline.Some? && runAt >= rec.spec.deadline.value {
        EndTask(w, raw, rec, Skipped, raw.leaseToken, ttl);
        return WasSkipped;
      }
      ScheduleRetry(w, raw, rec, next, runAt);
      return WasRetried;
    }

    /** FAIL_TASK. */
    method FailTask(w: Worker, raw: Message, dlq: Message) returns (reply: Reply)
      requires Valid() && dlq.id == raw.id
      modifies this
      ensures Valid() && (state, reply) == FailScript(old(state), w, raw, dlq)
    {
      HashesAt(records, deadlines, state.tasks, raw.id);
      if raw.id !in records { return MissingTask; }
      var rec := records[raw.id];
      if rec.outcome != Live { return AlreadyTerminal(rec.outcome); }
      assert raw in WorkerList(lists, w) <==> InSlot(state.tasks, Processing(w), raw);
      if raw !in WorkerList(lists, w) { return NotFound; }
      BuryTask(w, raw, rec, dlq, raw.leaseToken, 0);
      return WasFailed;
    }

    /**
     SmartQueue.fail: the message's own attempt count, not the record's, decides.  A retry waits for the
     policy's delay, counted from the clock as it was read before the script.
     */
    method FailClaim(w: Worker, raw: Message, permanent: bool, error: nat, policy: Policy, jitter: real,
                     retryAfter: Option<real>, readAt: Time, ttl: nat) returns (reply: Reply)
      requires Valid() && Sound(policy) && Jitter(jitter)
      modifies this
      ensures Valid()
      ensures (state, reply)
        == Fail(old(state), w, raw, permanent, error, RunAt(readAt, policy, raw.attempt, jitter, retryAfter), ttl)
      ensures reply == WasRetried ==>
        && SlotOf(state, raw.id).Some? && SlotOf(state, raw.id).value.place.Delay?
        && InRetryWindow(SlotOf(state, raw.id).value.place.score, readAt, policy, raw.attempt, retryAfter)
    {
      if permanent || raw.attempt >= raw.spec.maxAttempts {
        reply := FailTask(w, raw, raw.(lastError := Some(error)));
      } else {
        var runAt := RunAt(readAt, policy, raw.attempt, jitter, retryAfter);
        RunAtIsInWindow(readAt, policy, raw.attempt, jitter, retryAfter);
        reply := RetryTask(w, raw, raw.(availableAt := runAt, reason := OnRetry, lastError := Some(error)), runAt, ttl);
      }
    }

    // ---------- Claiming ----------

    /** BRPOPLPUSH: the oldest ready message goes to the head of the worker's list. */
    method PopReady(w: Worker) returns (m: Option<Message>)
      requires Valid()
      modifies this
      ensures Valid()
      ensures old(lists.ready) == [] ==> m.None? && state == old(state) && lists == old(lists)
      ensures old(lists.ready) != [] ==>
        && m.Some? && Pop(old(state), w, m.value) == (state, WasMoved)
        && old(lists.ready) == lists.ready + [m.value]
        && WorkerList(lists, w) == [m.value] + WorkerList(old(lists), w)
    {
      if lists.ready == [] { return None; }
      var n := |lists.ready| - 1;
      var raw := lists.ready[n];
      assert InSlot(state.tasks, Ready, raw) by { assert raw in lists.ready; }
      RemoveLast(lists.ready);
      HashesAt(records, deadlines, state.tasks, raw.id);
      MoveTask(Ready, raw, Processing(w), raw, Lookup(records, raw.id), Lookup(deadlines, raw.id));
      state := Pop(state, w, raw).0;
      return Some(raw);
    }

    method DeferTask(w: Worker, raw: Message, rec: Record, deferral: nat) returns (m: Message)
      requires Valid() && Holds(state, Processing(w), raw) && RecordOf(state, raw.id) == Some(rec)
      modifies this
      ensures Valid() && (state, WasDeferred(m)) == BeginDeferred(old(state), raw, rec, deferral)
      ensures lists == PushTo(RemoveFrom(old(lists), Processing(w), raw), Delay(now + deferral), m)
    {
      m := raw.(availableAt := now + deferral, reason := OnConcurrency, leaseToken := None);
      ghost var s' := DeferEffect(state, raw, rec, deferral, m);
      HashesAt(records, deadlines, state.tasks, raw.id);
      MoveTask(Processing(w), raw, Delay(now + deferral), m, Some(rec.(location := AtDelay)),
               Lookup(deadlines, raw.id));
      Reflect(s');
    }

    /** The start of an attempt, once its lease, if any, has been taken. */
    method StartTask(w: Worker, raw: Message, rec: Record, claim: Token, lease: Token, duration: nat)
      returns (m: Message)
      requires Mirrored() && Holds(state, Processing(w), raw) && RecordOf(state, raw.id) == Some(rec)
      requires now == state.now && owners == state.owners && register == state.register
      requires heartbeats == state.heartbeats && metrics == state.metrics
      requires leases == if raw.spec.concurrencyKey.Some?
                         then state.leases[raw.spec.concurrencyKey.value := Lease(lease, now + duration)]
                         else state.leases
      modifies this
      ensures Valid() && (state, WasStarted(m)) == BeginStarted(old(state), w, raw, rec, claim, lease, duration)
      ensures lists == PushTo(RemoveFrom(old(lists), Processing(w), raw), Processing(w), m)
    {
      m := raw.(attempt := rec.attempt + 1, claimToken := Some(claim),
                leaseToken := if raw.spec.concurrencyKey.Some? then Some(lease) else None);
      MoveTask(Processing(w), raw, Processing(w), m,
               Some(rec.(attempt := rec.attempt + 1, claimToken := Some(claim), location := AtProcessing)), None);
      state := BeginStarted(state, w, raw, rec, claim, lease, duration).0;
    }

    /** The concurrency part of BEGIN_ATTEMPT: the lease is taken first and given back on a miss. */
    method TakeLeaseAndStart(w: Worker, raw: Message, rec: Record, claim: Token, lease: Token,
                             time: Timing) returns (reply: Reply)
      requires Valid() && RecordOf(state, raw.id) == Some(rec)
      modifies this
      ensures Valid()
      ensures !Holds(old(state), Processing(w), raw) ==> state == old(state) && reply == NotFound
      ensures Holds(old(state), Processing(w), raw) ==>
        if raw.spec.concurrencyKey.Some? && raw.spec.concurrencyKey.value in old(state).leases
        then (state, reply) == BeginDeferred(old(state), raw, rec, time.deferral)
        else (state, reply) == BeginStarted(old(state), w, raw, rec, claim, lease, time.lease)
    {
      var key := raw.spec.concurrencyKey;
      assert raw in WorkerList(lists, w) <==> Holds(state, Processing(w), raw);
      if key.Some? && key.value in leases {
        if raw !in WorkerList(lists, w) { return NotFound; }
        var m := DeferTask(w, raw, rec, time.deferral);
        return WasDeferred(m);
      }
      if key.Some? { leases := leases[key.value := Lease(lease, now + time.lease)]; }
      if raw !in WorkerList(lists, w) {
        if key.Some? { leases := DropLease(leases, key, Some(lease)); }
        assert leases == old(leases);
        return NotFound;
      }
      var m := StartTask(w, raw, rec, claim, lease, time.lease);
      return WasStarted(m);
    }

    /** BEGIN_ATTEMPT. */
    method BeginAttempt(w: Worker, raw: Message, claim: Token, lease: Token, time: Timing) returns (reply: Reply)
      requires Valid() && Popped(w, raw) in state.popped
      modifies this
      ensures Valid() && (state, reply) == Begin(old(state), w, raw, claim, lease, time)
    {
      HashesAt(records, deadlines, state.tasks, raw.id);
      if raw.id !in records { return MissingTask; }
      var rec := records[raw.id];
      if rec.outcome != Live { return AlreadyTerminal(rec.outcome); }
      assert raw in WorkerList(lists, w) <==> Holds(state, Processing(w), raw);
      if rec.spec.deadline.Some? && now > rec.spec.deadline.value {
        if raw !in WorkerList(lists, w) { return NotFound; }
        EndTask(w, raw, rec, Skipped, Some(lease), time.ttl);
        return WasSkipped;
      }
      var v := raw.spec.supersede;
      if v.Some? && v.value.key in register && register[v.value.key] != v.value.version {
        if raw !in WorkerList(lists, w) { return NotFound; }
        EndTask(w, raw, rec, Cancelled, Some(lease), time.ttl);
        return WasSuperseded;
      }
      if rec.attempt >= rec.spec.maxAttempts {
        if raw !in WorkerList(lists, w) { return NotFound; }
        BuryTask(w, raw, rec, raw, Some(lease), time.ttl);
        return WasOverBudget;
      }
      reply := TakeLeaseAndStart(w, raw, rec, claim, lease, time);
    }

    // ---------- Admission ----------

    /** The writes of an accepted enqueue or replay. */
    method AdmitTask(id: TaskId, spec: TaskSpec, parent: Option<TaskId>, availableAt: Time)
      requires Valid() && id !in state.tasks
      modifies this
      ensures Valid() && state == Admit(old(state), id, spec, parent, availableAt)
      ensures lists == PushTo(old(lists),
                              if spec.notBefore.Some? && availableAt > now then Delay(availableAt) else Ready,
                              NewMessage(id, spec, availableAt))
    {
      ghost var s' := Admit(state, id, spec, parent, availableAt);
      var generation := AdmitOwner(id, spec);
      AdmitMessage(id, spec, parent, availableAt, generation);
      register := Offer(register, spec.supersede);
      metrics := metrics.(accepted := metrics.accepted + 1);
      Reflect(s');
    }

    method AdmitOwner(id: TaskId, spec: TaskSpec) returns (generation: int)
      modifies this`owners
      ensures generation == if spec.logicalKey.Some? && spec.logicalKey.value in old(owners)
        then (var g := old(owners)[spec.logicalKey.value].generation + 1; if g > 1 then g else 1) else 1
      ensures owners == if spec.logicalKey.None? then old(owners)
        else old(owners)[spec.logicalKey.value := Owner(id, Live, generation, spec.dedupUntil, None)]
    {
      generation := 1;
      if spec.logicalKey.Some? {
        if spec.logicalKey.value in owners {
          var g := owners[spec.logicalKey.value].generation + 1;
          if g > 1 { generation := g; }
        }
        owners := owners[spec.logicalKey.value := Owner(id, Live, generation, spec.dedupUntil, None)];
      }
    }

    method AdmitMessage(id: TaskId, spec: TaskSpec, parent: Option<TaskId>, availableAt: Time, generation: int)
      requires Mirrored() && now == state.now && id !in state.tasks
      modifies this`lists, this`records, this`deadlines
      ensures lists == PushTo(old(lists),
                              if spec.notBefore.Some? && availableAt > now then Delay(availableAt) else Ready,
                              NewMessage(id, spec, availableAt))
      ensures ListsMirror(lists, state.tasks[id := NewTask(id, spec, parent, availableAt, generation, now)])
      ensures HashesMirror(records, deadlines,
                           state.tasks[id := NewTask(id, spec, parent, availableAt, generation, now)])
    {
      ghost var t := NewTask(id, spec, parent, availableAt, generation, now);
      var place, location := Ready, AtReady;
      if spec.notBefore.Some? && availableAt > now { place, location := Delay(availableAt), AtDelay; }
      PushMirrors(lists, state.tasks, place, NewMessage(id, spec, availableAt), t);
      HashesAt(records, deadlines, state.tasks, id);
      HashesPut(records, deadlines, state.tasks, id, t);
      records := records[id := NewRecord(spec, parent, location, generation)];
      if spec.deadline.Some? { deadlines := deadlines[id := spec.deadline.value]; }
      else { assert deadlines - {id} == deadlines; }
      lists := PushTo(lists, place, NewMessage(id, spec, availableAt));
    }

    /** ENQUEUE. */
    method EnqueueTask(id: TaskId, spec: TaskSpec, availableAt: Time, onDuplicate: DuplicateAction)
      returns (reply: Reply)
      requires Valid() && (id in state.tasks ==> RecordOf(state, id).Some?)
      modifies this
      ensures Valid() && (state, reply) == Enqueue(old(state), id, spec, availableAt, onDuplicate)
      ensures reply.Accepted? <==> (id !in old(records)
        && (onDuplicate == AllowNew || spec.logicalKey.None? || spec.logicalKey.value !in old(owners)))
    {
      HashesAt(records, deadlines, state.tasks, id);
      if id in records { return TaskIdCollision; }
      if spec.logicalKey.Some? && spec.logicalKey.value in owners && onDuplicate == Reject {
        return OwnerReply(owners[spec.logicalKey.value]);
      }
      AdmitTask(id, spec, None, availableAt);
      return Accepted(id);
    }

    /** The source's half of REPLAY_TASK. */
    method ConsumeSource(plan: ReplayPlan, rec: Record, newId: TaskId, ttl: nat)
      requires Valid() && RecordOf(state, plan.source) == Some(rec)
      requires plan.requireSource ==>
        plan.message.Some? && plan.message.value.id == plan.source && Holds(state, Dlq, plan.message.value)
      modifies this
      ensures Valid()
      ensures state == Put(old(state), plan.source,
        ReplayedSource(old(state).tasks[plan.source], rec, newId, plan.requireSource, old(now), ttl))
      ensures lists == if plan.requireSource then RemoveFrom(old(lists), Dlq, plan.message.value) else old(lists)
    {
      ghost var t := ReplayedSource(state.tasks[plan.source], rec, newId, plan.requireSource, now, ttl);
      var rec' := rec.(operational := false, location := AtHistory, replayedBy := rec.replayedBy + [newId],
                       expireAt := Some(now + ttl));
      HashesAt(records, deadlines, state.tasks, plan.source);
      if plan.requireSource {
        DropTask(Dlq, plan.message.value, Some(rec'), Lookup(deadlines, plan.source));
      } else {
        SlotKeptMirrors(lists, state.tasks, plan.source, t);
        HashesPut(records, deadlines, state.tasks, plan.source, t);
        records := records[plan.source := rec'];
        assert SetTo(deadlines, plan.source, t.due) == deadlines;
      }
      state := Put(state, plan.source, t);
    }

    /** REPLAY_TASK. */
    method ReplayTask(plan: ReplayPlan, newId: TaskId, spec: TaskSpec, availableAt: Time, ttl: nat)
      returns (reply: Reply)
      requires Valid() && plan in state.plans && newId !in state.tasks
      requires plan.message.Some? ==> plan.message.value.id == plan.source
      modifies this
      ensures Valid() && (state, reply) == CommitReplay(old(state), plan, newId, spec, availableAt, ttl)
    {
      HashesAt(records, deadlines, state.tasks, plan.source);
      HashesAt(records, deadlines, state.tasks, newId);
      if plan.source !in records { return MissingSource; }
      var rec := records[plan.source];
      if !Replayable(rec.outcome) { return NotReplayable; }
      if newId in records { return TaskIdCollision; }
      if spec.logicalKey.Some? && spec.logicalKey.value in owners
        && owners[spec.logicalKey.value].taskId != plan.source {
        return OwnerReply(owners[spec.logicalKey.value]);
      }
      if plan.requireSource {
        if plan.message.None? { return SourceNotFound; }
        assert plan.message.value in lists.dlq <==> InSlot(state.tasks, Dlq, plan.message.value);
        if plan.message.value !in lists.dlq { return SourceNotFound; }
      }
      ConsumeSource(plan, rec, newId, ttl);
      AdmitTask(newId, spec, Some(plan.source), availableAt);
      return Accepted(newId);
    }

    // ---------- Giving back and recovering ----------

    /** RETURN_UNSTARTED_CLAIM: the message is the next one to be popped. */
    method ReturnClaim(w: Worker, raw: Message) returns (reply: Reply)
      requires Valid()
      modifies this
      ensures Valid() && (state, reply) == ReturnUnstarted(old(state), w, raw)
      ensures reply == WasReturned ==> lists.ready == old(lists.ready) + [raw]
    {
      HashesAt(records, deadlines, state.tasks, raw.id);
      if raw.id !in records { return MissingTask; }
      var rec := records[raw.id];
      if rec.outcome != Live { return AlreadyTerminal(rec.outcome); }
      if rec.attempt != raw.attempt { return AttemptChanged; }
      if rec.location != AtProcessing { return LocationChanged; }
      assert raw in WorkerList(lists, w) <==> InSlot(state.tasks, Processing(w), raw);
      if raw !in WorkerList(lists, w) { return NotFound; }
      RequeueTask(w, raw, rec);
      return WasReturned;
    }

    method RequeueMessage(w: Worker, raw: Message, rec: Record, due: Option<Time>)
      requires Mirrored() && Holds(state, Processing(w), raw)
      modifies this`lists, this`records, this`deadlines
      ensures lists == RequeueFirst(RemoveFrom(old(lists), Processing(w), raw), raw)
      ensures ListsMirror(lists, state.tasks[raw.id := Task(Some(rec), Some(Slot(Ready, raw)), due)])
      ensures HashesMirror(records, deadlines, state.tasks[raw.id := Task(Some(rec), Some(Slot(Ready, raw)), due)])
    {
      ghost var t := Task(Some(rec), Some(Slot(Ready, raw)), due);
      MoveMirrors(lists, state.tasks, Processing(w), raw, Ready, raw, t);
      HashesPut(records, deadlines, state.tasks, raw.id, t);
      lists := RemoveFrom(lists, Processing(w), raw);
      lists := RequeueFirst(lists, raw);
      records := records[raw.id := rec];
      deadlines := SetTo(deadlines, raw.id, due);
    }

    method RequeueTask(w: Worker, raw: Message, rec: Record)
      requires Valid() && Holds(state, Processing(w), raw) && RecordOf(state, raw.id) == Some(rec)
      requires rec.outcome == Live && rec.attempt == raw.attempt && rec.location == AtProcessing
      modifies this
      ensures Valid() && (state, WasReturned) == ReturnUnstarted(old(state), w, raw)
      ensures lists.ready == old(lists.ready) + [raw]
    {
      ghost var s' := ReturnUnstarted(state, w, raw).0;
      HashesAt(records, deadlines, state.tasks, raw.id);
      var rec' := rec.(attempt := raw.attempt - 1, location := AtReady);
      var due := if rec.spec.deadline.Some? then rec.spec.deadline else Lookup(deadlines, raw.id);
      RequeueMessage(w, raw, rec', due);
      leases := DropLease(leases, raw.spec.concurrencyKey, raw.leaseToken);
      Reflect(s');
    }

    /** A message goes back to the ready list; the record, if there still is one, follows. */
    method MoveToReady(from: Place, m: Message, reindex: bool)
      requires Valid() && Holds(state, from, m)
      modifies this
      ensures Valid() && state == BackToReady(old(state), m, reindex)
      ensures lists == PushTo(RemoveFrom(old(lists), from, m), Ready, m)
    {
      HashesAt(records, deadlines, state.tasks, m.id);
      var rec, due := Lookup(records, m.id), Lookup(deadlines, m.id);
      if rec.Some? && reindex && rec.value.spec.deadline.Some? { due := rec.value.spec.deadline; }
      MoveTask(from, m, Ready, m, if rec.Some? then Some(rec.value.(location := AtReady)) else None, due);
      state := BackToReady(state, m, reindex);
    }

    /** One turn of recover_processing_key: heartbeat check and RPOPLPUSH. */
    method RecoverOldest(w: Worker) returns (m: Option<Message>)
      requires Valid()
      modifies this
      ensures Valid() && heartbeats == old(heartbeats)
      ensures w in heartbeats || old(WorkerList(lists, w)) == [] ==>
        m.None? && state == old(state) && lists == old(lists)
      ensures w !in heartbeats && old(WorkerList(lists, w)) != [] ==>
        && m.Some? && RecoverStale(old(state), w, m.value) == (state, WasMoved)
        && old(WorkerList(lists, w)) == WorkerList(lists, w) + [m.value]
        && lists.ready == [m.value] + old(lists.ready)
    {
      if w in heartbeats { return None; }
      var messages := WorkerList(lists, w);
      if messages == [] { return None; }
      var raw := messages[|messages| - 1];
      assert InSlot(state.tasks, Processing(w), raw) by { assert raw in messages; }
      RemoveLast(messages);
      MoveToReady(Processing(w), raw, true);
      return Some(raw);
    }

    /** recover_processing_key: a dead worker's messages go back in their order, one atomic turn each. */
    method RecoverProcessing(w: Worker) returns (count: nat)
      requires Valid()
      modifies this
      ensures Valid()
      ensures w in old(heartbeats) ==> count == 0 && state == old(state) && lists == old(lists)
      ensures w !in old(heartbeats) ==>
        && count == |old(WorkerList(lists, w))| && WorkerList(lists, w) == []
        && lists.ready == old(WorkerList(lists, w)) + old(lists.ready)
        && state == AfterStale(old(state), w, old(WorkerList(lists, w)))
    {
      count := 0;
      ghost var all := WorkerList(lists, w);
      ghost var done: seq<Message> := [];
      while true
        invariant Valid() && heartbeats == old(heartbeats)
        invariant all == WorkerList(lists, w) + done && count == |done|
        invariant lists.ready == done + old(lists.ready)
        invariant state == AfterStale(old(state), w, done)
        invariant done == [] ==> state == old(state) && lists == old(lists)
        invariant w in heartbeats ==> done == []
        decreases |WorkerList(lists, w)|
      {
        var m := RecoverOldest(w);
        if m.None? { break; }
        DrainOne(all, WorkerList(lists, w), m.value, done, old(lists.ready));
        done := [m.value] + done;
        count := count + 1;
      }
      assert w !in heartbeats ==> WorkerList(lists, w) == [] && done == all;
    }

    /** One message of recover_abandoned_claims. */
    method RecoverOneAbandoned(w: Worker, raw: Message, spent: bool) returns (moved: bool)
      requires Valid()
      modifies this
      ensures Valid() && moved == Holds(old(state), Processing(w), raw)
      ensures state == RecoverAbandoned(old(state), w, raw, spent).0
      ensures WorkerList(lists, w) == RemoveFirst(old(WorkerList(lists, w)), raw)
      ensures |WorkerList(lists, w)| == |old(WorkerList(lists, w))| - (if moved then 1 else 0)
    {
      RemoveFirstRemoves(WorkerList(lists, w), raw);
      assert raw in WorkerList(lists, w) <==> InSlot(state.tasks, Processing(w), raw);
      if raw !in WorkerList(lists, w) {
        RemoveMissing(WorkerList(lists, w), raw);
        return false;
      }
      PlaceAbandoned(w, raw, spent);
      leases := DropLease(leases, raw.spec.concurrencyKey, raw.leaseToken);
      state := RecoverAbandoned(state, w, raw, spent).0;
      return true;
    }

    /** A live task, or one without a record, goes back to the ready list, refunded or not. */
    method ReviveTask(w: Worker, raw: Message, rec: Option<Record>, spent: bool)
      requires Mirrored() && Holds(state, Processing(w), raw) && RecordOf(state, raw.id) == rec
      requires rec.Some? ==> rec.value.outcome == Live
      modifies this`lists, this`records, this`deadlines
      ensures lists == PushTo(RemoveFrom(old(lists), Processing(w), raw), Ready, raw)
      ensures ListsMirror(lists, RecoverAbandoned(state, w, raw, spent).0.tasks)
      ensures HashesMirror(records, deadlines, RecoverAbandoned(state, w, raw, spent).0.tasks)
    {
      HashesAt(records, deadlines, state.tasks, raw.id);
      var due := Lookup(deadlines, raw.id);
      if rec.None? {
        MoveTask(Processing(w), raw, Ready, raw, None, due);
      } else {
        var r := rec.value.(location := AtReady);
        if Refunds(rec.value, raw, spent) { r := r.(attempt := r.attempt - 1); }
        if r.spec.deadline.Some? { due := r.spec.deadline; }
        MoveTask(Processing(w), raw, Ready, raw, Some(r), due);
      }
    }

    /** Where an abandoned message goes, by the outcome in its record. */
    method PlaceAbandoned(w: Worker, raw: Message, spent: bool)
      requires Mirrored() && Holds(state, Processing(w), raw)
      modifies this`lists, this`records, this`deadlines
      ensures WorkerList(lists, w) == RemoveFirst(old(WorkerList(lists, w)), raw)
      ensures ListsMirror(lists, RecoverAbandoned(state, w, raw, spent).0.tasks)
      ensures HashesMirror(records, deadlines, RecoverAbandoned(state, w, raw, spent).0.tasks)
    {
      HashesAt(records, deadlines, state.tasks, raw.id);
      var rec, due := Lookup(records, raw.id), Lookup(deadlines, raw.id);
      if rec.Some? && rec.value.outcome == Failed {
        MoveTask(Processing(w), raw, Dlq, raw, Some(rec.value.(location := AtDlq, operational := true)), due);
      } else if rec.Some? && rec.value.outcome != Live {
        DropTask(Processing(w), raw, rec, due);
      } else {
        ReviveTask(w, raw, rec, spent);
      }
    }

    /** Halfway through the snapshot: its head part is filtered and its tail is still to come. */
    ghost predicate Sweeping(s: State, w: Worker, all: seq<Message>, i: nat, protected: set<Message>,
                             spent: set<TaskId>)
      requires i <= |all|
      reads this
    {
      && WorkerList(lists, w) == KeepOnly(all[..i], protected) + all[i..]
      && state == AfterAbandoned(s, w, all[..i], protected, spent)
    }

    lemma SweepPast(s: State, w: Worker, all: seq<Message>, i: nat, protected: set<Message>, spent: set<TaskId>)
      requires i < |all| && all[i] in protected && Sweeping(s, w, all, i, protected, spent)
      ensures Sweeping(s, w, all, i + 1, protected, spent)
    {
      KeepNext(all, i, protected);
      AbandonedNext(s, w, all, i, protected, spent);
    }

    lemma SweptAll(s: State, w: Worker, all: seq<Message>, protected: set<Message>, spent: set<TaskId>)
      requires Sweeping(s, w, all, |all|, protected, spent)
      ensures WorkerList(lists, w) == KeepOnly(all, protected) && state == AfterAbandoned(s, w, all, protected, spent)
    {
      assert all[..|all|] == all && all[|all|..] == [];
    }

    /** recover_abandoned_claims: everything the worker does not protect leaves its list. */
    method RecoverAbandonedClaims(w: Worker, protected: set<Message>, spent: set<TaskId>) returns (count: nat)
      requires Valid()
      modifies this
      ensures Valid()
      ensures WorkerList(lists, w) == KeepOnly(old(WorkerList(lists, w)), protected)
      ensures count == |old(WorkerList(lists, w))| - |WorkerList(lists, w)|
      ensures state == AfterAbandoned(old(state), w, old(WorkerList(lists, w)), protected, spent)
    {
      count := 0;
      var all := WorkerList(lists, w);
      var i := 0;
      SweptNone(w, all, protected, spent);
      while i < |all|
        invariant 0 <= i <= |all| && Valid()
        invariant Sweeping(old(state), w, all, i, protected, spent)
        invariant count == |all| - |WorkerList(lists, w)|
      {
        var moved := SweepOne(old(state), w, all, i, protected, spent);
        count := count + (if moved then 1 else 0);
        i := i + 1;
      }
      SweptAll(old(state), w, all, protected, spent);
    }

    lemma SweptNone(w: Worker, all: seq<Message>, protected: set<Message>, spent: set<TaskId>)
      requires all == WorkerList(lists, w)
      ensures Sweeping(state, w, all, 0, protected, spent)
    {
      assert all[..0] == [] && all[0..] == all && [] + all == all;
    }

    /** One turn of the loop over the snapshot. */
    method SweepOne(ghost s: State, w: Worker, all: seq<Message>, i: nat, protected: set<Message>,
                    spent: set<TaskId>) returns (moved: bool)
      requires i < |all| && Valid() && Sweeping(s, w, all, i, protected, spent)
      modifies this
      ensures Valid() && Sweeping(s, w, all, i + 1, protected, spent)
      ensures |WorkerList(lists, w)| == |old(WorkerList(lists, w))| - (if moved then 1 else 0)
    {
      if all[i] in protected {
        SweepPast(s, w, all, i, protected, spent);
        moved := false;
      } else {
        moved := RecoverNext(s, w, all, i, protected, spent);
      }
    }

    method RecoverNext(ghost s: State, w: Worker, all: seq<Message>, i: nat, protected: set<Message>,
                       spent: set<TaskId>) returns (moved: bool)
      requires i < |all| && all[i] !in protected
      requires Valid() && Sweeping(s, w, all, i, protected, spent)
      modifies this
      ensures Valid() && Sweeping(s, w, all, i + 1, protected, spent)
      ensures |WorkerList(lists, w)| == |old(WorkerList(lists, w))| - (if moved then 1 else 0)
    {
      KeepNext(all, i, protected);
      AbandonedNext(s, w, all, i, protected, spent);
      moved := RecoverOneAbandoned(w, all[i], all[i].id in spent);
    }

    // ---------- Due messages ----------

    /** One turn of MOVE_DUE_DELAY on the entry it read. */
    method MoveOneDue(m: Message)
      requires Valid() && m in lists.delay && lists.delay[m] <= now
      modifies this
      ensures Valid() && (state, WasMoved) == MoveDue(old(state), m) && now == old(now)
      ensures lists.delay == old(lists.delay) - {m} && lists.ready == [m] + old(lists.ready)
    {
      assert InSlot(state.tasks, Delay(lists.delay[m]), m);
      ghost var s := state;
      metrics := LeaveRetryWait(metrics, m);
      state := state.(metrics := metrics);
      MoveToReady(Delay(lists.delay[m]), m, false);
    }

    /** ZRANGEBYSCORE -inf now LIMIT 0 1: the first of the due entries, `text` being how messages are written. */
    method FirstDue(text: Message -> string) returns (m: Option<Message>)
      ensures m.None? ==> Due(lists.delay, now) == {}
      ensures m.Some? ==> IsFirst(lists.delay, text, Due(lists.delay, now), m.value)
    {
      var due := Due(lists.delay, now);
      if due == {} { return None; }
      ghost var first := EarliestExists(lists.delay, text, due);
      assert IsFirst(lists.delay, text, due, first);
      var x :| x in due && IsFirst(lists.delay, text, due, x);
      return Some(x);
    }

    /** MOVE_DUE_DELAY: the earliest due entries, in order, up to the limit, and nothing that is not due. */
    method MoveDueDelay(limit: nat, text: Message -> string) returns (moved: seq<Message>)
      requires Valid()
      modifies this
      ensures Valid() && now == old(now)
      ensures EarliestFirst(old(lists.delay), lists.delay, moved, now, text)
      ensures |moved| == if |Due(old(lists.delay), now)| < limit then |Due(old(lists.delay), now)| else limit
      ensures lists.ready == Reversed(moved) + old(lists.ready)
      ensures state == AfterDue(old(state), moved)
    {
      moved := [];
      while |moved| < limit
        invariant Valid() && now == old(now) && |moved| <= limit
        invariant EarliestFirst(old(lists.delay), lists.delay, moved, now, text)
        invariant |moved| + |Due(lists.delay, now)| == |Due(old(lists.delay), now)|
        invariant lists.ready == Reversed(moved) + old(lists.ready)
        invariant state == AfterDue(old(state), moved)
      {
        var next := FirstDue(text);
        if next.None? { break; }
        var m := next.value;
        EarliestNext(old(lists.delay), lists.delay, moved, now, text, m);
        MovedNext(old(state), moved, m, old(lists.ready));
        MoveOneDue(m);
        moved := moved + [m];
      }
    }

    // ---------- CANCEL_OR_PURGE ----------

    method ReleaseOwner(id: TaskId, key: Option<Key>, policy: IdentityPolicy, outcome: Outcome)
      requires TablesMirror()
      modifies this`owners
      ensures owners == CancelOwner(state, id, key, policy, outcome)
    {
      if policy == Release {
        if key.Some? && key.value in owners && owners[key.value].taskId == id {
          owners := owners - {key.value}; return;
        }
      }
      FinalizeOwnerHash(id, key, outcome);
    }

    /** The purge of a message that has been found in its container. */
    method PurgeTask(from: Place, raw: Message, rec: Record, policy: IdentityPolicy, ttl: nat)
      returns (outcome: Outcome)
      requires Valid() && Holds(state, from, raw) && RecordToPurge(state, raw) == rec
      modifies this
      ensures Valid() && (state, WasRemoved(outcome)) == CancelHeld(old(state), raw, from.Delay?, policy, ttl)
      ensures lists == RemoveFrom(old(lists), from, raw)
    {
      ghost var s' := PurgeEffect(state, raw, rec, from.Delay?, policy, ttl);
      outcome := if rec.outcome == Live then Cancelled else rec.outcome;
      DropTask(from, raw, Some(PurgedRecord(rec, now, ttl)), None);
      ReleaseOwner(raw.id, rec.spec.logicalKey, policy, outcome);
      PurgeCounters(from, raw, rec, outcome);
      Reflect(s');
    }

    method PurgeCounters(from: Place, raw: Message, rec: Record, outcome: Outcome)
      modifies this`leases, this`metrics
      ensures leases == DropLease(old(leases), rec.spec.concurrencyKey, raw.leaseToken)
      ensures var m := if from.Delay? then LeaveRetryWait(old(metrics), raw) else old(metrics);
        metrics == if outcome == Cancelled then m.(cancelled := m.cancelled + 1) else m
    {
      if from.Delay? && raw.reason == OnRetry && metrics.retryWait > 0 {
        metrics := metrics.(retryWait := metrics.retryWait - 1);
      }
      leases := DropLease(leases, rec.spec.concurrencyKey, raw.leaseToken);
      if outcome == Cancelled { metrics := metrics.(cancelled := metrics.cancelled + 1); }
    }

    /** CANCEL_OR_PURGE on a list. */
    method CancelFromList(place: Place, raw: Message, policy: IdentityPolicy, force: bool, ttl: nat)
      returns (reply: Reply)
      requires Valid() && !place.Delay?
      modifies this
      ensures Valid() && (state, reply) == CancelListed(old(state), place, raw, policy, force, ttl)
    {
      if place.Processing? && !force && place.worker in heartbeats { return ActiveProcessing; }
      var list := match place
        case Ready => lists.ready
        case Dlq => lists.dlq
        case Processing(w) => WorkerList(lists, w)
        case Delay(_) => [];
      assert raw in list <==> InSlot(state.tasks, place, raw);
      if raw !in list { return NotFound; }
      HashesAt(records, deadlines, state.tasks, raw.id);
      var rec := if raw.id in records then records[raw.id] else BlankRecord(raw.spec);
      var outcome := PurgeTask(place, raw, rec, policy, ttl);
      return WasRemoved(outcome);
    }

    /** CANCEL_OR_PURGE on the delay set. */
    method CancelFromDelay(raw: Message, policy: IdentityPolicy, ttl: nat) returns (reply: Reply)
      requires Valid()
      modifies this
      ensures Valid() && (state, reply) == CancelDelayed(old(state), raw, policy, ttl)
    {
      DelayedIff(lists.delay, state.tasks, raw);
      if raw !in lists.delay { return NotFound; }
      HashesAt(records, deadlines, state.tasks, raw.id);
      var rec := if raw.id in records then records[raw.id] else BlankRecord(raw.spec);
      var outcome := PurgeTask(Delay(lists.delay[raw]), raw, rec, policy, ttl);
      return WasRemoved(outcome);
    }

    // ---------- Moves by an operator ----------

    method MoveProcessing(w: Worker, raw: Message, checkHeartbeat: bool) returns (reply: Reply)
      requires Valid()
      modifies this
      ensures Valid() && (state, reply) == AdminMoveProcessing(old(state), w, raw, checkHeartbeat)
    {
      if checkHeartbeat && w in heartbeats { return ActiveProcessing; }
      assert raw in WorkerList(lists, w) <==> InSlot(state.tasks, Processing(w), raw);
      if raw !in WorkerList(lists, w) { return NotFound; }
      MoveToReady(Processing(w), raw, true);
      return WasMoved;
    }

    method MoveDelayed(raw: Message) returns (reply: Reply)
      requires Valid()
      modifies this
      ensures Valid() && (state, reply) == AdminMoveDelay(old(state), raw)
    {
      DelayedIff(lists.delay, state.tasks, raw);
      if raw !in lists.delay { return NotFound; }
      metrics := LeaveRetryWait(metrics, raw);
      state := state.(metrics := metrics);
      MoveToReady(Delay(lists.delay[raw]), raw, false);
      return WasMoved;
    }

    // ---------- Leases, cleaning, time ----------

    method RenewLeaseOf(key: Key, token: Token, duration: nat) returns (done: bool)
      requires Valid()
      modifies this`leases, this`state
      ensures Valid() && (state, if done then Done else Refused) == RenewLease(old(state), key, token, duration)
    {
      done := key in leases && leases[key].token == token;
      if done { leases := leases[key := Lease(token, now + duration)]; }
      state := state.(leases := leases);
    }

    method ReleaseLeaseOf(key: Key, token: Token) returns (done: bool)
      requires Valid()
      modifies this`leases, this`state
      ensures Valid() && (state, if done then Done else Refused) == ReleaseLease(old(state), key, token)
    {
      done := key in leases && leases[key].token == token;
      if done { leases := leases - {key}; }
      state := state.(leases := leases);
    }

    /** The delete of a record a cleaner once found to be over. */
    method SweepRecord(id: TaskId)
      requires Valid() && id in state.sweeps && id in state.tasks
      modifies this`records, this`state
      ensures Valid() && (state, Done) == CommitSweep(old(state), id)
    {
      ghost var t := state.tasks[id].(record := None);
      SlotKeptMirrors(lists, state.tasks, id, t);
      HashesAt(records, deadlines, state.tasks, id);
      HashesPut(records, deadlines, state.tasks, id, t);
      assert SetTo(deadlines, id, t.due) == deadlines;
      records := records - {id};
      state := Put(state, id, t);
    }

    /** delete_task's last look at the record, and its release of the identity. */
    method ForgetIdentity(id: TaskId, key: Key) returns (reply: Reply)
      requires Valid() && id in state.tasks && (id in state.sweeps || RecordOf(state, id).None?)
      modifies this`owners, this`state
      ensures Valid() && (state, reply) == Forget(old(state), id, key)
    {
      if key !in owners || owners[key].taskId != id { return NotFound; }
      owners := owners - {key};
      state := state.(owners := owners);
      return Done;
    }

    /** _ensure_task_record: the look. */
    method LacksRecord(id: TaskId) returns (lacks: bool)
      requires Valid()
      ensures lacks <==> RecordOf(state, id).None?
    {
      HashesAt(records, deadlines, state.tasks, id);
      lacks := id !in records;
    }

    /** _ensure_task_record: the write, over whatever is there by then. */
    method RecreateRecord(raw: Message)
      requires Valid() && raw.id in state.tasks
      modifies this`records, this`state
      ensures Valid() && state == StrayRecords.WriteRecord(old(state), raw)
    {
      HashesAt(records, deadlines, state.tasks, raw.id);
      var rec := if raw.id in records then records[raw.id] else BlankRecord(raw.spec);
      rec := rec.(spec := raw.spec, outcome := Live, operational := true, attempt := raw.attempt, expireAt := None);
      OverwriteRecord(raw.id, rec);
    }

    /** The cleaner's HSET of the operational flag. */
    method MarkMessage(id: TaskId)
      requires Valid() && id in state.tasks
      modifies this`records, this`state
      ensures Valid() && state == StrayRecords.MarkRecord(old(state), id)
    {
      HashesAt(records, deadlines, state.tasks, id);
      var rec := if id in records then records[id] else BlankRecord(StrayRecords.NO_SPEC);
      OverwriteRecord(id, rec.(operational := true));
    }

    method OverwriteRecord(id: TaskId, rec: Record)
      requires Valid() && id in state.tasks
      modifies this`records, this`state
      ensures Valid() && state == Put(old(state), id, old(state).tasks[id].(record := Some(rec)))
    {
      ghost var t := state.tasks[id].(record := Some(rec));
      SlotKeptMirrors(lists, state.tasks, id, t);
      HashesAt(records, deadlines, state.tasks, id);
      HashesPut(records, deadlines, state.tasks, id, t);
      assert SetTo(deadlines, id, t.due) == deadlines;
      records := records[id := rec];
      state := Put(state, id, t);
    }

    method BeatHeart(w: Worker, ttl: nat)
      requires Valid()
      modifies this`heartbeats, this`state
      ensures Valid() && (state, Done) == Heartbeat(old(state), w, ttl)
    {
      heartbeats := heartbeats[w := now + ttl];
      state := state.(heartbeats := heartbeats);
    }

    method StopHeart(w: Worker)
      requires Valid()
      modifies this`heartbeats, this`state
      ensures Valid() && (state, Done) == DropHeartbeat(old(state), w)
    {
      heartbeats := heartbeats - {w};
      state := state.(heartbeats := heartbeats);
    }

    /** A cleaner finds that a record is over and remembers to delete it. */
    method ConsiderSweep(id: TaskId) returns (reply: Reply)
      requires Valid()
      modifies this`state
      ensures Valid() && (state, reply) == PlanSweep(old(state), id)
    {
      HashesAt(records, deadlines, state.tasks, id);
      if id !in records { return MissingTask; }
      var rec := records[id];
      if rec.outcome == Live || rec.operational { return Refused; }
      state := PlanSweep(state, id).0;
      return Planned;
    }

    /** _find_task_message on the dead-letter list. */
    method FindDeadLetter(id: TaskId) returns (m: Option<Message>)
      ensures m.None? ==> forall x <- lists.dlq :: x.id != id
      ensures m.Some? ==> m.value in lists.dlq && m.value.id == id
    {
      for i := 0 to |lists.dlq|
        invariant forall j :: 0 <= j < i ==> lists.dlq[j].id != id
      {
        if lists.dlq[i].id == id { return Some(lists.dlq[i]); }
      }
      return None;
    }

    /** The reads of replay_task before its script. */
    method PlanReplayOf(source: TaskId, requireDlq: bool) returns (reply: Reply, plan: Option<ReplayPlan>)
      requires Valid() && (SlotOf(state, source).Some? ==> SlotOf(state, source).value.msg.id == source)
      modifies this`state
      ensures Valid() && (state, reply) == PlanReplay(old(state), source, requireDlq)
      ensures plan.Some? <==> reply == Planned
      ensures plan.Some? ==> plan.value in state.plans && plan.value.source == source
    {
      plan := None;
      HashesAt(records, deadlines, state.tasks, source);
      if source !in records { return MissingSource, None; }
      var rec := records[source];
      if !Replayable(rec.outcome) { return NotReplayable, None; }
      var message := FindDeadLetter(source);
      DeadLetterOf(lists.dlq, state.tasks, source, message);
      var require := requireDlq || rec.operational;
      if require && message.None? { return SourceNotFound, None; }
      plan := Some(ReplayPlan(source, message, require));
      state := state.(plans := state.plans + {plan.value});
      return Planned, plan;
    }

    method ExpireTables(elapsed: nat)
      requires TablesMirror()
      modifies this`now, this`owners, this`leases, this`heartbeats
      ensures var s := Tick(state, elapsed).0;
        now == s.now && owners == s.owners && leases == s.leases && heartbeats == s.heartbeats
    {
      now := now + elapsed;
      owners := map k | k in owners && !Expired(owners[k].expireAt, now) :: owners[k];
      leases := map k | k in leases && leases[k].expireAt > now :: leases[k];
      heartbeats := map w | w in heartbeats && heartbeats[w] > now :: heartbeats[w];
    }

    /** Time passes; the store drops what has expired.  No message and no deadline entry ever expires. */
    method PassTime(elapsed: nat)
      requires Valid()
      modifies this
      ensures Valid() && (state, Done) == Tick(old(state), elapsed) && lists == old(lists)
    {
      ghost var s' := Tick(state, elapsed).0;
      ExpireTables(elapsed);
      SlotsKeptMirror(lists, state.tasks, s'.tasks);
      ExpiredHashes(records, deadlines, state.tasks, now);
      records := map id | id in records && !Expired(records[id].expireAt, now) :: records[id];
      state := s';
    }
  }
}
