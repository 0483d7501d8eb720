/**
 What stray records do outside the task state: the queue's checker reports them and nothing else, and
 the workers' attempt accounting does not notice them.
 */
module StrayEffects {
  import opened Prelude
  import opened TaskModel
  import opened TaskInvariants
  import opened StrayRecords
  import opened Containers
  import opened RedisStore
  import opened Consistency
  import WorkerClaims

  // ---------- The checker ----------

  /** An issue about this task, and about what is wrong with its record. */
  predicate BlamesStray(s: State, x: Issue) {
    || (x.LiveWithoutMessage? && x.id in s.tasks && Ghost(s.tasks[x.id]))
    || (x.FlagMismatch? && x.id in s.tasks && Stray(s.tasks[x.id]))
  }

  predicate AboutTask(x: Issue) {
    x.LiveWithoutMessage? || x.TerminalHasMessage? || x.FailedOutsideDlq? || x.FlagMismatch?
  }

  lemma TaskIssueBlamesStray(l: Lists, records: map<TaskId, Record>, deadlines: map<TaskId, Time>, s: State,
                             heartbeats: map<Worker, Time>, q: Query, x: Issue)
    requires TasksOk(Erase(s)) && ListsMirror(l, s.tasks) && HashesMirror(records, deadlines, s.tasks)
    requires Covers(l, q.workers, q.delayed)
    requires AboutTask(x) && Justified(l, records, s.owners, heartbeats, q, x)
    ensures BlamesStray(s, x)
  {
    HashesAt(records, deadlines, s.tasks, x.id);
    assert TaskOk(x.id, Erase(s).tasks[x.id]);
    SeenIsSlot(l, s.tasks, q, x.id);
  }

  lemma OwnerIsNoOrphan(s: State, records: map<TaskId, Record>, deadlines: map<TaskId, Time>, k: Key)
    requires OwnersOk(Erase(s)) && HashesMirror(records, deadlines, s.tasks) && k in s.owners
      && s.owners[k].outcome == Live
    ensures s.owners[k].taskId in records
  {
    assert OwnerOk(Erase(s), k, Erase(s).owners[k]);
    HashesAt(records, deadlines, s.tasks, s.owners[k].taskId);
  }

  /**
   With the stray writes among the clients, the checker blames stray records and nothing else about
   tasks and owners.
   */
  lemma CheckerBlamesStrays(es: seq<Event>, store: Store, q: Query, x: Issue)
    requires FreshEvents(StrayRecords.START, es) && store.Valid()
      && store.state == AfterEvents(StrayRecords.START, es).s
    requires Covers(store.lists, q.workers, q.delayed)
    requires Justified(store.lists, store.records, store.owners, store.heartbeats, q, x)
    ensures x.NoHeartbeat? || x.StaleIndex? || BlamesStray(store.state, x)
  {
    var w := ReachedIsOk(es);
    if x.OrphanOwner? {
      OwnerIsNoOrphan(store.state, store.records, store.deadlines, x.key);
    } else if AboutTask(x) {
      TaskIssueBlamesStray(store.lists, store.records, store.deadlines, store.state, store.heartbeats, q, x);
    }
  }

  lemma StrayIsSeen(l: Lists, records: map<TaskId, Record>, deadlines: map<TaskId, Time>, s: State,
                    heartbeats: map<Worker, Time>, q: Query, id: TaskId)
    requires ListsMirror(l, s.tasks) && HashesMirror(records, deadlines, s.tasks) && Covers(l, q.workers, q.delayed)
    requires |Inventory(l, q.workers, q.delayed)| < q.limit && id in Take(q.index, q.limit)
    requires id in s.tasks && GhostsLast(s)
    ensures Ghost(s.tasks[id]) ==> Justified(l, records, s.owners, heartbeats, q, LiveWithoutMessage(id))
    ensures Stray(s.tasks[id]) ==> Justified(l, records, s.owners, heartbeats, q, FlagMismatch(id))
  {
    if Stray(s.tasks[id]) {
      HashesAt(records, deadlines, s.tasks, id);
      SeenIsSlot(l, s.tasks, q, id);
    }
  }

  /** A scan that reaches all messages reports every indexed stray record, and only those. */
  lemma CheckerFindsStrays(es: seq<Event>, store: Store, q: Query, id: TaskId)
    requires FreshEvents(StrayRecords.START, es) && store.Valid()
      && store.state == AfterEvents(StrayRecords.START, es).s
    requires Covers(store.lists, q.workers, q.delayed) && |Inventory(store.lists, q.workers, q.delayed)| < q.limit
    requires id in Take(q.index, q.limit) && id in store.state.tasks
    ensures Justified(store.lists, store.records, store.owners, store.heartbeats, q, LiveWithoutMessage(id))
       <==> Ghost(store.state.tasks[id])
    ensures Justified(store.lists, store.records, store.owners, store.heartbeats, q, FlagMismatch(id))
       <==> Stray(store.state.tasks[id])
  {
    var w := ReachedIsOk(es);
    StrayIsSeen(store.lists, store.records, store.deadlines, store.state, store.heartbeats, q, id);
    if Justified(store.lists, store.records, store.owners, store.heartbeats, q, LiveWithoutMessage(id)) {
      CheckerBlamesStrays(es, store, q, LiveWithoutMessage(id));
    }
    if Justified(store.lists, store.records, store.owners, store.heartbeats, q, FlagMismatch(id)) {
      CheckerBlamesStrays(es, store, q, FlagMismatch(id));
    }
  }
}
