/**
 Two clients write audit records outside the scripts, each in two steps: a claiming worker looks
 whether the record of a popped message exists and makes one where it does not, and the cleaner looks
 for the message of an ended task and marks its record as having one.  Between the look and the write
 the task can end, be purged and have its record removed; what is written then is a stray record.
 This module says exactly when that happens and what it breaks: a stray record is never repaired, but
 to the scripts it is as if it were not there, so everything else stays what a run of the scripts alone
 would have made it.
 */
module StrayRecords {
  import opened Prelude
  import opened TaskModel
  import opened TaskInvariants
  import TaskTheorems

  // ---------- The two writes ----------

  /** What a record has where nothing was given. */
  const NO_SPEC := TaskSpec(None, None, None, None, None, None, 1, 0)

  function TaskAt(s: State, id: TaskId): Task {
    if id in s.tasks then s.tasks[id] else Task(None, None, None)
  }

  /** TaskHistory.record over whatever is there: an open outcome, a message expected, no time to live. */
  function Recreated(old_: Option<Record>, raw: Message): Record {
    var rec := if old_.Some? then old_.value else BlankRecord(raw.spec);
    rec.(spec := raw.spec, outcome := Live, operational := true, attempt := raw.attempt, expireAt := None)
  }

  function WriteRecord(s: State, raw: Message): State {
    var t := TaskAt(s, raw.id);
    Put(s, raw.id, t.(record := Some(Recreated(t.record, raw))))
  }

  /** _ensure_task_record, if nothing came between its look and its write. */
  function EnsureRecord(s: State, raw: Message): State {
    if RecordOf(s, raw.id).Some? then s else WriteRecord(s, raw)
  }

  /** The cleaner's HSET of one field, which makes a record where there is none. */
  function MarkRecord(s: State, id: TaskId): State {
    var t := TaskAt(s, id);
    var rec := if t.record.Some? then t.record.value else BlankRecord(NO_SPEC);
    Put(s, id, t.(record := Some(rec.(operational := true))))
  }

  // ---------- Stray records ----------

  /** A live record of a task without a message. */
  predicate Ghost(t: Task) { IsLive(t) && t.slot.None? }

  /** A record that claims a message its task does not have. */
  predicate Stray(t: Task) {
    t.slot.None? && t.record.Some? && (t.record.value.outcome == Live || t.record.value.operational)
  }

  /** The task without the stray write. */
  function EraseTask(t: Task): Task {
    if !Stray(t) then t
    else if Ghost(t) then t.(record := None)
    else t.(record := Some(t.record.value.(operational := false)))
  }

  function EraseTasks(tasks: map<TaskId, Task>): map<TaskId, Task> {
    map id | id in tasks :: EraseTask(tasks[id])
  }

  function Erase(s: State): State { s.(tasks := EraseTasks(s.tasks)) }

  predicate NoStray(s: State) { forall id <- s.tasks :: !Stray(s.tasks[id]) }

  lemma ErasePut(tasks: map<TaskId, Task>, id: TaskId, t: Task)
    ensures EraseTasks(tasks[id := t]) == EraseTasks(tasks)[id := EraseTask(t)]
  {
  }

  lemma EraseNothing(s: State)
    requires NoStray(s)
    ensures Erase(s) == s
  {
    assert EraseTasks(s.tasks) == s.tasks;
  }

  lemma SoundIsNotStray(id: TaskId, t: Task)
    requires TaskOk(id, t)
    ensures !Stray(t) && EraseTask(t) == t
  {
  }

  // ---------- Scripts look at one task only ----------

  /** The states differ in other tasks only. */
  predicate Alike(s: State, e: State, id: TaskId) {
    e == s.(tasks := e.tasks) && id in s.tasks && id in e.tasks && e.tasks[id] == s.tasks[id]
  }

  /** The script answers the same; it leaves both states alone, or does the same to this task and outside the tasks. */
  predicate SameEffect(s: State, e: State, r: (State, Reply), q: (State, Reply), id: TaskId) {
    r.1 == q.1 && ((r.0 == s && q.0 == e) || SameEdit(s, e, r.0, q.0, id))
  }

  predicate SameEdit(s: State, e: State, s': State, e': State, id: TaskId) {
    && id in s'.tasks && e' == s'.(tasks := e'.tasks)
    && s'.tasks == s.tasks[id := s'.tasks[id]] && e'.tasks == e.tasks[id := s'.tasks[id]]
  }

  lemma FinishIsLocal(s: State, e: State, raw: Message, rec: Record, outcome: Outcome, dlq: Option<Message>,
                      token: Option<Token>, ttl: nat)
    requires Alike(s, e, raw.id)
    ensures SameEdit(s, e, Finish(s, raw, rec, outcome, dlq, token, ttl), Finish(e, raw, rec, outcome, dlq, token, ttl),
                     raw.id)
  {
  }

  lemma PopIsLocal(s: State, e: State, w: Worker, m: Message)
    requires Alike(s, e, m.id)
    ensures SameEffect(s, e, Pop(s, w, m), Pop(e, w, m), m.id)
  {
  }

  lemma BeginDeferredIsLocal(s: State, e: State, raw: Message, rec: Record, deferral: nat)
    requires Alike(s, e, raw.id)
    ensures BeginDeferred(s, raw, rec, deferral).1 == BeginDeferred(e, raw, rec, deferral).1
    ensures SameEdit(s, e, BeginDeferred(s, raw, rec, deferral).0, BeginDeferred(e, raw, rec, deferral).0, raw.id)
  {
  }

  lemma BeginStartedIsLocal(s: State, e: State, w: Worker, raw: Message, rec: Record, claim: Token, lease: Token,
                            duration: nat)
    requires Alike(s, e, raw.id)
    ensures BeginStarted(s, w, raw, rec, claim, lease, duration).1
      == BeginStarted(e, w, raw, rec, claim, lease, duration).1
    ensures SameEdit(s, e, BeginStarted(s, w, raw, rec, claim, lease, duration).0,
                     BeginStarted(e, w, raw, rec, claim, lease, duration).0, raw.id)
  {
  }

  lemma BeginAnswersAlike(s: State, e: State, w: Worker, raw: Message, claim: Token, lease: Token, time: Timing)
    requires Alike(s, e, raw.id)
    ensures Begin(s, w, raw, claim, lease, time).1 == Begin(e, w, raw, claim, lease, time).1
  {
    assert RecordOf(e, raw.id) == RecordOf(s, raw.id) && Holds(e, Processing(w), raw) == Holds(s, Processing(w), raw);
  }

  lemma BeginningIsLocal(s: State, e: State, w: Worker, raw: Message, claim: Token, lease: Token, time: Timing,
                         r: (State, Reply), q: (State, Reply))
    requires Alike(s, e, raw.id) && r.1 == q.1
    requires Beginning(s, w, raw, claim, lease, time, r) && Beginning(e, w, raw, claim, lease, time, q)
    ensures SameEffect(s, e, r, q, raw.id)
  {
    var rec := RecordOf(s, raw.id);
    match r.1
    case WasSkipped => FinishIsLocal(s, e, raw, rec.value, Skipped, None, Some(lease), time.ttl);
    case WasSuperseded => FinishIsLocal(s, e, raw, rec.value, Cancelled, None, Some(lease), time.ttl);
    case WasOverBudget => FinishIsLocal(s, e, raw, rec.value, Failed, Some(raw), Some(lease), time.ttl);
    case WasDeferred(_) => BeginDeferredIsLocal(s, e, raw, rec.value, time.deferral);
    case WasStarted(_) => BeginStartedIsLocal(s, e, w, raw, rec.value, claim, lease, time.lease);
    case _ =>
  }

  lemma BeginIsLocal(s: State, e: State, w: Worker, raw: Message, claim: Token, lease: Token, time: Timing)
    requires Alike(s, e, raw.id)
    ensures SameEffect(s, e, Begin(s, w, raw, claim, lease, time), Begin(e, w, raw, claim, lease, time), raw.id)
  {
    BeginAnswersAlike(s, e, w, raw, claim, lease, time);
    BeginWrites(s, w, raw, claim, lease, time);
    BeginWrites(e, w, raw, claim, lease, time);
    BeginningIsLocal(s, e, w, raw, claim, lease, time, Begin(s, w, raw, claim, lease, time),
                     Begin(e, w, raw, claim, lease, time));
  }

  lemma CompleteIsLocal(s: State, e: State, w: Worker, raw: Message, ttl: nat)
    requires Alike(s, e, raw.id)
    ensures SameEffect(s, e, Complete(s, w, raw, ttl), Complete(e, w, raw, ttl), raw.id)
  {
    var rec := RecordOf(s, raw.id);
    if rec.Some? { FinishIsLocal(s, e, raw, rec.value, Completed, None, raw.leaseToken, ttl); }
  }

  lemma RetryIsLocal(s: State, e: State, w: Worker, raw: Message, next: Message, runAt: Time, ttl: nat)
    requires Alike(s, e, raw.id)
    ensures SameEffect(s, e, RetryScript(s, w, raw, next, runAt, ttl), RetryScript(e, w, raw, next, runAt, ttl), raw.id)
  {
    var rec := RecordOf(s, raw.id);
    if rec.Some? { FinishIsLocal(s, e, raw, rec.value, Skipped, None, raw.leaseToken, ttl); }
  }

  lemma BuryIsLocal(s: State, e: State, w: Worker, raw: Message, dlq: Message)
    requires Alike(s, e, raw.id)
    ensures SameEffect(s, e, FailScript(s, w, raw, dlq), FailScript(e, w, raw, dlq), raw.id)
  {
    var rec := RecordOf(s, raw.id);
    if rec.Some? { FinishIsLocal(s, e, raw, rec.value, Failed, Some(dlq), raw.leaseToken, 0); }
  }

  lemma FailIsLocal(s: State, e: State, w: Worker, raw: Message, permanent: bool, error: nat, runAt: Time, ttl: nat)
    requires Alike(s, e, raw.id)
    ensures SameEffect(s, e, Fail(s, w, raw, permanent, error, runAt, ttl),
                       Fail(e, w, raw, permanent, error, runAt, ttl),
                       raw.id)
  {
    if permanent || raw.attempt >= raw.spec.maxAttempts {
      BuryIsLocal(s, e, w, raw, raw.(lastError := Some(error)));
    } else {
      RetryIsLocal(s, e, w, raw, raw.(availableAt := runAt, reason := OnRetry, lastError := Some(error)), runAt, ttl);
    }
  }

  lemma ReturnIsLocal(s: State, e: State, w: Worker, raw: Message)
    requires Alike(s, e, raw.id)
    ensures SameEffect(s, e, ReturnUnstarted(s, w, raw), ReturnUnstarted(e, w, raw), raw.id)
  {
  }

  predicate Moves(a: Action) { a.ARecoverStale? || a.AMoveDue? || a.AMoveProcessing? || a.AMoveDelay? }

  lemma BackToReadyIsLocal(s: State, e: State, m: Message, reindex: bool)
    requires Alike(s, e, m.id)
    ensures SameEdit(s, e, BackToReady(s, m, reindex), BackToReady(e, m, reindex), m.id)
  {
  }

  lemma ListMoveIsLocal(s: State, e: State, w: Worker, m: Message, check: bool)
    requires Alike(s, e, m.id)
    ensures SameEffect(s, e, AdminMoveProcessing(s, w, m, check), AdminMoveProcessing(e, w, m, check), m.id)
  {
    BackToReadyIsLocal(s, e, m, true);
  }

  lemma DelayMoveIsLocal(s: State, e: State, m: Message)
    requires Alike(s, e, m.id)
    ensures SameEffect(s, e, MoveDue(s, m), MoveDue(e, m), m.id)
    ensures SameEffect(s, e, AdminMoveDelay(s, m), AdminMoveDelay(e, m), m.id)
  {
    var metrics := LeaveRetryWait(s.metrics, m);
    BackToReadyIsLocal(s.(metrics := metrics), e.(metrics := metrics), m, false);
  }

  lemma RecoveringIsLocal(s: State, e: State, w: Worker, raw: Message, spent: bool)
    requires Alike(s, e, raw.id)
    ensures SameEffect(s, e, RecoverAbandoned(s, w, raw, spent), RecoverAbandoned(e, w, raw, spent), raw.id)
  {
  }

  lemma CancelIsLocal(s: State, e: State, raw: Message, delayed: bool, policy: IdentityPolicy, ttl: nat)
    requires Alike(s, e, raw.id)
    ensures CancelHeld(s, raw, delayed, policy, ttl).1 == CancelHeld(e, raw, delayed, policy, ttl).1
    ensures SameEdit(s, e, CancelHeld(s, raw, delayed, policy, ttl).0, CancelHeld(e, raw, delayed, policy, ttl).0,
                     raw.id)
  {
  }

  lemma ClaimingIsLocal(s: State, e: State, a: Action)
    requires (a.APop? || a.ABegin?) && Alike(s, e, a.raw.id)
    ensures SameEffect(s, e, Step(s, a), Step(e, a), a.raw.id)
  {
    if a.APop? { PopIsLocal(s, e, a.w, a.raw); } else { BeginIsLocal(s, e, a.w, a.raw, a.claim, a.lease, a.time); }
  }

  lemma SettlingIsLocal(s: State, e: State, a: Action)
    requires TaskTheorems.IsSettling(a) && Alike(s, e, a.raw.id)
    ensures SameEffect(s, e, Step(s, a), Step(e, a), a.raw.id)
  {
    if a.AComplete? { CompleteIsLocal(s, e, a.w, a.raw, a.ttl); }
    else if a.AFail? { FailIsLocal(s, e, a.w, a.raw, a.permanent, a.error, a.runAt, a.ttl); }
    else { ReturnIsLocal(s, e, a.w, a.raw); }
  }

  lemma MovingIsLocal(s: State, e: State, a: Action)
    requires Moves(a) && Alike(s, e, a.raw.id)
    ensures SameEffect(s, e, Step(s, a), Step(e, a), a.raw.id)
  {
    if a.ARecoverStale? { ListMoveIsLocal(s, e, a.w, a.raw, true); }
    else if a.AMoveProcessing? { ListMoveIsLocal(s, e, a.w, a.raw, a.checkHeartbeat); }
    else { DelayMoveIsLocal(s, e, a.raw); }
  }

  lemma RecoverStepIsLocal(s: State, e: State, a: Action)
    requires a.ARecoverAbandoned? && Alike(s, e, a.raw.id)
    ensures SameEffect(s, e, Step(s, a), Step(e, a), a.raw.id)
  {
    RecoveringIsLocal(s, e, a.w, a.raw, a.spent);
  }

  lemma CancelListedIsLocal(s: State, e: State, a: Action)
    requires a.ACancelListed? && Alike(s, e, a.raw.id)
    ensures SameEffect(s, e, Step(s, a), Step(e, a), a.raw.id)
  {
    CancelIsLocal(s, e, a.raw, false, a.policy, a.ttl);
  }

  lemma CancelDelayedIsLocal(s: State, e: State, a: Action)
    requires a.ACancelDelayed? && Alike(s, e, a.raw.id)
    ensures SameEffect(s, e, Step(s, a), Step(e, a), a.raw.id)
  {
    CancelIsLocal(s, e, a.raw, true, a.policy, a.ttl);
  }

  lemma ScriptIsLocal(s: State, e: State, a: Action)
    requires Subject(a).Some? && Alike(s, e, Subject(a).value)
    ensures SameEffect(s, e, Step(s, a), Step(e, a), Subject(a).value)
  {
    if a.APop? || a.ABegin? { ClaimingIsLocal(s, e, a); }
    else if TaskTheorems.IsSettling(a) { SettlingIsLocal(s, e, a); }
    else if Moves(a) { MovingIsLocal(s, e, a); }
    else if a.ARecoverAbandoned? { RecoverStepIsLocal(s, e, a); }
    else if a.ACancelListed? { CancelListedIsLocal(s, e, a); }
    else { CancelDelayedIsLocal(s, e, a); }
  }

  /** The answers of a script that took its message. */
  predicate Takes(r: Reply) { r.WasMoved? || r.WasStarted? || r.WasReturned? }

  lemma ClaimingNeedsMessage(s: State, a: Action)
    requires (a.APop? || a.ABegin?) && SlotOf(s, a.raw.id).None?
    ensures Step(s, a).0 == s && !Takes(Step(s, a).1)
  {
  }

  lemma SettlingNeedsMessage(s: State, a: Action)
    requires TaskTheorems.IsSettling(a) && SlotOf(s, a.raw.id).None?
    ensures Step(s, a).0 == s && !Takes(Step(s, a).1)
  {
  }

  lemma OthersNeedMessage(s: State, a: Action)
    requires (Moves(a) || TaskTheorems.Removes(a)) && SlotOf(s, a.raw.id).None?
    ensures Step(s, a).0 == s && !Takes(Step(s, a).1)
  {
  }

  /** No script on a message does anything to a task without one. */
  lemma ScriptNeedsMessage(s: State, a: Action)
    requires Subject(a).Some? && SlotOf(s, Subject(a).value).None?
    ensures Step(s, a).0 == s && !Takes(Step(s, a).1)
  {
    if TaskTheorems.IsSettling(a) { SettlingNeedsMessage(s, a); }
    else if a.APop? || a.ABegin? { ClaimingNeedsMessage(s, a); }
    else { OthersNeedMessage(s, a); }
  }

  // ---------- Scripts do not see stray records ----------

  lemma EffectErases(s: State, r: (State, Reply), q: (State, Reply), id: TaskId)
    requires SlotOf(s, id).Some? && SameEffect(s, Erase(s), r, q, id) && id in q.0.tasks && TaskOk(id, q.0.tasks[id])
    ensures Erase(r.0) == q.0 && r.1 == q.1 && id in r.0.tasks && !Stray(r.0.tasks[id])
  {
    if SameEdit(s, Erase(s), r.0, q.0, id) {
      SoundIsNotStray(id, q.0.tasks[id]);
      ErasePut(s.tasks, id, r.0.tasks[id]);
    }
  }

  lemma EditIsSound(s: State, a: Action)
    requires Local(s) && Fresh(s, a) && Subject(a).Some? && Subject(a).value in s.tasks
    ensures Subject(a).value in Step(s, a).0.tasks && TaskOk(Subject(a).value, Step(s, a).0.tasks[Subject(a).value])
  {
    ScriptsEdit(s, a);
  }

  lemma HeldErases(s: State, a: Action, id: TaskId, r: (State, Reply), q: (State, Reply))
    requires Local(Erase(s)) && Fresh(s, a) && Subject(a) == Some(id) && SlotOf(s, id).Some?
    requires r == Step(s, a) && q == Step(Erase(s), a)
    ensures Erase(r.0) == q.0 && r.1 == q.1 && id in r.0.tasks && !Stray(r.0.tasks[id])
  {
    ScriptIsLocal(s, Erase(s), a);
    EditIsSound(Erase(s), a);
    EffectErases(s, r, q, id);
  }

  /** A script on a message does the same with and without the stray records. */
  lemma ScriptErases(s: State, a: Action, r: (State, Reply), q: (State, Reply))
    requires Local(Erase(s)) && Fresh(s, a) && Subject(a).Some? && r == Step(s, a) && q == Step(Erase(s), a)
    ensures Erase(r.0) == q.0 && (r.1 == q.1 || (!Takes(r.1) && !Takes(q.1)))
  {
    if SlotOf(s, Subject(a).value).None? {
      ScriptNeedsMessage(s, a);
      ScriptNeedsMessage(Erase(s), a);
    } else {
      HeldErases(s, a, Subject(a).value, r, q);
    }
  }

  lemma AdmitErases(s: State, id: TaskId, spec: TaskSpec, parent: Option<TaskId>, availableAt: Time)
    ensures Erase(Admit(s, id, spec, parent, availableAt)) == Admit(Erase(s), id, spec, parent, availableAt)
  {
    var s' := Admit(s, id, spec, parent, availableAt);
    ErasePut(s.tasks, id, s'.tasks[id]);
  }

  lemma EnqueueErases(s: State, id: TaskId, spec: TaskSpec, availableAt: Time, onDuplicate: DuplicateAction)
    requires id !in s.tasks
    ensures Erase(Enqueue(s, id, spec, availableAt, onDuplicate).0)
      == Enqueue(Erase(s), id, spec, availableAt, onDuplicate).0
  {
    AdmitErases(s, id, spec, None, availableAt);
  }

  /** The replay script accepts with or without the stray records, and leaves the same source behind. */
  lemma ReplayAnswersAlike(s: State, plan: ReplayPlan, id: TaskId, spec: TaskSpec, availableAt: Time, ttl: nat)
    requires id !in s.tasks
    ensures CommitReplay(s, plan, id, spec, availableAt, ttl).1.Accepted?
       <==> CommitReplay(Erase(s), plan, id, spec, availableAt, ttl).1.Accepted?
    ensures !CommitReplay(s, plan, id, spec, availableAt, ttl).1.Accepted? ==>
      && CommitReplay(s, plan, id, spec, availableAt, ttl).0 == s
      && CommitReplay(Erase(s), plan, id, spec, availableAt, ttl).0 == Erase(s)
  {
  }

  lemma ReplayedErases(t: Task, rec: Record, newId: TaskId, requireSource: bool, now: Time, ttl: nat)
    requires t.record == Some(rec) && rec.outcome != Live
    ensures EraseTask(ReplayedSource(t, rec, newId, requireSource, now, ttl))
         == ReplayedSource(EraseTask(t), EraseTask(t).record.value, newId, requireSource, now, ttl)
  {
  }

  lemma ReplayErases(s: State, plan: ReplayPlan, id: TaskId, spec: TaskSpec, availableAt: Time, ttl: nat)
    requires id !in s.tasks
    ensures Erase(CommitReplay(s, plan, id, spec, availableAt, ttl).0)
         == CommitReplay(Erase(s), plan, id, spec, availableAt, ttl).0
  {
    ReplayAnswersAlike(s, plan, id, spec, availableAt, ttl);
    if CommitReplay(s, plan, id, spec, availableAt, ttl).1.Accepted? {
      var rec := RecordOf(s, plan.source).value;
      var t := ReplayedSource(s.tasks[plan.source], rec, id, plan.requireSource, s.now, ttl);
      ReplayedErases(s.tasks[plan.source], rec, id, plan.requireSource, s.now, ttl);
      ErasePut(s.tasks, plan.source, t);
      AdmitErases(Put(s, plan.source, t), id, spec, Some(plan.source), availableAt);
    }
  }

  lemma SweepErases(s: State, id: TaskId)
    ensures Erase(CommitSweep(s, id).0) == CommitSweep(Erase(s), id).0
  {
    if id in s.tasks { ErasePut(s.tasks, id, s.tasks[id].(record := None)); }
  }

  lemma EraseExpired(t: Task, now: Time)
    ensures EraseTask(ExpireTask(t, now)) == ExpireTask(EraseTask(t), now)
  {
  }

  lemma ExpiryTasks(s: State, elapsed: nat) returns (tasks: map<TaskId, Task>)
    ensures tasks == Tick(s, elapsed).0.tasks && tasks.Keys == s.tasks.Keys
    ensures forall id <- s.tasks :: tasks[id] == ExpireTask(s.tasks[id], s.now + elapsed)
  {
    tasks := Tick(s, elapsed).0.tasks;
  }

  lemma TickTouchesTasksOnly(s: State, e: State, elapsed: nat)
    requires e == s.(tasks := e.tasks)
    ensures var s', e' := Tick(s, elapsed).0, Tick(e, elapsed).0; e' == s'.(tasks := e'.tasks)
  {
  }

  lemma TickErases(s: State, elapsed: nat)
    ensures Erase(Tick(s, elapsed).0) == Tick(Erase(s), elapsed).0
  {
    var now := s.now + elapsed;
    var after := ExpiryTasks(s, elapsed);
    var erased := ExpiryTasks(Erase(s), elapsed);
    TickTouchesTasksOnly(s, Erase(s), elapsed);
    forall id <- s.tasks ensures EraseTasks(after)[id] == erased[id] { EraseExpired(s.tasks[id], now); }
    assert EraseTasks(after) == erased;
  }

  /** These look at a record before they plan or do something. */
  predicate Reads(a: Action) { a.APlanReplay? || a.APlanSweep? || a.AForget? }

  /** A look at a stray record comes to nothing; every other look comes to what it would without them. */
  lemma ReadErases(s: State, a: Action)
    requires Reads(a)
    ensures Step(s, a).0 != s ==> Erase(Step(s, a).0) == Step(Erase(s), a).0
  {
  }

  lemma LeaseStepErases(s: State, a: Action)
    requires a.ARenew? || a.ARelease?
    ensures Erase(Step(s, a).0) == Step(Erase(s), a).0
  {
  }

  lemma HeartStepErases(s: State, a: Action)
    requires a.AHeartbeat? || a.ADropHeartbeat?
    ensures Erase(Step(s, a).0) == Step(Erase(s), a).0
  {
  }

  /** A look that came to nothing. */
  predicate Idle(s: State, a: Action) { Reads(a) && Step(s, a).0 == s }

  /** A step of any client does the same with and without the stray records, but for a look that comes to nothing. */
  lemma StepErases(s: State, a: Action)
    requires Inv(Erase(s)) && Fresh(s, a)
    ensures !Idle(s, a) ==> Erase(Step(s, a).0) == Step(Erase(s), a).0
  {
    if Subject(a).Some? {
      InvIsLocal(Erase(s));
      ScriptErases(s, a, Step(s, a), Step(Erase(s), a));
    } else {
      match a
      case AEnqueue(id, spec, availableAt, onDuplicate) => EnqueueErases(s, id, spec, availableAt, onDuplicate);
      case ACommitReplay(plan, id, spec, availableAt, ttl) => ReplayErases(s, plan, id, spec, availableAt, ttl);
      case ACommitSweep(id) => SweepErases(s, id);
      case ATick(elapsed) => TickErases(s, elapsed);
      case _ =>
        if Reads(a) { ReadErases(s, a); }
        else if a.ARenew? || a.ARelease? { LeaseStepErases(s, a); }
        else { HeartStepErases(s, a); }
    }
  }

  // ---------- Scripts and stray records ----------

  lemma ScriptEditsOne(s: State, a: Action)
    requires Subject(a).Some? && Subject(a).value in s.tasks
    ensures Step(s, a).0.tasks == s.tasks || (Subject(a).value in Step(s, a).0.tasks
      && Step(s, a).0.tasks == s.tasks[Subject(a).value := Step(s, a).0.tasks[Subject(a).value]])
  {
    ScriptIsLocal(s, s, a);
  }

  /** A script on a message makes no stray record and touches none. */
  lemma MessageScriptTouches(s: State, s': State, a: Action, id: TaskId)
    requires Local(Erase(s)) && Fresh(s, a) && Subject(a).Some? && id in s.tasks && s' == Step(s, a).0
    ensures id in s'.tasks && (Stray(s'.tasks[id]) || Stray(s.tasks[id]) ==> s'.tasks[id] == s.tasks[id])
  {
    var subject := Subject(a).value;
    if SlotOf(s, subject).None? {
      ScriptNeedsMessage(s, a);
    } else {
      ScriptEditsOne(s, a);
      if id == subject { HeldErases(s, a, id, Step(s, a), Step(Erase(s), a)); }
    }
  }

  lemma ReplayTouches(s: State, a: Action, id: TaskId)
    requires a.ACommitReplay? && Fresh(s, a) && id in s.tasks
    ensures id in Step(s, a).0.tasks
    ensures Stray(Step(s, a).0.tasks[id]) || Ghost(s.tasks[id]) ==> Step(s, a).0.tasks[id] == s.tasks[id]
    ensures a.id in Step(s, a).0.tasks ==> !Stray(Step(s, a).0.tasks[a.id])
  {
  }

  lemma OtherTouches(s: State, a: Action, id: TaskId)
    requires Subject(a).None? && !a.ACommitReplay? && !a.ACommitSweep? && Fresh(s, a) && id in s.tasks
    ensures id in Step(s, a).0.tasks
    ensures Stray(Step(s, a).0.tasks[id]) ==> Step(s, a).0.tasks[id] == s.tasks[id]
    ensures Lasting(s.tasks[id]) ==> Step(s, a).0.tasks[id] == s.tasks[id]
  {
  }

  lemma SweepTouches(s: State, x: TaskId, id: TaskId)
    requires id in s.tasks
    ensures id in CommitSweep(s, x).0.tasks
    ensures Stray(CommitSweep(s, x).0.tasks[id]) ==> CommitSweep(s, x).0.tasks[id] == s.tasks[id]
    ensures id !in s.sweeps ==> CommitSweep(s, x).0.tasks[id] == s.tasks[id]
  {
  }

  /** A live record without a message and without a time to live. */
  predicate Lasting(t: Task) { Ghost(t) && t.record.value.operational && t.record.value.expireAt.None? }

  /**
   What a script does to stray records: it makes none, and leaves the live ones to those who planned
   to sweep them.
   */
  lemma StepTouches(s: State, a: Action, id: TaskId)
    requires Local(Erase(s)) && Fresh(s, a) && id in s.tasks
    ensures id in Step(s, a).0.tasks
    ensures Stray(Step(s, a).0.tasks[id]) ==> Step(s, a).0.tasks[id] == s.tasks[id]
    ensures Lasting(s.tasks[id]) && id !in s.sweeps ==> Step(s, a).0.tasks[id] == s.tasks[id]
  {
    if Subject(a).Some? { MessageScriptTouches(s, Step(s, a).0, a, id); }
    else if a.ACommitReplay? { ReplayTouches(s, a, id); }
    else if a.ACommitSweep? { SweepTouches(s, a.id, id); }
    else { OtherTouches(s, a, id); }
  }

  lemma NewbornIsNotStray(s: State, a: Action, id: TaskId)
    requires Fresh(s, a) && id !in s.tasks && id in Step(s, a).0.tasks
    ensures Subject(a).None? && !Stray(Step(s, a).0.tasks[id])
  {
    if Subject(a).Some? {
      if Subject(a).value in s.tasks { ScriptEditsOne(s, a); } else { ScriptNeedsMessage(s, a); }
    }
  }

  predicate GhostsLast(s: State) { forall id <- s.tasks :: Ghost(s.tasks[id]) ==> Lasting(s.tasks[id]) }

  lemma StepKeepsGhosts(s: State, a: Action)
    requires Local(Erase(s)) && Fresh(s, a) && GhostsLast(s)
    ensures GhostsLast(Step(s, a).0)
  {
    var s' := Step(s, a).0;
    forall id <- s'.tasks ensures Ghost(s'.tasks[id]) ==> Lasting(s'.tasks[id]) {
      if id in s.tasks { StepTouches(s, a, id); } else { NewbornIsNotStray(s, a, id); }
    }
  }

  /** A stray record is never planned to be swept or replayed. */
  lemma StrayIsNotPlanned(s: State, id: TaskId, requireDlq: bool)
    requires id in s.tasks && Stray(s.tasks[id])
    ensures PlanSweep(s, id) == (s, Refused)
    ensures PlanReplay(s, id, requireDlq).0 == s
  {
  }

  lemma SweepsArePlanned(s: State, a: Action, id: TaskId)
    requires id in s.tasks && Stray(s.tasks[id])
    ensures id in Step(s, a).0.sweeps ==> id in s.sweeps
  {
    if a.APlanSweep? { if a.id == id { StrayIsNotPlanned(s, id, false); } } else { OthersPlanNoSweep(s, a); }
  }

  lemma OthersPlanNoSweep(s: State, a: Action)
    requires !a.APlanSweep?
    ensures Step(s, a).0.sweeps == s.sweeps
  {
  }

  // ---------- The writers among the clients ----------

  /** `missing` are looks that found no record, `found` ended tasks whose message was seen; their writes are pending. */
  datatype World = World(s: State, missing: set<Popped>, found: set<TaskId>)

  const START := World(EMPTY, {}, {})

  datatype Event =
    | Script(a: Action)
    | LookUp(p: Popped)
    | Recreate(p: Popped)
    | FindMessage(id: TaskId)
    | MarkMessage(id: TaskId)

  predicate EndedWithMessage(s: State, id: TaskId) {
    RecordOf(s, id).Some? && RecordOf(s, id).value.outcome != Live && SlotOf(s, id).Some?
  }

  function NextWorld(x: World, e: Event): World {
    match e
    case Script(a) => x.(s := Step(x.s, a).0)
    case LookUp(p) =>
      if p in x.s.popped && RecordOf(x.s, p.raw.id).None? then x.(missing := x.missing + {p}) else x
    case Recreate(p) =>
      if p in x.missing then x.(s := WriteRecord(x.s, p.raw), missing := x.missing - {p}) else x
    case FindMessage(id) => if EndedWithMessage(x.s, id) then x.(found := x.found + {id}) else x
    case MarkMessage(id) => if id in x.found then x.(s := MarkRecord(x.s, id), found := x.found - {id}) else x
  }

  predicate FreshEvents(x: World, es: seq<Event>)
    decreases |es|
  {
    es == [] || ((es[0].Script? ==> Fresh(x.s, es[0].a)) && FreshEvents(NextWorld(x, es[0]), es[1..]))
  }

  function AfterEvents(x: World, es: seq<Event>): World
    decreases |es|
  {
    if es == [] then x else AfterEvents(NextWorld(x, es[0]), es[1..])
  }

  /** The scripts of a run, without the looks that came to nothing. */
  function ScriptsOf(x: World, es: seq<Event>): seq<Action>
    decreases |es|
  {
    if es == [] then []
    else (if es[0].Script? && !Idle(x.s, es[0].a) then [es[0].a] else []) + ScriptsOf(NextWorld(x, es[0]), es[1..])
  }

  // ---------- What the writes leave alone ----------

  predicate PoppedBorn(s: State) { forall p <- s.popped :: p.raw.id in s.tasks }

  /** The record of this task is gone for good. */
  predicate Gone(s: State, id: TaskId) { id in s.tasks && s.tasks[id].record.None? }

  /** The task has ended, whether or not its record still exists. */
  predicate Ended(s: State, id: TaskId) { id in s.tasks && !IsLive(s.tasks[id]) }

  /** Without its stray records the state is sound, and every pending write is about a task that is over. */
  ghost predicate WorldOk(x: World) {
    && Inv(Erase(x.s)) && PoppedBorn(x.s) && GhostsLast(x.s)
    && (forall p <- x.missing :: p in x.s.popped && Gone(Erase(x.s), p.raw.id))
    && (forall id <- x.found :: Ended(Erase(x.s), id))
  }

  lemma GoneHasNoMessage(s: State, id: TaskId)
    requires Inv(Erase(s)) && Gone(Erase(s), id)
    ensures id in s.tasks && s.tasks[id].slot.None? && (s.tasks[id].record.Some? ==> Ghost(s.tasks[id]))
  {
    assert TaskOk(id, Erase(s).tasks[id]);
  }

  lemma RecreateErases(s: State, raw: Message)
    requires Inv(Erase(s)) && Gone(Erase(s), raw.id)
    ensures Erase(WriteRecord(s, raw)) == Erase(s) && Lasting(WriteRecord(s, raw).tasks[raw.id])
  {
    GoneHasNoMessage(s, raw.id);
    ErasePut(s.tasks, raw.id, WriteRecord(s, raw).tasks[raw.id]);
    assert Erase(s).tasks == Erase(s).tasks[raw.id := Erase(s).tasks[raw.id]];
  }

  lemma MarkedErases(id: TaskId, t: Task, marked: Task)
    requires TaskOk(id, EraseTask(t)) && !IsLive(EraseTask(t))
    requires marked == t.(record := marked.record) && marked.record.Some?
    requires marked.record.value
      == (if t.record.Some? then t.record.value else BlankRecord(NO_SPEC)).(operational := true)
    ensures EraseTask(marked) == EraseTask(t) && (Stray(marked) <==> t.slot.None?)
  {
  }

  lemma MarkedTask(s: State, id: TaskId) returns (marked: Task)
    requires id in s.tasks
    ensures MarkRecord(s, id) == Put(s, id, marked)
    ensures marked == s.tasks[id].(record := marked.record) && marked.record.Some?
    ensures marked.record.value
      == (if s.tasks[id].record.Some? then s.tasks[id].record.value else BlankRecord(NO_SPEC)).(operational := true)
  {
    marked := MarkRecord(s, id).tasks[id];
  }

  lemma SameErased(s: State, id: TaskId, t: Task)
    requires id in s.tasks && EraseTask(t) == EraseTask(s.tasks[id])
    ensures Erase(Put(s, id, t)) == Erase(s)
  {
    ErasePut(s.tasks, id, t);
    assert EraseTasks(s.tasks) == EraseTasks(s.tasks)[id := EraseTasks(s.tasks)[id]];
  }

  lemma MarkErases(s: State, id: TaskId)
    requires Inv(Erase(s)) && Ended(Erase(s), id)
    ensures Erase(MarkRecord(s, id)) == Erase(s)
    ensures Stray(MarkRecord(s, id).tasks[id]) <==> SlotOf(s, id).None?
  {
    var marked := MarkedTask(s, id);
    assert TaskOk(id, Erase(s).tasks[id]);
    MarkedErases(id, s.tasks[id], marked);
    SameErased(s, id, marked);
  }

  lemma StepKeepsBorn(s: State, a: Action)
    requires Inv(s) && Fresh(s, a) && PoppedBorn(s)
    ensures PoppedBorn(Step(s, a).0)
  {
    if Subject(a).Some? {
      InvIsLocal(s);
      ScriptsEdit(s, a);
    } else {
      OtherStepPops(s, a);
      forall p <- s.popped { TaskTheorems.StepPersists(s, a, p.raw.id); }
    }
  }

  lemma OtherStepPops(s: State, a: Action)
    requires Subject(a).None?
    ensures Step(s, a).0.popped == s.popped
  {
  }

  lemma PendingStays(s: State, a: Action, id: TaskId, s': State)
    requires Inv(s) && Fresh(s, a) && s' == Step(s, a).0
    ensures Gone(s, id) ==> Gone(s', id)
    ensures Ended(s, id) ==> Ended(s', id)
  {
    if id in s.tasks { TaskTheorems.StepPersists(s, a, id); }
  }

  lemma StepKeepsPending(x: World, s': State, a: Action)
    requires WorldOk(x) && Fresh(x.s, a) && s' == Step(Erase(x.s), a).0
    ensures Inv(s') && PoppedBorn(s')
    ensures forall p <- x.missing :: Gone(s', p.raw.id)
    ensures forall id <- x.found :: Ended(s', id)
  {
    StepKeepsInv(Erase(x.s), a);
    StepKeepsBorn(Erase(x.s), a);
    forall p <- x.missing ensures Gone(s', p.raw.id) { PendingStays(Erase(x.s), a, p.raw.id, s'); }
    forall id <- x.found ensures Ended(s', id) { PendingStays(Erase(x.s), a, id, s'); }
  }

  lemma ScriptKeepsWorld(x: World, a: Action)
    requires WorldOk(x) && Fresh(x.s, a)
    ensures WorldOk(NextWorld(x, Script(a)))
    ensures Erase(Step(x.s, a).0) == if Idle(x.s, a) then Erase(x.s) else Step(Erase(x.s), a).0
  {
    StepErases(x.s, a);
    StepKeepsPending(x, Step(Erase(x.s), a).0, a);
    SameBorn(Step(x.s, a).0);
    InvIsLocal(Erase(x.s));
    StepKeepsGhosts(x.s, a);
    PopsStay(x.s, a);
  }

  lemma PopsStay(s: State, a: Action)
    ensures s.popped <= Step(s, a).0.popped
  {
  }

  lemma SameBorn(s: State)
    ensures PoppedBorn(s) <==> PoppedBorn(Erase(s))
  {
  }

  lemma LookKeepsWorld(x: World, e: Event)
    requires WorldOk(x) && (e.LookUp? || e.FindMessage?)
    ensures WorldOk(NextWorld(x, e)) && NextWorld(x, e).s == x.s
  {
    if e.LookUp? {
      assert RecordOf(x.s, e.p.raw.id).None? && e.p in x.s.popped ==> Gone(Erase(x.s), e.p.raw.id);
    } else {
      assert EndedWithMessage(x.s, e.id) ==> Ended(Erase(x.s), e.id);
    }
  }

  lemma RecreateKeepsWorld(x: World, p: Popped)
    requires WorldOk(x)
    ensures WorldOk(NextWorld(x, Recreate(p))) && Erase(NextWorld(x, Recreate(p)).s) == Erase(x.s)
  {
    if p in x.missing {
      RecreateErases(x.s, p.raw);
      SameBorn(x.s);
      SameBorn(NextWorld(x, Recreate(p)).s);
    }
  }

  lemma MarkKeepsGhosts(s: State, id: TaskId)
    requires GhostsLast(s) && Ended(Erase(s), id)
    ensures GhostsLast(MarkRecord(s, id))
  {
  }

  lemma MarkKeepsWorld(x: World, id: TaskId)
    requires WorldOk(x)
    ensures WorldOk(NextWorld(x, MarkMessage(id))) && Erase(NextWorld(x, MarkMessage(id)).s) == Erase(x.s)
  {
    if id in x.found {
      MarkErases(x.s, id);
      MarkKeepsGhosts(x.s, id);
      SameBorn(x.s);
      SameBorn(NextWorld(x, MarkMessage(id)).s);
    }
  }

  /** One event keeps all this; a script does to the erased state what it does to the state. */
  lemma EventKeepsWorld(x: World, e: Event)
    requires WorldOk(x) && (e.Script? ==> Fresh(x.s, e.a))
    ensures WorldOk(NextWorld(x, e))
    ensures Erase(NextWorld(x, e).s) == if e.Script? && !Idle(x.s, e.a) then Step(Erase(x.s), e.a).0 else Erase(x.s)
  {
    if e.Script? { ScriptKeepsWorld(x, e.a); }
    else if e.LookUp? || e.FindMessage? { LookKeepsWorld(x, e); }
    else if e.Recreate? { RecreateKeepsWorld(x, e.p); }
    else { MarkKeepsWorld(x, e.id); }
  }

  /** Stray writes change nothing but the stray records: without those, the run is one of the scripts alone. */
  lemma {:induction false} RunUnderWrites(x: World, es: seq<Event>)
    requires WorldOk(x) && FreshEvents(x, es)
    ensures WorldOk(AfterEvents(x, es))
    ensures FreshRun(Erase(x.s), ScriptsOf(x, es))
    ensures Run(Erase(x.s), ScriptsOf(x, es)) == Erase(AfterEvents(x, es).s)
    decreases |es|
  {
    if es != [] {
      var x1 := NextWorld(x, es[0]);
      EventKeepsWorld(x, es[0]);
      RunUnderWrites(x1, es[1..]);
      if es[0].Script? && !Idle(x.s, es[0].a) {
        assert ScriptsOf(x, es)[0] == es[0].a && ScriptsOf(x, es)[1..] == ScriptsOf(x1, es[1..]);
      } else {
        assert ScriptsOf(x, es) == ScriptsOf(x1, es[1..]);
      }
    }
  }

  lemma StartIsOk()
    ensures WorldOk(START) && Erase(START.s) == EMPTY
  {
    EmptyOk();
    EraseNothing(EMPTY);
  }

  // ---------- Every run ----------

  /** Everything but the records of tasks without a message is as the scripts alone would have left it. */
  predicate DiffersInStrays(s: State, s0: State) {
    && s == s0.(tasks := s.tasks) && s.tasks.Keys == s0.tasks.Keys
    && (forall id <- s.tasks ::
          && s.tasks[id].slot == s0.tasks[id].slot && s.tasks[id].due == s0.tasks[id].due
          && (!Stray(s.tasks[id]) ==> s.tasks[id] == s0.tasks[id])
          && (Stray(s.tasks[id]) ==> s0.tasks[id] == EraseTask(s.tasks[id])))
  }

  /**
   Over any interleaving of scripts and stray writes, the scripts do exactly what they would do alone,
   and the outcome differs from theirs in nothing but stray records.
   */
  lemma WritesAreInert(es: seq<Event>)
    requires FreshEvents(START, es)
    ensures FreshRun(EMPTY, ScriptsOf(START, es))
    ensures DiffersInStrays(AfterEvents(START, es).s, Run(EMPTY, ScriptsOf(START, es)))
    ensures Inv(Run(EMPTY, ScriptsOf(START, es)))
  {
    StartIsOk();
    RunUnderWrites(START, es);
    ErasedDiffers(AfterEvents(START, es).s);
  }

  lemma ErasedDiffers(s: State)
    ensures DiffersInStrays(s, Erase(s))
  {
  }

  lemma StrayBreaksInv(s: State)
    requires Inv(s)
    ensures NoStray(s) && Erase(s) == s
  {
    forall id <- s.tasks ensures !Stray(s.tasks[id]) { assert TaskOk(id, s.tasks[id]); }
    EraseNothing(s);
  }

  /** The invariant of the scripts holds after such a run if and only if there is no stray record. */
  lemma InvIffNoStray(es: seq<Event>)
    requires FreshEvents(START, es)
    ensures Inv(AfterEvents(START, es).s) <==> NoStray(AfterEvents(START, es).s)
  {
    StartIsOk();
    RunUnderWrites(START, es);
    var s := AfterEvents(START, es).s;
    if NoStray(s) { EraseNothing(s); }
    if Inv(s) { StrayBreaksInv(s); }
  }

  /** On a sound state, making sure of a record is harmless if and only if it is there already. */
  lemma EnsureKeepsInvIff(s: State, w: Worker, raw: Message)
    requires Inv(s) && Popped(w, raw) in s.popped && raw.id in s.tasks
    ensures Inv(EnsureRecord(s, raw)) <==> RecordOf(s, raw.id).Some?
  {
    if RecordOf(s, raw.id).None? {
      StrayBreaksInv(s);
      RecreateErases(s, raw);
      assert Stray(EnsureRecord(s, raw).tasks[raw.id]);
      if Inv(EnsureRecord(s, raw)) { StrayBreaksInv(EnsureRecord(s, raw)); }
    }
  }

  /** It is never needed: where there is no record there is no message, and the begin script would stop anyway. */
  lemma EnsureIsNeverNeeded(s: State, w: Worker, raw: Message, claim: Token, lease: Token, time: Timing)
    requires Inv(s) && Popped(w, raw) in s.popped && RecordOf(s, raw.id).None?
    ensures SlotOf(s, raw.id).None?
    ensures Begin(s, w, raw, claim, lease, time) == (s, MissingTask)
  {
    if raw.id in s.tasks { assert TaskOk(raw.id, s.tasks[raw.id]); }
  }

  /** With time between look and write: the write is harmless if and only if the look found a record. */
  lemma RecreateKeepsInvIff(es: seq<Event>, p: Popped)
    requires FreshEvents(START, es) && NoStray(AfterEvents(START, es).s)
    ensures Inv(NextWorld(AfterEvents(START, es), Recreate(p)).s) <==> p !in AfterEvents(START, es).missing
  {
    StartIsOk();
    RunUnderWrites(START, es);
    var x := AfterEvents(START, es);
    EraseNothing(x.s);
    if p in x.missing {
      RecreateErases(x.s, p.raw);
      var s' := NextWorld(x, Recreate(p)).s;
      assert Stray(s'.tasks[p.raw.id]);
      if Inv(s') { StrayBreaksInv(s'); }
    }
  }

  lemma SoundMarkIsIdle(s: State, id: TaskId)
    requires Inv(s) && id in s.tasks && s.tasks[id].slot.Some?
    ensures MarkRecord(s, id) == s
  {
    assert TaskOk(id, s.tasks[id]);
    assert s.tasks[id := s.tasks[id]] == s.tasks;
  }

  lemma LateMarkIsStray(s: State, id: TaskId)
    requires id in s.tasks && s.tasks[id].slot.None?
    ensures !Inv(MarkRecord(s, id))
  {
    assert Stray(MarkRecord(s, id).tasks[id]);
    if Inv(MarkRecord(s, id)) { StrayBreaksInv(MarkRecord(s, id)); }
  }

  lemma ReachedIsOk(es: seq<Event>) returns (x: World)
    requires FreshEvents(START, es)
    ensures x == AfterEvents(START, es) && WorldOk(x)
  {
    StartIsOk();
    RunUnderWrites(START, es);
    x := AfterEvents(START, es);
  }

  lemma MarkIff(s: State, id: TaskId, s': State)
    requires Inv(s) && id in s.tasks && s' == MarkRecord(s, id)
    ensures Inv(s') <==> SlotOf(s, id).Some?
  {
    if s.tasks[id].slot.Some? { SoundMarkIsIdle(s, id); } else { LateMarkIsStray(s, id); }
  }

  /** The cleaner's mark is harmless if and only if the message it saw is still there. */
  lemma MarkKeepsInvIff(es: seq<Event>, id: TaskId)
    requires FreshEvents(START, es) && NoStray(AfterEvents(START, es).s) && id in AfterEvents(START, es).found
    ensures Inv(NextWorld(AfterEvents(START, es), MarkMessage(id)).s) <==> SlotOf(AfterEvents(START, es).s, id).Some?
  {
    var x := ReachedIsOk(es);
    EraseNothing(x.s);
    assert Ended(Erase(x.s), id);
    MarkIff(x.s, id, NextWorld(x, MarkMessage(id)).s);
  }

  /** Every look finds its record, and every marked message is still there. */
  predicate Orderly(x: World, es: seq<Event>)
    decreases |es|
  {
    es == []
    || (&& (es[0].LookUp? && es[0].p in x.s.popped ==> RecordOf(x.s, es[0].p.raw.id).Some?)
        && (es[0].MarkMessage? && es[0].id in x.found ==> SlotOf(x.s, es[0].id).Some?)
        && Orderly(NextWorld(x, es[0]), es[1..]))
  }

  lemma OrderlyEvent(x: World, e: Event)
    requires WorldOk(x) && x.missing == {} && NoStray(x.s) && Orderly(x, [e]) && (e.Script? ==> Fresh(x.s, e.a))
    ensures NextWorld(x, e).missing == {} && NoStray(NextWorld(x, e).s)
  {
    EraseNothing(x.s);
    if e.Script? {
      StepKeepsInv(x.s, e.a);
      StrayBreaksInv(NextWorld(x, e).s);
    } else if e.MarkMessage? && e.id in x.found {
      SoundMarkIsIdle(x.s, e.id);
    }
  }

  /** In an orderly run there is never a stray record, so everything proved about runs of the scripts holds of it. */
  lemma {:induction false} OrderlyRunIsSound(x: World, es: seq<Event>)
    requires WorldOk(x) && x.missing == {} && NoStray(x.s) && FreshEvents(x, es) && Orderly(x, es)
    ensures NoStray(AfterEvents(x, es).s) && FreshRun(x.s, ScriptsOf(x, es))
    ensures AfterEvents(x, es).s == Run(x.s, ScriptsOf(x, es))
    decreases |es|
  {
    RunUnderWrites(x, es);
    EraseNothing(x.s);
    if es != [] {
      assert [es[0]][1..] == [] && Orderly(x, [es[0]]);
      OrderlyEvent(x, es[0]);
      EventKeepsWorld(x, es[0]);
      OrderlyRunIsSound(NextWorld(x, es[0]), es[1..]);
    }
    EraseNothing(AfterEvents(x, es).s);
  }

  // ---------- Stray live records stay ----------

  /** A lasting record nobody has planned to sweep. */
  predicate Stuck(s: State, id: TaskId) { id in s.tasks && Lasting(s.tasks[id]) && id !in s.sweeps }

  lemma ScriptKeepsStuck(s: State, a: Action, id: TaskId)
    requires Local(Erase(s)) && Fresh(s, a) && Stuck(s, id)
    ensures Stuck(Step(s, a).0, id)
  {
    StepTouches(s, a, id);
    SweepsArePlanned(s, a, id);
  }

  lemma RecreateKeepsStuck(s: State, raw: Message, id: TaskId)
    requires Stuck(s, id)
    ensures Stuck(WriteRecord(s, raw), id)
  {
  }

  lemma MarkKeepsStuck(s: State, written: TaskId, id: TaskId)
    requires Stuck(s, id)
    ensures Stuck(MarkRecord(s, written), id)
  {
  }

  lemma EventKeepsStuck(x: World, e: Event, id: TaskId)
    requires WorldOk(x) && (e.Script? ==> Fresh(x.s, e.a)) && Stuck(x.s, id)
    ensures Stuck(NextWorld(x, e).s, id)
  {
    match e
    case Script(a) =>
      InvIsLocal(Erase(x.s));
      ScriptKeepsStuck(x.s, a, id);
    case Recreate(p) => RecreateKeepsStuck(x.s, p.raw, id);
    case MarkMessage(written) => MarkKeepsStuck(x.s, written, id);
    case _ =>
  }

  /**
   Unless a cleaner had already planned to sweep the task, a live record without a message stays
   whatever anyone does: it never expires, nothing settles it, and no cleaner will plan to sweep it.
   */
  lemma {:induction false} GhostLasts(x: World, es: seq<Event>, id: TaskId)
    requires WorldOk(x) && FreshEvents(x, es)
    requires Stuck(x.s, id)
    ensures Stuck(AfterEvents(x, es).s, id)
    decreases |es|
  {
    if es != [] {
      EventKeepsWorld(x, es[0]);
      EventKeepsStuck(x, es[0], id);
      GhostLasts(NextWorld(x, es[0]), es[1..], id);
    }
  }

  /** The worker that made the record learns nothing from the begin script but that its message is gone. */
  lemma GhostIsNotFound(s: State, w: Worker, raw: Message, claim: Token, lease: Token, time: Timing)
    requires Popped(w, raw) in s.popped && raw.id in s.tasks && Ghost(s.tasks[raw.id])
    ensures Begin(s, w, raw, claim, lease, time) == (s, NotFound)
  {
  }

  /** A write after a look that found no record leaves, for good, a live record without a message. */
  lemma LateClaimLeavesGhost(es: seq<Event>, p: Popped, claim: Token, lease: Token, time: Timing, more: seq<Event>)
    requires FreshEvents(START, es) && p in AfterEvents(START, es).missing
    requires FreshEvents(NextWorld(AfterEvents(START, es), Recreate(p)), more)
    ensures var x := NextWorld(AfterEvents(START, es), Recreate(p));
      && Begin(x.s, p.worker, p.raw, claim, lease, time) == (x.s, NotFound)
      && (p.raw.id !in x.s.sweeps ==> Stuck(AfterEvents(x, more).s, p.raw.id))
  {
    var x := ReachedIsOk(es);
    RecreateErases(x.s, p.raw);
    RecreateKeepsWorld(x, p);
    var x1 := NextWorld(x, Recreate(p));
    assert Popped(p.worker, p.raw) == p;
    GhostIsNotFound(x1.s, p.worker, p.raw, claim, lease, time);
    if p.raw.id !in x1.s.sweeps { GhostLasts(x1, more, p.raw.id); }
  }

  // ---------- What callers may still rely on ----------

  /** One place per task; a stray record claims a message where there is none. */
  predicate PlaceHolds(t: Task) {
    if t.record.None? then t.slot.None?
    else
      var rec := t.record.value;
      && (t.slot.Some? <==> rec.operational && !Stray(t))
      && (t.slot.Some? ==> rec.expireAt.None? && (rec.outcome == Live <==> !t.slot.value.place.Dlq?)
                           && rec.outcome in {Live, Failed})
      && (t.slot.None? && rec.outcome != Live ==> rec.expireAt.Some?)
      && (Ghost(t) ==> rec.operational && rec.expireAt.None? && t.due.None?)
  }

  lemma PlaceOfTask(id: TaskId, t: Task)
    requires TaskOk(id, EraseTask(t)) && (Ghost(t) ==> Lasting(t))
    ensures PlaceHolds(t)
  {
  }

  /** Over every run with the writes, each task has its one place or a stray record. */
  lemma PlaceUnderWrites(es: seq<Event>, id: TaskId)
    requires FreshEvents(START, es) && id in AfterEvents(START, es).s.tasks
    ensures PlaceHolds(AfterEvents(START, es).s.tasks[id])
  {
    var x := ReachedIsOk(es);
    assert TaskOk(id, Erase(x.s).tasks[id]);
    PlaceOfTask(id, x.s.tasks[id]);
  }

  /** What may become of the record of a task that has ended. */
  predicate OutcomeKept(t: Task, t': Task) {
    && (t.record.Some? && t'.record.Some? && !Ghost(t') ==>
          t'.record.value.outcome == t.record.value.outcome && t'.record.value.attempt == t.record.value.attempt)
    && (t.slot.None? ==> t'.slot.None?)
  }

  lemma ErasedOutcomeKept(t: Task, t': Task)
    requires t.record.Some? && t.record.value.outcome != Live && TaskTheorems.Persists(EraseTask(t), EraseTask(t'))
    ensures OutcomeKept(t, t')
  {
  }

  /** A record that has ended keeps its outcome, is gone, or is a live one written over its absence. */
  lemma OutcomeUnderWrites(x: World, es: seq<Event>, id: TaskId)
    requires WorldOk(x) && FreshEvents(x, es)
    requires id in x.s.tasks && x.s.tasks[id].record.Some? && x.s.tasks[id].record.value.outcome != Live
    ensures id in AfterEvents(x, es).s.tasks && OutcomeKept(x.s.tasks[id], AfterEvents(x, es).s.tasks[id])
  {
    RunUnderWrites(x, es);
    TaskTheorems.RunPersists(Erase(x.s), ScriptsOf(x, es), id);
    ErasedOutcomeKept(x.s.tasks[id], AfterEvents(x, es).s.tasks[id]);
  }

  function Ghosts(tasks: map<TaskId, Task>): set<TaskId> { set id | id in tasks && Ghost(tasks[id]) }

  lemma GhostsCount(tasks: map<TaskId, Task>)
    ensures |WithOutcome(tasks, Live)| == |WithOutcome(EraseTasks(tasks), Live)| + |Ghosts(tasks)|
  {
    var all, rest, ghosts := WithOutcome(tasks, Live), WithOutcome(EraseTasks(tasks), Live), Ghosts(tasks);
    assert all == rest + ghosts && rest !! ghosts;
  }

  predicate LiveCounted(m: Metrics, live: nat, ghosts: nat) {
    m.accepted + ghosts == live + m.completed + m.failed + m.skipped + m.cancelled
  }

  /** Conservation is off by exactly the live records without a message. */
  lemma ConservationUnderWrites(es: seq<Event>)
    requires FreshEvents(START, es)
    ensures var s := AfterEvents(START, es).s;
      LiveCounted(s.metrics, |WithOutcome(s.tasks, Live)|, |Ghosts(s.tasks)|)
  {
    var x := ReachedIsOk(es);
    ErasedCounts(x.s);
  }

  lemma ErasedCounts(s: State)
    requires CountersOk(Erase(s))
    ensures LiveCounted(s.metrics, |WithOutcome(s.tasks, Live)|, |Ghosts(s.tasks)|)
  {
    GhostsCount(s.tasks);
  }

  lemma ErasedRetries(s: State)
    requires CountersOk(Erase(s))
    ensures s.metrics.retryWait == |RetryWaiting(s.tasks)|
  {
    assert RetryWaiting(Erase(s).tasks) == RetryWaiting(s.tasks);
  }

  lemma ErasedDue(id: TaskId, t: Task)
    requires TaskOk(id, EraseTask(t))
    ensures t.due == if t.record.None? || Ghost(t) then None else DueOf(t.record.value)
  {
  }

  /** The indexes stay exact but for the live records without a message: those have no deadline entry. */
  lemma IndexesUnderWrites(es: seq<Event>, id: TaskId)
    requires FreshEvents(START, es)
    ensures var s := AfterEvents(START, es).s; s.metrics.retryWait == |RetryWaiting(s.tasks)|
    ensures id in AfterEvents(START, es).s.tasks ==>
      var t := AfterEvents(START, es).s.tasks[id];
      t.due == if t.record.None? || Ghost(t) then None else DueOf(t.record.value)
  {
    var x := ReachedIsOk(es);
    ErasedRetries(x.s);
    if id in x.s.tasks {
      assert TaskOk(id, Erase(x.s).tasks[id]);
      ErasedDue(id, x.s.tasks[id]);
    }
  }

  // ---------- Both writes come late in some run ----------

  lemma {:induction false} EventsThen(x: World, es: seq<Event>, e: Event)
    ensures AfterEvents(x, es + [e]) == NextWorld(AfterEvents(x, es), e)
    ensures FreshEvents(x, es) && (e.Script? ==> Fresh(AfterEvents(x, es).s, e.a)) ==> FreshEvents(x, es + [e])
    decreases |es|
  {
    if es == [] {
      assert [e][1..] == [];
    } else {
      assert (es + [e])[1..] == es[1..] + [e];
      EventsThen(NextWorld(x, es[0]), es[1..], e);
    }
  }

  lemma StepKeepsNoStray(s: State, a: Action)
    requires Inv(Erase(s)) && Fresh(s, a) && NoStray(s)
    ensures NoStray(Step(s, a).0)
  {
    InvIsLocal(Erase(s));
    var s' := Step(s, a).0;
    forall id <- s'.tasks ensures !Stray(s'.tasks[id]) {
      if id in s.tasks { StepTouches(s, a, id); } else { NewbornIsNotStray(s, a, id); }
    }
  }

  /** A run without a late write ends here. */
  predicate Reached(x: World, es: seq<Event>) {
    FreshEvents(START, es) && AfterEvents(START, es) == x && NoStray(x.s)
  }

  lemma Extend(x: World, es: seq<Event>, e: Event) returns (x': World, es': seq<Event>)
    requires Reached(x, es) && (e.Script? ==> Fresh(x.s, e.a)) && !e.Recreate? && !e.MarkMessage?
    ensures x' == NextWorld(x, e) && Reached(x', es')
  {
    EventsThen(START, es, e);
    x', es' := NextWorld(x, e), es + [e];
    var reached := ReachedIsOk(es);
    if e.Script? { StepKeepsNoStray(reached.s, e.a); }
  }

  /** A task with no key, no version, no deadline, and two attempts. */
  const PLAIN := TaskSpec(None, None, None, None, None, None, 2, 0)

  const FIRST := NewMessage(0, PLAIN, 0)

  /** Task 0 is in this state, and nobody has a deadline, a version or a lease to care about. */
  predicate Stage(x: World, t: Task, now: Time, beats: map<Worker, Time>) {
    && 0 in x.s.tasks && x.s.tasks[0] == t && x.s.now == now && x.s.heartbeats == beats
    && x.s.tokens == {} && x.s.sweeps == {} && x.missing == {} && x.found == {}
  }

  function Waiting(): Task { NewTask(0, PLAIN, None, 0, 1, 0) }

  function HeldBy(w: Worker): Task { Waiting().(slot := Some(Slot(Processing(w), FIRST))) }

  /** A worker with a heartbeat pops the task's message. */
  lemma FirstPop() returns (x: World, es: seq<Event>)
    ensures Reached(x, es) && Stage(x, HeldBy(1), 0, map[1 := 10]) && Popped(1, FIRST) in x.s.popped
  {
    x, es := START, [];
    x, es := Extend(x, es, Script(AEnqueue(0, PLAIN, 0, Reject)));
    x, es := Extend(x, es, Script(AHeartbeat(1, 10)));
    assert Stage(x, Waiting(), 0, map[1 := 10]);
    x, es := Extend(x, es, Script(APop(1, FIRST)));
  }

  /** The first worker's heartbeat lapses and another worker pops its message. */
  lemma SecondPop() returns (x: World, es: seq<Event>)
    ensures Reached(x, es) && Stage(x, HeldBy(2), 10, map[])
    ensures Popped(1, FIRST) in x.s.popped && Popped(2, FIRST) in x.s.popped
  {
    x, es := FirstPop();
    x, es := Extend(x, es, Script(ATick(10)));
    assert Stage(x, HeldBy(1), 10, map[]);
    x, es := Extend(x, es, Script(ARecoverStale(1, FIRST)));
    assert Stage(x, Waiting(), 10, map[]);
    x, es := Extend(x, es, Script(APop(2, FIRST)));
  }

  const RUNNING := FIRST.(attempt := 1, claimToken := Some(1))

  function RunningOn(w: Worker): Task {
    Task(Some(NewRecord(PLAIN, None, AtProcessing, 1).(attempt := 1, claimToken := Some(1))),
         Some(Slot(Processing(w), RUNNING)), None)
  }

  /** The popped message is begun, with tokens 1 and 2. */
  lemma BeginsOn(x: World, es: seq<Event>, w: Worker) returns (x': World, es': seq<Event>)
    requires Reached(x, es) && 0 in x.s.tasks && x.s.tasks[0] == HeldBy(w) && Popped(w, FIRST) in x.s.popped
    requires x.s.tokens == {} && x.s.sweeps == {} && x.missing == {} && x.found == {}
    ensures Reached(x', es') && 0 in x'.s.tasks && x'.s.tasks[0] == RunningOn(w) && x'.s.now == x.s.now
    ensures x'.s.popped == x.s.popped && x'.s.sweeps == {} && x'.missing == {} && x'.found == {}
  {
    x', es' := Extend(x, es, Script(ABegin(w, FIRST, 1, 2, Timing(0, 0, 0))));
    assert Begin(x.s, w, FIRST, 1, 2, Timing(0, 0, 0))
      == BeginStarted(x.s, w, FIRST, x.s.tasks[0].record.value, 1, 2, 0);
  }

  /** The second worker completes the task and its record expires; the first, late, finds no record. */
  lemma LateClaimHappens() returns (es: seq<Event>, p: Popped)
    ensures FreshEvents(START, es) && NoStray(AfterEvents(START, es).s)
    ensures p in AfterEvents(START, es).missing && p.raw.id !in AfterEvents(START, es).s.sweeps
  {
    var x: World;
    x, es := SecondPop();
    x, es := BeginsOn(x, es, 2);
    x, es := Extend(x, es, Script(AComplete(2, RUNNING, 5)));
    assert x.s.tasks[0].slot.None? && x.s.tasks[0].record.value.expireAt == Some(x.s.now + 5);
    x, es := Extend(x, es, Script(ATick(5)));
    p := Popped(1, FIRST);
    assert p in x.s.popped && RecordOf(x.s, 0).None?;
    x, es := Extend(x, es, LookUp(p));
    assert RecordOf(x.s, 0).None?;
  }

  /** The attempt failed for good, and its message went to the dead-letter list; a cleaner has just seen it there. */
  lemma MessageSeen() returns (x: World, es: seq<Event>, dead: Message)
    ensures Reached(x, es) && 0 in x.s.tasks && x.found == {0} && x.missing == {}
    ensures x.s.tasks[0].slot == Some(Slot(Dlq, dead)) && dead.id == 0
    ensures x.s.tasks[0].record.Some? && x.s.tasks[0].record.value.outcome == Failed
  {
    x, es := FirstPop();
    x, es := BeginsOn(x, es, 1);
    x, es := Extend(x, es, Script(AFail(1, RUNNING, true, 0, 0, 0)));
    dead := RUNNING.(lastError := Some(0));
    x, es := Extend(x, es, FindMessage(0));
  }

  /** The message is purged before the mark; the ended record has its time to live. */
  lemma MessagePurged() returns (x: World, es: seq<Event>)
    ensures Reached(x, es) && 0 in x.s.tasks && x.found == {0} && x.missing == {} && x.s.tasks[0].slot.None?
    ensures x.s.tasks[0].record.Some? && x.s.tasks[0].record.value.expireAt == Some(x.s.now + 5)
  {
    var dead: Message;
    x, es, dead := MessageSeen();
    x, es := Extend(x, es, Script(ACancelListed(Dlq, dead, Keep, false, 5)));
  }

  /** The mark comes late: to an ended record without a message or, when that has expired too, to none. */
  lemma LateMarkHappens(gone: bool) returns (es: seq<Event>, id: TaskId)
    ensures FreshEvents(START, es) && NoStray(AfterEvents(START, es).s) && id in AfterEvents(START, es).found
    ensures SlotOf(AfterEvents(START, es).s, id).None? && (RecordOf(AfterEvents(START, es).s, id).None? <==> gone)
  {
    var x: World;
    x, es := MessagePurged();
    if gone { x, es := Extend(x, es, Script(ATick(5))); }
    id := 0;
  }
}
