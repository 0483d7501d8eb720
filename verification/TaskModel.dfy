/**
 The task state machine of one queue, as the atomic scripts see it.

 A `Task` gathers what the store keeps about one task id in different keys: the audit record, the
 one message that may sit in a container, and the entry in the deadline index.  Each script is a
 function from the state before to the state after and the script's reply.  Module `RedisStore`
 runs the same scripts command by command over lists, sorted sets and hashes and refines these
 functions.
 */
module TaskModel {
  import opened Prelude
  import opened VersionOrder

  // ---------- Vocabulary ----------

  type TaskId = nat    // a uuid; only equality matters
  type Worker = nat    // a worker id
  type Token = nat     // a claim or lease token, another uuid
  type Key = nat       // the hash of a logical, supersede or concurrency key
  type Time = int      // microseconds of the store's clock

  const SECOND: int := 1_000_000

  /** An attempt budget; queues and replays insist on at least one attempt. */
  type Budget = n: int | n >= 1 witness 1

  datatype Supersede = Supersede(key: Key, version: Version)

  /** What the producer asked for.  The record and every envelope of the task carry it unchanged. */
  datatype TaskSpec = TaskSpec(
    logicalKey: Option<Key>,
    dedupUntil: Option<Time>,
    concurrencyKey: Option<Key>,
    supersede: Option<Supersede>,
    notBefore: Option<Time>,
    deadline: Option<Time>,
    maxAttempts: Budget,
    payload: nat)

  datatype DelayReason = OnEnqueue | OnSchedule | OnRetry | OnConcurrency

  /** An envelope: a raw message in a container. */
  datatype Message = Message(
    id: TaskId,
    spec: TaskSpec,
    attempt: int,
    availableAt: Time,
    reason: DelayReason,
    claimToken: Option<Token>,
    leaseToken: Option<Token>,
    lastError: Option<nat>)

  datatype Outcome = Live | Completed | Failed | Skipped | Cancelled

  datatype Location = AtReady | AtDelay | AtProcessing | AtDlq | AtHistory

  /** The audit hash of a task, with its time to live. */
  datatype Record = Record(
    spec: TaskSpec,
    outcome: Outcome,
    operational: bool,
    location: Location,
    attempt: int,
    claimToken: Option<Token>,
    replayOf: Option<TaskId>,
    replayedBy: seq<TaskId>,
    generation: int,
    finishedAt: Option<Time>,
    expireAt: Option<Time>)

  /** A container of messages; a delayed message also has a score. */
  datatype Place = Ready | Processing(worker: Worker) | Delay(score: Time) | Dlq

  datatype Slot = Slot(place: Place, msg: Message)

  datatype Task = Task(record: Option<Record>, slot: Option<Slot>, due: Option<Time>)

  datatype Owner = Owner(taskId: TaskId, outcome: Outcome, generation: int,
                         dedupUntil: Option<Time>, expireAt: Option<Time>)

  datatype Lease = Lease(token: Token, expireAt: Time)

  datatype Metrics = Metrics(accepted: int, completed: int, failed: int, skipped: int,
                             cancelled: int, retryWait: int)

  /** A task id ever issued, with the task it replays. */
  datatype Birth = Birth(id: TaskId, parent: Option<TaskId>)

  /** What a replaying administrator read before calling the script. */
  datatype ReplayPlan = ReplayPlan(source: TaskId, message: Option<Message>, requireSource: bool)

  /** A message a worker has popped and may call the begin script on. */
  datatype Popped = Popped(worker: Worker, raw: Message)

  /**
   The state of the queue.  `births`, `versions` and `tokens` are the history of issued ids,
   accepted versions and issued tokens; `popped`, `plans` and `sweeps` are what workers,
   administrators and cleaners have read and may still act on, however late.
   */
  datatype State = State(
    now: Time,
    tasks: map<TaskId, Task>,
    owners: map<Key, Owner>,
    register: map<Key, Version>,
    leases: map<Key, Lease>,
    heartbeats: map<Worker, Time>,
    metrics: Metrics,
    births: seq<Birth>,
    versions: set<Supersede>,
    tokens: set<Token>,
    popped: set<Popped>,
    plans: set<ReplayPlan>,
    sweeps: set<TaskId>)

  const EMPTY := State(0, map[], map[], map[], map[], map[], Metrics(0, 0, 0, 0, 0, 0),
                       [], {}, {}, {}, {}, {})

  // ---------- Reading ----------

  function RecordOf(s: State, id: TaskId): Option<Record> {
    if id in s.tasks then s.tasks[id].record else None
  }

  function SlotOf(s: State, id: TaskId): Option<Slot> {
    if id in s.tasks then s.tasks[id].slot else None
  }

  /** The test LREM and ZREM make: the exact message is in that container. */
  predicate Holds(s: State, place: Place, m: Message) {
    SlotOf(s, m.id) == Some(Slot(place, m))
  }

  predicate IsDelayed(s: State, m: Message) {
    var slot := SlotOf(s, m.id);
    slot.Some? && slot.value.place.Delay? && slot.value.msg == m
  }

  // ---------- Pieces the scripts share ----------

  /** EXPIREAT takes whole seconds, rounded up. */
  function CeilSecond(t: Time): (c: Time)
    ensures t <= c < t + SECOND && c % SECOND == 0
  {
    (t + SECOND - 1) / SECOND * SECOND
  }

  function Put(s: State, id: TaskId, t: Task): State {
    s.(tasks := s.tasks[id := t])
  }

  /** finalize_owner: an owner of this very task is kept until dedup_until or deleted. */
  function FinalizeOwner(s: State, id: TaskId, key: Option<Key>, outcome: Outcome): map<Key, Owner> {
    if key.None? || key.value !in s.owners || s.owners[key.value].taskId != id then s.owners
    else
      var o := s.owners[key.value];
      if o.dedupUntil.Some? && o.dedupUntil.value > s.now then
        s.owners[key.value := o.(outcome := outcome, expireAt := Some(CeilSecond(o.dedupUntil.value)))]
      else s.owners - {key.value}
  }

  /** Compare-and-delete of a concurrency lease. */
  function DropLease(leases: map<Key, Lease>, key: Option<Key>, token: Option<Token>): map<Key, Lease> {
    if key.Some? && token.Some? && key.value in leases && leases[key.value].token == token.value
    then leases - {key.value}
    else leases
  }

  function CountOutcome(m: Metrics, outcome: Outcome): Metrics {
    match outcome
    case Live => m
    case Completed => m.(completed := m.completed + 1)
    case Failed => m.(failed := m.failed + 1)
    case Skipped => m.(skipped := m.skipped + 1)
    case Cancelled => m.(cancelled := m.cancelled + 1)
  }

  /** The guarded decrement of retry_wait.current. */
  function LeaveRetryWait(m: Metrics, msg: Message): Metrics {
    if msg.reason == OnRetry && m.retryWait > 0 then m.(retryWait := m.retryWait - 1) else m
  }

  /** The task after a terminal transition; `dlq` is the message kept for operators, if any. */
  function FinishedTask(rec: Record, outcome: Outcome, dlq: Option<Message>, now: Time, ttl: nat): Task {
    Task(Some(rec.(outcome := outcome,
                   operational := dlq.Some?,
                   location := if dlq.Some? then AtDlq else AtHistory,
                   finishedAt := Some(now),
                   expireAt := if dlq.Some? then rec.expireAt else Some(now + ttl))),
         if dlq.Some? then Some(Slot(Dlq, dlq.value)) else None,
         None)
  }

  function Finish(s: State, raw: Message, rec: Record, outcome: Outcome, dlq: Option<Message>,
                  token: Option<Token>, ttl: nat): State
  {
    s.(tasks := s.tasks[raw.id := FinishedTask(rec, outcome, dlq, s.now, ttl)],
       owners := FinalizeOwner(s, raw.id, raw.spec.logicalKey, outcome),
       leases := DropLease(s.leases, raw.spec.concurrencyKey, token),
       metrics := CountOutcome(s.metrics, outcome))
  }

  // ---------- ENQUEUE ----------

  datatype Reply =
    | Accepted(id: TaskId) | TaskIdCollision | DuplicateActive(of: TaskId) | DuplicateRetained(of: TaskId)
    | MissingTask | AlreadyTerminal(outcome: Outcome) | NotFound
    | WasSkipped | WasSuperseded | WasOverBudget | WasDeferred(msg: Message) | WasStarted(msg: Message)
    | WasCompleted | WasRetried | WasFailed | WasReturned | AttemptChanged | LocationChanged
    | WasMoved | ActiveProcessing | WasRemoved(outcome: Outcome)
    | MissingSource | NotReplayable | SourceNotFound | Planned | Done | Refused

  function OwnerReply(o: Owner): Reply {
    if o.outcome == Live then DuplicateActive(o.taskId) else DuplicateRetained(o.taskId)
  }

  function NewRecord(spec: TaskSpec, parent: Option<TaskId>, location: Location, generation: int): Record {
    Record(spec, Live, true, location, 0, None, parent, [], generation, None, None)
  }

  function NewMessage(id: TaskId, spec: TaskSpec, availableAt: Time): Message {
    Message(id, spec, 0, availableAt, if spec.notBefore.Some? then OnSchedule else OnEnqueue,
            None, None, None)
  }

  function NewTask(id: TaskId, spec: TaskSpec, parent: Option<TaskId>, availableAt: Time,
                   generation: int, now: Time): Task
  {
    var m := NewMessage(id, spec, availableAt);
    var delayed := spec.notBefore.Some? && availableAt > now;
    Task(Some(NewRecord(spec, parent, if delayed then AtDelay else AtReady, generation)),
         Some(Slot(if delayed then Delay(availableAt) else Ready, m)),
         spec.deadline)
  }

  /** The supersede register only moves to a newer version. */
  function Offer(register: map<Key, Version>, v: Option<Supersede>): map<Key, Version> {
    if v.Some? && (v.value.key in register ==> Newer(v.value.version, register[v.value.key]))
    then register[v.value.key := v.value.version]
    else register
  }

  /** What enqueue and replay do once a new task is accepted. */
  function Admit(s: State, id: TaskId, spec: TaskSpec, parent: Option<TaskId>, availableAt: Time): State {
    var generation := if spec.logicalKey.Some? && spec.logicalKey.value in s.owners
                      then (var g := s.owners[spec.logicalKey.value].generation + 1; if g > 1 then g else 1)
                      else 1;
    s.(tasks := s.tasks[id := NewTask(id, spec, parent, availableAt, generation, s.now)],
       owners := if spec.logicalKey.None? then s.owners
                 else s.owners[spec.logicalKey.value := Owner(id, Live, generation, spec.dedupUntil, None)],
       register := Offer(s.register, spec.supersede),
       metrics := s.metrics.(accepted := s.metrics.accepted + 1),
       births := s.births + [Birth(id, parent)],
       versions := if spec.supersede.Some? then s.versions + {spec.supersede.value} else s.versions)
  }

  datatype DuplicateAction = Reject | AllowNew

  function Enqueue(s: State, id: TaskId, spec: TaskSpec, availableAt: Time,
                   onDuplicate: DuplicateAction): (State, Reply) {
    if RecordOf(s, id).Some? then (s, TaskIdCollision)
    else if spec.logicalKey.Some? && spec.logicalKey.value in s.owners && onDuplicate == Reject then
      (s, OwnerReply(s.owners[spec.logicalKey.value]))
    else (Admit(s, id, spec, None, availableAt), Accepted(id))
  }

  // ---------- Claiming ----------

  /** BRPOPLPUSH: the message changes list and the record is not touched. */
  function Pop(s: State, w: Worker, m: Message): (State, Reply) {
    if !Holds(s, Ready, m) then (s, NotFound)
    else (Put(s, m.id, s.tasks[m.id].(slot := Some(Slot(Processing(w), m)))).(popped := s.popped + {Popped(w, m)}),
          WasMoved)
  }

  /** How long a lease lasts, how far a blocked task is put off, and how long history is kept. */
  datatype Timing = Timing(lease: nat, deferral: nat, ttl: nat)

  function BeginDeferred(s: State, raw: Message, rec: Record, deferral: nat): (State, Reply)
    requires raw.id in s.tasks
  {
    var runAt := s.now + deferral;
    var m := raw.(availableAt := runAt, reason := OnConcurrency, leaseToken := None);
    (Put(s, raw.id, s.tasks[raw.id].(record := Some(rec.(location := AtDelay)),
                                     slot := Some(Slot(Delay(runAt), m)))),
     WasDeferred(m))
  }

  function BeginStarted(s: State, w: Worker, raw: Message, rec: Record, claim: Token, lease: Token,
                        duration: nat): (State, Reply)
  {
    var key := raw.spec.concurrencyKey;
    var m := raw.(attempt := rec.attempt + 1, claimToken := Some(claim),
                  leaseToken := if key.Some? then Some(lease) else None);
    var t := Task(Some(rec.(attempt := rec.attempt + 1, claimToken := Some(claim), location := AtProcessing)),
                  Some(Slot(Processing(w), m)), None);
    (s.(tasks := s.tasks[raw.id := t],
        leases := if key.Some? then s.leases[key.value := Lease(lease, s.now + duration)] else s.leases,
        tokens := s.tokens + {claim} + (if key.Some? then {lease} else {})),
     WasStarted(m))
  }

  /** BEGIN_ATTEMPT with fresh tokens `claim` and `lease`, on a message the worker has popped. */
  function Begin(s: State, w: Worker, raw: Message, claim: Token, lease: Token, time: Timing): (State, Reply) {
    if Popped(w, raw) !in s.popped then (s, Refused)
    else match RecordOf(s, raw.id)
    case None => (s, MissingTask)
    case Some(rec) =>
      var held := Holds(s, Processing(w), raw);
      if rec.outcome != Live then (s, AlreadyTerminal(rec.outcome))
      else if rec.spec.deadline.Some? && s.now > rec.spec.deadline.value then
        if !held then (s, NotFound)
        else (Finish(s, raw, rec, Skipped, None, Some(lease), time.ttl), WasSkipped)
      else if raw.spec.supersede.Some? && raw.spec.supersede.value.key in s.register
              && s.register[raw.spec.supersede.value.key] != raw.spec.supersede.value.version then
        if !held then (s, NotFound)
        else (Finish(s, raw, rec, Cancelled, None, Some(lease), time.ttl), WasSuperseded)
      else if rec.attempt >= rec.spec.maxAttempts then
        if !held then (s, NotFound)
        else (Finish(s, raw, rec, Failed, Some(raw), Some(lease), time.ttl), WasOverBudget)
      else if raw.spec.concurrencyKey.Some? && raw.spec.concurrencyKey.value in s.leases then
        if !held then (s, NotFound) else BeginDeferred(s, raw, rec, time.deferral)
      else if !held then (s, NotFound)
      else BeginStarted(s, w, raw, rec, claim, lease, time.lease)
  }

  // ---------- Settling ----------

  function Complete(s: State, w: Worker, raw: Message, ttl: nat): (State, Reply) {
    match RecordOf(s, raw.id)
    case None => (s, MissingTask)
    case Some(rec) =>
      if rec.outcome != Live then (s, AlreadyTerminal(rec.outcome))
      else if !Holds(s, Processing(w), raw) then (s, NotFound)
      else (Finish(s, raw, rec, Completed, None, raw.leaseToken, ttl), WasCompleted)
  }

  function RetryScheduled(s: State, raw: Message, rec: Record, next: Message, runAt: Time): State
    requires raw.id in s.tasks
  {
    var t := Task(Some(rec.(location := AtDelay, operational := true)),
                  Some(Slot(Delay(runAt), next)),
                  if rec.spec.deadline.Some? then rec.spec.deadline else s.tasks[raw.id].due);
    s.(tasks := s.tasks[raw.id := t],
       leases := DropLease(s.leases, raw.spec.concurrencyKey, raw.leaseToken),
       metrics := s.metrics.(retryWait := s.metrics.retryWait + 1))
  }

  function RetryScript(s: State, w: Worker, raw: Message, next: Message, runAt: Time, ttl: nat): (State, Reply) {
    match RecordOf(s, raw.id)
    case None => (s, MissingTask)
    case Some(rec) =>
      if rec.outcome != Live then (s, AlreadyTerminal(rec.outcome))
      else if !Holds(s, Processing(w), raw) then (s, NotFound)
      else if rec.spec.deadline.Some? && runAt >= rec.spec.deadline.value then
        (Finish(s, raw, rec, Skipped, None, raw.leaseToken, ttl), WasSkipped)
      else (RetryScheduled(s, raw, rec, next, runAt), WasRetried)
  }

  function FailScript(s: State, w: Worker, raw: Message, dlq: Message): (State, Reply) {
    match RecordOf(s, raw.id)
    case None => (s, MissingTask)
    case Some(rec) =>
      if rec.outcome != Live then (s, AlreadyTerminal(rec.outcome))
      else if !Holds(s, Processing(w), raw) then (s, NotFound)
      else (Finish(s, raw, rec, Failed, Some(dlq), raw.leaseToken, 0), WasFailed)
  }

  /** SmartQueue.fail: the envelope's own attempt count chooses between the two scripts. */
  function Fail(s: State, w: Worker, raw: Message, permanent: bool, error: nat, runAt: Time, ttl: nat): (State, Reply) {
    if permanent || raw.attempt >= raw.spec.maxAttempts
    then FailScript(s, w, raw, raw.(lastError := Some(error)))
    else RetryScript(s, w, raw,
                     raw.(availableAt := runAt, reason := OnRetry, lastError := Some(error)), runAt, ttl)
  }

  /** RETURN_UNSTARTED_CLAIM: a stopping worker gives back a claim and its attempt. */
  function ReturnUnstarted(s: State, w: Worker, raw: Message): (State, Reply) {
    match RecordOf(s, raw.id)
    case None => (s, MissingTask)
    case Some(rec) =>
      if rec.outcome != Live then (s, AlreadyTerminal(rec.outcome))
      else if rec.attempt != raw.attempt then (s, AttemptChanged)
      else if rec.location != AtProcessing then (s, LocationChanged)
      else if !Holds(s, Processing(w), raw) then (s, NotFound)
      else
        var t := Task(Some(rec.(attempt := raw.attempt - 1, location := AtReady)),
                      Some(Slot(Ready, raw)),
                      if rec.spec.deadline.Some? then rec.spec.deadline else s.tasks[raw.id].due);
        (s.(tasks := s.tasks[raw.id := t],
            leases := DropLease(s.leases, raw.spec.concurrencyKey, raw.leaseToken)),
         WasReturned)
  }

  // ---------- Recovery and moves ----------

  /** The record half of a move to the ready list, with or without a fresh deadline entry. */
  function BackToReady(s: State, m: Message, reindex: bool): State
    requires m.id in s.tasks
  {
    var t := s.tasks[m.id];
    if t.record.None? then Put(s, m.id, t.(slot := Some(Slot(Ready, m))))
    else
      var rec := t.record.value;
      Put(s, m.id, Task(Some(rec.(location := AtReady)), Some(Slot(Ready, m)),
                        if reindex && rec.spec.deadline.Some? then rec.spec.deadline else t.due))
  }

  /** One turn of recover_processing_key on the list of a worker, guarded by its heartbeat. */
  function RecoverStale(s: State, w: Worker, m: Message): (State, Reply) {
    if w in s.heartbeats then (s, ActiveProcessing)
    else if !Holds(s, Processing(w), m) then (s, NotFound)
    else (BackToReady(s, m, true), WasMoved)
  }

  /** The operator's move of one processing message; forced when the heartbeat is not checked. */
  function AdminMoveProcessing(s: State, w: Worker, m: Message, checkHeartbeat: bool): (State, Reply) {
    if checkHeartbeat && w in s.heartbeats then (s, ActiveProcessing)
    else if !Holds(s, Processing(w), m) then (s, NotFound)
    else (BackToReady(s, m, true), WasMoved)
  }

  /** Does the abandoned-claim script give the attempt back? */
  predicate Refunds(rec: Record, raw: Message, spent: bool) {
    !spent && rec.location == AtProcessing && raw.claimToken.Some?
    && rec.claimToken == raw.claimToken && rec.attempt > 0 && rec.attempt == raw.attempt
  }

  /** One message of recover_abandoned_claims; `spent` is the worker's memory of a started handler. */
  function RecoverAbandoned(s: State, w: Worker, raw: Message, spent: bool): (State, Reply) {
    if !Holds(s, Processing(w), raw) then (s, NotFound)
    else
      var t := s.tasks[raw.id];
      var t' :=
        if t.record.None? then t.(slot := Some(Slot(Ready, raw)))
        else
          var rec := t.record.value;
          if rec.outcome == Failed then
            t.(record := Some(rec.(location := AtDlq, operational := true)), slot := Some(Slot(Dlq, raw)))
          else if rec.outcome != Live then t.(slot := None)
          else
            Task(Some(rec.(location := AtReady,
                           attempt := if Refunds(rec, raw, spent) then rec.attempt - 1 else rec.attempt)),
                 Some(Slot(Ready, raw)),
                 if rec.spec.deadline.Some? then rec.spec.deadline else t.due);
      (s.(tasks := s.tasks[raw.id := t'],
          leases := DropLease(s.leases, raw.spec.concurrencyKey, raw.leaseToken)),
       WasMoved)
  }

  /** A delayed message goes to the ready list, by the due-time loop or by an operator. */
  function LeaveDelay(s: State, m: Message): State
    requires m.id in s.tasks
  {
    BackToReady(s.(metrics := LeaveRetryWait(s.metrics, m)), m, false)
  }

  /** One turn of MOVE_DUE_DELAY; the message must be due. */
  function MoveDue(s: State, m: Message): (State, Reply) {
    if !IsDelayed(s, m) || SlotOf(s, m.id).value.place.score > s.now then (s, NotFound)
    else (LeaveDelay(s, m), WasMoved)
  }

  function AdminMoveDelay(s: State, m: Message): (State, Reply) {
    if !IsDelayed(s, m) then (s, NotFound) else (LeaveDelay(s, m), WasMoved)
  }

  // ---------- CANCEL_OR_PURGE ----------

  datatype IdentityPolicy = Keep | Release

  function CancelOwner(s: State, id: TaskId, key: Option<Key>, policy: IdentityPolicy,
                       outcome: Outcome): map<Key, Owner> {
    if policy == Release && key.Some? && key.value in s.owners && s.owners[key.value].taskId == id
    then s.owners - {key.value}
    else FinalizeOwner(s, id, key, outcome)
  }

  /** What the purge finds where there is no record: every field empty. */
  function BlankRecord(spec: TaskSpec): Record {
    Record(spec, Live, false, AtHistory, 0, None, None, [], 0, None, None)
  }

  function RecordToPurge(s: State, raw: Message): Record {
    if RecordOf(s, raw.id).Some? then RecordOf(s, raw.id).value else BlankRecord(raw.spec)
  }

  /** A message without a record gets one, cancelled. */
  function CancelHeld(s: State, raw: Message, delayed: bool, policy: IdentityPolicy, ttl: nat): (State, Reply) {
    var rec := RecordToPurge(s, raw);
    var outcome := if rec.outcome == Live then Cancelled else rec.outcome;
    var rec' := rec.(outcome := outcome, operational := false, location := AtHistory,
                     finishedAt := if rec.outcome == Live then Some(s.now) else rec.finishedAt,
                     expireAt := Some(s.now + ttl));
    var m := if delayed then LeaveRetryWait(s.metrics, raw) else s.metrics;
    (s.(tasks := s.tasks[raw.id := Task(Some(rec'), None, None)],
        owners := CancelOwner(s, raw.id, rec.spec.logicalKey, policy, outcome),
        leases := DropLease(s.leases, rec.spec.concurrencyKey, raw.leaseToken),
        metrics := if outcome == Cancelled then m.(cancelled := m.cancelled + 1) else m),
     WasRemoved(outcome))
  }

  /** A list the operator clears; the delay set is addressed by CancelDelayed. */
  function CancelListed(s: State, place: Place, raw: Message, policy: IdentityPolicy, force: bool,
                        ttl: nat): (State, Reply) {
    if place.Processing? && !force && place.worker in s.heartbeats then (s, ActiveProcessing)
    else if place.Delay? || !Holds(s, place, raw) then (s, NotFound)
    else CancelHeld(s, raw, false, policy, ttl)
  }

  function CancelDelayed(s: State, raw: Message, policy: IdentityPolicy, ttl: nat): (State, Reply) {
    if !IsDelayed(s, raw) then (s, NotFound) else CancelHeld(s, raw, true, policy, ttl)
  }

  // ---------- REPLAY ----------

  predicate Replayable(o: Outcome) { o == Failed || o == Skipped || o == Cancelled }

  /** replay_task reads the record and the dead-letter list before it calls the script. */
  function PlanReplay(s: State, source: TaskId, requireDlq: bool): (State, Reply) {
    match RecordOf(s, source)
    case None => (s, MissingSource)
    case Some(rec) =>
      var slot := SlotOf(s, source);
      var message := if slot.Some? && slot.value.place.Dlq? then Some(slot.value.msg) else None;
      var require := requireDlq || rec.operational;
      if !Replayable(rec.outcome) then (s, NotReplayable)
      else if require && message.None? then (s, SourceNotFound)
      else (s.(plans := s.plans + {ReplayPlan(source, message, require)}), Planned)
  }

  /** The source after an accepted replay. */
  function ReplayedSource(t: Task, rec: Record, newId: TaskId, requireSource: bool, now: Time, ttl: nat): Task {
    Task(Some(rec.(operational := false, location := AtHistory, replayedBy := rec.replayedBy + [newId],
                   expireAt := Some(now + ttl))),
         if requireSource then None else t.slot, t.due)
  }

  function CommitReplay(s: State, plan: ReplayPlan, newId: TaskId, spec: TaskSpec, availableAt: Time,
                        ttl: nat): (State, Reply) {
    if plan !in s.plans then (s, Refused)
    else match RecordOf(s, plan.source)
      case None => (s, MissingSource)
      case Some(rec) =>
        if !Replayable(rec.outcome) then (s, NotReplayable)
        else if RecordOf(s, newId).Some? then (s, TaskIdCollision)
        else if spec.logicalKey.Some? && spec.logicalKey.value in s.owners
                && s.owners[spec.logicalKey.value].taskId != plan.source then
          (s, OwnerReply(s.owners[spec.logicalKey.value]))
        else if plan.requireSource && !(plan.message.Some? && Holds(s, Dlq, plan.message.value)) then
          (s, SourceNotFound)
        else
          var source := ReplayedSource(s.tasks[plan.source], rec, newId, plan.requireSource, s.now, ttl);
          (Admit(Put(s, plan.source, source), newId, spec, Some(plan.source), availableAt), Accepted(newId))
  }

  // ---------- Leases, heartbeats, cleaning, time ----------

  function RenewLease(s: State, key: Key, token: Token, duration: nat): (State, Reply) {
    if key in s.leases && s.leases[key].token == token
    then (s.(leases := s.leases[key := Lease(token, s.now + duration)]), Done)
    else (s, Refused)
  }

  function ReleaseLease(s: State, key: Key, token: Token): (State, Reply) {
    if key in s.leases && s.leases[key].token == token
    then (s.(leases := s.leases - {key}), Done)
    else (s, Refused)
  }

  function Heartbeat(s: State, w: Worker, ttl: nat): (State, Reply) {
    (s.(heartbeats := s.heartbeats[w := s.now + ttl]), Done)
  }

  /** A worker that has drained deletes its heartbeat. */
  function DropHeartbeat(s: State, w: Worker): (State, Reply) {
    (s.(heartbeats := s.heartbeats - {w}), Done)
  }

  /** A cleaner or archiver reads a record and decides that it may go. */
  function PlanSweep(s: State, id: TaskId): (State, Reply) {
    match RecordOf(s, id)
    case None => (s, MissingTask)
    case Some(rec) =>
      if rec.outcome == Live || rec.operational then (s, Refused)
      else (s.(sweeps := s.sweeps + {id}), Planned)
  }

  /** The unconditional delete that follows, possibly much later. */
  function CommitSweep(s: State, id: TaskId): (State, Reply) {
    if id !in s.sweeps || id !in s.tasks then (s, Refused)
    else (Put(s, id, s.tasks[id].(record := None)), Done)
  }

  /** An operator who deletes a task that is over also releases its identity, if it still owns it. */
  function Forget(s: State, id: TaskId, key: Key): (State, Reply) {
    if id !in s.tasks || (id !in s.sweeps && s.tasks[id].record.Some?) then (s, Refused)
    else if key !in s.owners || s.owners[key].taskId != id then (s, NotFound)
    else (s.(owners := s.owners - {key}), Done)
  }

  predicate Expired(at: Option<Time>, now: Time) { at.Some? && at.value <= now }

  function ExpireTask(t: Task, now: Time): Task {
    if t.record.Some? && Expired(t.record.value.expireAt, now) then t.(record := None) else t
  }

  /** Time passes and the store drops every key whose time to live has run out. */
  function Tick(s: State, elapsed: nat): (State, Reply) {
    var now := s.now + elapsed;
    (s.(now := now,
        tasks := map id | id in s.tasks :: ExpireTask(s.tasks[id], now),
        owners := map k | k in s.owners && !Expired(s.owners[k].expireAt, now) :: s.owners[k],
        leases := map k | k in s.leases && s.leases[k].expireAt > now :: s.leases[k],
        heartbeats := map w | w in s.heartbeats && s.heartbeats[w] > now :: s.heartbeats[w]),
     Done)
  }

  // ---------- Runs ----------

  datatype Action =
    | AEnqueue(id: TaskId, spec: TaskSpec, availableAt: Time, onDuplicate: DuplicateAction)
    | APop(w: Worker, raw: Message)
    | ABegin(w: Worker, raw: Message, claim: Token, lease: Token, time: Timing)
    | AComplete(w: Worker, raw: Message, ttl: nat)
    | AFail(w: Worker, raw: Message, permanent: bool, error: nat, runAt: Time, ttl: nat)
    | AReturn(w: Worker, raw: Message)
    | ARecoverStale(w: Worker, raw: Message)
    | ARecoverAbandoned(w: Worker, raw: Message, spent: bool)
    | AMoveDue(raw: Message)
    | AMoveProcessing(w: Worker, raw: Message, checkHeartbeat: bool)
    | AMoveDelay(raw: Message)
    | ACancelListed(place: Place, raw: Message, policy: IdentityPolicy, force: bool, ttl: nat)
    | ACancelDelayed(raw: Message, policy: IdentityPolicy, ttl: nat)
    | APlanReplay(source: TaskId, requireDlq: bool)
    | ACommitReplay(plan: ReplayPlan, id: TaskId, spec: TaskSpec, availableAt: Time, ttl: nat)
    | ARenew(key: Key, token: Token, duration: nat)
    | ARelease(key: Key, token: Token)
    | AHeartbeat(w: Worker, ttl: nat)
    | ADropHeartbeat(w: Worker)
    | APlanSweep(id: TaskId)
    | ACommitSweep(id: TaskId)
    | AForget(id: TaskId, key: Key)
    | ATick(elapsed: nat)

  function Step(s: State, a: Action): (State, Reply) {
    match a
    case AEnqueue(id, spec, availableAt, onDuplicate) => Enqueue(s, id, spec, availableAt, onDuplicate)
    case APop(w, raw) => Pop(s, w, raw)
    case ABegin(w, raw, claim, lease, time) => Begin(s, w, raw, claim, lease, time)
    case AComplete(w, raw, ttl) => Complete(s, w, raw, ttl)
    case AFail(w, raw, permanent, error, runAt, ttl) => Fail(s, w, raw, permanent, error, runAt, ttl)
    case AReturn(w, raw) => ReturnUnstarted(s, w, raw)
    case ARecoverStale(w, raw) => RecoverStale(s, w, raw)
    case ARecoverAbandoned(w, raw, spent) => RecoverAbandoned(s, w, raw, spent)
    case AMoveDue(raw) => MoveDue(s, raw)
    case AMoveProcessing(w, raw, checkHeartbeat) => AdminMoveProcessing(s, w, raw, checkHeartbeat)
    case AMoveDelay(raw) => AdminMoveDelay(s, raw)
    case ACancelListed(place, raw, policy, force, ttl) => CancelListed(s, place, raw, policy, force, ttl)
    case ACancelDelayed(raw, policy, ttl) => CancelDelayed(s, raw, policy, ttl)
    case APlanReplay(source, requireDlq) => PlanReplay(s, source, requireDlq)
    case ACommitReplay(plan, id, spec, availableAt, ttl) => CommitReplay(s, plan, id, spec, availableAt, ttl)
    case ARenew(key, token, duration) => RenewLease(s, key, token, duration)
    case ARelease(key, token) => ReleaseLease(s, key, token)
    case AHeartbeat(w, ttl) => Heartbeat(s, w, ttl)
    case ADropHeartbeat(w) => DropHeartbeat(s, w)
    case APlanSweep(id) => PlanSweep(s, id)
    case ACommitSweep(id) => CommitSweep(s, id)
    case AForget(id, key) => Forget(s, id, key)
    case ATick(elapsed) => Tick(s, elapsed)
  }

  /** Ids and tokens are uuids: an action that issues one never issues an old one. */
  predicate Fresh(s: State, a: Action) {
    match a
    case AEnqueue(id, _, _, _) => id !in s.tasks
    case ACommitReplay(_, id, _, _, _) => id !in s.tasks
    case ABegin(_, _, claim, lease, _) => claim !in s.tokens && lease !in s.tokens && claim != lease
    case _ => true
  }

  /** A run: any clients, any order, any interleaving. */
  predicate FreshRun(s: State, run: seq<Action>)
    decreases |run|
  {
    run == [] || (Fresh(s, run[0]) && FreshRun(Step(s, run[0]).0, run[1..]))
  }

  function Run(s: State, run: seq<Action>): State
    decreases |run|
  {
    if run == [] then s else Run(Step(s, run[0]).0, run[1..])
  }
}
