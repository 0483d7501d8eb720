/**
 What every step keeps.  The invariant has one part per coupling between the structures of the
 store: a task's own record, message and deadline entry; the identity owners; the counters; the
 supersede register; the tokens; the replay lineage; and what clients have read but not yet acted
 on.
 */
module TaskInvariants {
  import opened Prelude
  import opened VersionOrder
  import opened TaskModel

  // ---------- One task ----------

  /** Where the record says the task is, against where its message really is. */
  predicate LocationOk(r: Record, slot: Slot) {
    match slot.place
    case Ready => r.location == AtReady
    case Delay(_) => r.location == AtDelay
    case Dlq => r.location == AtDlq
    case Processing(_) =>
      || r.location == AtReady
      || (r.location == AtProcessing && slot.msg.attempt == r.attempt && r.attempt >= 1
          && r.claimToken.Some? && slot.msg.claimToken == r.claimToken)
  }

  predicate MessageOk(id: TaskId, r: Record, slot: Slot) {
    && slot.msg.id == id
    && slot.msg.spec == r.spec
    && r.expireAt.None?
    && LocationOk(r, slot)
    && (slot.place.Dlq? <==> r.outcome == Failed)
    && (slot.place.Delay? && slot.msg.reason == OnRetry && r.spec.deadline.Some?
        ==> slot.place.score < r.spec.deadline.value)
  }

  predicate RecordOk(r: Record, hasMessage: bool) {
    && r.operational == hasMessage
    && (r.outcome == Live ==> hasMessage)
    && (hasMessage ==> r.outcome == Live || r.outcome == Failed)
    && (!hasMessage ==> r.location == AtHistory && r.expireAt.Some?)
    && 0 <= r.attempt <= r.spec.maxAttempts
  }

  /** The deadline index holds exactly the live tasks that may still have to start. */
  function DueOf(r: Record): Option<Time> {
    if r.outcome == Live && r.location != AtProcessing then r.spec.deadline else None
  }

  predicate TaskOk(id: TaskId, t: Task) {
    if t.record.None? then t.slot.None? && t.due.None?
    else
      && RecordOk(t.record.value, t.slot.Some?)
      && (t.slot.Some? ==> MessageOk(id, t.record.value, t.slot.value))
      && t.due == DueOf(t.record.value)
  }

  predicate TasksOk(s: State) {
    forall id <- s.tasks :: TaskOk(id, s.tasks[id])
  }

  predicate IsLive(t: Task) { t.record.Some? && t.record.value.outcome == Live }

  // ---------- Identity owners ----------

  predicate OwnerOk(s: State, k: Key, o: Owner) {
    if o.outcome == Live then
      && o.expireAt.None?
      && o.taskId in s.tasks && IsLive(s.tasks[o.taskId])
      && s.tasks[o.taskId].record.value.spec.logicalKey == Some(k)
    else
      && o.dedupUntil.Some?
      && o.expireAt == Some(CeilSecond(o.dedupUntil.value))
      && s.now < o.expireAt.value
  }

  predicate OwnersOk(s: State) {
    forall k <- s.owners :: OwnerOk(s, k, s.owners[k])
  }

  // ---------- Supersede register ----------

  /** The register is the newest version ever accepted under its key. */
  predicate RegisterOk(s: State) {
    && (forall v <- s.versions :: v.key in s.register && !Newer(v.version, s.register[v.key]))
    && (forall k <- s.register :: Supersede(k, s.register[k]) in s.versions)
    && (forall id <- s.tasks :: s.tasks[id].record.Some? && s.tasks[id].record.value.spec.supersede.Some?
          ==> s.tasks[id].record.value.spec.supersede.value in s.versions)
  }

  // ---------- Tokens ----------

  predicate KnownToken(s: State, t: Option<Token>) { t.Some? ==> t.value in s.tokens }

  predicate TokensKnown(s: State) {
    && (forall k <- s.leases :: s.leases[k].token in s.tokens)
    && (forall id <- s.tasks :: s.tasks[id].slot.Some? ==>
          KnownToken(s, s.tasks[id].slot.value.msg.leaseToken)
          && KnownToken(s, s.tasks[id].slot.value.msg.claimToken))
  }

  function LeaseTokenOf(t: Task): Option<Token> {
    if t.slot.Some? then t.slot.value.msg.leaseToken else None
  }

  /** No two tasks carry the same lease token. */
  predicate LeaseTokensDistinct(s: State) {
    forall i <- s.tasks, j <- s.tasks ::
      LeaseTokenOf(s.tasks[i]).Some? && LeaseTokenOf(s.tasks[i]) == LeaseTokenOf(s.tasks[j]) ==> i == j
  }

  // ---------- Lineage ----------

  /** The accepted replays of `p`, in order. */
  function ReplaysOf(births: seq<Birth>, p: TaskId): seq<TaskId> {
    if births == [] then []
    else
      var last := births[|births| - 1];
      ReplaysOf(births[..|births| - 1], p) + (if last.parent == Some(p) then [last.id] else [])
  }

  predicate Born(births: seq<Birth>, id: TaskId) {
    exists i :: 0 <= i < |births| && births[i].id == id
  }

  /** Ids are issued once, and a parent is always older than its child. */
  predicate Forest(births: seq<Birth>) {
    forall i :: 0 <= i < |births| ==>
      !Born(births[..i], births[i].id)
      && (births[i].parent.Some? ==> Born(births[..i], births[i].parent.value))
  }

  ghost predicate IdsOk(births: seq<Birth>, tasks: map<TaskId, Task>) {
    forall id: TaskId :: id in tasks <==> Born(births, id)
  }

  predicate LineageOk(births: seq<Birth>, tasks: map<TaskId, Task>) {
    forall id <- tasks :: tasks[id].record.Some? ==>
      && tasks[id].record.value.replayedBy == ReplaysOf(births, id)
      && Birth(id, tasks[id].record.value.replayOf) in births
  }

  ghost predicate BirthsOk(s: State) {
    Forest(s.births) && IdsOk(s.births, s.tasks) && LineageOk(s.births, s.tasks)
  }

  // ---------- Clients between a read and a write ----------

  /** A popped message that is still in the worker's list has not been begun. */
  predicate PoppedOk(s: State) {
    forall p <- s.popped :: KnownToken(s, p.raw.claimToken)
      && (Holds(s, Processing(p.worker), p.raw) ==>
            RecordOf(s, p.raw.id).Some? && RecordOf(s, p.raw.id).value.location == AtReady)
  }

  predicate Settled(s: State, id: TaskId) {
    id in s.tasks && s.tasks[id].slot.None?
  }

  predicate PlansOk(s: State) {
    && (forall p <- s.plans :: p.source in s.tasks && (!p.requireSource ==> Settled(s, p.source))
          && (p.message.Some? ==> p.message.value.id == p.source))
    && (forall id <- s.sweeps :: Settled(s, id))
  }

  // ---------- Counters ----------

  predicate HasOutcome(t: Task, o: Outcome) { t.record.Some? && t.record.value.outcome == o }

  predicate InRetryWait(t: Task) {
    t.slot.Some? && t.slot.value.place.Delay? && t.slot.value.msg.reason == OnRetry
  }

  function WithOutcome(tasks: map<TaskId, Task>, o: Outcome): set<TaskId> {
    set id | id in tasks && HasOutcome(tasks[id], o)
  }

  function RetryWaiting(tasks: map<TaskId, Task>): set<TaskId> {
    set id | id in tasks && InRetryWait(tasks[id])
  }

  function Counter(m: Metrics, o: Outcome): int {
    match o
    case Live => m.accepted - m.completed - m.failed - m.skipped - m.cancelled
    case Completed => m.completed
    case Failed => m.failed
    case Skipped => m.skipped
    case Cancelled => m.cancelled
  }

  /** Conservation: accepted tasks are live or have ended, and retry_wait.current never drifts. */
  predicate CountersOk(s: State) {
    && |WithOutcome(s.tasks, Live)| == Counter(s.metrics, Live)
    && (forall o: Outcome :: |WithOutcome(s.tasks, o)| <= Counter(s.metrics, o))
    && |RetryWaiting(s.tasks)| == s.metrics.retryWait
  }

  // ---------- The invariant ----------

  ghost predicate Inv(s: State) {
    && TasksOk(s) && OwnersOk(s) && RegisterOk(s) && TokensKnown(s) && LeaseTokensDistinct(s)
    && BirthsOk(s) && PoppedOk(s) && PlansOk(s) && CountersOk(s)
  }

  lemma EmptyOk()
    ensures Inv(EMPTY)
  {
    assert forall o :: WithOutcome(EMPTY.tasks, o) == {};
    assert RetryWaiting(EMPTY.tasks) == {};
  }

  // ---------- Edits: scripts that act on the message of one task ----------

  function Ind(b: bool): int { if b then 1 else 0 }

  /** What no script ever changes in a record, and what none changes once the task has ended. */
  predicate Continues(r: Record, r': Record) {
    && r'.spec == r.spec && r'.replayOf == r.replayOf && r.replayedBy <= r'.replayedBy
    && (r.outcome != Live ==> r'.outcome == r.outcome && r'.attempt == r.attempt && r'.finishedAt == r.finishedAt)
  }

  /** Same task before and after; it had a message, and nothing else of its kind changed. */
  predicate Edit(s: State, s': State, id: TaskId) {
    && id in s.tasks && id in s'.tasks
    && s'.tasks == s.tasks[id := s'.tasks[id]]
    && s.tasks[id].slot.Some? && s.tasks[id].record.Some? && s'.tasks[id].record.Some?
    && Continues(s.tasks[id].record.value, s'.tasks[id].record.value)
    && s'.tasks[id].record.value.replayedBy == s.tasks[id].record.value.replayedBy
    && s'.now == s.now && s'.register == s.register && s'.births == s.births
    && s'.versions == s.versions && s'.plans == s.plans && s'.sweeps == s.sweeps
  }

  predicate TokensEdited(s: State, s': State, t: Task, t': Task) {
    && s.tokens <= s'.tokens
    && (forall k <- s'.leases :: s'.leases[k].token in s'.tokens)
    && (t'.slot.Some? ==> KnownToken(s', t'.slot.value.msg.leaseToken) && KnownToken(s', t'.slot.value.msg.claimToken))
    && (LeaseTokenOf(t').Some? ==> LeaseTokenOf(t') == LeaseTokenOf(t) || LeaseTokenOf(t').value !in s.tokens)
  }

  predicate PoppedEdited(s: State, s': State, id: TaskId) {
    forall p <- s'.popped ::
      && (p in s.popped || KnownToken(s', p.raw.claimToken))
      && (p.raw.id == id && Holds(s', Processing(p.worker), p.raw) ==>
            RecordOf(s', id).Some? && RecordOf(s', id).value.location == AtReady)
      && (p.raw.id != id ==> p in s.popped)
  }

  predicate OwnersEdited(s: State, s': State, id: TaskId) {
    && (forall k <- s'.owners ::
          || (k in s.owners && s'.owners[k] == s.owners[k]
              && (s.owners[k].outcome == Live && s.owners[k].taskId == id ==> id in s'.tasks && IsLive(s'.tasks[id])))
          || (s'.owners[k].outcome != Live && OwnerOk(s', k, s'.owners[k])))
    && (forall k <- s.owners :: s.owners[k].taskId != id || (id in s'.tasks && IsLive(s'.tasks[id])) ==>
          k in s'.owners && s'.owners[k] == s.owners[k])
  }

  predicate MetricsEdited(s: State, s': State, t: Task, t': Task) {
    && Counter(s'.metrics, Live) - Counter(s.metrics, Live) == Ind(IsLive(t')) - Ind(IsLive(t))
    && (forall o: Outcome :: o != Live ==>
          Counter(s'.metrics, o) - Counter(s.metrics, o) >= Ind(HasOutcome(t', o)) - Ind(HasOutcome(t, o)))
    && s'.metrics.retryWait - s.metrics.retryWait == Ind(InRetryWait(t')) - Ind(InRetryWait(t))
  }

  /** A sound edit; every conjunct looks at the edited task alone. */
  predicate GoodEdit(s: State, s': State, id: TaskId) {
    && Edit(s, s', id)
    && TaskOk(id, s'.tasks[id])
    && TokensEdited(s, s', s.tasks[id], s'.tasks[id])
    && PoppedEdited(s, s', id)
    && OwnersEdited(s, s', id)
    && MetricsEdited(s, s', s.tasks[id], s'.tasks[id])
  }

  /** What a script's own proof may use about the state before. */
  predicate Local(s: State) {
    && TasksOk(s) && OwnersOk(s) && TokensKnown(s) && PoppedOk(s)
    && (forall id <- s.tasks :: InRetryWait(s.tasks[id]) ==> s.metrics.retryWait > 0)
  }

  lemma PopEdits(s: State, w: Worker, m: Message)
    requires Local(s)
    ensures var s' := Pop(s, w, m).0; s' == s || GoodEdit(s, s', m.id)
  {
  }

  lemma FinishEdits(s: State, w: Worker, raw: Message, rec: Record, outcome: Outcome, dlq: Option<Message>,
                    token: Option<Token>, ttl: nat)
    requires Local(s) && Holds(s, Processing(w), raw) && RecordOf(s, raw.id) == Some(rec)
    requires if outcome == Failed then dlq.Some? && dlq.value == raw.(lastError := dlq.value.lastError)
             else outcome != Live && dlq.None?
    ensures GoodEdit(s, Finish(s, raw, rec, outcome, dlq, token, ttl), raw.id)
  {
    FinishOwnersEdited(s, raw, rec, outcome, dlq, token, ttl);
  }

  lemma FinishOwnersEdited(s: State, raw: Message, rec: Record, outcome: Outcome, dlq: Option<Message>,
                           token: Option<Token>, ttl: nat)
    requires OwnersOk(s) && TasksOk(s) && SlotOf(s, raw.id).Some? && SlotOf(s, raw.id).value.msg == raw
    requires RecordOf(s, raw.id) == Some(rec) && outcome != Live
    ensures OwnersEdited(s, Finish(s, raw, rec, outcome, dlq, token, ttl), raw.id)
  {
  }

  lemma BeginDeferredEdits(s: State, w: Worker, raw: Message, rec: Record, deferral: nat)
    requires Local(s) && Holds(s, Processing(w), raw) && RecordOf(s, raw.id) == Some(rec) && Popped(w, raw) in s.popped
    ensures GoodEdit(s, BeginDeferred(s, raw, rec, deferral).0, raw.id)
  {
  }

  lemma BeginStartedEdits(s: State, w: Worker, raw: Message, rec: Record, claim: Token, lease: Token, duration: nat)
    requires Local(s) && Holds(s, Processing(w), raw) && RecordOf(s, raw.id) == Some(rec)
    requires rec.attempt < rec.spec.maxAttempts
    requires claim !in s.tokens && lease !in s.tokens
    ensures GoodEdit(s, BeginStarted(s, w, raw, rec, claim, lease, duration).0, raw.id)
  {
  }

  lemma BeginEdits(s: State, w: Worker, raw: Message, claim: Token, lease: Token, time: Timing)
    requires Local(s) && claim !in s.tokens && lease !in s.tokens
    ensures var s' := Begin(s, w, raw, claim, lease, time).0; s' == s || GoodEdit(s, s', raw.id)
  {
    match Begin(s, w, raw, claim, lease, time).1
    case WasSkipped => FinishEdits(s, w, raw, RecordOf(s, raw.id).value, Skipped, None, Some(lease), time.ttl);
    case WasSuperseded => FinishEdits(s, w, raw, RecordOf(s, raw.id).value, Cancelled, None, Some(lease), time.ttl);
    case WasOverBudget => FinishEdits(s, w, raw, RecordOf(s, raw.id).value, Failed, Some(raw), Some(lease), time.ttl);
    case WasDeferred(_) => BeginDeferredEdits(s, w, raw, RecordOf(s, raw.id).value, time.deferral);
    case WasStarted(_) => BeginStartedEdits(s, w, raw, RecordOf(s, raw.id).value, claim, lease, time.lease);
    case _ =>
  }

  /** The writes behind each answer of the begin script. */
  predicate Beginning(s: State, w: Worker, raw: Message, claim: Token, lease: Token, time: Timing, r: (State, Reply)) {
    var rec := RecordOf(s, raw.id);
    match r.1
    case WasSkipped => rec.Some? && r.0 == Finish(s, raw, rec.value, Skipped, None, Some(lease), time.ttl)
    case WasSuperseded => rec.Some? && r.0 == Finish(s, raw, rec.value, Cancelled, None, Some(lease), time.ttl)
    case WasOverBudget => rec.Some? && r.0 == Finish(s, raw, rec.value, Failed, Some(raw), Some(lease), time.ttl)
    case WasDeferred(_) => rec.Some? && r == BeginDeferred(s, raw, rec.value, time.deferral)
    case WasStarted(_) => rec.Some? && r == BeginStarted(s, w, raw, rec.value, claim, lease, time.lease)
    case _ => r.0 == s
  }

  lemma BeginWrites(s: State, w: Worker, raw: Message, claim: Token, lease: Token, time: Timing)
    ensures Beginning(s, w, raw, claim, lease, time, Begin(s, w, raw, claim, lease, time))
  {
  }

  lemma CompleteEdits(s: State, w: Worker, raw: Message, ttl: nat)
    requires Local(s)
    ensures var s' := Complete(s, w, raw, ttl).0; s' == s || GoodEdit(s, s', raw.id)
  {
    var rec := RecordOf(s, raw.id);
    if rec.Some? && Holds(s, Processing(w), raw) {
      FinishEdits(s, w, raw, rec.value, Completed, None, raw.leaseToken, ttl);
    }
  }

  lemma RetryScheduledEdits(s: State, w: Worker, raw: Message, rec: Record, next: Message, runAt: Time)
    requires Local(s) && Holds(s, Processing(w), raw) && RecordOf(s, raw.id) == Some(rec) && rec.outcome == Live
    requires rec.spec.deadline.Some? ==> runAt < rec.spec.deadline.value
    requires next == raw.(availableAt := runAt, reason := OnRetry, lastError := next.lastError)
    ensures GoodEdit(s, RetryScheduled(s, raw, rec, next, runAt), raw.id)
  {
  }

  lemma RetryEdits(s: State, w: Worker, raw: Message, next: Message, runAt: Time, ttl: nat)
    requires Local(s)
    requires next == raw.(availableAt := runAt, reason := OnRetry, lastError := next.lastError)
    ensures var s' := RetryScript(s, w, raw, next, runAt, ttl).0; s' == s || GoodEdit(s, s', raw.id)
  {
    match RetryScript(s, w, raw, next, runAt, ttl).1
    case WasSkipped => FinishEdits(s, w, raw, RecordOf(s, raw.id).value, Skipped, None, raw.leaseToken, ttl);
    case WasRetried => RetryScheduledEdits(s, w, raw, RecordOf(s, raw.id).value, next, runAt);
    case _ =>
  }

  lemma FailEdits(s: State, w: Worker, raw: Message, permanent: bool, error: nat, runAt: Time, ttl: nat)
    requires Local(s)
    ensures var s' := Fail(s, w, raw, permanent, error, runAt, ttl).0; s' == s || GoodEdit(s, s', raw.id)
  {
    if permanent || raw.attempt >= raw.spec.maxAttempts {
      if RecordOf(s, raw.id).Some? && Holds(s, Processing(w), raw) {
        FinishEdits(s, w, raw, RecordOf(s, raw.id).value, Failed, Some(raw.(lastError := Some(error))), raw.leaseToken,
                    0);
      }
    } else {
      RetryEdits(s, w, raw, raw.(availableAt := runAt, reason := OnRetry, lastError := Some(error)), runAt, ttl);
    }
  }

  lemma ReturnEdits(s: State, w: Worker, raw: Message)
    requires Local(s)
    ensures var s' := ReturnUnstarted(s, w, raw).0; s' == s || GoodEdit(s, s', raw.id)
  {
  }

  lemma MoveProcessingEdits(s: State, w: Worker, raw: Message, checkHeartbeat: bool)
    requires Local(s)
    ensures var s' := AdminMoveProcessing(s, w, raw, checkHeartbeat).0; s' == s || GoodEdit(s, s', raw.id)
  {
  }

  lemma RecoverAbandonedEdits(s: State, w: Worker, raw: Message, spent: bool)
    requires Local(s)
    ensures var s' := RecoverAbandoned(s, w, raw, spent).0; s' == s || GoodEdit(s, s', raw.id)
  {
  }

  lemma MoveDelayEdits(s: State, raw: Message)
    requires Local(s)
    ensures var s' := AdminMoveDelay(s, raw).0; s' == s || GoodEdit(s, s', raw.id)
  {
  }

  lemma CancelEdits(s: State, raw: Message, delayed: bool, policy: IdentityPolicy, ttl: nat)
    requires Local(s) && SlotOf(s, raw.id).Some? && SlotOf(s, raw.id).value.msg == raw
    requires delayed <==> SlotOf(s, raw.id).value.place.Delay?
    ensures GoodEdit(s, CancelHeld(s, raw, delayed, policy, ttl).0, raw.id)
  {
    var s' := CancelHeld(s, raw, delayed, policy, ttl).0;
    CancelOwnersEdited(s, raw, delayed, policy, ttl);
    assert MetricsEdited(s, s', s.tasks[raw.id], s'.tasks[raw.id]);
  }

  lemma CancelOwnersEdited(s: State, raw: Message, delayed: bool, policy: IdentityPolicy, ttl: nat)
    requires TasksOk(s) && OwnersOk(s) && SlotOf(s, raw.id).Some? && SlotOf(s, raw.id).value.msg == raw
    ensures OwnersEdited(s, CancelHeld(s, raw, delayed, policy, ttl).0, raw.id)
  {
  }

  // ---------- What a sound edit keeps ----------

  lemma EditKeepsTables(s: State, s': State, id: TaskId)
    requires GoodEdit(s, s', id)
    ensures TasksOk(s) ==> TasksOk(s')
    ensures OwnersOk(s) ==> OwnersOk(s')
    ensures RegisterOk(s) ==> RegisterOk(s')
    ensures PlansOk(s) ==> PlansOk(s')
  {
  }

  lemma EditKeepsTokens(s: State, s': State, id: TaskId)
    requires GoodEdit(s, s', id) && TokensKnown(s) && LeaseTokensDistinct(s) && PoppedOk(s)
    ensures TokensKnown(s') && LeaseTokensDistinct(s') && PoppedOk(s')
  {
  }

  lemma EditKeepsBirths(s: State, s': State, id: TaskId)
    requires Edit(s, s', id) && BirthsOk(s)
    ensures BirthsOk(s')
  {
  }

  /** Changing one task moves it in or out of a counted set, and nothing else. */
  lemma OutcomePut(tasks: map<TaskId, Task>, id: TaskId, t': Task, o: Outcome)
    ensures |WithOutcome(tasks[id := t'], o)| ==
      |WithOutcome(tasks, o)| + Ind(HasOutcome(t', o)) - Ind(id in tasks && HasOutcome(tasks[id], o))
  {
    var all, rest := WithOutcome(tasks, o), WithOutcome(tasks, o) - {id};
    assert WithOutcome(tasks[id := t'], o) == if HasOutcome(t', o) then rest + {id} else rest;
    if id in all { assert all == rest + {id}; } else { assert all == rest; }
  }

  lemma RetryPut(tasks: map<TaskId, Task>, id: TaskId, t': Task)
    ensures |RetryWaiting(tasks[id := t'])| ==
      |RetryWaiting(tasks)| + Ind(InRetryWait(t')) - Ind(id in tasks && InRetryWait(tasks[id]))
  {
    var rest := RetryWaiting(tasks) - {id};
    assert RetryWaiting(tasks[id := t']) == if InRetryWait(t') then rest + {id} else rest;
  }

  lemma CountPut(tasks: map<TaskId, Task>, id: TaskId, t': Task)
    ensures forall o ::
      |WithOutcome(tasks[id := t'], o)|
        == |WithOutcome(tasks, o)| + Ind(HasOutcome(t', o)) - Ind(id in tasks && HasOutcome(tasks[id], o))
    ensures |RetryWaiting(tasks[id := t'])| ==
      |RetryWaiting(tasks)| + Ind(InRetryWait(t')) - Ind(id in tasks && InRetryWait(tasks[id]))
  {
    forall o { OutcomePut(tasks, id, t', o); }
    RetryPut(tasks, id, t');
  }

  lemma EditKeepsCounters(s: State, s': State, id: TaskId)
    requires GoodEdit(s, s', id) && CountersOk(s)
    ensures CountersOk(s')
  {
    CountPut(s.tasks, id, s'.tasks[id]);
  }

  lemma InvIsLocal(s: State)
    requires Inv(s)
    ensures Local(s)
  {
    forall id <- s.tasks | InRetryWait(s.tasks[id]) ensures s.metrics.retryWait > 0 {
      assert id in RetryWaiting(s.tasks);
    }
  }

  lemma EditKeepsInv(s: State, s': State, id: TaskId)
    requires Inv(s) && GoodEdit(s, s', id)
    ensures Inv(s')
  {
    EditKeepsTables(s, s', id);
    EditKeepsTokens(s, s', id);
    EditKeepsBirths(s, s', id);
    EditKeepsCounters(s, s', id);
  }

  // ---------- Lineage ----------

  lemma BornSnoc(births: seq<Birth>, b: Birth, id: TaskId)
    ensures Born(births + [b], id) <==> Born(births, id) || b.id == id
  {
    var all := births + [b];
    assert all[|births|] == b;
    if Born(births, id) {
      var i :| 0 <= i < |births| && births[i].id == id;
      assert all[i].id == id;
    }
  }

  lemma ForestSnoc(births: seq<Birth>, b: Birth)
    requires Forest(births) && !Born(births, b.id) && (b.parent.Some? ==> Born(births, b.parent.value))
    ensures Forest(births + [b])
  {
    var all := births + [b];
    forall i | 0 <= i < |all|
      ensures !Born(all[..i], all[i].id) && (all[i].parent.Some? ==> Born(all[..i], all[i].parent.value))
    {
      assert all[..i] == births[..i];
      if i == |births| { assert births[..i] == births; }
    }
  }

  lemma ForestPrefix(births: seq<Birth>)
    requires Forest(births) && births != []
    ensures Forest(births[..|births| - 1])
  {
    var front := births[..|births| - 1];
    forall i | 0 <= i < |front|
      ensures !Born(front[..i], front[i].id) && (front[i].parent.Some? ==> Born(front[..i], front[i].parent.value))
    {
      assert front[..i] == births[..i];
    }
  }

  lemma {:induction false} UnbornHasNoReplays(births: seq<Birth>, p: TaskId)
    requires Forest(births) && !Born(births, p)
    ensures ReplaysOf(births, p) == []
  {
    if births != [] {
      var last := |births| - 1;
      ForestPrefix(births);
      assert births == births[..last] + [births[last]];
      BornSnoc(births[..last], births[last], p);
      UnbornHasNoReplays(births[..last], p);
    }
  }

  lemma ReplaysSnoc(births: seq<Birth>, b: Birth, p: TaskId)
    ensures ReplaysOf(births + [b], p) == ReplaysOf(births, p) + (if b.parent == Some(p) then [b.id] else [])
  {
    assert (births + [b])[..|births|] == births;
  }

  // ---------- Admission of a new task ----------

  lemma AdmitKeepsTables(s: State, id: TaskId, spec: TaskSpec, parent: Option<TaskId>, availableAt: Time)
    requires id !in s.tasks
    ensures var s' := Admit(s, id, spec, parent, availableAt);
      && (TasksOk(s) ==> TasksOk(s'))
      && (OwnersOk(s) ==> OwnersOk(s'))
      && (PlansOk(s) ==> PlansOk(s'))
  {
  }

  lemma AdmitKeepsTokens(s: State, id: TaskId, spec: TaskSpec, parent: Option<TaskId>, availableAt: Time)
    requires id !in s.tasks
    ensures var s' := Admit(s, id, spec, parent, availableAt);
      && (TokensKnown(s) ==> TokensKnown(s'))
      && (LeaseTokensDistinct(s) ==> LeaseTokensDistinct(s'))
      && (PoppedOk(s) ==> PoppedOk(s'))
  {
  }

  lemma AdmitKeepsRegister(s: State, id: TaskId, spec: TaskSpec, parent: Option<TaskId>, availableAt: Time)
    requires id !in s.tasks && RegisterOk(s)
    ensures RegisterOk(Admit(s, id, spec, parent, availableAt))
  {
    var s' := Admit(s, id, spec, parent, availableAt);
    forall v <- s'.versions ensures v.key in s'.register && !Newer(v.version, s'.register[v.key]) {
      if v in s.versions {
        NewerIsStrictTotalOrder(v.version, s'.register[v.key], s.register[v.key]);
        NewerIsStrictTotalOrder(s'.register[v.key], s.register[v.key], v.version);
        NewerIsStrictTotalOrder(v.version, s.register[v.key], v.version);
      } else {
        NewerIsStrictTotalOrder(v.version, v.version, v.version);
      }
    }
  }

  lemma AdmitKeepsCounters(s: State, id: TaskId, spec: TaskSpec, parent: Option<TaskId>, availableAt: Time)
    requires id !in s.tasks && CountersOk(s)
    ensures CountersOk(Admit(s, id, spec, parent, availableAt))
  {
    var s' := Admit(s, id, spec, parent, availableAt);
    CountPut(s.tasks, id, s'.tasks[id]);
    forall o: Outcome ensures |WithOutcome(s'.tasks, o)| <= Counter(s'.metrics, o) {
      assert HasOutcome(s'.tasks[id], o) <==> o == Live;
    }
  }

  lemma NewBirthIds(births: seq<Birth>, tasks: map<TaskId, Task>, tasks': map<TaskId, Task>, b: Birth)
    requires IdsOk(births, tasks) && tasks'.Keys == tasks.Keys + {b.id}
    ensures IdsOk(births + [b], tasks')
  {
    forall x: TaskId ensures x in tasks' <==> Born(births + [b], x) { BornSnoc(births, b, x); }
  }

  /** A newborn joins the lineage: its parent lists it and no other list changes. */
  lemma NewBirthLineage(births: seq<Birth>, tasks: map<TaskId, Task>, tasks': map<TaskId, Task>, b: Birth)
    requires Forest(births) && LineageOk(births, tasks) && !Born(births, b.id)
    requires tasks'.Keys == tasks.Keys + {b.id} && b.id !in tasks
    requires tasks'[b.id].record.Some? ==>
      tasks'[b.id].record.value.replayedBy == [] && tasks'[b.id].record.value.replayOf == b.parent
    requires b.parent != Some(b.id)
    requires forall x <- tasks :: tasks'[x].record.Some? ==>
      && tasks[x].record.Some?
      && tasks'[x].record.value.replayOf == tasks[x].record.value.replayOf
      && tasks'[x].record.value.replayedBy
         == tasks[x].record.value.replayedBy + (if b.parent == Some(x) then [b.id] else [])
    ensures LineageOk(births + [b], tasks')
  {
    forall x <- tasks' | tasks'[x].record.Some?
      ensures tasks'[x].record.value.replayedBy == ReplaysOf(births + [b], x)
      ensures Birth(x, tasks'[x].record.value.replayOf) in births + [b]
    {
      ReplaysSnoc(births, b, x);
      if x == b.id { UnbornHasNoReplays(births, x); }
    }
  }

  lemma AdmitKeepsBirths(s: State, id: TaskId, spec: TaskSpec, availableAt: Time)
    requires id !in s.tasks && BirthsOk(s)
    ensures BirthsOk(Admit(s, id, spec, None, availableAt))
  {
    var s' := Admit(s, id, spec, None, availableAt);
    ForestSnoc(s.births, Birth(id, None));
    NewBirthIds(s.births, s.tasks, s'.tasks, Birth(id, None));
    NewBirthLineage(s.births, s.tasks, s'.tasks, Birth(id, None));
  }

  lemma EnqueueKeepsInv(s: State, id: TaskId, spec: TaskSpec, availableAt: Time, onDuplicate: DuplicateAction)
    requires Inv(s) && id !in s.tasks
    ensures Inv(Enqueue(s, id, spec, availableAt, onDuplicate).0)
  {
    AdmitKeepsTables(s, id, spec, None, availableAt);
    AdmitKeepsTokens(s, id, spec, None, availableAt);
    AdmitKeepsRegister(s, id, spec, None, availableAt);
    AdmitKeepsCounters(s, id, spec, None, availableAt);
    AdmitKeepsBirths(s, id, spec, availableAt);
  }

  // ---------- Replay ----------

  /** The premises under which the replay script commits. */
  predicate ReplayReady(s: State, plan: ReplayPlan, rec: Record, newId: TaskId) {
    && plan in s.plans && RecordOf(s, plan.source) == Some(rec) && Replayable(rec.outcome) && newId !in s.tasks
    && (plan.requireSource ==> plan.message.Some? && Holds(s, Dlq, plan.message.value))
  }

  lemma ReplayedSourceTables(s: State, plan: ReplayPlan, rec: Record, newId: TaskId, ttl: nat)
    requires TasksOk(s) && OwnersOk(s) && PlansOk(s) && RegisterOk(s) && ReplayReady(s, plan, rec, newId)
    ensures var s1 :=
      Put(s, plan.source, ReplayedSource(s.tasks[plan.source], rec, newId, plan.requireSource, s.now, ttl));
      TasksOk(s1) && OwnersOk(s1) && PlansOk(s1) && RegisterOk(s1)
  {
  }

  lemma ReplayedSourceTokens(s: State, plan: ReplayPlan, rec: Record, newId: TaskId, ttl: nat)
    requires TasksOk(s) && PlansOk(s) && TokensKnown(s) && LeaseTokensDistinct(s) && PoppedOk(s)
    requires ReplayReady(s, plan, rec, newId)
    ensures var s1 :=
      Put(s, plan.source, ReplayedSource(s.tasks[plan.source], rec, newId, plan.requireSource, s.now, ttl));
      TokensKnown(s1) && LeaseTokensDistinct(s1) && PoppedOk(s1)
  {
  }

  lemma ReplayedSourceCounters(s: State, plan: ReplayPlan, rec: Record, newId: TaskId, ttl: nat)
    requires TasksOk(s) && PlansOk(s) && CountersOk(s) && ReplayReady(s, plan, rec, newId)
    ensures CountersOk(Put(s, plan.source,
                           ReplayedSource(s.tasks[plan.source], rec, newId, plan.requireSource, s.now, ttl)))
  {
    CountPut(s.tasks, plan.source, ReplayedSource(s.tasks[plan.source], rec, newId, plan.requireSource, s.now, ttl));
  }

  /** A child of `b.parent` is born: its parent's record lists it, and no other record changes. */
  lemma BirthJoins(s: State, s': State, b: Birth, rec: Record)
    requires BirthsOk(s) && b.id !in s.tasks && b.parent.Some? && b.parent.value in s.tasks
    requires s.tasks[b.parent.value].record == Some(rec)
    requires s'.births == s.births + [b] && s'.tasks.Keys == s.tasks.Keys + {b.id}
    requires s'.tasks[b.id].record.Some?
      && s'.tasks[b.id].record.value.replayedBy == [] && s'.tasks[b.id].record.value.replayOf == b.parent
    requires s'.tasks[b.parent.value].record.Some?
      && s'.tasks[b.parent.value].record.value.replayOf == rec.replayOf
      && s'.tasks[b.parent.value].record.value.replayedBy == rec.replayedBy + [b.id]
    requires forall x <- s.tasks :: x != b.parent.value ==> s'.tasks[x] == s.tasks[x]
    ensures BirthsOk(s')
  {
    ForestSnoc(s.births, b);
    NewBirthIds(s.births, s.tasks, s'.tasks, b);
    NewBirthLineage(s.births, s.tasks, s'.tasks, b);
  }

  lemma ReplayKeepsBirths(s: State, plan: ReplayPlan, rec: Record, newId: TaskId, spec: TaskSpec, availableAt: Time,
                          ttl: nat)
    requires BirthsOk(s) && ReplayReady(s, plan, rec, newId)
    ensures var s1 :=
      Put(s, plan.source, ReplayedSource(s.tasks[plan.source], rec, newId, plan.requireSource, s.now, ttl));
      BirthsOk(Admit(s1, newId, spec, Some(plan.source), availableAt))
  {
    var s1 := Put(s, plan.source, ReplayedSource(s.tasks[plan.source], rec, newId, plan.requireSource, s.now, ttl));
    var s' := Admit(s1, newId, spec, Some(plan.source), availableAt);
    BirthJoins(s, s', Birth(newId, Some(plan.source)), rec);
  }

  lemma CommitReplayKeepsInv(s: State, plan: ReplayPlan, id: TaskId, spec: TaskSpec, availableAt: Time, ttl: nat)
    requires Inv(s) && id !in s.tasks
    ensures Inv(CommitReplay(s, plan, id, spec, availableAt, ttl).0)
  {
    if CommitReplay(s, plan, id, spec, availableAt, ttl).1.Accepted? {
      var rec := RecordOf(s, plan.source).value;
      var s1 := Put(s, plan.source, ReplayedSource(s.tasks[plan.source], rec, id, plan.requireSource, s.now, ttl));
      ReplayedSourceTables(s, plan, rec, id, ttl);
      ReplayedSourceTokens(s, plan, rec, id, ttl);
      ReplayedSourceCounters(s, plan, rec, id, ttl);
      ReplayKeepsBirths(s, plan, rec, id, spec, availableAt, ttl);
      AdmitKeepsTables(s1, id, spec, Some(plan.source), availableAt);
      AdmitKeepsTokens(s1, id, spec, Some(plan.source), availableAt);
      AdmitKeepsRegister(s1, id, spec, Some(plan.source), availableAt);
      AdmitKeepsCounters(s1, id, spec, Some(plan.source), availableAt);
    }
  }

  // ---------- Expiry and cleaning ----------

  lemma {:induction false} SubsetSize<T>(a: set<T>, b: set<T>)
    requires a <= b
    ensures |a| <= |b|
  {
    if a != {} {
      var x :| x in a;
      SubsetSize(a - {x}, b - {x});
    }
  }

  lemma TickKeepsTables(s: State, elapsed: nat)
    requires TasksOk(s)
    ensures var s' := Tick(s, elapsed).0;
      && TasksOk(s')
      && (OwnersOk(s) ==> OwnersOk(s'))
      && (RegisterOk(s) ==> RegisterOk(s'))
      && (BirthsOk(s) ==> BirthsOk(s'))
      && (PlansOk(s) ==> PlansOk(s'))
  {
  }

  lemma TickKeepsTokens(s: State, elapsed: nat)
    requires TasksOk(s) && TokensKnown(s) && PoppedOk(s)
    ensures var s' := Tick(s, elapsed).0; TokensKnown(s') && PoppedOk(s')
  {
  }

  lemma TickKeepsLeaseTokens(s: State, elapsed: nat)
    requires LeaseTokensDistinct(s)
    ensures LeaseTokensDistinct(Tick(s, elapsed).0)
  {
  }

  lemma TickKeepsCounters(s: State, elapsed: nat)
    requires TasksOk(s) && CountersOk(s)
    ensures CountersOk(Tick(s, elapsed).0)
  {
    var s' := Tick(s, elapsed).0;
    assert WithOutcome(s'.tasks, Live) == WithOutcome(s.tasks, Live);
    assert RetryWaiting(s'.tasks) == RetryWaiting(s.tasks);
    forall o: Outcome ensures |WithOutcome(s'.tasks, o)| <= Counter(s'.metrics, o) {
      SubsetSize(WithOutcome(s'.tasks, o), WithOutcome(s.tasks, o));
    }
  }

  lemma TickKeepsInv(s: State, elapsed: nat)
    requires Inv(s)
    ensures Inv(Tick(s, elapsed).0)
  {
    TickKeepsTables(s, elapsed);
    TickKeepsTokens(s, elapsed);
    TickKeepsLeaseTokens(s, elapsed);
    TickKeepsCounters(s, elapsed);
  }

  lemma SweepKeepsTables(s: State, id: TaskId)
    requires id in s.tasks && s.tasks[id].slot.None? && TasksOk(s)
    ensures var s' := Put(s, id, s.tasks[id].(record := None));
      && TasksOk(s')
      && (OwnersOk(s) ==> OwnersOk(s'))
      && (RegisterOk(s) ==> RegisterOk(s'))
      && (PlansOk(s) ==> PlansOk(s'))
  {
    assert TaskOk(id, s.tasks[id]);
  }

  lemma SweepKeepsTokens(s: State, id: TaskId)
    requires id in s.tasks && s.tasks[id].slot.None?
    ensures var s' := Put(s, id, s.tasks[id].(record := None));
      && (TokensKnown(s) ==> TokensKnown(s'))
      && (LeaseTokensDistinct(s) ==> LeaseTokensDistinct(s'))
      && (PoppedOk(s) ==> PoppedOk(s'))
  {
  }

  lemma SweepKeepsBirths(s: State, id: TaskId)
    requires id in s.tasks && BirthsOk(s)
    ensures BirthsOk(Put(s, id, s.tasks[id].(record := None)))
  {
  }

  lemma SweepKeepsCounters(s: State, id: TaskId)
    requires id in s.tasks && s.tasks[id].slot.None? && TasksOk(s) && CountersOk(s)
    ensures CountersOk(Put(s, id, s.tasks[id].(record := None)))
  {
    CountPut(s.tasks, id, s.tasks[id].(record := None));
  }

  lemma CommitSweepKeepsInv(s: State, id: TaskId)
    requires Inv(s)
    ensures Inv(CommitSweep(s, id).0)
  {
    if id in s.sweeps && id in s.tasks {
      SweepKeepsTables(s, id);
      SweepKeepsTokens(s, id);
      SweepKeepsBirths(s, id);
      SweepKeepsCounters(s, id);
    }
  }

  lemma ForgetKeepsInv(s: State, id: TaskId, key: Key)
    requires Inv(s)
    ensures Inv(Forget(s, id, key).0)
  {
    var s' := Forget(s, id, key).0;
    assert s' == s.(owners := s'.owners) && forall k <- s'.owners :: k in s.owners && s'.owners[k] == s.owners[k];
    FewerOwnersKeepInv(s, s');
  }

  lemma FewerOwnersKeepOwners(s: State, s': State)
    requires OwnersOk(s) && s' == s.(owners := s'.owners)
    requires forall k <- s'.owners :: k in s.owners && s'.owners[k] == s.owners[k]
    ensures OwnersOk(s')
  {
  }

  lemma FewerOwnersKeepTables(s: State, s': State)
    requires s' == s.(owners := s'.owners)
    ensures TasksOk(s) ==> TasksOk(s')
    ensures RegisterOk(s) ==> RegisterOk(s')
    ensures BirthsOk(s) ==> BirthsOk(s')
    ensures PlansOk(s) ==> PlansOk(s')
    ensures CountersOk(s) ==> CountersOk(s')
  {
  }

  lemma FewerOwnersKeepTokens(s: State, s': State)
    requires s' == s.(owners := s'.owners)
    ensures TokensKnown(s) ==> TokensKnown(s')
    ensures LeaseTokensDistinct(s) ==> LeaseTokensDistinct(s')
    ensures PoppedOk(s) ==> PoppedOk(s')
  {
  }

  lemma FewerOwnersKeepInv(s: State, s': State)
    requires Inv(s) && s' == s.(owners := s'.owners)
    requires forall k <- s'.owners :: k in s.owners && s'.owners[k] == s.owners[k]
    ensures Inv(s')
  {
    FewerOwnersKeepOwners(s, s');
    FewerOwnersKeepTables(s, s');
    FewerOwnersKeepTokens(s, s');
  }

  /** Only leases, heartbeats and the clients' own notes differ. */
  predicate Calm(s: State, s': State) {
    && s' == s.(leases := s'.leases, heartbeats := s'.heartbeats, plans := s'.plans, sweeps := s'.sweeps)
    && (forall k <- s'.leases :: s'.leases[k].token in s.tokens)
    && PlansOk(s')
  }

  lemma CalmKeepsInv(s: State, s': State)
    requires Inv(s) && Calm(s, s')
    ensures Inv(s')
  {
    CalmKeepsTables(s, s');
    CalmKeepsTokens(s, s');
  }

  lemma CalmKeepsTables(s: State, s': State)
    requires Calm(s, s')
    ensures TasksOk(s) ==> TasksOk(s')
    ensures OwnersOk(s) ==> OwnersOk(s')
    ensures RegisterOk(s) ==> RegisterOk(s')
    ensures BirthsOk(s) ==> BirthsOk(s')
    ensures CountersOk(s) ==> CountersOk(s')
  {
    assert s'.tasks == s.tasks;
  }

  lemma CalmKeepsTokens(s: State, s': State)
    requires Calm(s, s')
    ensures TokensKnown(s) ==> TokensKnown(s')
    ensures LeaseTokensDistinct(s) ==> LeaseTokensDistinct(s')
    ensures PoppedOk(s) ==> PoppedOk(s')
  {
    assert s'.tasks == s.tasks;
  }

  lemma LeaseStepsAreCalm(s: State, a: Action)
    requires TokensKnown(s) && PlansOk(s)
    requires a.ARenew? || a.ARelease? || a.AHeartbeat? || a.ADropHeartbeat?
    ensures Calm(s, Step(s, a).0)
  {
  }

  lemma ReplayPlanIsCalm(s: State, source: TaskId, requireDlq: bool)
    requires TasksOk(s) && TokensKnown(s) && PlansOk(s)
    ensures Calm(s, PlanReplay(s, source, requireDlq).0)
  {
    if source in s.tasks { assert TaskOk(source, s.tasks[source]); }
  }

  lemma SweepPlanIsCalm(s: State, id: TaskId)
    requires TasksOk(s) && TokensKnown(s) && PlansOk(s)
    ensures Calm(s, PlanSweep(s, id).0)
  {
    if id in s.tasks { assert TaskOk(id, s.tasks[id]); }
  }

  // ---------- All steps, all runs ----------

  /** The id whose message a script edits. */
  function Subject(a: Action): Option<TaskId> {
    match a
    case APop(_, raw) => Some(raw.id)
    case ABegin(_, raw, _, _, _) => Some(raw.id)
    case AComplete(_, raw, _) => Some(raw.id)
    case AFail(_, raw, _, _, _, _) => Some(raw.id)
    case AReturn(_, raw) => Some(raw.id)
    case ARecoverStale(_, raw) => Some(raw.id)
    case ARecoverAbandoned(_, raw, _) => Some(raw.id)
    case AMoveDue(raw) => Some(raw.id)
    case AMoveProcessing(_, raw, _) => Some(raw.id)
    case AMoveDelay(raw) => Some(raw.id)
    case ACancelListed(_, raw, _, _, _) => Some(raw.id)
    case ACancelDelayed(raw, _, _) => Some(raw.id)
    case _ => None
  }

  /** Every script on a message does nothing or is a sound edit of that message's task. */
  lemma ScriptsEdit(s: State, a: Action)
    requires Local(s) && Fresh(s, a) && Subject(a).Some?
    ensures var s' := Step(s, a).0; s' == s || GoodEdit(s, s', Subject(a).value)
  {
    match a
    case APop(w, raw) => PopEdits(s, w, raw);
    case ABegin(w, raw, claim, lease, time) => BeginEdits(s, w, raw, claim, lease, time);
    case AComplete(w, raw, ttl) => CompleteEdits(s, w, raw, ttl);
    case AFail(w, raw, permanent, error, runAt, ttl) => FailEdits(s, w, raw, permanent, error, runAt, ttl);
    case AReturn(w, raw) => ReturnEdits(s, w, raw);
    case ARecoverStale(w, raw) => MoveProcessingEdits(s, w, raw, true);
    case ARecoverAbandoned(w, raw, spent) => RecoverAbandonedEdits(s, w, raw, spent);
    case AMoveDue(raw) => MoveDelayEdits(s, raw);
    case AMoveProcessing(w, raw, checkHeartbeat) => MoveProcessingEdits(s, w, raw, checkHeartbeat);
    case AMoveDelay(raw) => MoveDelayEdits(s, raw);
    case ACancelListed(place, raw, policy, force, ttl) =>
      if Holds(s, place, raw) && !place.Delay? { CancelEdits(s, raw, false, policy, ttl); }
    case ACancelDelayed(raw, policy, ttl) =>
      if IsDelayed(s, raw) { CancelEdits(s, raw, true, policy, ttl); }
  }

  lemma ScriptKeepsInv(s: State, a: Action)
    requires Inv(s) && Fresh(s, a) && Subject(a).Some?
    ensures Inv(Step(s, a).0)
  {
    InvIsLocal(s);
    ScriptsEdit(s, a);
    if Step(s, a).0 != s { EditKeepsInv(s, Step(s, a).0, Subject(a).value); }
  }

  predicate IsCalm(a: Action) {
    a.APlanReplay? || a.APlanSweep? || a.ARenew? || a.ARelease? || a.AHeartbeat? || a.ADropHeartbeat?
  }

  lemma CalmStepKeepsInv(s: State, a: Action)
    requires Inv(s) && IsCalm(a)
    ensures Inv(Step(s, a).0)
  {
    if a.APlanReplay? { ReplayPlanIsCalm(s, a.source, a.requireDlq); }
    else if a.APlanSweep? { SweepPlanIsCalm(s, a.id); }
    else { LeaseStepsAreCalm(s, a); }
    CalmKeepsInv(s, Step(s, a).0);
  }

  /** The invariant is inductive over every action of every client. */
  lemma StepKeepsInv(s: State, a: Action)
    requires Inv(s) && Fresh(s, a)
    ensures Inv(Step(s, a).0)
  {
    if Subject(a).Some? {
      ScriptKeepsInv(s, a);
    } else {
      match a
      case AEnqueue(id, spec, availableAt, onDuplicate) => EnqueueKeepsInv(s, id, spec, availableAt, onDuplicate);
      case ACommitReplay(plan, id, spec, availableAt, ttl) => CommitReplayKeepsInv(s, plan, id, spec, availableAt, ttl);
      case ACommitSweep(id) => CommitSweepKeepsInv(s, id);
      case AForget(id, key) => ForgetKeepsInv(s, id, key);
      case ATick(elapsed) => TickKeepsInv(s, elapsed);
      case _ => CalmStepKeepsInv(s, a);
    }
  }

  lemma {:induction false} RunKeepsInv(s: State, run: seq<Action>)
    requires Inv(s) && FreshRun(s, run)
    ensures Inv(Run(s, run))
    decreases |run|
  {
    if run != [] {
      StepKeepsInv(s, run[0]);
      RunKeepsInv(Step(s, run[0]).0, run[1..]);
    }
  }
}
