/**
 What each script answers, and what it leaves behind, on every state a run can reach: exactly when a
 task is started, skipped, superseded, over budget or deferred, and exactly when a settlement, a return,
 a recovery, a move or a purge takes effect.  All of it is stated over what a client can observe: where
 the message is, what its producer asked for, the clock, the register, the leases and the heartbeats.
 */
module ScriptAnswers {
  import opened Prelude
  import opened VersionOrder
  import opened TaskModel
  import opened TaskInvariants
  import TaskTheorems

  // ---------- What a held message tells ----------

  /** The message of a task in a worker's list belongs to a live record that asks for the same. */
  lemma HeldIsLive(s: State, w: Worker, raw: Message) returns (rec: Record)
    requires TasksOk(s) && Holds(s, Processing(w), raw)
    ensures RecordOf(s, raw.id) == Some(rec) && rec.outcome == Live && rec.spec == raw.spec
    ensures 0 <= rec.attempt <= raw.spec.maxAttempts && rec.expireAt.None?
    ensures rec.location == AtProcessing ==>
      rec.attempt == raw.attempt >= 1 && raw.claimToken.Some? && rec.claimToken == raw.claimToken
    ensures rec.location == AtProcessing || rec.location == AtReady
  {
    assert TaskOk(raw.id, s.tasks[raw.id]);
    rec := RecordOf(s, raw.id).value;
  }

  /** The task is over: this outcome, at this time, kept for so long, and no message. */
  predicate IsOver(s: State, id: TaskId, outcome: Outcome, finishedAt: Time, expireAt: Time) {
    && RecordOf(s, id).Some? && RecordOf(s, id).value.outcome == outcome
    && RecordOf(s, id).value.finishedAt == Some(finishedAt) && RecordOf(s, id).value.expireAt == Some(expireAt)
    && SlotOf(s, id).None?
  }

  /** The task has failed and its message waits for operators. */
  predicate IsDead(s: State, id: TaskId, finishedAt: Time, dead: Message) {
    && RecordOf(s, id).Some? && RecordOf(s, id).value.outcome == Failed
    && RecordOf(s, id).value.finishedAt == Some(finishedAt) && RecordOf(s, id).value.expireAt.None?
    && SlotOf(s, id) == Some(Slot(Dlq, dead))
  }

  /** The task lives, with this message in this place, after so many attempts. */
  predicate IsAt(s: State, id: TaskId, place: Place, m: Message, attempt: int) {
    && RecordOf(s, id).Some? && RecordOf(s, id).value.outcome == Live && RecordOf(s, id).value.attempt == attempt
    && SlotOf(s, id) == Some(Slot(place, m))
  }

  // ---------- Begin ----------

  predicate InTime(spec: TaskSpec, now: Time) { spec.deadline.Some? ==> now <= spec.deadline.value }

  /** No version, or the one the register holds. */
  predicate IsCurrent(spec: TaskSpec, register: map<Key, Version>) {
    spec.supersede.Some? ==>
      spec.supersede.value.key in register && register[spec.supersede.value.key] == spec.supersede.value.version
  }

  predicate IsUnleased(spec: TaskSpec, leases: map<Key, Lease>) {
    spec.concurrencyKey.Some? ==> spec.concurrencyKey.value !in leases
  }

  /** A message its worker has popped and not yet begun. */
  predicate Awaits(s: State, w: Worker, raw: Message) {
    Popped(w, raw) in s.popped && Holds(s, Processing(w), raw)
  }

  function AttemptsOf(s: State, id: TaskId): int {
    if RecordOf(s, id).Some? then RecordOf(s, id).value.attempt else 0
  }

  lemma VersionIsRegistered(s: State, w: Worker, raw: Message)
    requires TasksOk(s) && RegisterOk(s) && Holds(s, Processing(w), raw) && raw.spec.supersede.Some?
    ensures raw.spec.supersede.value.key in s.register
  {
    var rec := HeldIsLive(s, w, raw);
    assert rec.spec.supersede.value in s.versions;
  }

  /**
   The verdict of the begin script.  A popped message still in its worker's list is started exactly if
   its deadline has not passed, it has no version or the current one, an attempt is left and its
   concurrency key is free; of these four the first that fails decides what happens instead.
   */
  lemma BeginVerdict(s: State, w: Worker, raw: Message, claim: Token, lease: Token, time: Timing)
    requires Inv(s) && Awaits(s, w, raw)
    ensures var reply := Begin(s, w, raw, claim, lease, time).1;
      var inTime, current := InTime(raw.spec, s.now), IsCurrent(raw.spec, s.register);
      var left, free := AttemptsOf(s, raw.id) < raw.spec.maxAttempts, IsUnleased(raw.spec, s.leases);
      && (reply.WasSkipped? <==> !inTime)
      && (reply.WasSuperseded? <==> inTime && !current)
      && (reply.WasOverBudget? <==> inTime && current && !left)
      && (reply.WasDeferred? <==> inTime && current && left && !free)
      && (reply.WasStarted? <==> inTime && current && left && free)
  {
    var rec := HeldIsLive(s, w, raw);
    if raw.spec.supersede.Some? { VersionIsRegistered(s, w, raw); }
  }

  /** A message that is no longer there is left alone, whatever its task has come to. */
  lemma BeginNeedsMessage(s: State, w: Worker, raw: Message, claim: Token, lease: Token, time: Timing)
    requires !Awaits(s, w, raw)
    ensures Begin(s, w, raw, claim, lease, time).0 == s
    ensures Begin(s, w, raw, claim, lease, time).1 in {Refused, MissingTask, NotFound}
         || Begin(s, w, raw, claim, lease, time).1.AlreadyTerminal?
  {
  }

  lemma FinishEnds(s: State, raw: Message, rec: Record, outcome: Outcome, token: Option<Token>, ttl: nat)
    ensures IsOver(Finish(s, raw, rec, outcome, None, token, ttl), raw.id, outcome, s.now, s.now + ttl)
  {
  }

  lemma FinishBuries(s: State, raw: Message, rec: Record, dead: Message, token: Option<Token>, ttl: nat)
    requires rec.expireAt.None?
    ensures IsDead(Finish(s, raw, rec, Failed, Some(dead), token, ttl), raw.id, s.now, dead)
  {
  }

  lemma DeferredWaits(s: State, raw: Message, rec: Record, deferral: nat)
    requires raw.id in s.tasks && rec.outcome == Live
    ensures var (s', reply) := BeginDeferred(s, raw, rec, deferral);
      && reply == WasDeferred(raw.(availableAt := s.now + deferral, reason := OnConcurrency, leaseToken := None))
      && IsAt(s', raw.id, Delay(s.now + deferral), reply.msg, rec.attempt) && s'.leases == s.leases
  {
  }

  /** What a worker has in hand when it starts, and the lease it has taken. */
  predicate IsStarted(s: State, s': State, w: Worker, raw: Message, m: Message, attempt: int, claim: Token,
                      lease: Token, duration: nat) {
    && IsAt(s', raw.id, Processing(w), m, attempt) && m.attempt == attempt && m.claimToken == Some(claim)
    && m.id == raw.id && m.spec == raw.spec
    && (if raw.spec.concurrencyKey.Some?
        then m.leaseToken == Some(lease)
             && s'.leases == s.leases[raw.spec.concurrencyKey.value := Lease(lease, s.now + duration)]
        else m.leaseToken.None? && s'.leases == s.leases)
  }

  lemma StartedRuns(s: State, w: Worker, raw: Message, rec: Record, claim: Token, lease: Token, duration: nat)
    requires rec.outcome == Live
    ensures var (s', reply) := BeginStarted(s, w, raw, rec, claim, lease, duration);
      reply.WasStarted? && IsStarted(s, s', w, raw, reply.msg, rec.attempt + 1, claim, lease, duration)
  {
  }

  /** What an answer of the begin script means for the task. */
  predicate BeginMeans(s: State, w: Worker, raw: Message, claim: Token, lease: Token, time: Timing, r: (State, Reply)) {
    match r.1
    case WasSkipped => IsOver(r.0, raw.id, Skipped, s.now, s.now + time.ttl)
    case WasSuperseded => IsOver(r.0, raw.id, Cancelled, s.now, s.now + time.ttl)
    case WasOverBudget => IsDead(r.0, raw.id, s.now, raw)
    case WasDeferred(m) =>
      && m == raw.(availableAt := s.now + time.deferral, reason := OnConcurrency, leaseToken := None)
      && IsAt(r.0, raw.id, Delay(s.now + time.deferral), m, AttemptsOf(s, raw.id)) && r.0.leases == s.leases
    case WasStarted(m) => IsStarted(s, r.0, w, raw, m, AttemptsOf(s, raw.id) + 1, claim, lease, time.lease)
    case _ => false
  }

  predicate Acts(reply: Reply) {
    reply.WasSkipped? || reply.WasSuperseded? || reply.WasOverBudget? || reply.WasDeferred? || reply.WasStarted?
  }

  lemma WritesMean(s: State, w: Worker, raw: Message, claim: Token, lease: Token, time: Timing, r: (State, Reply),
                   rec: Record)
    requires Beginning(s, w, raw, claim, lease, time, r) && Acts(r.1)
    requires raw.id in s.tasks && RecordOf(s, raw.id) == Some(rec) && rec.outcome == Live && rec.expireAt.None?
    ensures BeginMeans(s, w, raw, claim, lease, time, r)
  {
    match r.1
    case WasSkipped => FinishEnds(s, raw, rec, Skipped, Some(lease), time.ttl);
    case WasSuperseded => FinishEnds(s, raw, rec, Cancelled, Some(lease), time.ttl);
    case WasOverBudget => FinishBuries(s, raw, rec, raw, Some(lease), time.ttl);
    case WasDeferred(_) => DeferredWaits(s, raw, rec, time.deferral);
    case WasStarted(_) => StartedRuns(s, w, raw, rec, claim, lease, time.lease);
  }

  /** What the verdict means for the task. */
  lemma BeginEffect(s: State, w: Worker, raw: Message, claim: Token, lease: Token, time: Timing)
    requires Inv(s) && Awaits(s, w, raw)
    ensures BeginMeans(s, w, raw, claim, lease, time, Begin(s, w, raw, claim, lease, time))
  {
    BeginVerdict(s, w, raw, claim, lease, time);
    BeginWrites(s, w, raw, claim, lease, time);
    var rec := HeldIsLive(s, w, raw);
    WritesMean(s, w, raw, claim, lease, time, Begin(s, w, raw, claim, lease, time), rec);
  }

  /** A task whose start deadline has passed is never started again, over any run and by any worker. */
  lemma NeverStartedLate(s: State, run: seq<Action>, w: Worker, raw: Message, claim: Token, lease: Token, time: Timing)
    requires Inv(s) && FreshRun(s, run)
    requires RecordOf(s, raw.id).Some? && !InTime(RecordOf(s, raw.id).value.spec, s.now)
    ensures !Begin(Run(s, run), w, raw, claim, lease, time).1.WasStarted?
  {
    var s' := Run(s, run);
    RunKeepsInv(s, run);
    TaskTheorems.RunPersists(s, run, raw.id);
    TaskTheorems.TimeNeverRunsBack(s, run);
    if Awaits(s', w, raw) {
      var rec := HeldIsLive(s', w, raw);
      BeginVerdict(s', w, raw, claim, lease, time);
    } else {
      BeginNeedsMessage(s', w, raw, claim, lease, time);
    }
  }

  // ---------- Settling ----------

  /** A completion takes effect exactly if the message is in the worker's list, and ends the task. */
  lemma CompleteVerdict(s: State, w: Worker, raw: Message, ttl: nat)
    requires Inv(s)
    ensures var (s', reply) := Complete(s, w, raw, ttl);
      && (reply == WasCompleted <==> Holds(s, Processing(w), raw))
      && (if reply == WasCompleted then IsOver(s', raw.id, Completed, s.now, s.now + ttl) else s' == s)
  {
    if Holds(s, Processing(w), raw) {
      var rec := HeldIsLive(s, w, raw);
      FinishEnds(s, raw, rec, Completed, raw.leaseToken, ttl);
    }
  }

  /**
   A failure is final if the handler says so or the envelope has no attempt left, and keeps the message
   with its error for operators.
   */
  lemma FinalFailure(s: State, w: Worker, raw: Message, permanent: bool, error: nat, runAt: Time, ttl: nat)
    requires Inv(s) && Holds(s, Processing(w), raw) && (permanent || raw.attempt >= raw.spec.maxAttempts)
    ensures Fail(s, w, raw, permanent, error, runAt, ttl).1 == WasFailed
    ensures IsDead(Fail(s, w, raw, permanent, error, runAt, ttl).0, raw.id, s.now, raw.(lastError := Some(error)))
  {
    var rec := HeldIsLive(s, w, raw);
    FinishBuries(s, raw, rec, raw.(lastError := Some(error)), raw.leaseToken, 0);
  }

  lemma RetryWaits(s: State, raw: Message, rec: Record, next: Message, runAt: Time)
    requires raw.id in s.tasks && rec.outcome == Live
    ensures IsAt(RetryScheduled(s, raw, rec, next, runAt), raw.id, Delay(runAt), next, rec.attempt)
  {
  }

  /**
   After any other failure the task waits for the time it was given, with its error, unless it would
   miss its start deadline: then it is skipped.
   */
  lemma OtherFailure(s: State, w: Worker, raw: Message, error: nat, runAt: Time, ttl: nat)
    requires Inv(s) && Holds(s, Processing(w), raw) && raw.attempt < raw.spec.maxAttempts
    ensures var (s', reply) := Fail(s, w, raw, false, error, runAt, ttl);
      if raw.spec.deadline.Some? && runAt >= raw.spec.deadline.value
      then reply == WasSkipped && IsOver(s', raw.id, Skipped, s.now, s.now + ttl)
      else reply == WasRetried
           && IsAt(s', raw.id, Delay(runAt),
                   raw.(availableAt := runAt, reason := OnRetry, lastError := Some(error)), AttemptsOf(s, raw.id))
  {
    var rec := HeldIsLive(s, w, raw);
    var next := raw.(availableAt := runAt, reason := OnRetry, lastError := Some(error));
    FinishEnds(s, raw, rec, Skipped, raw.leaseToken, ttl);
    RetryWaits(s, raw, rec, next, runAt);
  }

  lemma FailNeedsMessage(s: State, w: Worker, raw: Message, permanent: bool, error: nat, runAt: Time, ttl: nat)
    requires !Holds(s, Processing(w), raw)
    ensures Fail(s, w, raw, permanent, error, runAt, ttl).0 == s
  {
  }

  /** The message of an attempt that has begun is in the worker's list. */
  predicate IsRunning(s: State, w: Worker, raw: Message) {
    Holds(s, Processing(w), raw) && RecordOf(s, raw.id).Some? && RecordOf(s, raw.id).value.location == AtProcessing
  }

  /** A claim is taken back exactly if its attempt has begun; the attempt is given back with it. */
  lemma ReturnVerdict(s: State, w: Worker, raw: Message)
    requires Inv(s)
    ensures var (s', reply) := ReturnUnstarted(s, w, raw);
      && (reply == WasReturned <==> IsRunning(s, w, raw))
      && (if reply == WasReturned then IsAt(s', raw.id, Ready, raw, AttemptsOf(s, raw.id) - 1) else s' == s)
  {
    if Holds(s, Processing(w), raw) {
      var rec := HeldIsLive(s, w, raw);
      if rec.location == AtProcessing { ReturnTakes(s, w, raw, rec); }
    }
  }

  lemma ReturnTakes(s: State, w: Worker, raw: Message, rec: Record)
    requires Holds(s, Processing(w), raw) && RecordOf(s, raw.id) == Some(rec)
    requires rec.outcome == Live && rec.location == AtProcessing && rec.attempt == raw.attempt
    ensures ReturnUnstarted(s, w, raw).1 == WasReturned
    ensures IsAt(ReturnUnstarted(s, w, raw).0, raw.id, Ready, raw, rec.attempt - 1)
  {
  }

  // ---------- Moving ----------

  /** A pop takes exactly a message of the ready list, and gives it to the worker. */
  lemma PopVerdict(s: State, w: Worker, m: Message)
    requires Inv(s)
    ensures var (s', reply) := Pop(s, w, m);
      && (reply == WasMoved <==> Holds(s, Ready, m))
      && (if reply == WasMoved then IsAt(s', m.id, Processing(w), m, AttemptsOf(s, m.id)) && Awaits(s', w, m)
          else s' == s)
  {
    if Holds(s, Ready, m) { assert TaskOk(m.id, s.tasks[m.id]); }
  }

  /** Recovery takes a message back exactly if its worker has no heartbeat; no attempt is given back. */
  lemma RecoverVerdict(s: State, w: Worker, m: Message)
    requires Inv(s)
    ensures var (s', reply) := RecoverStale(s, w, m);
      && (reply == WasMoved <==> w !in s.heartbeats && Holds(s, Processing(w), m))
      && (if reply == WasMoved then IsAt(s', m.id, Ready, m, AttemptsOf(s, m.id)) else s' == s)
  {
    if Holds(s, Processing(w), m) { var rec := HeldIsLive(s, w, m); }
  }

  /** The operator's move does the same, and is not stopped by a heartbeat it was told not to look at. */
  lemma MoveProcessingVerdict(s: State, w: Worker, m: Message, check: bool)
    requires Inv(s)
    ensures var (s', reply) := AdminMoveProcessing(s, w, m, check);
      && (reply == WasMoved <==> !(check && w in s.heartbeats) && Holds(s, Processing(w), m))
      && (if reply == WasMoved then IsAt(s', m.id, Ready, m, AttemptsOf(s, m.id)) else s' == s)
  {
    if Holds(s, Processing(w), m) { var rec := HeldIsLive(s, w, m); }
  }

  /** A worker's own recovery gives an attempt back exactly if it has begun and no handler used it up. */
  lemma AbandonedVerdict(s: State, w: Worker, raw: Message, spent: bool)
    requires Inv(s)
    ensures var (s', reply) := RecoverAbandoned(s, w, raw, spent);
      && (reply == WasMoved <==> Holds(s, Processing(w), raw))
      && (if reply == WasMoved
          then IsAt(s', raw.id, Ready, raw,
                    if IsRunning(s, w, raw) && !spent then AttemptsOf(s, raw.id) - 1 else AttemptsOf(s, raw.id))
          else s' == s)
  {
    if Holds(s, Processing(w), raw) { var rec := HeldIsLive(s, w, raw); }
  }

  lemma DelayedIsLive(s: State, m: Message) returns (rec: Record)
    requires TasksOk(s) && IsDelayed(s, m)
    ensures RecordOf(s, m.id) == Some(rec) && rec.outcome == Live
  {
    assert TaskOk(m.id, s.tasks[m.id]);
    rec := RecordOf(s, m.id).value;
  }

  /** A delayed message becomes ready exactly from its score on, unless an operator moves it before. */
  lemma DueVerdict(s: State, m: Message)
    requires Inv(s)
    ensures var (s', reply) := MoveDue(s, m);
      && (reply == WasMoved <==> IsDelayed(s, m) && SlotOf(s, m.id).value.place.score <= s.now)
      && (if reply == WasMoved then IsAt(s', m.id, Ready, m, AttemptsOf(s, m.id)) else s' == s)
    ensures var (s', reply) := AdminMoveDelay(s, m);
      && (reply == WasMoved <==> IsDelayed(s, m))
      && (if reply == WasMoved then IsAt(s', m.id, Ready, m, AttemptsOf(s, m.id)) else s' == s)
  {
    if IsDelayed(s, m) { var rec := DelayedIsLive(s, m); }
  }

  // ---------- Purging ----------

  /** A purged task is over: cancelled if it was alive, with its own outcome if it had failed. */
  predicate IsPurged(s: State, s': State, id: TaskId, ttl: nat) {
    && RecordOf(s, id).Some? && RecordOf(s', id).Some? && SlotOf(s', id).None?
    && RecordOf(s', id).value.expireAt == Some(s.now + ttl)
    && (if RecordOf(s, id).value.outcome == Live then IsOver(s', id, Cancelled, s.now, s.now + ttl)
        else RecordOf(s', id).value.outcome == Failed
             && RecordOf(s', id).value.finishedAt == RecordOf(s, id).value.finishedAt)
  }

  lemma CancelHeldPurges(s: State, raw: Message, delayed: bool, policy: IdentityPolicy, ttl: nat)
    requires TasksOk(s) && SlotOf(s, raw.id).Some? && SlotOf(s, raw.id).value.msg == raw
    ensures IsPurged(s, CancelHeld(s, raw, delayed, policy, ttl).0, raw.id, ttl)
    ensures CancelHeld(s, raw, delayed, policy, ttl).1.WasRemoved?
  {
    assert TaskOk(raw.id, s.tasks[raw.id]);
  }

  /** A purge takes the message it was given from a list, or refuses where a worker may be at it. */
  lemma PurgeListVerdict(s: State, place: Place, raw: Message, policy: IdentityPolicy, force: bool, ttl: nat)
    requires Inv(s)
    ensures var (s', reply) := CancelListed(s, place, raw, policy, force, ttl);
      var busy := place.Processing? && place.worker in s.heartbeats && !force;
      && (reply == ActiveProcessing <==> busy)
      && (reply.WasRemoved? <==> !busy && !place.Delay? && Holds(s, place, raw))
      && (if reply.WasRemoved? then IsPurged(s, s', raw.id, ttl) else s' == s)
  {
    if Holds(s, place, raw) { CancelHeldPurges(s, raw, false, policy, ttl); }
  }

  lemma PurgeDelayVerdict(s: State, raw: Message, policy: IdentityPolicy, ttl: nat)
    requires Inv(s)
    ensures var (s', reply) := CancelDelayed(s, raw, policy, ttl);
      && (reply.WasRemoved? <==> IsDelayed(s, raw))
      && (if reply.WasRemoved? then IsPurged(s, s', raw.id, ttl) else s' == s)
  {
    if IsDelayed(s, raw) { CancelHeldPurges(s, raw, true, policy, ttl); }
  }
}
