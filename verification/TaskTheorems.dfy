/** What the invariant means for callers, over every run of every mix of clients. */
module TaskTheorems {
  import opened Prelude
  import opened VersionOrder
  import opened TaskModel
  import opened TaskInvariants

  // ---------- One place per task ----------

  /** Live tasks wait or run, failed tasks may keep one message for operators, others have none. */
  lemma PlaceOfEveryTask(run: seq<Action>, id: TaskId)
    requires FreshRun(EMPTY, run)
    ensures var s := Run(EMPTY, run);
      RecordOf(s, id).Some? ==>
        var rec, slot := RecordOf(s, id).value, SlotOf(s, id);
        && (slot.Some? <==> rec.operational)
        && (rec.outcome == Live ==> slot.Some? && !slot.value.place.Dlq?)
        && (rec.outcome == Failed && slot.Some? ==> slot.value.place.Dlq?)
        && (rec.outcome in {Completed, Skipped, Cancelled} ==> slot.None?)
        && (slot.Some? <==> rec.expireAt.None?)
    ensures RecordOf(Run(EMPTY, run), id).None? ==> SlotOf(Run(EMPTY, run), id).None?
  {
    EmptyOk();
    RunKeepsInv(EMPTY, run);
  }

  /** The envelope still is the task that was enqueued, and a running claim is the record's claim. */
  lemma EnvelopeOfEveryTask(run: seq<Action>, id: TaskId)
    requires FreshRun(EMPTY, run)
    ensures var s := Run(EMPTY, run);
      SlotOf(s, id).Some? ==>
        && RecordOf(s, id).Some?
        && var rec, m := RecordOf(s, id).value, SlotOf(s, id).value.msg;
        && m.id == id && m.spec == rec.spec
        && 0 <= rec.attempt <= rec.spec.maxAttempts
        && (rec.location == AtProcessing ==>
              m.attempt == rec.attempt >= 1 && m.claimToken.Some? && m.claimToken == rec.claimToken)
  {
    EmptyOk();
    RunKeepsInv(EMPTY, run);
  }

  // ---------- Stability ----------

  /** What time and every client leave alone about an issued id. */
  predicate Persists(t: Task, t': Task) {
    && (t'.record.Some? ==> t.record.Some? && Continues(t.record.value, t'.record.value))
    && (t.slot.None? ==> t'.slot.None?)
  }

  lemma PersistsTransitive(t: Task, t1: Task, t2: Task)
    requires Persists(t, t1) && Persists(t1, t2)
    ensures Persists(t, t2)
  {
  }

  lemma EditPersists(s: State, s': State, subject: TaskId, id: TaskId)
    requires id in s.tasks && (s' == s || Edit(s, s', subject))
    ensures id in s'.tasks && Persists(s.tasks[id], s'.tasks[id])
  {
  }

  lemma ScriptPersists(s: State, a: Action, id: TaskId)
    requires Local(s) && Fresh(s, a) && id in s.tasks && Subject(a).Some?
    ensures id in Step(s, a).0.tasks && Persists(s.tasks[id], Step(s, a).0.tasks[id])
  {
    ScriptsEdit(s, a);
    EditPersists(s, Step(s, a).0, Subject(a).value, id);
  }

  lemma ReplayPersists(s: State, plan: ReplayPlan, newId: TaskId, spec: TaskSpec, availableAt: Time, ttl: nat,
                       id: TaskId)
    requires newId !in s.tasks && id in s.tasks
    ensures var s' := CommitReplay(s, plan, newId, spec, availableAt, ttl).0;
      id in s'.tasks && Persists(s.tasks[id], s'.tasks[id])
  {
    if CommitReplay(s, plan, newId, spec, availableAt, ttl).1.Accepted? {
      var rec := RecordOf(s, plan.source).value;
      assert rec.replayedBy <= rec.replayedBy + [newId];
    }
  }

  lemma OtherStepPersists(s: State, a: Action, id: TaskId)
    requires Fresh(s, a) && id in s.tasks && Subject(a).None? && !a.ACommitReplay?
    ensures id in Step(s, a).0.tasks && Persists(s.tasks[id], Step(s, a).0.tasks[id])
  {
  }

  lemma StepPersists(s: State, a: Action, id: TaskId)
    requires Inv(s) && Fresh(s, a) && id in s.tasks
    ensures id in Step(s, a).0.tasks && Persists(s.tasks[id], Step(s, a).0.tasks[id])
  {
    if Subject(a).Some? {
      InvIsLocal(s);
      ScriptPersists(s, a, id);
    } else if a.ACommitReplay? {
      ReplayPersists(s, a.plan, a.id, a.spec, a.availableAt, a.ttl, id);
    } else {
      OtherStepPersists(s, a, id);
    }
  }

  lemma {:induction false} RunPersists(s: State, run: seq<Action>, id: TaskId)
    requires Inv(s) && FreshRun(s, run) && id in s.tasks
    ensures id in Run(s, run).tasks && Persists(s.tasks[id], Run(s, run).tasks[id])
    decreases |run|
  {
    if run != [] {
      StepKeepsInv(s, run[0]);
      StepPersists(s, run[0], id);
      var s1 := Step(s, run[0]).0;
      RunPersists(s1, run[1..], id);
      PersistsTransitive(s.tasks[id], s1.tasks[id], Run(s, run).tasks[id]);
    }
  }

  /** An outcome, once set, is final; a task without a message never gets one again. */
  lemma OutcomeIsFinal(s: State, run: seq<Action>, id: TaskId)
    requires Inv(s) && FreshRun(s, run)
    requires RecordOf(s, id).Some? && RecordOf(s, id).value.outcome != Live
    ensures var rec' := RecordOf(Run(s, run), id);
      rec'.Some? ==> rec'.value.outcome == RecordOf(s, id).value.outcome
                     && rec'.value.attempt == RecordOf(s, id).value.attempt
    ensures SlotOf(s, id).None? ==> SlotOf(Run(s, run), id).None?
  {
    RunPersists(s, run, id);
  }

  /** Settling a task that has ended is always a no-op, whenever it is repeated. */
  lemma SettlingIsIdempotent(s: State, run: seq<Action>, w: Worker, raw: Message, permanent: bool, error: nat,
                             runAt: Time, ttl: nat)
    requires Inv(s) && FreshRun(s, run)
    requires RecordOf(s, raw.id).Some? && RecordOf(s, raw.id).value.outcome != Live
    ensures var s' := Run(s, run);
      && Complete(s', w, raw, ttl).0 == s'
      && Fail(s', w, raw, permanent, error, runAt, ttl).0 == s'
      && ReturnUnstarted(s', w, raw).0 == s'
  {
    OutcomeIsFinal(s, run, raw.id);
  }

  predicate IsSettling(a: Action) { a.AComplete? || a.AFail? || a.AReturn? }

  /** What the begin script hands to a worker: it has a claim token, and a lease token if the task is keyed. */
  predicate IsClaim(m: Message) {
    m.claimToken.Some? && (m.spec.concurrencyKey.Some? ==> m.leaseToken.Some?)
  }

  lemma StartedIsClaim(s: State, w: Worker, raw: Message, claim: Token, lease: Token, time: Timing)
    requires Begin(s, w, raw, claim, lease, time).1.WasStarted?
    ensures IsClaim(Begin(s, w, raw, claim, lease, time).1.msg)
  {
  }

  /** These messages differ in something no step but a start or a retry changes back. */
  predicate Apart(m: Message, raw: Message) {
    m.claimToken != raw.claimToken || m.leaseToken != raw.leaseToken || m.availableAt != raw.availableAt
      || m.spec != raw.spec
  }

  /** The claim is over: its message is nowhere, and its token is known. */
  predicate Past(s: State, raw: Message) {
    && raw.id in s.tasks && raw.claimToken.Some? && raw.claimToken.value in s.tokens
    && (SlotOf(s, raw.id).Some? ==> Apart(SlotOf(s, raw.id).value.msg, raw))
  }

  /** A retry of this task at the very time the claim was available before. */
  predicate RetriesAtSameTime(a: Action, raw: Message) {
    a.AFail? && a.raw.id == raw.id && a.runAt == raw.availableAt
  }

  lemma BeginKeepsPast(s: State, w: Worker, m: Message, claim: Token, lease: Token, time: Timing, raw: Message)
    requires Past(s, raw) && IsClaim(raw) && claim !in s.tokens
    ensures Past(Begin(s, w, m, claim, lease, time).0, raw)
  {
  }

  lemma SettlingKeepsPast(s: State, a: Action, raw: Message)
    requires Past(s, raw) && IsSettling(a) && !RetriesAtSameTime(a, raw)
    ensures Past(Step(s, a).0, raw)
  {
    if a.AComplete? { CompletingKeepsPast(s, a.w, a.raw, a.ttl, raw); }
    else if a.AFail? { FailingKeepsPast(s, a.w, a.raw, a.permanent, a.error, a.runAt, a.ttl, raw); }
    else { ReturningKeepsPast(s, a.w, a.raw, raw); }
  }

  lemma CompletingKeepsPast(s: State, w: Worker, m: Message, ttl: nat, raw: Message)
    requires Past(s, raw)
    ensures Past(Complete(s, w, m, ttl).0, raw)
  {
  }

  lemma FailingKeepsPast(s: State, w: Worker, m: Message, permanent: bool, error: nat, runAt: Time, ttl: nat,
                         raw: Message)
    requires Past(s, raw) && (m.id == raw.id ==> runAt != raw.availableAt)
    ensures Past(Fail(s, w, m, permanent, error, runAt, ttl).0, raw)
  {
  }

  lemma ReturningKeepsPast(s: State, w: Worker, m: Message, raw: Message)
    requires Past(s, raw)
    ensures Past(ReturnUnstarted(s, w, m).0, raw)
  {
  }

  predicate Moves(a: Action) {
    a.APop? || a.ARecoverStale? || a.AMoveDue? || a.AMoveProcessing? || a.AMoveDelay?
  }

  lemma MovingKeepsPast(s: State, a: Action, raw: Message)
    requires Past(s, raw) && Moves(a)
    ensures Past(Step(s, a).0, raw)
  {
    match a
    case APop(w, m) => PopKeepsPast(s, w, m, raw);
    case ARecoverStale(w, m) => ListMoveKeepsPast(s, w, m, true, raw);
    case AMoveProcessing(w, m, check) => ListMoveKeepsPast(s, w, m, check, raw);
    case AMoveDue(m) => DelayMoveKeepsPast(s, m, raw);
    case AMoveDelay(m) => DelayMoveKeepsPast(s, m, raw);
  }

  lemma PopKeepsPast(s: State, w: Worker, m: Message, raw: Message)
    requires Past(s, raw)
    ensures Past(Pop(s, w, m).0, raw)
  {
  }

  lemma ListMoveKeepsPast(s: State, w: Worker, m: Message, check: bool, raw: Message)
    requires Past(s, raw)
    ensures Past(AdminMoveProcessing(s, w, m, check).0, raw)
    ensures check ==> Past(RecoverStale(s, w, m).0, raw)
  {
  }

  lemma DelayMoveKeepsPast(s: State, m: Message, raw: Message)
    requires Past(s, raw)
    ensures Past(MoveDue(s, m).0, raw) && Past(AdminMoveDelay(s, m).0, raw)
  {
  }

  predicate Removes(a: Action) {
    a.ARecoverAbandoned? || a.ACancelListed? || a.ACancelDelayed?
  }

  lemma RemovingKeepsPast(s: State, a: Action, raw: Message)
    requires Past(s, raw) && Removes(a)
    ensures Past(Step(s, a).0, raw)
  {
  }

  lemma AdmittingKeepsPast(s: State, a: Action, raw: Message)
    requires Past(s, raw) && Fresh(s, a) && (a.AEnqueue? || a.ACommitReplay?)
    ensures Past(Step(s, a).0, raw)
  {
  }

  lemma OtherStepKeepsPast(s: State, a: Action, raw: Message)
    requires Past(s, raw) && !a.ABegin? && !IsSettling(a) && !Moves(a) && !Removes(a) && !a.AEnqueue?
      && !a.ACommitReplay?
    ensures Past(Step(s, a).0, raw)
  {
  }

  lemma StepKeepsPast(s: State, a: Action, raw: Message)
    requires Past(s, raw) && IsClaim(raw) && Fresh(s, a) && !RetriesAtSameTime(a, raw)
    ensures Past(Step(s, a).0, raw)
  {
    if a.ABegin? { BeginKeepsPast(s, a.w, a.raw, a.claim, a.lease, a.time, raw); }
    else if IsSettling(a) { SettlingKeepsPast(s, a, raw); }
    else if Moves(a) { MovingKeepsPast(s, a, raw); }
    else if Removes(a) { RemovingKeepsPast(s, a, raw); }
    else if a.AEnqueue? || a.ACommitReplay? { AdmittingKeepsPast(s, a, raw); }
    else { OtherStepKeepsPast(s, a, raw); }
  }

  lemma {:induction false} RunKeepsPast(s: State, run: seq<Action>, raw: Message)
    requires Past(s, raw) && IsClaim(raw) && FreshRun(s, run) && forall a <- run :: !RetriesAtSameTime(a, raw)
    ensures Past(Run(s, run), raw)
    decreases |run|
  {
    if run != [] {
      StepKeepsPast(s, run[0], raw);
      RunKeepsPast(Step(s, run[0]).0, run[1..], raw);
    }
  }

  lemma RetriedIsPast(s: State, first: Action)
    requires TokensKnown(s) && first.AFail? && IsClaim(first.raw) && Step(s, first).1 == WasRetried
    requires !RetriesAtSameTime(first, first.raw)
    ensures Past(Step(s, first).0, first.raw)
  {
    assert KnownToken(s, first.raw.claimToken);
  }

  lemma PastIsIdle(s: State, raw: Message, again: Action)
    requires Past(s, raw) && IsSettling(again) && again.raw == raw
    ensures Step(s, again).0 == s
  {
  }

  predicate AsBefore(first: Action) {
    first.AFail? && first.runAt == first.raw.availableAt && first.raw.reason == OnRetry
    && first.raw.lastError == Some(first.error)
  }

  lemma RetriedState(s: State, first: Action) returns (rec: Record)
    requires AsBefore(first) && Step(s, first).1 == WasRetried
    ensures IsDelayed(Step(s, first).0, first.raw) && RecordOf(Step(s, first).0, first.raw.id) == Some(rec)
    ensures rec.outcome == Live && (rec.spec.deadline.Some? ==> first.runAt < rec.spec.deadline.value)
    ensures !first.permanent && first.raw.attempt < first.raw.spec.maxAttempts
  {
    rec := RecordOf(Step(s, first).0, first.raw.id).value;
  }

  lemma ComesBack(s: State, w: Worker, raw: Message, rec: Record)
    requires IsDelayed(s, raw) && RecordOf(s, raw.id) == Some(rec)
    ensures var s1 := Step(Step(s, AMoveDelay(raw)).0, APop(w, raw)).0;
      Holds(s1, Processing(w), raw) && RecordOf(s1, raw.id) == Some(rec.(location := AtReady))
  {
    assert Holds(Step(s, AMoveDelay(raw)).0, Ready, raw);
  }

  lemma RetriedAgain(s: State, first: Action, rec: Record)
    requires AsBefore(first) && !first.permanent && first.raw.attempt < first.raw.spec.maxAttempts
    requires Holds(s, Processing(first.w), first.raw) && RecordOf(s, first.raw.id) == Some(rec.(location := AtReady))
    requires rec.outcome == Live && (rec.spec.deadline.Some? ==> first.runAt < rec.spec.deadline.value)
    ensures Step(s, first).1 == WasRetried && Step(s, first).0.metrics.retryWait == s.metrics.retryWait + 1
  {
  }

  /** The condition is needed: a retry put at the same time can come back as the very same message. */
  lemma SameTimeRetryIsRepeated(s: State, first: Action, error: nat)
    requires first.AFail? && first.error == error && Step(s, first).1 == WasRetried
    requires first.runAt == first.raw.availableAt && first.raw.reason == OnRetry && first.raw.lastError == Some(error)
    ensures var s1 := Step(Step(Step(s, first).0, AMoveDelay(first.raw)).0, APop(first.w, first.raw)).0;
      Step(s1, first).1 == WasRetried && Step(s1, first).0.metrics.retryWait == s1.metrics.retryWait + 1
  {
    var rec := RetriedState(s, first);
    ComesBack(Step(s, first).0, first.w, first.raw, rec);
    RetriedAgain(Step(Step(Step(s, first).0, AMoveDelay(first.raw)).0, APop(first.w, first.raw)).0, first, rec);
  }

  predicate Committed(r: Reply) {
    r == WasCompleted || r == WasFailed || r == WasSkipped || r == WasRetried
  }

  lemma CommittedEnds(s: State, first: Action)
    requires IsSettling(first) && Committed(Step(s, first).1) && Step(s, first).1 != WasRetried
    ensures RecordOf(Step(s, first).0, first.raw.id).Some?
      && RecordOf(Step(s, first).0, first.raw.id).value.outcome != Live
  {
  }

  /**
   A worker whose reply was lost repeats its settlement.  Once one has committed, every later
   settlement or return of that claim is a no-op, whatever has happened to the task meanwhile.  When
   it scheduled a retry, so that the task lives on, this needs that no retry of it was put at the very
   time the claim had been available.
   */
  lemma RepeatedSettlementIsIdempotent(s: State, first: Action, run: seq<Action>, again: Action)
    requires Inv(s) && IsSettling(first) && IsClaim(first.raw) && Committed(Step(s, first).1)
    requires FreshRun(Step(s, first).0, run)
    requires Step(s, first).1 == WasRetried ==> forall a <- [first] + run :: !RetriesAtSameTime(a, first.raw)
    requires IsSettling(again) && again.raw == first.raw
    ensures Step(Run(Step(s, first).0, run), again).0 == Run(Step(s, first).0, run)
  {
    if Step(s, first).1 == WasRetried {
      RepeatedRetryIsIdempotent(s, first, run, again);
    } else {
      StepKeepsInv(s, first);
      CommittedEnds(s, first);
      EndedIsIdle(Step(s, first).0, run, again);
    }
  }

  lemma EndedIsIdle(s: State, run: seq<Action>, again: Action)
    requires Inv(s) && FreshRun(s, run) && IsSettling(again)
    requires RecordOf(s, again.raw.id).Some? && RecordOf(s, again.raw.id).value.outcome != Live
    ensures Step(Run(s, run), again).0 == Run(s, run)
  {
    OutcomeIsFinal(s, run, again.raw.id);
    EndedNowIsIdle(Run(s, run), again);
  }

  lemma EndedNowIsIdle(s: State, again: Action)
    requires IsSettling(again) && (RecordOf(s, again.raw.id).Some? ==> RecordOf(s, again.raw.id).value.outcome != Live)
    ensures Step(s, again).0 == s
  {
  }

  lemma RepeatedRetryIsIdempotent(s: State, first: Action, run: seq<Action>, again: Action)
    requires TokensKnown(s) && first.AFail? && IsClaim(first.raw) && Step(s, first).1 == WasRetried
    requires FreshRun(Step(s, first).0, run) && forall a <- [first] + run :: !RetriesAtSameTime(a, first.raw)
    requires IsSettling(again) && again.raw == first.raw
    ensures Step(Run(Step(s, first).0, run), again).0 == Run(Step(s, first).0, run)
  {
    var s1 := Step(s, first).0;
    assert first in [first] + run && forall a <- run :: a in [first] + run;
    RetriedIsPast(s, first);
    RunKeepsPast(s1, run, first.raw);
    PastIsIdle(Run(s1, run), first.raw, again);
  }

  // ---------- Counters and indexes ----------

  /** Conservation: every accepted task is live or has ended in exactly one counted way. */
  lemma Conservation(run: seq<Action>)
    requires FreshRun(EMPTY, run)
    ensures var s := Run(EMPTY, run); var m := s.metrics;
      m.accepted == |WithOutcome(s.tasks, Live)| + m.completed + m.failed + m.skipped + m.cancelled
  {
    EmptyOk();
    RunKeepsInv(EMPTY, run);
  }

  /** The deadline index and the retry counter are what a recount from scratch would give. */
  lemma IndexesAreExact(run: seq<Action>, id: TaskId)
    requires FreshRun(EMPTY, run)
    ensures var s := Run(EMPTY, run);
      && s.metrics.retryWait == |RetryWaiting(s.tasks)|
      && (id in s.tasks ==>
            s.tasks[id].due ==
              if IsLive(s.tasks[id]) && s.tasks[id].record.value.location != AtProcessing
              then s.tasks[id].record.value.spec.deadline else None)
  {
    EmptyOk();
    RunKeepsInv(EMPTY, run);
  }

  /** A task waits for a retry only at a time before its start deadline. */
  lemma RetriesBeforeDeadline(run: seq<Action>, id: TaskId)
    requires FreshRun(EMPTY, run)
    ensures var s := Run(EMPTY, run);
      id in s.tasks && InRetryWait(s.tasks[id]) && s.tasks[id].slot.value.msg.spec.deadline.Some? ==>
        s.tasks[id].slot.value.place.score < s.tasks[id].slot.value.msg.spec.deadline.value
  {
    EmptyOk();
    RunKeepsInv(EMPTY, run);
  }

  // ---------- Identity ----------

  /** An owner without an outcome names a live task of that key and never expires. */
  lemma LiveOwnerNamesLiveTask(run: seq<Action>, k: Key)
    requires FreshRun(EMPTY, run)
    ensures var s := Run(EMPTY, run);
      k in s.owners && s.owners[k].outcome == Live ==>
        && s.owners[k].expireAt.None?
        && RecordOf(s, s.owners[k].taskId).Some?
        && RecordOf(s, s.owners[k].taskId).value.outcome == Live
        && RecordOf(s, s.owners[k].taskId).value.spec.logicalKey == Some(k)
  {
    EmptyOk();
    RunKeepsInv(EMPTY, run);
  }

  /** Every live task with a logical key is the owner of that key. */
  predicate LiveTasksOwn(s: State) {
    forall id <- s.tasks :: IsLive(s.tasks[id]) && s.tasks[id].record.value.spec.logicalKey.Some? ==>
      var k := s.tasks[id].record.value.spec.logicalKey.value;
      k in s.owners && s.owners[k].taskId == id && s.owners[k].outcome == Live
  }

  predicate AllowsDuplicate(a: Action) { a.AEnqueue? && a.onDuplicate == AllowNew }

  lemma ScriptKeepsOwning(s: State, a: Action)
    requires Local(s) && LiveTasksOwn(s) && Fresh(s, a) && Subject(a).Some?
    ensures LiveTasksOwn(Step(s, a).0)
  {
    ScriptsEdit(s, a);
  }

  lemma ReplayKeepsOwning(s: State, a: Action)
    requires LiveTasksOwn(s) && Fresh(s, a) && a.ACommitReplay?
    ensures LiveTasksOwn(Step(s, a).0)
  {
  }

  lemma OtherStepKeepsOwning(s: State, a: Action)
    requires OwnersOk(s) && LiveTasksOwn(s) && Fresh(s, a) && !AllowsDuplicate(a)
    requires Subject(a).None? && !a.ACommitReplay? && !a.AForget?
    ensures LiveTasksOwn(Step(s, a).0)
  {
  }

  lemma ForgetKeepsOwning(s: State, a: Action)
    requires TasksOk(s) && PlansOk(s) && LiveTasksOwn(s) && a.AForget?
    ensures LiveTasksOwn(Step(s, a).0)
  {
    if a.id in s.tasks { assert TaskOk(a.id, s.tasks[a.id]); }
  }

  lemma {:induction false} RunKeepsOwning(s: State, run: seq<Action>)
    requires Inv(s) && LiveTasksOwn(s) && FreshRun(s, run)
    requires forall a <- run :: !AllowsDuplicate(a)
    ensures LiveTasksOwn(Run(s, run))
    decreases |run|
  {
    if run != [] {
      StepKeepsInv(s, run[0]);
      if Subject(run[0]).Some? {
        InvIsLocal(s);
        ScriptKeepsOwning(s, run[0]);
      } else if run[0].ACommitReplay? {
        ReplayKeepsOwning(s, run[0]);
      } else if run[0].AForget? {
        ForgetKeepsOwning(s, run[0]);
      } else {
        OtherStepKeepsOwning(s, run[0]);
      }
      RunKeepsOwning(Step(s, run[0]).0, run[1..]);
    }
  }

  function LiveKeyOf(s: State, id: TaskId): Option<Key> {
    if id in s.tasks && IsLive(s.tasks[id]) then s.tasks[id].record.value.spec.logicalKey else None
  }

  /** Unless a producer forces a duplicate, at most one task per logical key is live. */
  lemma OneLiveTaskPerKey(run: seq<Action>, i: TaskId, j: TaskId)
    requires FreshRun(EMPTY, run) && forall a <- run :: !AllowsDuplicate(a)
    ensures var s := Run(EMPTY, run);
      LiveKeyOf(s, i).Some? && LiveKeyOf(s, i) == LiveKeyOf(s, j) ==> i == j
  {
    EmptyOk();
    RunKeepsOwning(EMPTY, run);
  }

  /** The steps that may end the retention of an ended task's identity before its time. */
  predicate MayRelease(a: Action, k: Key) {
    match a
    case AEnqueue(_, spec, _, onDuplicate) => onDuplicate == AllowNew && spec.logicalKey == Some(k)
    case ACommitReplay(_, _, spec, _, _) => spec.logicalKey == Some(k)
    case ACancelListed(_, raw, policy, _, _) => policy == Release && raw.spec.logicalKey == Some(k)
    case ACancelDelayed(raw, policy, _) => policy == Release && raw.spec.logicalKey == Some(k)
    case AForget(_, key) => key == k
    case _ => false
  }

  /** The identity of an ended task is kept until a set time. */
  predicate Retained(owners: map<Key, Owner>, k: Key, id: TaskId, until: Time) {
    k in owners && owners[k].outcome != Live && owners[k].taskId == id && owners[k].dedupUntil == Some(until)
  }

  lemma FinalizeKeepsRetention(s: State, t: TaskId, key: Option<Key>, outcome: Outcome, k: Key, id: TaskId, until: Time)
    requires Retained(s.owners, k, id, until) && s.now < until && outcome != Live
    ensures Retained(FinalizeOwner(s, t, key, outcome), k, id, until)
  {
  }

  /** Owners as they were, or with the owner of one ended task finalized. */
  ghost predicate OwnersAtMostFinalized(s: State, s': State, id: TaskId) {
    s'.owners == s.owners || exists o: Outcome, key: Option<Key> ::
      o != Live && s'.owners == FinalizeOwner(s, id, key, o)
  }

  lemma BeginOwners(s: State, a: Action)
    requires a.ABegin?
    ensures OwnersAtMostFinalized(s, Step(s, a).0, a.raw.id)
  {
  }

  lemma SettlingOwners(s: State, a: Action)
    requires IsSettling(a)
    ensures OwnersAtMostFinalized(s, Step(s, a).0, a.raw.id)
  {
  }

  lemma MovingOwners(s: State, a: Action)
    requires Moves(a) || a.ARecoverAbandoned?
    ensures Step(s, a).0.owners == s.owners
  {
  }

  lemma ScriptOwners(s: State, a: Action)
    requires Subject(a).Some? && !a.ACancelListed? && !a.ACancelDelayed?
    ensures OwnersAtMostFinalized(s, Step(s, a).0, Subject(a).value)
  {
    if a.ABegin? { BeginOwners(s, a); }
    else if IsSettling(a) { SettlingOwners(s, a); }
    else { MovingOwners(s, a); }
  }

  lemma CancelKeepsRetention(s: State, raw: Message, delayed: bool, policy: IdentityPolicy, ttl: nat, k: Key,
                             id: TaskId, until: Time)
    requires TasksOk(s) && Retained(s.owners, k, id, until) && s.now < until
    requires SlotOf(s, raw.id).Some? && SlotOf(s, raw.id).value.msg == raw
    requires policy == Release ==> raw.spec.logicalKey != Some(k)
    ensures Retained(CancelHeld(s, raw, delayed, policy, ttl).0.owners, k, id, until)
  {
  }

  lemma OtherStepKeepsRetention(s: State, a: Action, k: Key, id: TaskId, until: Time)
    requires OwnersOk(s) && Retained(s.owners, k, id, until) && !MayRelease(a, k) && Subject(a).None?
    requires Step(s, a).0.now < until
    ensures Retained(Step(s, a).0.owners, k, id, until)
  {
    if a.ATick? { TickKeepsRetention(s, a.elapsed, k, id, until); }
    else if a.AEnqueue? || a.ACommitReplay? { AdmittingKeepsRetention(s, a, k, id, until); }
    else { QuietKeepsRetention(s, a, k, id, until); }
  }

  lemma TickKeepsRetention(s: State, elapsed: nat, k: Key, id: TaskId, until: Time)
    requires OwnersOk(s) && Retained(s.owners, k, id, until) && Tick(s, elapsed).0.now < until
    ensures Retained(Tick(s, elapsed).0.owners, k, id, until)
  {
    assert OwnerOk(s, k, s.owners[k]);
  }

  lemma AdmittingKeepsRetention(s: State, a: Action, k: Key, id: TaskId, until: Time)
    requires Retained(s.owners, k, id, until) && !MayRelease(a, k) && (a.AEnqueue? || a.ACommitReplay?)
    ensures Retained(Step(s, a).0.owners, k, id, until)
  {
  }

  lemma QuietKeepsRetention(s: State, a: Action, k: Key, id: TaskId, until: Time)
    requires Retained(s.owners, k, id, until) && !MayRelease(a, k)
    requires Subject(a).None? && !a.ATick? && !a.AEnqueue? && !a.ACommitReplay?
    ensures Retained(Step(s, a).0.owners, k, id, until)
  {
  }

  lemma StepKeepsRetention(s: State, a: Action, k: Key, id: TaskId, until: Time)
    requires TasksOk(s) && OwnersOk(s) && Retained(s.owners, k, id, until) && !MayRelease(a, k)
    requires s.now < until && Step(s, a).0.now < until
    ensures Retained(Step(s, a).0.owners, k, id, until)
  {
    if Subject(a).None? {
      OtherStepKeepsRetention(s, a, k, id, until);
    } else if a.ACancelListed? {
      if Holds(s, a.place, a.raw) { CancelKeepsRetention(s, a.raw, false, a.policy, a.ttl, k, id, until); }
    } else if a.ACancelDelayed? {
      if IsDelayed(s, a.raw) { CancelKeepsRetention(s, a.raw, true, a.policy, a.ttl, k, id, until); }
    } else {
      var t := Subject(a).value;
      ScriptOwners(s, a);
      forall o: Outcome, key: Option<Key> | o != Live
        ensures Retained(FinalizeOwner(s, t, key, o), k, id, until)
      {
        FinalizeKeepsRetention(s, t, key, o, k, id, until);
      }
    }
  }

  lemma {:induction false} TimeNeverRunsBack(s: State, run: seq<Action>)
    ensures s.now <= Run(s, run).now
    decreases |run|
  {
    if run != [] {
      StepTime(s, run[0]);
      TimeNeverRunsBack(Step(s, run[0]).0, run[1..]);
    }
  }

  lemma StepTime(s: State, a: Action)
    ensures s.now <= Step(s, a).0.now
  {
  }

  /**
   Retention: until its dedup_until, an ended task blocks every rejecting enqueue under its key,
   unless someone forces a duplicate, replays it, purges it with its identity released, or deletes it.
   */
  lemma {:induction false} RetentionBlocks(s: State, run: seq<Action>, k: Key, id: TaskId, until: Time,
                                           newId: TaskId, spec: TaskSpec, availableAt: Time)
    requires Inv(s) && FreshRun(s, run) && Retained(s.owners, k, id, until)
    requires forall a <- run :: !MayRelease(a, k)
    requires Run(s, run).now < until
    requires spec.logicalKey == Some(k) && RecordOf(Run(s, run), newId).None?
    ensures Enqueue(Run(s, run), newId, spec, availableAt, Reject) == (Run(s, run), DuplicateRetained(id))
    decreases |run|
  {
    if run != [] {
      TimeNeverRunsBack(s, run);
      StepTime(s, run[0]);
      TimeNeverRunsBack(Step(s, run[0]).0, run[1..]);
      StepKeepsInv(s, run[0]);
      StepKeepsRetention(s, run[0], k, id, until);
      RetentionBlocks(Step(s, run[0]).0, run[1..], k, id, until, newId, spec, availableAt);
    }
  }

  // ---------- Supersede ----------

  /** A started attempt of a versioned task carries the newest version ever accepted. */
  lemma StartedIsNewest(run: seq<Action>, w: Worker, raw: Message, claim: Token, lease: Token, time: Timing,
                        v: Supersede)
    requires FreshRun(EMPTY, run)
    requires Begin(Run(EMPTY, run), w, raw, claim, lease, time).1.WasStarted?
    requires raw.spec.supersede.Some? && v.key == raw.spec.supersede.value.key && v in OfferedBy(EMPTY, run)
    ensures !Newer(v.version, raw.spec.supersede.value.version)
  {
    EmptyOk();
    RunKeepsInv(EMPTY, run);
    RunVersions(EMPTY, run);
    StartedMatchesRegister(Run(EMPTY, run), w, raw, claim, lease, time, v);
  }

  lemma StartedMatchesRegister(s: State, w: Worker, raw: Message, claim: Token, lease: Token, time: Timing,
                               v: Supersede)
    requires TasksOk(s) && RegisterOk(s) && Begin(s, w, raw, claim, lease, time).1.WasStarted?
    requires raw.spec.supersede.Some? && v.key == raw.spec.supersede.value.key && v in s.versions
    ensures !Newer(v.version, raw.spec.supersede.value.version)
  {
    assert raw.spec.supersede.value in s.versions;
  }

  /** The version a step puts up for its key: that of an accepted enqueue or replay. */
  function Offered(s: State, a: Action): set<Supersede> {
    if a.AEnqueue? && Step(s, a).1.Accepted? && a.spec.supersede.Some? then {a.spec.supersede.value}
    else if a.ACommitReplay? && Step(s, a).1.Accepted? && a.spec.supersede.Some? then {a.spec.supersede.value}
    else {}
  }

  function OfferedBy(s: State, run: seq<Action>): set<Supersede>
    decreases |run|
  {
    if run == [] then {} else Offered(s, run[0]) + OfferedBy(Step(s, run[0]).0, run[1..])
  }

  lemma StepVersions(s: State, a: Action)
    ensures Step(s, a).0.versions == s.versions + Offered(s, a)
  {
  }

  lemma {:induction false} RunVersions(s: State, run: seq<Action>)
    ensures Run(s, run).versions == s.versions + OfferedBy(s, run)
    decreases |run|
  {
    if run != [] {
      StepVersions(s, run[0]);
      RunVersions(Step(s, run[0]).0, run[1..]);
    }
  }

  /** After any run the register holds, for every key ever offered, the newest accepted version of that key. */
  lemma RegisterIsMaximum(run: seq<Action>, k: Key)
    requires FreshRun(EMPTY, run)
    ensures var register, offered := Run(EMPTY, run).register, OfferedBy(EMPTY, run);
      && (k in register <==> exists v :: v in offered && v.key == k)
      && (k in register ==> Supersede(k, register[k]) in offered)
      && (forall v :: v in offered && v.key == k ==> !Newer(v.version, register[k]))
  {
    EmptyOk();
    RunKeepsInv(EMPTY, run);
    RunVersions(EMPTY, run);
    assert Run(EMPTY, run).versions == OfferedBy(EMPTY, run);
  }

  // ---------- Leases ----------

  /** Does this step carry that lease token? */
  predicate Carries(a: Action, token: Token) {
    match a
    case AComplete(_, raw, _) => raw.leaseToken == Some(token)
    case AFail(_, raw, _, _, _, _) => raw.leaseToken == Some(token)
    case AReturn(_, raw) => raw.leaseToken == Some(token)
    case ARecoverAbandoned(_, raw, _) => raw.leaseToken == Some(token)
    case ACancelListed(_, raw, _, _, _) => raw.leaseToken == Some(token)
    case ACancelDelayed(raw, _, _) => raw.leaseToken == Some(token)
    case ARenew(_, t, _) => t == token
    case ARelease(_, t) => t == token
    case _ => false
  }

  predicate LeaseKept(s: State, a: Action, k: Key)
    requires k in s.leases
  {
    var s' := Step(s, a).0;
    || (k in s'.leases && s'.leases[k] == s.leases[k])
    || Carries(a, s.leases[k].token)
    || (a.ATick? && s.leases[k].expireAt <= s'.now)
  }

  lemma SettlingFences(s: State, a: Action, k: Key)
    requires k in s.leases && IsSettling(a)
    ensures LeaseKept(s, a, k)
  {
  }

  lemma BeginFences(s: State, a: Action, k: Key)
    requires TokensKnown(s) && Fresh(s, a) && k in s.leases && a.ABegin?
    ensures LeaseKept(s, a, k)
  {
  }

  lemma OtherStepsFence(s: State, a: Action, k: Key)
    requires k in s.leases && !a.ABegin? && !IsSettling(a)
    ensures LeaseKept(s, a, k)
  {
  }

  /** Fencing: only its own token or the clock can touch a lease. */
  lemma LeaseFencing(s: State, a: Action, k: Key)
    requires TokensKnown(s) && Fresh(s, a) && k in s.leases
    ensures var s' := Step(s, a).0;
      || (k in s'.leases && s'.leases[k] == s.leases[k])
      || Carries(a, s.leases[k].token)
      || (a.ATick? && s.leases[k].expireAt <= s'.now)
  {
    if a.ABegin? { BeginFences(s, a, k); }
    else if IsSettling(a) { SettlingFences(s, a, k); }
    else { OtherStepsFence(s, a, k); }
  }

  predicate HoldsLease(s: State, id: TaskId, k: Key) {
    && id in s.tasks && LeaseTokenOf(s.tasks[id]).Some?
    && s.tasks[id].slot.value.msg.spec.concurrencyKey == Some(k)
    && k in s.leases && s.leases[k].token == LeaseTokenOf(s.tasks[id]).value
  }

  /** Mutual exclusion: no two tasks hold the unexpired lease of one concurrency key. */
  lemma OneLeaseHolder(run: seq<Action>, k: Key, i: TaskId, j: TaskId)
    requires FreshRun(EMPTY, run)
    requires HoldsLease(Run(EMPTY, run), i, k) && HoldsLease(Run(EMPTY, run), j, k)
    ensures i == j
  {
    EmptyOk();
    RunKeepsInv(EMPTY, run);
  }

  /** A started attempt of a keyed task holds the lease of its key. */
  lemma StartTakesLease(s: State, w: Worker, raw: Message, claim: Token, lease: Token, time: Timing)
    requires Begin(s, w, raw, claim, lease, time).1.WasStarted? && raw.spec.concurrencyKey.Some?
    ensures raw.spec.concurrencyKey.value !in s.leases
    ensures HoldsLease(Begin(s, w, raw, claim, lease, time).0, raw.id, raw.spec.concurrencyKey.value)
  {
  }

  // ---------- Replay ----------

  /** An accepted replay starts afresh, keeps the source's verdict and records the lineage. */
  lemma ReplayStartsAfresh(s: State, plan: ReplayPlan, newId: TaskId, spec: TaskSpec, availableAt: Time, ttl: nat)
    requires PlansOk(s) && newId !in s.tasks
    requires CommitReplay(s, plan, newId, spec, availableAt, ttl).1 == Accepted(newId)
    ensures var s' := CommitReplay(s, plan, newId, spec, availableAt, ttl).0;
      && RecordOf(s, plan.source).Some? && RecordOf(s', plan.source).Some? && RecordOf(s', newId).Some?
      && var old_, new_, src :=
         RecordOf(s, plan.source).value, RecordOf(s', newId).value, RecordOf(s', plan.source).value;
      && new_.outcome == Live && new_.attempt == 0 && new_.replayOf == Some(plan.source) && new_.spec == spec
      && src.outcome == old_.outcome && src.attempt == old_.attempt
      && src.replayedBy == old_.replayedBy + [newId] && src.expireAt == Some(s.now + ttl)
      && !src.operational && src.location == AtHistory && SlotOf(s', plan.source).None?
  {
  }

  lemma NoSlotNoReplay(s: State, plan: ReplayPlan, newId: TaskId, spec: TaskSpec, availableAt: Time, ttl: nat)
    requires PlansOk(s) && SlotOf(s, plan.source).None? && plan.requireSource
    ensures !CommitReplay(s, plan, newId, spec, availableAt, ttl).1.Accepted?
  {
  }

  lemma NoSlotNoReplayEver(s: State, run: seq<Action>, plan: ReplayPlan, newId: TaskId, spec: TaskSpec,
                           availableAt: Time, ttl: nat)
    requires Inv(s) && FreshRun(s, run) && Settled(s, plan.source) && plan.requireSource
    ensures !CommitReplay(Run(s, run), plan, newId, spec, availableAt, ttl).1.Accepted?
  {
    RunPersists(s, run, plan.source);
    RunKeepsInv(s, run);
    NoSlotNoReplay(Run(s, run), plan, newId, spec, availableAt, ttl);
  }

  lemma ReplayConsumesSource(s: State, a: Action, s1: State)
    requires PlansOk(s) && Fresh(s, a) && a.ACommitReplay? && Step(s, a) == (s1, Accepted(a.id))
    ensures Settled(s1, a.plan.source)
  {
    ReplayStartsAfresh(s, a.plan, a.id, a.spec, a.availableAt, a.ttl);
  }

  /** A dead-letter message is consumed by at most one replay, however many administrators try. */
  lemma OneReplayPerDeadLetter(s: State, first: Action, s1: State, run: seq<Action>, second: Action)
    requires Inv(s) && Fresh(s, first) && first.ACommitReplay? && Step(s, first) == (s1, Accepted(first.id))
    requires FreshRun(s1, run)
    requires second.ACommitReplay? && second.plan.requireSource && second.plan.source == first.plan.source
    ensures !CommitReplay(Run(s1, run), second.plan, second.id, second.spec, second.availableAt, second.ttl).1.Accepted?
  {
    StepKeepsInv(s, first);
    ReplayConsumesSource(s, first, s1);
    NoSlotNoReplayEver(s1, run, second.plan, second.id, second.spec, second.availableAt, second.ttl);
  }

  /** `replayed_by` lists the accepted replays in order, and lineage is a forest. */
  lemma Lineage(run: seq<Action>, id: TaskId)
    requires FreshRun(EMPTY, run)
    ensures var s := Run(EMPTY, run);
      RecordOf(s, id).Some? ==>
        && RecordOf(s, id).value.replayedBy == ReplaysOf(s.births, id)
        && Birth(id, RecordOf(s, id).value.replayOf) in s.births
    ensures Forest(Run(EMPTY, run).births)
  {
    EmptyOk();
    RunKeepsInv(EMPTY, run);
  }

  // ---------- Ownership of a running message ----------

  /** Steps a worker takes on its own list, or an operator forces on it. */
  predicate ActsFor(a: Action, w: Worker) {
    match a
    case APop(x, _) => x == w
    case ABegin(x, _, _, _, _) => x == w
    case AComplete(x, _, _) => x == w
    case AFail(x, _, _, _, _, _) => x == w
    case AReturn(x, _) => x == w
    case ARecoverAbandoned(x, _, _) => x == w
    case AMoveProcessing(x, _, checkHeartbeat) => x == w && !checkHeartbeat
    case ACancelListed(place, _, _, force, _) => place == Processing(w) && force
    case _ => false
  }

  lemma ClaimingGuard(s: State, a: Action, w: Worker, m: Message)
    requires Holds(s, Processing(w), m) && !ActsFor(a, w)
    requires a.APop? || a.ABegin? || a.AComplete? || a.AFail?
    ensures Holds(Step(s, a).0, Processing(w), m)
  {
    if a.ABegin? { BeginGuard(s, a, w, m); }
    else if a.AFail? { FailGuard(s, a, w, m); }
  }

  lemma BeginGuard(s: State, a: Action, w: Worker, m: Message)
    requires Holds(s, Processing(w), m) && a.ABegin? && a.w != w
    ensures Holds(Step(s, a).0, Processing(w), m)
  {
  }

  lemma FailGuard(s: State, a: Action, w: Worker, m: Message)
    requires Holds(s, Processing(w), m) && a.AFail? && a.w != w
    ensures Holds(Step(s, a).0, Processing(w), m)
  {
  }

  lemma MovingGuard(s: State, a: Action, w: Worker, m: Message)
    requires w in s.heartbeats && Holds(s, Processing(w), m) && !ActsFor(a, w) && Subject(a).Some?
    requires !(a.APop? || a.ABegin? || a.AComplete? || a.AFail?)
    ensures Holds(Step(s, a).0, Processing(w), m)
  {
  }

  lemma OtherStepGuard(s: State, a: Action, w: Worker, m: Message)
    requires TasksOk(s) && PlansOk(s) && Fresh(s, a) && Holds(s, Processing(w), m) && Subject(a).None?
    ensures Holds(Step(s, a).0, Processing(w), m)
  {
  }

  /** While a worker's heartbeat lives, nobody else takes a message out of its list. */
  lemma HeartbeatProtects(s: State, a: Action, w: Worker, m: Message)
    requires TasksOk(s) && PlansOk(s) && Fresh(s, a) && w in s.heartbeats && Holds(s, Processing(w), m)
    requires !ActsFor(a, w)
    ensures Holds(Step(s, a).0, Processing(w), m)
  {
    if Subject(a).None? { OtherStepGuard(s, a, w, m); }
    else if a.APop? || a.ABegin? || a.AComplete? || a.AFail? { ClaimingGuard(s, a, w, m); }
    else { MovingGuard(s, a, w, m); }
  }
}
