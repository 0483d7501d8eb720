/**
 The life of a logical key: from the enqueue that takes it, while its task lives, and after the task has
 ended for as long as its producer asked.  Over every run it is said what another producer is answered.
 */
module TaskIdentity {
  import opened Prelude
  import opened TaskModel
  import opened TaskInvariants
  import opened TaskTheorems
  import opened ScriptAnswers

  // ---------- The step that ends a task ----------

  /** The owner of `k` is this live task, to be retained until then. */
  predicate OwnedBy(s: State, k: Key, id: TaskId, until: Option<Time>) {
    && k in s.owners && s.owners[k].taskId == id && s.owners[k].outcome == Live && s.owners[k].dedupUntil == until
    && LivesOn(s, id)
  }

  /** What becomes of the identity of a task that ends now. */
  predicate EndsIdentity(s: State, s': State, k: Key, id: TaskId, until: Option<Time>) {
    if until.Some? && s.now < until.value then Retained(s'.owners, k, id, until.value) else k !in s'.owners
  }

  lemma FinalizeEnds(s: State, k: Key, id: TaskId, until: Option<Time>, outcome: Outcome, s': State)
    requires OwnedBy(s, k, id, until) && outcome != Live && s'.owners == FinalizeOwner(s, id, Some(k), outcome)
    ensures EndsIdentity(s, s', k, id, until)
  {
  }

  lemma OwnedKey(s: State, k: Key, id: TaskId, until: Option<Time>)
    requires OwnersOk(s) && OwnedBy(s, k, id, until)
    ensures s.tasks[id].record.value.spec.logicalKey == Some(k)
  {
    assert OwnerOk(s, k, s.owners[k]);
  }

  lemma BeginEnds(s: State, a: Action, k: Key, id: TaskId, until: Option<Time>, s': State)
    requires Inv(s) && OwnedBy(s, k, id, until) && a.ABegin? && a.raw.id == id
    requires s' == Step(s, a).0 && id in s'.tasks && !IsLive(s'.tasks[id])
    ensures EndsIdentity(s, s', k, id, until)
  {
    OwnedKey(s, k, id, until);
    if !Awaits(s, a.w, a.raw) {
      BeginNeedsMessage(s, a.w, a.raw, a.claim, a.lease, a.time);
    } else {
      var rec := HeldIsLive(s, a.w, a.raw);
      BeginWrites(s, a.w, a.raw, a.claim, a.lease, a.time);
      BeginVerdict(s, a.w, a.raw, a.claim, a.lease, a.time);
      BeginFinalizes(s, a, k, id, until, Step(s, a), rec);
    }
  }

  lemma BeginFinalizes(s: State, a: Action, k: Key, id: TaskId, until: Option<Time>, r: (State, Reply), rec: Record)
    requires OwnedBy(s, k, id, until) && a.ABegin? && a.raw.id == id && a.raw.spec.logicalKey == Some(k)
    requires Beginning(s, a.w, a.raw, a.claim, a.lease, a.time, r) && Acts(r.1) && RecordOf(s, id) == Some(rec)
    requires id in r.0.tasks && !IsLive(r.0.tasks[id])
    ensures EndsIdentity(s, r.0, k, id, until)
  {
    match r.1
    case WasSkipped => FinalizeEnds(s, k, id, until, Skipped, r.0);
    case WasSuperseded => FinalizeEnds(s, k, id, until, Cancelled, r.0);
    case WasOverBudget => FinalizeEnds(s, k, id, until, Failed, r.0);
    case _ =>
  }

  lemma SettlingEnds(s: State, a: Action, k: Key, id: TaskId, until: Option<Time>, s': State)
    requires Inv(s) && OwnedBy(s, k, id, until) && (a.AComplete? || a.AFail?) && a.raw.id == id
    requires s' == Step(s, a).0 && id in s'.tasks && !IsLive(s'.tasks[id])
    ensures EndsIdentity(s, s', k, id, until)
  {
    OwnedKey(s, k, id, until);
    if Holds(s, Processing(a.w), a.raw) {
      var rec := HeldIsLive(s, a.w, a.raw);
      var outcome := SettlingFinalizes(s, a, rec, s');
      FinalizeEnds(s, k, id, until, outcome, s');
    } else if a.AFail? {
      FailNeedsMessage(s, a.w, a.raw, a.permanent, a.error, a.runAt, a.ttl);
    } else {
      CompleteVerdict(s, a.w, a.raw, a.ttl);
    }
  }

  lemma SettlingFinalizes(s: State, a: Action, rec: Record, s': State) returns (outcome: Outcome)
    requires (a.AComplete? || a.AFail?) && Holds(s, Processing(a.w), a.raw) && RecordOf(s, a.raw.id) == Some(rec)
    requires rec.outcome == Live && s' == Step(s, a).0 && a.raw.id in s'.tasks && !IsLive(s'.tasks[a.raw.id])
    ensures outcome != Live && s'.owners == FinalizeOwner(s, a.raw.id, a.raw.spec.logicalKey, outcome)
  {
    outcome := s'.tasks[a.raw.id].record.value.outcome;
  }

  /** A purge that does not release the identity. */
  predicate Releases(a: Action) { (a.ACancelListed? || a.ACancelDelayed?) && a.policy == Release }

  lemma PurgeEnds(s: State, raw: Message, delayed: bool, policy: IdentityPolicy, ttl: nat, k: Key, id: TaskId,
                  until: Option<Time>)
    requires Inv(s) && OwnedBy(s, k, id, until) && raw.id == id && SlotOf(s, id).Some? && SlotOf(s, id).value.msg == raw
    ensures policy == Keep ==> EndsIdentity(s, CancelHeld(s, raw, delayed, policy, ttl).0, k, id, until)
    ensures policy == Release ==> k !in CancelHeld(s, raw, delayed, policy, ttl).0.owners
  {
    OwnedKey(s, k, id, until);
    var s' := CancelHeld(s, raw, delayed, policy, ttl).0;
    if policy == Keep { FinalizeEnds(s, k, id, until, Cancelled, s'); }
  }

  lemma CancellingEnds(s: State, a: Action, k: Key, id: TaskId, until: Option<Time>, s': State)
    requires Inv(s) && OwnedBy(s, k, id, until) && (a.ACancelListed? || a.ACancelDelayed?) && a.raw.id == id
    requires s' == Step(s, a).0 && id in s'.tasks && !IsLive(s'.tasks[id])
    ensures if Releases(a) then k !in s'.owners else EndsIdentity(s, s', k, id, until)
  {
    CancelsHeld(s, a, s');
    PurgeEnds(s, a.raw, a.ACancelDelayed?, a.policy, a.ttl, k, id, until);
  }

  lemma CancelsHeld(s: State, a: Action, s': State)
    requires (a.ACancelListed? || a.ACancelDelayed?) && s' == Step(s, a).0 && s' != s
    ensures SlotOf(s, a.raw.id).Some? && SlotOf(s, a.raw.id).value.msg == a.raw
    ensures s' == CancelHeld(s, a.raw, a.ACancelDelayed?, a.policy, a.ttl).0
  {
  }

  predicate LivesOn(s': State, id: TaskId) { id in s'.tasks && IsLive(s'.tasks[id]) }

  lemma ListMoveKeepsLive(s: State, w: Worker, m: Message, check: bool)
    requires Inv(s) && LivesOn(s, m.id)
    ensures LivesOn(Pop(s, w, m).0, m.id) && LivesOn(RecoverStale(s, w, m).0, m.id)
    ensures LivesOn(AdminMoveProcessing(s, w, m, check).0, m.id)
  {
    PopVerdict(s, w, m);
    RecoverVerdict(s, w, m);
    MoveProcessingVerdict(s, w, m, check);
  }

  lemma DelayMoveKeepsLive(s: State, m: Message)
    requires Inv(s) && LivesOn(s, m.id)
    ensures LivesOn(MoveDue(s, m).0, m.id) && LivesOn(AdminMoveDelay(s, m).0, m.id)
  {
    DueVerdict(s, m);
  }

  lemma GivingBackKeepsLive(s: State, w: Worker, m: Message, spent: bool)
    requires Inv(s) && LivesOn(s, m.id)
    ensures LivesOn(ReturnUnstarted(s, w, m).0, m.id) && LivesOn(RecoverAbandoned(s, w, m, spent).0, m.id)
  {
    ReturnVerdict(s, w, m);
    AbandonedVerdict(s, w, m, spent);
  }

  /** The other scripts on a message leave its task alive. */
  lemma MovingKeepsLive(s: State, a: Action, id: TaskId, s': State)
    requires Inv(s) && (Moves(a) || a.AReturn? || a.ARecoverAbandoned?) && a.raw.id == id
    requires LivesOn(s, id) && s' == Step(s, a).0
    ensures LivesOn(s', id)
  {
    if a.AReturn? { GivingBackKeepsLive(s, a.w, a.raw, false); }
    else if a.ARecoverAbandoned? { GivingBackKeepsLive(s, a.w, a.raw, a.spent); }
    else if a.AMoveDue? || a.AMoveDelay? { DelayMoveKeepsLive(s, a.raw); }
    else { ListMoveKeepsLive(s, a.w, a.raw, if a.AMoveProcessing? then a.checkHeartbeat else true); }
  }

  lemma TickKeepsLive(s: State, elapsed: nat, id: TaskId)
    requires TasksOk(s) && LivesOn(s, id)
    ensures LivesOn(Tick(s, elapsed).0, id)
  {
    assert TaskOk(id, s.tasks[id]);
  }

  lemma SweepKeepsLive(s: State, x: TaskId, id: TaskId)
    requires TasksOk(s) && PlansOk(s) && LivesOn(s, id)
    ensures LivesOn(CommitSweep(s, x).0, id)
  {
    assert TaskOk(id, s.tasks[id]);
  }

  lemma AdmittingKeepsLive(s: State, a: Action, id: TaskId)
    requires Fresh(s, a) && (a.AEnqueue? || a.ACommitReplay?) && LivesOn(s, id)
    ensures LivesOn(Step(s, a).0, id)
  {
  }

  lemma OtherStepKeepsLive(s: State, a: Action, id: TaskId, s': State)
    requires Inv(s) && Fresh(s, a) && Subject(a).None? && LivesOn(s, id) && s' == Step(s, a).0
    ensures LivesOn(s', id)
  {
    if a.ATick? { TickKeepsLive(s, a.elapsed, id); }
    else if a.ACommitSweep? { SweepKeepsLive(s, a.id, id); }
    else if a.AEnqueue? || a.ACommitReplay? { AdmittingKeepsLive(s, a, id); }
    else { QuietKeepsTasks(s, a); }
  }

  lemma QuietKeepsTasks(s: State, a: Action)
    requires IsCalm(a) || a.AForget?
    ensures Step(s, a).0.tasks == s.tasks
  {
  }

  lemma ScriptChanges(s: State, a: Action, s': State)
    requires Inv(s) && Fresh(s, a) && Subject(a).Some? && s' == Step(s, a).0
    ensures s' == s || (Edit(s, s', Subject(a).value) && OwnersEdited(s, s', Subject(a).value))
  {
    InvIsLocal(s);
    ScriptsEdit(s, a);
  }

  lemma AnotherTaskStays(s: State, a: Action, id: TaskId, s': State)
    requires Inv(s) && Fresh(s, a) && Subject(a).Some? && Subject(a) != Some(id) && id in s.tasks && s' == Step(s, a).0
    ensures id in s'.tasks && s'.tasks[id] == s.tasks[id]
  {
    ScriptChanges(s, a, s');
    EditLeavesOthers(s, s', Subject(a).value, id);
  }

  lemma EditLeavesOthers(s: State, s': State, subject: TaskId, id: TaskId)
    requires s' == s || Edit(s, s', subject)
    requires id != subject && id in s.tasks
    ensures id in s'.tasks && s'.tasks[id] == s.tasks[id]
  {
  }

  /**
   The step that ends the owner of a key settles the key: retained for the task until its date if that
   is still to come, and free otherwise, or at once if the task was purged with its identity released.
   */
  lemma EndedIsRetained(s: State, a: Action, k: Key, id: TaskId, until: Option<Time>, s': State)
    requires Inv(s) && Fresh(s, a) && OwnedBy(s, k, id, until) && s' == Step(s, a).0
    requires id in s'.tasks && !IsLive(s'.tasks[id])
    ensures if Releases(a) then k !in s'.owners else EndsIdentity(s, s', k, id, until)
  {
    if Subject(a).None? {
      OtherStepKeepsLive(s, a, id, s');
    } else if Subject(a) != Some(id) {
      AnotherTaskStays(s, a, id, s');
    } else if a.ABegin? {
      BeginEnds(s, a, k, id, until, s');
    } else if a.AComplete? || a.AFail? {
      SettlingEnds(s, a, k, id, until, s');
    } else if a.ACancelListed? || a.ACancelDelayed? {
      CancellingEnds(s, a, k, id, until, s');
    } else {
      MovingKeepsLive(s, a, id, s');
    }
  }

  // ---------- From the enqueue to the next one ----------

  /** The key belongs to this task: while it lives, and until its date once it has ended. */
  predicate Belongs(s: State, k: Key, id: TaskId, until: Option<Time>) {
    && id in s.tasks
    && (if IsLive(s.tasks[id]) then OwnedBy(s, k, id, until)
        else until.Some? && s.now < until.value ==> Retained(s.owners, k, id, until.value))
  }

  lemma EditKeepsOwner(s: State, s': State, subject: TaskId, k: Key, id: TaskId, until: Option<Time>)
    requires s' == s || (Edit(s, s', subject) && OwnersEdited(s, s', subject))
    requires OwnedBy(s, k, id, until) && LivesOn(s', id)
    ensures OwnedBy(s', k, id, until)
  {
  }

  lemma LiveStaysOwner(s: State, a: Action, k: Key, id: TaskId, until: Option<Time>, s': State)
    requires Inv(s) && Fresh(s, a) && OwnedBy(s, k, id, until) && !MayRelease(a, k) && s' == Step(s, a).0
    requires LivesOn(s', id)
    ensures OwnedBy(s', k, id, until)
  {
    if Subject(a).Some? {
      ScriptChanges(s, a, s');
      EditKeepsOwner(s, s', Subject(a).value, k, id, until);
    } else {
      OtherStepKeepsOwner(s, a, k, id, until, s');
    }
  }

  lemma OtherStepKeepsOwner(s: State, a: Action, k: Key, id: TaskId, until: Option<Time>, s': State)
    requires OwnersOk(s) && OwnedBy(s, k, id, until) && !MayRelease(a, k) && Subject(a).None? && s' == Step(s, a).0
    requires LivesOn(s', id)
    ensures OwnedBy(s', k, id, until)
  {
    if a.AEnqueue? || a.ACommitReplay? { AdmittingKeepsOwner(s, a, k); }
    else if a.ATick? { TickKeepsOwner(s, a.elapsed, k, id, until); }
    else { QuietKeepsOwner(s, a, k); }
  }

  lemma AdmittingKeepsOwner(s: State, a: Action, k: Key)
    requires k in s.owners && !MayRelease(a, k) && (a.AEnqueue? || a.ACommitReplay?)
    ensures k in Step(s, a).0.owners && Step(s, a).0.owners[k] == s.owners[k]
  {
  }

  lemma TickKeepsOwner(s: State, elapsed: nat, k: Key, id: TaskId, until: Option<Time>)
    requires OwnersOk(s) && OwnedBy(s, k, id, until)
    ensures k in Tick(s, elapsed).0.owners && Tick(s, elapsed).0.owners[k] == s.owners[k]
  {
    assert OwnerOk(s, k, s.owners[k]);
  }

  lemma QuietKeepsOwner(s: State, a: Action, k: Key)
    requires k in s.owners && !MayRelease(a, k) && Subject(a).None? && !a.ATick? && !a.AEnqueue? && !a.ACommitReplay?
    ensures k in Step(s, a).0.owners && Step(s, a).0.owners[k] == s.owners[k]
  {
  }

  /** A purge that ends the task and releases an identity releases this one. */
  lemma ReleasesItsKey(s: State, a: Action, k: Key, id: TaskId, until: Option<Time>, s': State)
    requires Inv(s) && Fresh(s, a) && OwnedBy(s, k, id, until) && s' == Step(s, a).0 && Releases(a)
    requires id in s'.tasks && !IsLive(s'.tasks[id])
    ensures MayRelease(a, k)
  {
    OwnedKey(s, k, id, until);
    if a.raw.id != id { AnotherTaskStays(s, a, id, s'); } else { PurgedKey(s, a, s'); }
  }

  lemma PurgedKey(s: State, a: Action, s': State)
    requires TasksOk(s) && Releases(a) && s' == Step(s, a).0 && s' != s && RecordOf(s, a.raw.id).Some?
    ensures a.raw.spec.logicalKey == RecordOf(s, a.raw.id).value.spec.logicalKey
  {
    CancelsHeld(s, a, s');
    assert TaskOk(a.raw.id, s.tasks[a.raw.id]);
  }

  lemma EndedBelongs(s: State, a: Action, k: Key, id: TaskId, until: Option<Time>, s': State)
    requires Inv(s) && Fresh(s, a) && OwnedBy(s, k, id, until) && !MayRelease(a, k) && s' == Step(s, a).0
    requires id in s'.tasks && !IsLive(s'.tasks[id])
    ensures Belongs(s', k, id, until)
  {
    StepTime(s, a);
    EndedIsRetained(s, a, k, id, until, s');
    if Releases(a) { ReleasesItsKey(s, a, k, id, until, s'); }
  }

  lemma StepKeepsBelonging(s: State, a: Action, k: Key, id: TaskId, until: Option<Time>, s': State)
    requires Inv(s) && Fresh(s, a) && Belongs(s, k, id, until) && !MayRelease(a, k) && s' == Step(s, a).0
    ensures Belongs(s', k, id, until)
  {
    StepPersists(s, a, id);
    StepTime(s, a);
    if IsLive(s.tasks[id]) {
      OwnedKey(s, k, id, until);
      if IsLive(s'.tasks[id]) { LiveStaysOwner(s, a, k, id, until, s'); }
      else { EndedBelongs(s, a, k, id, until, s'); }
    } else if until.Some? && s'.now < until.value {
      StepKeepsRetention(s, a, k, id, until.value);
    }
  }

  lemma {:induction false} RunKeepsBelonging(s: State, run: seq<Action>, k: Key, id: TaskId, until: Option<Time>)
    requires Inv(s) && FreshRun(s, run) && Belongs(s, k, id, until) && forall a <- run :: !MayRelease(a, k)
    ensures Inv(Run(s, run)) && Belongs(Run(s, run), k, id, until)
    decreases |run|
  {
    if run != [] {
      StepKeepsInv(s, run[0]);
      StepKeepsBelonging(s, run[0], k, id, until, Step(s, run[0]).0);
      RunKeepsBelonging(Step(s, run[0]).0, run[1..], k, id, until);
    }
  }

  /** What a rejecting enqueue under a key that belongs to a task is answered. */
  predicate Blocks(s: State, k: Key, id: TaskId, until: Option<Time>, newId: TaskId,
                   spec: TaskSpec, availableAt: Time) {
    RecordOf(s, newId).None? && spec.logicalKey == Some(k) && id in s.tasks ==>
      && (IsLive(s.tasks[id]) ==> Enqueue(s, newId, spec, availableAt, Reject) == (s, DuplicateActive(id)))
      && (!IsLive(s.tasks[id]) && until.Some? && s.now < until.value ==>
            Enqueue(s, newId, spec, availableAt, Reject) == (s, DuplicateRetained(id)))
  }

  lemma BelongingBlocks(s: State, k: Key, id: TaskId, until: Option<Time>, newId: TaskId,
                        spec: TaskSpec, availableAt: Time)
    requires Belongs(s, k, id, until)
    ensures Blocks(s, k, id, until, newId, spec, availableAt)
  {
  }

  lemma AcceptedBelongs(s: State, id: TaskId, spec: TaskSpec, availableAt: Time, onDuplicate: DuplicateAction, k: Key)
    requires spec.logicalKey == Some(k) && Enqueue(s, id, spec, availableAt, onDuplicate).1.Accepted?
    ensures Belongs(Enqueue(s, id, spec, availableAt, onDuplicate).0, k, id, spec.dedupUntil)
  {
  }

  /**
   From the enqueue to the next one: once a task is accepted under a key, every rejecting enqueue of that
   key is answered with its id, as active while it lives and as retained from its end until its date, over
   every run without a forced duplicate, a replay, a releasing purge or a delete of that key.
   */
  lemma AcceptedBlocks(before: seq<Action>, id: TaskId, spec: TaskSpec, availableAt: Time, onDuplicate: DuplicateAction,
                       k: Key, run: seq<Action>, newId: TaskId, other: TaskSpec, otherAt: Time)
    requires FreshRun(EMPTY, before) && id !in Run(EMPTY, before).tasks && spec.logicalKey == Some(k)
    requires Enqueue(Run(EMPTY, before), id, spec, availableAt, onDuplicate).1.Accepted?
    requires FreshRun(Enqueue(Run(EMPTY, before), id, spec, availableAt, onDuplicate).0, run)
    requires forall a <- run :: !MayRelease(a, k)
    ensures var s := Run(Enqueue(Run(EMPTY, before), id, spec, availableAt, onDuplicate).0, run);
      id in s.tasks && Blocks(s, k, id, spec.dedupUntil, newId, other, otherAt)
  {
    var s1 := AcceptedState(before, id, spec, availableAt, onDuplicate, k);
    RunKeepsBelonging(s1, run, k, id, spec.dedupUntil);
    BelongingBlocks(Run(s1, run), k, id, spec.dedupUntil, newId, other, otherAt);
  }

  // ---------- The key is free again ----------

  /** These put another task in possession of the key. */
  predicate Takes(a: Action, k: Key) {
    (a.AEnqueue? && a.spec.logicalKey == Some(k)) || (a.ACommitReplay? && a.spec.logicalKey == Some(k))
  }

  /** Nobody but this task has the key; once it has ended, only a retained identity has it. */
  predicate AtMost(s: State, k: Key, id: TaskId, until: Option<Time>) {
    && id in s.tasks
    && (if IsLive(s.tasks[id]) then k in s.owners ==> OwnedBy(s, k, id, until)
        else k in s.owners ==> until.Some? && Retained(s.owners, k, id, until.value))
  }

  lemma EndsAtMost(s: State, a: Action, k: Key, id: TaskId, until: Option<Time>, s': State)
    requires Inv(s) && Fresh(s, a) && OwnedBy(s, k, id, until) && s' == Step(s, a).0
    requires id in s'.tasks && !IsLive(s'.tasks[id])
    ensures AtMost(s', k, id, until)
  {
    EndedIsRetained(s, a, k, id, until, s');
  }

  /** No script on a message gives a key an owner it did not have, and none touches the owner of a retained key. */
  lemma ScriptOwnersShrink(s: State, a: Action, k: Key, s': State)
    requires Subject(a).Some? && s' == Step(s, a).0 && k in s'.owners
    ensures k in s.owners && s'.owners[k].taskId == s.owners[k].taskId
    ensures s'.owners[k].dedupUntil == s.owners[k].dedupUntil
    ensures s.owners[k].outcome != Live ==> s'.owners[k].outcome != Live
  {
    if a.ACancelListed? || a.ACancelDelayed? { CancelOwnersShrink(s, a, k, s'); }
    else { ScriptOwners(s, a); }
  }

  lemma CancelOwnersShrink(s: State, a: Action, k: Key, s': State)
    requires (a.ACancelListed? || a.ACancelDelayed?) && s' == Step(s, a).0 && k in s'.owners
    ensures k in s.owners && s'.owners[k].taskId == s.owners[k].taskId
    ensures s'.owners[k].dedupUntil == s.owners[k].dedupUntil
    ensures s.owners[k].outcome != Live ==> s'.owners[k].outcome != Live
  {
  }

  lemma OtherOwnersShrink(s: State, a: Action, k: Key, s': State)
    requires Subject(a).None? && !Takes(a, k) && s' == Step(s, a).0 && k in s'.owners
    ensures k in s.owners && s'.owners[k] == s.owners[k]
  {
  }

  lemma OwnersShrink(s: State, a: Action, k: Key, s': State)
    requires !Takes(a, k) && s' == Step(s, a).0 && k in s'.owners
    ensures k in s.owners && s'.owners[k].taskId == s.owners[k].taskId
    ensures s'.owners[k].dedupUntil == s.owners[k].dedupUntil
    ensures s.owners[k].outcome != Live ==> s'.owners[k].outcome != Live
  {
    if Subject(a).Some? { ScriptOwnersShrink(s, a, k, s'); } else { OtherOwnersShrink(s, a, k, s'); }
  }

  lemma LiveKeepsOwner(s: State, a: Action, k: Key, id: TaskId, until: Option<Time>, s': State)
    requires Inv(s) && Fresh(s, a) && OwnedBy(s, k, id, until) && !Takes(a, k) && s' == Step(s, a).0
    requires LivesOn(s', id) && k in s'.owners
    ensures OwnedBy(s', k, id, until)
  {
    if Subject(a).Some? {
      ScriptChanges(s, a, s');
      EditKeepsOwner(s, s', Subject(a).value, k, id, until);
    } else {
      OtherOwnersShrink(s, a, k, s');
    }
  }

  lemma StepKeepsAtMost(s: State, a: Action, k: Key, id: TaskId, until: Option<Time>, s': State)
    requires Inv(s) && Fresh(s, a) && AtMost(s, k, id, until) && !Takes(a, k) && s' == Step(s, a).0
    ensures AtMost(s', k, id, until)
  {
    StepPersists(s, a, id);
    if k in s'.owners {
      OwnersShrink(s, a, k, s');
      if IsLive(s.tasks[id]) {
        if IsLive(s'.tasks[id]) { LiveKeepsOwner(s, a, k, id, until, s'); } else { EndsAtMost(s, a, k, id, until, s'); }
      }
    }
  }

  lemma {:induction false} RunKeepsAtMost(s: State, run: seq<Action>, k: Key, id: TaskId, until: Option<Time>)
    requires Inv(s) && FreshRun(s, run) && AtMost(s, k, id, until) && forall a <- run :: !Takes(a, k)
    ensures Inv(Run(s, run)) && AtMost(Run(s, run), k, id, until)
    decreases |run|
  {
    if run != [] {
      StepKeepsInv(s, run[0]);
      StepKeepsAtMost(s, run[0], k, id, until, Step(s, run[0]).0);
      RunKeepsAtMost(Step(s, run[0]).0, run[1..], k, id, until);
    }
  }

  lemma AtMostIsFree(s: State, k: Key, id: TaskId, until: Option<Time>, newId: TaskId,
                     spec: TaskSpec, availableAt: Time)
    requires OwnersOk(s) && AtMost(s, k, id, until) && !IsLive(s.tasks[id])
    requires until.Some? ==> s.now >= CeilSecond(until.value)
    requires RecordOf(s, newId).None? && spec.logicalKey == Some(k)
    ensures Enqueue(s, newId, spec, availableAt, Reject).1 == Accepted(newId)
  {
    RetainedIsNotOver(s, k);
  }

  lemma RetainedIsNotOver(s: State, k: Key)
    requires OwnersOk(s)
    ensures k in s.owners && s.owners[k].outcome != Live ==>
      s.owners[k].dedupUntil.Some? && s.now < CeilSecond(s.owners[k].dedupUntil.value)
  {
    assert k in s.owners ==> OwnerOk(s, k, s.owners[k]);
  }

  /**
   And not longer: unless somebody else took the key, a rejecting enqueue of it is accepted once the task
   has ended and its date, to the full second, has passed, or has ended and never had a date.
   */
  lemma EndedFrees(before: seq<Action>, id: TaskId, spec: TaskSpec, availableAt: Time, onDuplicate: DuplicateAction,
                   k: Key, run: seq<Action>, newId: TaskId, other: TaskSpec, otherAt: Time)
    requires FreshRun(EMPTY, before) && id !in Run(EMPTY, before).tasks && spec.logicalKey == Some(k)
    requires Enqueue(Run(EMPTY, before), id, spec, availableAt, onDuplicate).1.Accepted?
    requires FreshRun(Enqueue(Run(EMPTY, before), id, spec, availableAt, onDuplicate).0, run)
    requires forall a <- run :: !Takes(a, k)
    ensures var s := Run(Enqueue(Run(EMPTY, before), id, spec, availableAt, onDuplicate).0, run);
      RetentionOver(s, id, spec.dedupUntil) && RecordOf(s, newId).None? && other.logicalKey == Some(k)
      ==> Enqueue(s, newId, other, otherAt, Reject).1 == Accepted(newId)
  {
    var s1 := AcceptedState(before, id, spec, availableAt, onDuplicate, k);
    RunKeepsAtMost(s1, run, k, id, spec.dedupUntil);
    EndedIsFree(Run(s1, run), k, id, spec.dedupUntil, newId, other, otherAt);
  }

  lemma AcceptedState(before: seq<Action>, id: TaskId, spec: TaskSpec, availableAt: Time, onDuplicate: DuplicateAction,
                      k: Key) returns (s: State)
    requires FreshRun(EMPTY, before) && id !in Run(EMPTY, before).tasks && spec.logicalKey == Some(k)
    requires Enqueue(Run(EMPTY, before), id, spec, availableAt, onDuplicate).1.Accepted?
    ensures s == Enqueue(Run(EMPTY, before), id, spec, availableAt, onDuplicate).0 && Inv(s)
    ensures OwnedBy(s, k, id, spec.dedupUntil)
  {
    var s0 := Run(EMPTY, before);
    EmptyOk();
    RunKeepsInv(EMPTY, before);
    EnqueueKeepsInv(s0, id, spec, availableAt, onDuplicate);
    AcceptedBelongs(s0, id, spec, availableAt, onDuplicate, k);
    s := Enqueue(s0, id, spec, availableAt, onDuplicate).0;
  }

  /** The task is over, and so is the time its identity was asked to be kept. */
  predicate RetentionOver(s: State, id: TaskId, until: Option<Time>) {
    id in s.tasks && !IsLive(s.tasks[id]) && (until.Some? ==> s.now >= CeilSecond(until.value))
  }

  lemma EndedIsFree(s: State, k: Key, id: TaskId, until: Option<Time>, newId: TaskId, spec: TaskSpec, availableAt: Time)
    requires OwnersOk(s) && AtMost(s, k, id, until)
    ensures RetentionOver(s, id, until) && RecordOf(s, newId).None? && spec.logicalKey == Some(k)
      ==> Enqueue(s, newId, spec, availableAt, Reject).1 == Accepted(newId)
  {
    if RetentionOver(s, id, until) && RecordOf(s, newId).None? && spec.logicalKey == Some(k) {
      AtMostIsFree(s, k, id, until, newId, spec, availableAt);
    }
  }

  /** A purge with its identity released lets the next producer in at once. */
  lemma ReleasedFrees(s: State, a: Action, k: Key, id: TaskId, until: Option<Time>, newId: TaskId, spec: TaskSpec,
                      availableAt: Time)
    requires Inv(s) && OwnedBy(s, k, id, until) && Releases(a) && a.raw.id == id && Step(s, a).1.WasRemoved?
    requires newId !in s.tasks && spec.logicalKey == Some(k)
    ensures Enqueue(Step(s, a).0, newId, spec, availableAt, Reject).1 == Accepted(newId)
  {
    var s' := Step(s, a).0;
    RemovedIsOver(s, a, s');
    CancellingEnds(s, a, k, id, until, s');
    PurgeAddsNoTask(s, a, s', newId);
  }

  /** An operator's delete lets the next producer in, exactly if the task is over and the key is still its own. */
  lemma ForgottenFrees(s: State, id: TaskId, k: Key, newId: TaskId, spec: TaskSpec, availableAt: Time)
    requires id in s.tasks && newId !in s.tasks && spec.logicalKey == Some(k) && k in s.owners
    ensures var (s', reply) := Forget(s, id, k);
      && (reply == Done <==> (id in s.sweeps || s.tasks[id].record.None?) && s.owners[k].taskId == id)
      && (Enqueue(s', newId, spec, availableAt, Reject).1.Accepted? <==> reply == Done)
  {
  }

  lemma RemovedIsOver(s: State, a: Action, s': State)
    requires Inv(s) && Releases(a) && s' == Step(s, a).0 && Step(s, a).1.WasRemoved?
    ensures a.raw.id in s'.tasks && !IsLive(s'.tasks[a.raw.id])
  {
    if a.ACancelListed? { PurgeListVerdict(s, a.place, a.raw, a.policy, a.force, a.ttl); }
    else { PurgeDelayVerdict(s, a.raw, a.policy, a.ttl); }
  }

  lemma PurgeAddsNoTask(s: State, a: Action, s': State, id: TaskId)
    requires Inv(s) && Fresh(s, a) && Subject(a).Some? && s' == Step(s, a).0 && id !in s.tasks
    ensures RecordOf(s', id).None?
  {
    ScriptChanges(s, a, s');
  }

  // ---------- Generations ----------

  /** Every task accepted under a key is of a later generation than the one the key still remembers. */
  lemma GenerationRises(s: State, id: TaskId, spec: TaskSpec, parent: Option<TaskId>, availableAt: Time, k: Key)
    requires spec.logicalKey == Some(k)
    ensures var s' := Admit(s, id, spec, parent, availableAt);
      && k in s'.owners && RecordOf(s', id).Some? && RecordOf(s', id).value.generation == s'.owners[k].generation >= 1
      && (k in s.owners ==> s'.owners[k].generation > s.owners[k].generation)
  {
  }
}
