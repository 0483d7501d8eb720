/**
 When an ended task may be replayed: what the administrator's reads allow, what the script then accepts,
 and that a plan stays good until its dead-letter message is gone or its identity is taken.
 */
module TaskReplays {
  import opened Prelude
  import opened TaskModel
  import opened TaskInvariants
  import opened TaskTheorems

  // ---------- Planning ----------

  function OutcomeOf(s: State, id: TaskId): Outcome {
    if RecordOf(s, id).Some? then RecordOf(s, id).value.outcome else Live
  }

  predicate InDeadLetters(s: State, id: TaskId) { SlotOf(s, id).Some? && SlotOf(s, id).value.place.Dlq? }

  /** An ended task's flag and place agree. */
  lemma EndedPlace(s: State, id: TaskId)
    requires TasksOk(s) && RecordOf(s, id).Some? && OutcomeOf(s, id) != Live
    ensures RecordOf(s, id).value.operational <==> SlotOf(s, id).Some?
    ensures SlotOf(s, id).Some? <==> InDeadLetters(s, id)
  {
    assert TaskOk(id, s.tasks[id]);
  }

  /** What planning a replay of the task is answered. */
  predicate PlanReplyFits(s: State, id: TaskId, requireDlq: bool, reply: Reply) {
    && (reply == Planned <==>
          OutcomeOf(s, id) in {Failed, Skipped, Cancelled}
          && (InDeadLetters(s, id) || (!requireDlq && SlotOf(s, id).None?)))
    && (reply == MissingSource <==> RecordOf(s, id).None?)
    && (reply == NotReplayable <==> RecordOf(s, id).Some? && OutcomeOf(s, id) in {Live, Completed})
  }

  lemma PlanAnswers(s: State, id: TaskId, requireDlq: bool)
    requires RecordOf(s, id).Some? && OutcomeOf(s, id) != Live ==>
      (RecordOf(s, id).value.operational <==> SlotOf(s, id).Some?) && (SlotOf(s, id).Some? <==> InDeadLetters(s, id))
    ensures PlanReplyFits(s, id, requireDlq, PlanReplay(s, id, requireDlq).1)
  {
  }

  /**
   A replay may be planned exactly for a task that failed, was skipped or was cancelled, whose message is in
   the dead-letter list or, unless one is asked for, that has none.
   */
  lemma PlanVerdict(s: State, id: TaskId, requireDlq: bool)
    requires TasksOk(s)
    ensures PlanReplyFits(s, id, requireDlq, PlanReplay(s, id, requireDlq).1)
  {
    if RecordOf(s, id).Some? && OutcomeOf(s, id) != Live { EndedPlace(s, id); }
    PlanAnswers(s, id, requireDlq);
  }

  /** The plan a successful read leaves: it names the dead-letter message if there is one, and then insists on it. */
  predicate PlannedFrom(s: State, s1: State, id: TaskId, requireDlq: bool, plan: ReplayPlan) {
    && s1 == s.(plans := s.plans + {plan}) && plan.source == id
    && (plan.requireSource <==> InDeadLetters(s, id))
    && plan.message == (if InDeadLetters(s, id) then Some(SlotOf(s, id).value.msg) else None)
  }

  lemma PlanIsFaithful(s: State, id: TaskId, requireDlq: bool) returns (plan: ReplayPlan)
    requires TasksOk(s) && PlanReplay(s, id, requireDlq).1 == Planned
    ensures PlannedFrom(s, PlanReplay(s, id, requireDlq).0, id, requireDlq, plan)
  {
    EndedPlace(s, id);
    var message := if InDeadLetters(s, id) then Some(SlotOf(s, id).value.msg) else None;
    plan := ReplayPlan(id, message, requireDlq || RecordOf(s, id).value.operational);
  }

  // ---------- Committing ----------

  /** No other task owns the key the replay asks for. */
  predicate KeyAllows(s: State, spec: TaskSpec, source: TaskId) {
    spec.logicalKey.Some? && spec.logicalKey.value in s.owners ==> s.owners[spec.logicalKey.value].taskId == source
  }

  /** The source is as the plan saw it: still ended and, if it had a message, still in the dead-letter list. */
  predicate StillGood(s: State, plan: ReplayPlan) {
    && OutcomeOf(s, plan.source) in {Failed, Skipped, Cancelled}
    && (plan.requireSource ==> plan.message.Some? && SlotOf(s, plan.source) == Some(Slot(Dlq, plan.message.value)))
  }

  /** A planned replay with a new id is accepted exactly while its source is as it was and its key is not another's. */
  lemma CommitVerdict(s: State, plan: ReplayPlan, newId: TaskId, spec: TaskSpec, availableAt: Time, ttl: nat)
    requires PlansOk(s) && plan in s.plans && newId !in s.tasks
    ensures CommitReplay(s, plan, newId, spec, availableAt, ttl).1 == Accepted(newId)
      <==> StillGood(s, plan) && KeyAllows(s, spec, plan.source)
    ensures !CommitReplay(s, plan, newId, spec, availableAt, ttl).1.Accepted? ==>
      CommitReplay(s, plan, newId, spec, availableAt, ttl).0 == s
  {
  }

  /** What was just allowed is accepted. */
  lemma PlannedIsAccepted(s: State, id: TaskId, requireDlq: bool, newId: TaskId, spec: TaskSpec, availableAt: Time,
                          ttl: nat) returns (plan: ReplayPlan)
    requires Inv(s) && PlanReplay(s, id, requireDlq).1 == Planned && newId !in s.tasks && KeyAllows(s, spec, id)
    ensures PlannedFrom(s, PlanReplay(s, id, requireDlq).0, id, requireDlq, plan)
    ensures CommitReplay(PlanReplay(s, id, requireDlq).0, plan, newId, spec, availableAt, ttl).1 == Accepted(newId)
  {
    var s1 := PlanReplay(s, id, requireDlq).0;
    PlanVerdict(s, id, requireDlq);
    plan := PlanIsFaithful(s, id, requireDlq);
    PlannedIsGood(s, s1, id, requireDlq, plan);
    PlanKeepsPlans(s, id, requireDlq);
    CommitVerdict(s1, plan, newId, spec, availableAt, ttl);
  }

  lemma PlannedIsGood(s: State, s1: State, id: TaskId, requireDlq: bool, plan: ReplayPlan)
    requires PlannedFrom(s, s1, id, requireDlq, plan) && OutcomeOf(s, id) in {Failed, Skipped, Cancelled}
    ensures plan in s1.plans && StillGood(s1, plan)
  {
  }

  lemma PlanKeepsPlans(s: State, id: TaskId, requireDlq: bool)
    requires Inv(s)
    ensures Inv(PlanReplay(s, id, requireDlq).0)
  {
    StepKeepsInv(s, APlanReplay(id, requireDlq));
  }

  // ---------- In between ----------

  /** A dead letter is not exchanged: its message stays or is gone. */
  predicate DeadLetterKept(s: State, s': State, id: TaskId, m: Message) {
    SlotOf(s, id) == Some(Slot(Dlq, m)) ==> SlotOf(s', id) == Some(Slot(Dlq, m)) || SlotOf(s', id).None?
  }

  lemma WorkersKeepDeadLetters(s: State, a: Action, id: TaskId, m: Message)
    requires a.APop? || a.ABegin? || IsSettling(a) || a.ARecoverAbandoned?
    requires SlotOf(s, id) == Some(Slot(Dlq, m))
    ensures SlotOf(Step(s, a).0, id) == SlotOf(s, id)
  {
    if a.ABegin? { BeginKeepsDeadLetter(s, a, id, m); } else if IsSettling(a) { SettlingKeepsDeadLetter(s, a, id, m); }
  }

  lemma BeginKeepsDeadLetter(s: State, a: Action, id: TaskId, m: Message)
    requires a.ABegin? && SlotOf(s, id) == Some(Slot(Dlq, m))
    ensures SlotOf(Step(s, a).0, id) == SlotOf(s, id)
  {
  }

  lemma SettlingKeepsDeadLetter(s: State, a: Action, id: TaskId, m: Message)
    requires IsSettling(a) && SlotOf(s, id) == Some(Slot(Dlq, m))
    ensures SlotOf(Step(s, a).0, id) == SlotOf(s, id)
  {
  }

  lemma ListMovesKeepDeadLetter(s: State, a: Action, id: TaskId, m: Message)
    requires (a.ARecoverStale? || a.AMoveProcessing?) && SlotOf(s, id) == Some(Slot(Dlq, m))
    ensures SlotOf(Step(s, a).0, id) == SlotOf(s, id)
  {
  }

  lemma DelayMovesKeepDeadLetter(s: State, a: Action, id: TaskId, m: Message)
    requires (a.AMoveDue? || a.AMoveDelay?) && SlotOf(s, id) == Some(Slot(Dlq, m))
    ensures SlotOf(Step(s, a).0, id) == SlotOf(s, id)
  {
  }

  lemma CancelsKeepDeadLetter(s: State, a: Action, id: TaskId, m: Message)
    requires (a.ACancelListed? || a.ACancelDelayed?) && SlotOf(s, id) == Some(Slot(Dlq, m))
    ensures DeadLetterKept(s, Step(s, a).0, id, m)
  {
  }

  lemma OthersKeepDeadLetter(s: State, a: Action, id: TaskId, m: Message)
    requires Fresh(s, a) && Subject(a).None? && SlotOf(s, id) == Some(Slot(Dlq, m))
    ensures DeadLetterKept(s, Step(s, a).0, id, m)
  {
  }

  lemma StepKeepsDeadLetter(s: State, a: Action, id: TaskId, m: Message)
    requires Fresh(s, a) && SlotOf(s, id) == Some(Slot(Dlq, m))
    ensures DeadLetterKept(s, Step(s, a).0, id, m)
  {
    if Subject(a).None? { OthersKeepDeadLetter(s, a, id, m); }
    else if a.AMoveDue? || a.AMoveDelay? { DelayMovesKeepDeadLetter(s, a, id, m); }
    else if a.ARecoverStale? || a.AMoveProcessing? { ListMovesKeepDeadLetter(s, a, id, m); }
    else if a.ACancelListed? || a.ACancelDelayed? { CancelsKeepDeadLetter(s, a, id, m); }
    else { WorkersKeepDeadLetters(s, a, id, m); }
  }

  lemma {:induction false} RunKeepsDeadLetter(s: State, run: seq<Action>, id: TaskId, m: Message)
    requires Inv(s) && FreshRun(s, run) && id in s.tasks && SlotOf(s, id) == Some(Slot(Dlq, m))
    ensures DeadLetterKept(s, Run(s, run), id, m)
    decreases |run|
  {
    if run != [] {
      var s1 := Step(s, run[0]).0;
      StepKeepsInv(s, run[0]);
      StepPersists(s, run[0], id);
      StepKeepsDeadLetter(s, run[0], id, m);
      if SlotOf(s1, id).Some? { RunKeepsDeadLetter(s1, run[1..], id, m); } else { RunPersists(s1, run[1..], id); }
    }
  }

  lemma {:induction false} PlansStay(s: State, run: seq<Action>, plan: ReplayPlan)
    requires plan in s.plans
    ensures plan in Run(s, run).plans
    decreases |run|
  {
    if run != [] {
      StepKeepsPlan(s, run[0], plan);
      PlansStay(Step(s, run[0]).0, run[1..], plan);
    }
  }

  lemma StepKeepsPlan(s: State, a: Action, plan: ReplayPlan)
    requires plan in s.plans
    ensures plan in Step(s, a).0.plans
  {
  }

  /**
   However late an administrator acts on a plan: it is accepted exactly if the source's record still exists,
   the dead-letter message the plan insists on has not been taken, and the key is not another task's.
   */
  lemma LatePlanVerdict(s: State, id: TaskId, requireDlq: bool, run: seq<Action>, newId: TaskId, spec: TaskSpec,
                        availableAt: Time, ttl: nat) returns (plan: ReplayPlan)
    requires Inv(s) && PlanReplay(s, id, requireDlq).1 == Planned && FreshRun(PlanReplay(s, id, requireDlq).0, run)
    requires newId !in Run(PlanReplay(s, id, requireDlq).0, run).tasks
    ensures PlannedFrom(s, PlanReplay(s, id, requireDlq).0, id, requireDlq, plan)
    ensures var s' := Run(PlanReplay(s, id, requireDlq).0, run);
      CommitReplay(s', plan, newId, spec, availableAt, ttl).1 == Accepted(newId)
      <==> RecordOf(s', id).Some? && (plan.requireSource ==> SlotOf(s', id).Some?) && KeyAllows(s', spec, id)
  {
    var s1 := PlanReplay(s, id, requireDlq).0;
    PlanVerdict(s, id, requireDlq);
    plan := PlanIsFaithful(s, id, requireDlq);
    PlannedIsGood(s, s1, id, requireDlq, plan);
    PlanKeepsPlans(s, id, requireDlq);
    LateIsGood(s1, run, plan);
    CommitVerdict(Run(s1, run), plan, newId, spec, availableAt, ttl);
  }

  lemma LateIsGood(s: State, run: seq<Action>, plan: ReplayPlan)
    requires Inv(s) && FreshRun(s, run) && plan in s.plans && plan.source in s.tasks && StillGood(s, plan)
    ensures var s' := Run(s, run);
      && PlansOk(s') && plan in s'.plans
      && (StillGood(s', plan) <==>
            RecordOf(s', plan.source).Some? && (plan.requireSource ==> SlotOf(s', plan.source).Some?))
  {
    RunKeepsInv(s, run);
    PlansStay(s, run, plan);
    RunPersists(s, run, plan.source);
    if plan.requireSource { RunKeepsDeadLetter(s, run, plan.source, plan.message.value); }
    GoodWhilePresent(s, Run(s, run), plan);
  }

  lemma GoodWhilePresent(s: State, s': State, plan: ReplayPlan)
    requires plan.source in s.tasks && plan.source in s'.tasks && StillGood(s, plan)
    requires Persists(s.tasks[plan.source], s'.tasks[plan.source])
    requires plan.requireSource ==> DeadLetterKept(s, s', plan.source, plan.message.value)
    ensures StillGood(s', plan) <==>
      RecordOf(s', plan.source).Some? && (plan.requireSource ==> SlotOf(s', plan.source).Some?)
  {
  }
}
