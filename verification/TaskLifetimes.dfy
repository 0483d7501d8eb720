/**
 How long things last: a new task waits until it is due, an ended one is kept for its time to live, a
 heartbeat counts until it lapses.  Each is exact: it lasts that long over every run, and no longer.
 */
module TaskLifetimes {
  import opened Prelude
  import opened TaskModel
  import opened TaskInvariants
  import opened TaskTheorems
  import opened ScriptAnswers

  // ---------- Waiting ----------

  /** A new task stands at its place, with no attempt made: in the delay set if it was scheduled for later. */
  predicate IsNew(s: State, s': State, id: TaskId, spec: TaskSpec, availableAt: Time) {
    && SlotOf(s', id).Some? && RecordOf(s', id).Some? && RecordOf(s', id).value.spec == spec
    && IsAt(s', id, if spec.notBefore.Some? && availableAt > s.now then Delay(availableAt) else Ready,
            SlotOf(s', id).value.msg, 0)
    && SlotOf(s', id).value.msg == Message(id, spec, 0, availableAt,
         if spec.notBefore.Some? then OnSchedule else OnEnqueue, None, None, None)
  }

  /** An accepted task starts with no attempt made, ready at once unless it was scheduled for later. */
  lemma AcceptedWaits(s: State, id: TaskId, spec: TaskSpec, availableAt: Time, onDuplicate: DuplicateAction)
    requires Enqueue(s, id, spec, availableAt, onDuplicate).1.Accepted?
    ensures IsNew(s, Enqueue(s, id, spec, availableAt, onDuplicate).0, id, spec, availableAt)
  {
  }

  /** So does an accepted replay, whatever its source had come to. */
  lemma ReplayWaits(s: State, plan: ReplayPlan, id: TaskId, spec: TaskSpec, availableAt: Time, ttl: nat)
    requires id !in s.tasks && CommitReplay(s, plan, id, spec, availableAt, ttl).1.Accepted?
    ensures IsNew(s, CommitReplay(s, plan, id, spec, availableAt, ttl).0, id, spec, availableAt)
  {
  }

  predicate WaitsAt(s: State, id: TaskId, score: Time, m: Message) {
    id in s.tasks && s.tasks[id].slot == Some(Slot(Delay(score), m))
  }

  /** Only an operator takes a delayed message out before its time. */
  predicate Hurries(a: Action, id: TaskId) { (a.AMoveDelay? || a.ACancelDelayed?) && a.raw.id == id }

  lemma WorkersKeepWaiting(s: State, a: Action, id: TaskId, score: Time, m: Message)
    requires WaitsAt(s, id, score, m) && (a.ABegin? || IsSettling(a))
    ensures WaitsAt(Step(s, a).0, id, score, m)
  {
    if a.ABegin? { BeginKeepsWaiting(s, a, id, score, m); } else { SettlingKeepsWaiting(s, a, id, score, m); }
  }

  lemma BeginKeepsWaiting(s: State, a: Action, id: TaskId, score: Time, m: Message)
    requires WaitsAt(s, id, score, m) && a.ABegin?
    ensures WaitsAt(Step(s, a).0, id, score, m)
  {
  }

  lemma SettlingKeepsWaiting(s: State, a: Action, id: TaskId, score: Time, m: Message)
    requires WaitsAt(s, id, score, m) && IsSettling(a)
    ensures WaitsAt(Step(s, a).0, id, score, m)
  {
  }

  lemma MovesKeepWaiting(s: State, a: Action, id: TaskId, score: Time, m: Message)
    requires WaitsAt(s, id, score, m) && Moves(a) && !Hurries(a, id) && s.now < score
    ensures WaitsAt(Step(s, a).0, id, score, m)
  {
    if a.AMoveDue? || a.AMoveDelay? { DelayMovesKeepWaiting(s, a, id, score, m); }
    else { ListMovesKeepWaiting(s, a, id, score, m); }
  }

  lemma ListMovesKeepWaiting(s: State, a: Action, id: TaskId, score: Time, m: Message)
    requires WaitsAt(s, id, score, m) && (a.APop? || a.ARecoverStale? || a.AMoveProcessing?)
    ensures WaitsAt(Step(s, a).0, id, score, m)
  {
  }

  lemma DelayMovesKeepWaiting(s: State, a: Action, id: TaskId, score: Time, m: Message)
    requires WaitsAt(s, id, score, m) && (a.AMoveDue? || a.AMoveDelay?) && !Hurries(a, id) && s.now < score
    ensures WaitsAt(Step(s, a).0, id, score, m)
  {
  }

  lemma RemovalsKeepWaiting(s: State, a: Action, id: TaskId, score: Time, m: Message)
    requires WaitsAt(s, id, score, m) && Removes(a) && !Hurries(a, id)
    ensures WaitsAt(Step(s, a).0, id, score, m)
  {
  }

  lemma OthersKeepWaiting(s: State, a: Action, id: TaskId, score: Time, m: Message)
    requires Inv(s) && WaitsAt(s, id, score, m) && Fresh(s, a) && Subject(a).None?
    ensures WaitsAt(Step(s, a).0, id, score, m)
  {
    assert id !in s.sweeps && forall p <- s.plans :: p.source == id ==> p.requireSource;
    OtherStepKeepsSlot(s, a, id);
  }

  lemma OtherStepKeepsSlot(s: State, a: Action, id: TaskId)
    requires Fresh(s, a) && Subject(a).None? && SlotOf(s, id).Some? && !SlotOf(s, id).value.place.Dlq?
    requires forall p <- s.plans :: p.source == id ==> p.requireSource && (p.message.Some? ==> p.message.value.id == id)
    ensures SlotOf(Step(s, a).0, id) == SlotOf(s, id)
  {
  }

  lemma StepKeepsWaiting(s: State, a: Action, id: TaskId, score: Time, m: Message)
    requires Inv(s) && Fresh(s, a) && WaitsAt(s, id, score, m) && s.now < score && !Hurries(a, id)
    ensures WaitsAt(Step(s, a).0, id, score, m)
  {
    if Subject(a).None? { OthersKeepWaiting(s, a, id, score, m); }
    else if a.ABegin? || IsSettling(a) { WorkersKeepWaiting(s, a, id, score, m); }
    else if Moves(a) { MovesKeepWaiting(s, a, id, score, m); }
    else { RemovalsKeepWaiting(s, a, id, score, m); }
  }

  lemma {:induction false} RunKeepsWaiting(s: State, run: seq<Action>, id: TaskId, score: Time, m: Message)
    requires Inv(s) && FreshRun(s, run) && WaitsAt(s, id, score, m) && forall a <- run :: !Hurries(a, id)
    requires Run(s, run).now < score
    ensures WaitsAt(Run(s, run), id, score, m)
    decreases |run|
  {
    if run != [] {
      var s1 := Step(s, run[0]).0;
      StepKeepsInv(s, run[0]);
      TimeNeverRunsBack(s, run);
      StepKeepsWaiting(s, run[0], id, score, m);
      RunKeepsWaiting(s1, run[1..], id, score, m);
    }
  }

  /**
   A task scheduled for later is not to be had before: from its enqueue until that time it stays where it
   is over every run, short of an operator's move or purge, and from then on the due loop moves it.
   */
  lemma ScheduledWaits(s: State, id: TaskId, spec: TaskSpec, availableAt: Time, onDuplicate: DuplicateAction,
                       run: seq<Action>) returns (m: Message)
    requires Inv(s) && id !in s.tasks && spec.notBefore.Some? && availableAt > s.now
    requires Enqueue(s, id, spec, availableAt, onDuplicate).1.Accepted?
    requires FreshRun(Enqueue(s, id, spec, availableAt, onDuplicate).0, run) && forall a <- run :: !Hurries(a, id)
    ensures m.id == id
    ensures var s' := Run(Enqueue(s, id, spec, availableAt, onDuplicate).0, run);
      && (s'.now < availableAt ==> WaitsAt(s', id, availableAt, m))
      && (s'.now >= availableAt && WaitsAt(s', id, availableAt, m) ==> MoveDue(s', m).1 == WasMoved)
  {
    var s1 := Enqueue(s, id, spec, availableAt, onDuplicate).0;
    EnqueueKeepsInv(s, id, spec, availableAt, onDuplicate);
    AcceptedWaits(s, id, spec, availableAt, onDuplicate);
    m := SlotOf(s1, id).value.msg;
    WaitsThenMoves(s1, id, availableAt, m, run);
  }

  lemma WaitsThenMoves(s: State, id: TaskId, score: Time, m: Message, run: seq<Action>)
    requires Inv(s) && WaitsAt(s, id, score, m) && FreshRun(s, run) && forall a <- run :: !Hurries(a, id)
    ensures var s' := Run(s, run);
      && (s'.now < score ==> WaitsAt(s', id, score, m))
      && (s'.now >= score && WaitsAt(s', id, score, m) && m.id == id ==> MoveDue(s', m).1 == WasMoved)
  {
    var s' := Run(s, run);
    if s'.now < score { RunKeepsWaiting(s, run, id, score, m); }
    else if m.id == id { DueMoves(s', id, score, m); }
  }

  lemma DueMoves(s: State, id: TaskId, score: Time, m: Message)
    requires m.id == id && s.now >= score
    ensures WaitsAt(s, id, score, m) ==> MoveDue(s, m).1 == WasMoved
  {
  }

  // ---------- The record of an ended task ----------

  /** The record of a task without a message, until its time to live runs out. */
  predicate KeptUntil(s: State, id: TaskId, until: Time) {
    && id in s.tasks && s.tasks[id].slot.None?
    && (s.tasks[id].record.Some? <==> s.now < until)
    && (s.tasks[id].record.Some? ==> s.tasks[id].record.value.expireAt == Some(until))
  }

  /** A cleaner's delete, or a replay, which gives the record a new time to live. */
  predicate Disturbs(a: Action, id: TaskId) {
    (a.ACommitSweep? && a.id == id) || (a.ACommitReplay? && a.plan.source == id)
  }

  lemma ScriptKeepsRecord(s: State, a: Action, id: TaskId, until: Time, s': State)
    requires Inv(s) && Fresh(s, a) && KeptUntil(s, id, until) && Subject(a).Some? && s' == Step(s, a).0
    ensures KeptUntil(s', id, until)
  {
    InvIsLocal(s);
    ScriptsEdit(s, a);
    EditKeepsRecord(s, s', Subject(a).value, id, until);
  }

  lemma EditKeepsRecord(s: State, s': State, subject: TaskId, id: TaskId, until: Time)
    requires KeptUntil(s, id, until) && (s' == s || Edit(s, s', subject))
    ensures KeptUntil(s', id, until)
  {
  }

  lemma OtherStepKeepsRecord(s: State, a: Action, id: TaskId, until: Time)
    requires Fresh(s, a) && KeptUntil(s, id, until) && Subject(a).None? && !Disturbs(a, id)
    ensures KeptUntil(Step(s, a).0, id, until)
  {
    if a.ATick? { TickKeepsRecord(s, a.elapsed, id, until); }
    else if a.AEnqueue? || a.ACommitReplay? { AdmittingKeepsRecord(s, a, id, until); }
    else { QuietKeepsRecord(s, a, id, until); }
  }

  lemma TickKeepsRecord(s: State, elapsed: nat, id: TaskId, until: Time)
    requires KeptUntil(s, id, until)
    ensures KeptUntil(Tick(s, elapsed).0, id, until)
  {
  }

  lemma AdmittingKeepsRecord(s: State, a: Action, id: TaskId, until: Time)
    requires Fresh(s, a) && KeptUntil(s, id, until) && (a.AEnqueue? || a.ACommitReplay?) && !Disturbs(a, id)
    ensures KeptUntil(Step(s, a).0, id, until)
  {
  }

  lemma QuietKeepsRecord(s: State, a: Action, id: TaskId, until: Time)
    requires KeptUntil(s, id, until) && (IsCalm(a) || a.AForget? || a.ACommitSweep?) && !Disturbs(a, id)
    ensures KeptUntil(Step(s, a).0, id, until)
  {
    if a.ACommitSweep? { SweepKeepsOthers(s, a.id, id, until); }
  }

  lemma SweepKeepsOthers(s: State, x: TaskId, id: TaskId, until: Time)
    requires KeptUntil(s, id, until) && x != id
    ensures KeptUntil(CommitSweep(s, x).0, id, until)
  {
  }

  lemma {:induction false} RunKeepsRecord(s: State, run: seq<Action>, id: TaskId, until: Time)
    requires Inv(s) && FreshRun(s, run) && KeptUntil(s, id, until) && forall a <- run :: !Disturbs(a, id)
    ensures KeptUntil(Run(s, run), id, until)
    decreases |run|
  {
    if run != [] {
      StepKeepsInv(s, run[0]);
      if Subject(run[0]).Some? { ScriptKeepsRecord(s, run[0], id, until, Step(s, run[0]).0); }
      else { OtherStepKeepsRecord(s, run[0], id, until); }
      RunKeepsRecord(Step(s, run[0]).0, run[1..], id, until);
    }
  }

  /** The record of a task that is over is there for exactly its time to live, unless a cleaner takes it before. */
  lemma OverIsKept(s: State, run: seq<Action>, id: TaskId, outcome: Outcome, finishedAt: Time, until: Time)
    requires Inv(s) && IsOver(s, id, outcome, finishedAt, until) && s.now < until
    requires FreshRun(s, run) && forall a <- run :: !Disturbs(a, id)
    ensures RecordOf(Run(s, run), id).Some? <==> Run(s, run).now < until
  {
    RunKeepsRecord(s, run, id, until);
  }

  /** A cleaner may plan to remove exactly an ended task without a message, and then removes its record. */
  lemma SweepVerdict(s: State, id: TaskId)
    requires Inv(s)
    ensures PlanSweep(s, id).1 == Planned <==>
      RecordOf(s, id).Some? && RecordOf(s, id).value.outcome != Live && SlotOf(s, id).None?
    ensures PlanSweep(s, id).1 == Planned ==> RecordOf(CommitSweep(PlanSweep(s, id).0, id).0, id).None?
  {
    if id in s.tasks { assert TaskOk(id, s.tasks[id]); }
  }

  // ---------- Heartbeats ----------

  predicate BeatsUntil(s: State, w: Worker, until: Time) {
    (w in s.heartbeats <==> s.now < until) && (w in s.heartbeats ==> s.heartbeats[w] == until)
  }

  predicate Beats(a: Action, w: Worker) { (a.AHeartbeat? || a.ADropHeartbeat?) && a.w == w }

  lemma HeartbeatsStay(s: State, a: Action)
    requires !a.ATick? && !a.AHeartbeat? && !a.ADropHeartbeat?
    ensures Step(s, a).0.heartbeats == s.heartbeats && Step(s, a).0.now == s.now
  {
    if Subject(a).Some? { ScriptsKeepHeartbeats(s, a); }
  }

  lemma ScriptsKeepHeartbeats(s: State, a: Action)
    requires Subject(a).Some?
    ensures Step(s, a).0.heartbeats == s.heartbeats && Step(s, a).0.now == s.now
  {
    if a.ABegin? { BeginKeepsHeartbeats(s, a); }
    else if IsSettling(a) { SettlingKeepsHeartbeats(s, a); }
    else if Moves(a) { MovesKeepHeartbeats(s, a); }
  }

  lemma MovesKeepHeartbeats(s: State, a: Action)
    requires Moves(a)
    ensures Step(s, a).0.heartbeats == s.heartbeats && Step(s, a).0.now == s.now
  {
  }

  lemma BeginKeepsHeartbeats(s: State, a: Action)
    requires a.ABegin?
    ensures Step(s, a).0.heartbeats == s.heartbeats && Step(s, a).0.now == s.now
  {
  }

  lemma SettlingKeepsHeartbeats(s: State, a: Action)
    requires IsSettling(a)
    ensures Step(s, a).0.heartbeats == s.heartbeats && Step(s, a).0.now == s.now
  {
  }

  lemma StepKeepsBeat(s: State, a: Action, w: Worker, until: Time)
    requires BeatsUntil(s, w, until) && !Beats(a, w)
    ensures BeatsUntil(Step(s, a).0, w, until)
  {
    if !a.ATick? && !a.AHeartbeat? && !a.ADropHeartbeat? { HeartbeatsStay(s, a); }
  }

  lemma {:induction false} RunKeepsBeat(s: State, run: seq<Action>, w: Worker, until: Time)
    requires BeatsUntil(s, w, until) && forall a <- run :: !Beats(a, w)
    ensures BeatsUntil(Run(s, run), w, until)
    decreases |run|
  {
    if run != [] {
      StepKeepsBeat(s, run[0], w, until);
      RunKeepsBeat(Step(s, run[0]).0, run[1..], w, until);
    }
  }

  /** A heartbeat counts for exactly as long as it was set to, whatever anyone else does. */
  lemma HeartbeatLapses(s: State, w: Worker, ttl: nat, run: seq<Action>)
    requires ttl > 0 && forall a <- run :: !Beats(a, w)
    ensures var s' := Run(Heartbeat(s, w, ttl).0, run); w in s'.heartbeats <==> s'.now < s.now + ttl
  {
    RunKeepsBeat(Heartbeat(s, w, ttl).0, run, w, s.now + ttl);
  }

  /** A worker that drains is gone at once. */
  lemma DrainedIsGone(s: State, w: Worker, run: seq<Action>)
    requires forall a <- run :: !Beats(a, w)
    ensures w !in Run(DropHeartbeat(s, w).0, run).heartbeats
  {
    var s1 := DropHeartbeat(s, w).0;
    RunKeepsAbsent(s1, run, w);
  }

  lemma StepKeepsAbsent(s: State, a: Action, w: Worker)
    requires w !in s.heartbeats && !Beats(a, w)
    ensures w !in Step(s, a).0.heartbeats
  {
    if !a.ATick? && !a.AHeartbeat? && !a.ADropHeartbeat? { HeartbeatsStay(s, a); }
  }

  lemma {:induction false} RunKeepsAbsent(s: State, run: seq<Action>, w: Worker)
    requires w !in s.heartbeats && forall a <- run :: !Beats(a, w)
    ensures w !in Run(s, run).heartbeats
    decreases |run|
  {
    if run != [] {
      StepKeepsAbsent(s, run[0], w);
      RunKeepsAbsent(Step(s, run[0]).0, run[1..], w);
    }
  }
}
