/**
 The history's own update script beside the queue's scripts.  It writes whatever fields its caller
 gives, and it is meant never to reopen or rewrite an outcome.  With it among the clients the
 invariant of `TaskInvariants` is lost, since any field may be overwritten; the finality of outcomes
 is not, unless a caller writes an empty outcome.
 */
module OutcomeFinality {
  import opened Prelude
  import opened TaskModel

  /** The caller's outcome field. */
  datatype Asked = NotGiven | Blank | Ask(outcome: Outcome)

  /** The caller's status field: absent or empty, the name of an outcome, or anything else. */
  datatype Status = NoStatus | Names(outcome: Outcome) | OtherStatus

  datatype Request = Request(outcome: Asked, status: Status)

  /** The outcome the script is told was asked for: a status that names an ended outcome counts as one. */
  function Requested(q: Request): Option<Outcome> {
    if q.outcome.Ask? then Some(q.outcome.outcome)
    else if q.status.Names? && q.status.outcome != Live then Some(q.status.outcome)
    else None
  }

  /** What is written over the record's outcome, if anything. */
  function Written(q: Request): Option<Outcome> {
    if Requested(q).Some? then Requested(q) else if q.outcome.Blank? then Some(Live) else None
  }

  /** The guard: an ended record refuses another outcome, and a status that is not its outcome. */
  predicate IsRefused(rec: Record, q: Request) {
    && rec.outcome != Live
    && if Requested(q).Some? then Requested(q).value != rec.outcome else !q.status.NoStatus?
  }

  /** TaskHistory.update; `fields` are the values the other fields end up with. */
  function Update(s: State, id: TaskId, q: Request, fields: Record, ttl: nat): State {
    match RecordOf(s, id)
    case None => s
    case Some(rec) =>
      if IsRefused(rec, q) then s
      else
        var outcome := if Written(q).Some? then Written(q).value else rec.outcome;
        var rec' := fields.(outcome := outcome,
                            expireAt := if outcome != Live && !fields.operational then Some(s.now + ttl) else None);
        Put(s, id, s.tasks[id].(record := Some(rec')))
  }

  // ---------- One step ----------

  /** An empty outcome with no status: the guard has nothing to compare, and the write goes through. */
  predicate Reopens(q: Request) { q.outcome.Blank? && q.status.NoStatus? }

  /** An update leaves the outcome of an ended record alone if and only if it does not write an empty one. */
  lemma UpdateKeepsOutcomeIff(s: State, id: TaskId, q: Request, fields: Record, ttl: nat)
    requires RecordOf(s, id).Some? && RecordOf(s, id).value.outcome != Live
    ensures RecordOf(Update(s, id, q, fields, ttl), id).Some?
    ensures RecordOf(Update(s, id, q, fields, ttl), id).value.outcome == RecordOf(s, id).value.outcome <==> !Reopens(q)
    ensures Reopens(q) ==> RecordOf(Update(s, id, q, fields, ttl), id).value.outcome == Live
  {
  }

  /** A record that has ended keeps its outcome, if it still exists. */
  predicate Sealed(r: Option<Record>, r': Option<Record>) {
    r.Some? && r.value.outcome != Live && r'.Some? ==> r'.value.outcome == r.value.outcome
  }

  /** The step keeps the task, and seals its record. */
  predicate Seals(s: State, s': State, id: TaskId) {
    id in s'.tasks && Sealed(RecordOf(s, id), RecordOf(s', id))
  }

  lemma BeginSeals(s: State, w: Worker, raw: Message, claim: Token, lease: Token, time: Timing, id: TaskId)
    requires id in s.tasks
    ensures Seals(s, Begin(s, w, raw, claim, lease, time).0, id)
  {
  }

  predicate Settles(a: Action) { a.AComplete? || a.AFail? || a.AReturn? }

  lemma SettlingSeals(s: State, a: Action, id: TaskId)
    requires id in s.tasks && Settles(a)
    ensures Seals(s, Step(s, a).0, id)
  {
  }

  lemma BackToReadySeals(s: State, m: Message, reindex: bool, id: TaskId)
    requires id in s.tasks && m.id in s.tasks
    ensures Seals(s, BackToReady(s, m, reindex), id)
  {
  }

  lemma ListMovesSeal(s: State, a: Action, id: TaskId)
    requires id in s.tasks && (a.ARecoverStale? || a.AMoveProcessing?)
    ensures Seals(s, Step(s, a).0, id)
  {
    if a.raw.id in s.tasks { BackToReadySeals(s, a.raw, true, id); }
  }

  lemma DelayMovesSeal(s: State, a: Action, id: TaskId)
    requires id in s.tasks && (a.AMoveDue? || a.AMoveDelay?)
    ensures Seals(s, Step(s, a).0, id)
  {
    if a.raw.id in s.tasks { BackToReadySeals(s.(metrics := LeaveRetryWait(s.metrics, a.raw)), a.raw, false, id); }
  }

  predicate Moves(a: Action) { a.ARecoverStale? || a.AMoveProcessing? || a.AMoveDue? || a.AMoveDelay? }

  predicate Removes(a: Action) { a.ARecoverAbandoned? || a.ACancelListed? || a.ACancelDelayed? }

  lemma RemovingSeals(s: State, a: Action, id: TaskId)
    requires id in s.tasks && Removes(a)
    ensures Seals(s, Step(s, a).0, id)
  {
  }

  lemma AdmittingSeals(s: State, a: Action, id: TaskId)
    requires id in s.tasks && Fresh(s, a) && (a.AEnqueue? || a.ACommitReplay?)
    ensures Seals(s, Step(s, a).0, id)
  {
  }

  lemma OtherStepSeals(s: State, a: Action, id: TaskId)
    requires id in s.tasks && !a.ABegin? && !Settles(a) && !Moves(a) && !Removes(a) && !a.AEnqueue? && !a.ACommitReplay?
    ensures Seals(s, Step(s, a).0, id)
  {
  }

  lemma ScriptSeals(s: State, a: Action, id: TaskId)
    requires id in s.tasks && Fresh(s, a)
    ensures Seals(s, Step(s, a).0, id)
  {
    if a.ABegin? { BeginSeals(s, a.w, a.raw, a.claim, a.lease, a.time, id); }
    else if Settles(a) { SettlingSeals(s, a, id); }
    else if a.ARecoverStale? || a.AMoveProcessing? { ListMovesSeal(s, a, id); }
    else if a.AMoveDue? || a.AMoveDelay? { DelayMovesSeal(s, a, id); }
    else if Removes(a) { RemovingSeals(s, a, id); }
    else if a.AEnqueue? || a.ACommitReplay? { AdmittingSeals(s, a, id); }
    else { OtherStepSeals(s, a, id); }
  }

  // ---------- Runs ----------

  datatype Event = Script(a: Action) | Updated(id: TaskId, q: Request, fields: Record, ttl: nat)

  function NextEvent(s: State, e: Event): State {
    match e
    case Script(a) => Step(s, a).0
    case Updated(id, q, fields, ttl) => Update(s, id, q, fields, ttl)
  }

  predicate FreshEvents(s: State, es: seq<Event>)
    decreases |es|
  {
    es == [] || ((es[0].Script? ==> Fresh(s, es[0].a)) && FreshEvents(NextEvent(s, es[0]), es[1..]))
  }

  function AfterEvents(s: State, es: seq<Event>): State
    decreases |es|
  {
    if es == [] then s else AfterEvents(NextEvent(s, es[0]), es[1..])
  }

  predicate ReopensTask(e: Event, id: TaskId) { e.Updated? && e.id == id && Reopens(e.q) }

  lemma EventSeals(s: State, e: Event, id: TaskId)
    requires id in s.tasks && (e.Script? ==> Fresh(s, e.a)) && !ReopensTask(e, id)
    ensures Seals(s, NextEvent(s, e), id)
  {
    if e.Script? {
      ScriptSeals(s, e.a, id);
    } else if e.id == id && RecordOf(s, id).Some? && RecordOf(s, id).value.outcome != Live {
      UpdateKeepsOutcomeIff(s, id, e.q, e.fields, e.ttl);
    }
  }

  /** The record has not been deleted or expired in between. */
  predicate KeptThroughout(s: State, es: seq<Event>, id: TaskId)
    decreases |es|
  {
    RecordOf(s, id).Some? && (es == [] || KeptThroughout(NextEvent(s, es[0]), es[1..], id))
  }

  /**
   From any state whatever, over any interleaving of scripts and history updates: as long as the
   record exists and nobody writes an empty outcome over it, an outcome once set never changes.
   */
  lemma {:induction false} OutcomeSurvivesUpdates(s: State, es: seq<Event>, id: TaskId)
    requires FreshEvents(s, es) && KeptThroughout(s, es, id) && forall e <- es :: !ReopensTask(e, id)
    requires RecordOf(s, id).value.outcome != Live
    ensures RecordOf(AfterEvents(s, es), id).Some?
    ensures RecordOf(AfterEvents(s, es), id).value.outcome == RecordOf(s, id).value.outcome
    decreases |es|
  {
    if es != [] {
      EventSeals(s, es[0], id);
      OutcomeSurvivesUpdates(NextEvent(s, es[0]), es[1..], id);
    }
  }
}
