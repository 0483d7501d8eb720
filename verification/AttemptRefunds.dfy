/**
 An attempt is given back at most once.  Two scripts give attempts back: the return of an unstarted
 claim and the recovery of an abandoned one.  Whatever clients do, and whether or not workers keep to
 the guard of `WorkerClaims`, no two of their refunds carry the same claim token.
 */
module AttemptRefunds {
  import opened Prelude
  import opened TaskModel
  import opened TaskInvariants
  import opened WorkerClaims

  /** Does this step give an attempt back? */
  predicate IsRefund(s: State, a: Action) {
    match a
    case AReturn(w, raw) => ReturnUnstarted(s, w, raw).1 == WasReturned
    case ARecoverAbandoned(w, raw, spent) => GivesBack(s, w, raw, spent)
    case _ => false
  }

  // ---------- What a step can do to running attempts ----------

  /** Running attempts have issued tokens, and no two share one. */
  ghost predicate RunningApart(s: State) {
    && (forall id: TaskId :: Begun(s, id) ==>
       RecordOf(s, id).value.claimToken.Some? && RecordOf(s, id).value.claimToken.value in s.tokens)
    && (forall i: TaskId, j: TaskId ::
          Begun(s, i) && Begun(s, j) && RecordOf(s, i).value.claimToken == RecordOf(s, j).value.claimToken ==> i == j)
  }

  /** The token is issued, and no running attempt has it. */
  ghost predicate Over(s: State, t: Token) {
    t in s.tokens && forall id: TaskId :: Begun(s, id) ==> RecordOf(s, id).value.claimToken != Some(t)
  }

  /** Running attempts after a step: one that has just started, with a new token, and others that ran before. */
  ghost predicate Starts(s: State, s': State, started: Option<TaskId>) {
    && s.tokens <= s'.tokens
    && (started.Some? && Begun(s', started.value) ==>
          && RecordOf(s', started.value).value.claimToken.Some?
          && RecordOf(s', started.value).value.claimToken.value in s'.tokens - s.tokens)
    && (forall id: TaskId :: Begun(s', id) && started != Some(id) ==>
          Begun(s, id) && RecordOf(s', id).value.claimToken == RecordOf(s, id).value.claimToken)
  }

  lemma QuietStarts(s: State, s': State)
    requires Quiet(s, s')
    ensures Starts(s, s', None)
  {
    forall id: TaskId | Begun(s', id)
      ensures Begun(s, id) && RecordOf(s', id).value.claimToken == RecordOf(s, id).value.claimToken
    {
      assert QuietAt(s, s', id);
    }
  }

  lemma GivingBackStarts(s: State, s': State, x: TaskId)
    requires GivenBack(s, s', x)
    ensures Starts(s, s', None) && !Begun(s', x)
  {
    forall id: TaskId | Begun(s', id)
      ensures Begun(s, id) && RecordOf(s', id).value.claimToken == RecordOf(s, id).value.claimToken
    {
      assert id != x && QuietAt(s, s', id);
    }
  }

  lemma BeginningStarts(s: State, w: Worker, raw: Message, claim: Token, lease: Token, time: Timing)
    requires claim !in s.tokens
    ensures Starts(s, Begin(s, w, raw, claim, lease, time).0, Some(raw.id))
         || Starts(s, Begin(s, w, raw, claim, lease, time).0, None)
  {
    var (s', reply) := Begin(s, w, raw, claim, lease, time);
    if reply.WasStarted? {
      BeginStarts(s, w, raw, claim, lease, time);
      forall id: TaskId | Begun(s', id) && id != raw.id
        ensures Begun(s, id) && RecordOf(s', id).value.claimToken == RecordOf(s, id).value.claimToken
      {
        assert QuietAt(s, s', id);
      }
    } else {
      BeginIsQuiet(s, w, raw, claim, lease, time);
      QuietStarts(s, s');
    }
  }

  lemma RefundStarts(s: State, a: Action)
    requires IsRefund(s, a)
    ensures Starts(s, Step(s, a).0, None) && Begun(s, a.raw.id) && !Begun(Step(s, a).0, a.raw.id)
    ensures RecordOf(Step(s, a).0, a.raw.id).value.attempt == RecordOf(s, a.raw.id).value.attempt - 1
  {
    if a.AReturn? { ReturnGivesBack(s, a.w, a.raw); } else { RecoveryGivesBack(s, a.w, a.raw); }
    GivingBackStarts(s, Step(s, a).0, a.raw.id);
  }

  lemma StepStarts(s: State, a: Action) returns (started: Option<TaskId>)
    requires TasksOk(s) && Fresh(s, a)
    ensures Starts(s, Step(s, a).0, started)
  {
    started := None;
    if IsRefund(s, a) {
      RefundStarts(s, a);
    } else if a.ABegin? {
      BeginningStarts(s, a.w, a.raw, a.claim, a.lease, a.time);
      if Starts(s, Step(s, a).0, Some(a.raw.id)) { started := Some(a.raw.id); }
    } else {
      UnlessRefundQuiet(s, a);
      QuietStarts(s, Step(s, a).0);
    }
  }

  lemma BeginningCounts(s: State, a: Action, id: TaskId)
    requires TasksOk(s) && Fresh(s, a) && a.ABegin? && RecordOf(s, id).Some? && RecordOf(Step(s, a).0, id).Some?
    ensures RecordOf(Step(s, a).0, id).value.attempt >= RecordOf(s, id).value.attempt
  {
    if Begin(s, a.w, a.raw, a.claim, a.lease, a.time).1.WasStarted? {
      BeginStarts(s, a.w, a.raw, a.claim, a.lease, a.time);
      if id != a.raw.id { assert QuietAt(s, Step(s, a).0, id); }
    } else {
      BeginIsQuiet(s, a.w, a.raw, a.claim, a.lease, a.time);
      assert QuietAt(s, Step(s, a).0, id);
    }
  }

  /** A record's attempt count falls only when one of the two scripts gives an attempt of that task back, and by one. */
  lemma AttemptFallsOnlyByRefund(s: State, a: Action, id: TaskId)
    requires Inv(s) && Fresh(s, a) && RecordOf(s, id).Some? && RecordOf(Step(s, a).0, id).Some?
    ensures RecordOf(Step(s, a).0, id).value.attempt < RecordOf(s, id).value.attempt ==>
      && IsRefund(s, a) && a.raw.id == id
      && RecordOf(Step(s, a).0, id).value.attempt == RecordOf(s, id).value.attempt - 1
  {
    if IsRefund(s, a) {
      if a.AReturn? { ReturnGivesBack(s, a.w, a.raw); } else { RecoveryGivesBack(s, a.w, a.raw); }
      if a.raw.id != id { assert QuietAt(s, Step(s, a).0, id); }
    } else if a.ABegin? {
      BeginningCounts(s, a, id);
    } else {
      UnlessRefundQuiet(s, a);
      assert QuietAt(s, Step(s, a).0, id);
    }
  }

  lemma UnlessRefundQuiet(s: State, a: Action)
    requires TasksOk(s) && Fresh(s, a) && !IsRefund(s, a) && !a.ABegin?
    ensures Quiet(s, Step(s, a).0)
  {
    if a.AReturn? { ReturnIsQuiet(s, a.w, a.raw); }
    else if a.ARecoverAbandoned? { RecoveringIsQuiet(s, a.w, a.raw, a.spent); }
    else if a.APop? { PopIsQuiet(s, a.w, a.raw); }
    else { OtherIsQuiet(s, a); }
  }

  // ---------- Runs ----------

  lemma StartsKeepsApart(s: State, s': State, started: Option<TaskId>)
    requires RunningApart(s) && Starts(s, s', started)
    ensures RunningApart(s')
  {
    forall i: TaskId, j: TaskId | Begun(s', i) && Begun(s', j)
      && RecordOf(s', i).value.claimToken == RecordOf(s', j).value.claimToken
      ensures i == j
    {
      if started != Some(i) && started != Some(j) { assert Begun(s, i) && Begun(s, j); }
    }
  }

  lemma StartsKeepsOver(s: State, s': State, started: Option<TaskId>, t: Token)
    requires Over(s, t) && Starts(s, s', started)
    ensures Over(s', t)
  {
  }

  lemma {:induction false} RunKeepsApart(s: State, run: seq<Action>)
    requires Inv(s) && RunningApart(s) && FreshRun(s, run)
    ensures RunningApart(Run(s, run))
    decreases |run|
  {
    if run != [] {
      var started := StepStarts(s, run[0]);
      StartsKeepsApart(s, Step(s, run[0]).0, started);
      StepKeepsInv(s, run[0]);
      RunKeepsApart(Step(s, run[0]).0, run[1..]);
    }
  }

  lemma {:induction false} RunKeepsOver(s: State, run: seq<Action>, t: Token)
    requires Inv(s) && Over(s, t) && FreshRun(s, run)
    ensures Over(Run(s, run), t)
    decreases |run|
  {
    if run != [] {
      var started := StepStarts(s, run[0]);
      StartsKeepsOver(s, Step(s, run[0]).0, started, t);
      StepKeepsInv(s, run[0]);
      RunKeepsOver(Step(s, run[0]).0, run[1..], t);
    }
  }

  /** The message of a refund carries the token of the attempt the record counts. */
  lemma RefundCarriesToken(s: State, a: Action)
    requires Inv(s) && RunningApart(s) && IsRefund(s, a)
    ensures a.raw.claimToken.Some? && RecordOf(s, a.raw.id).Some?
      && RecordOf(s, a.raw.id).value.claimToken == a.raw.claimToken
  {
    HeldByRefund(s, a);
    HeldClaimIsRecorded(s, a.w, a.raw);
  }

  lemma HeldByRefund(s: State, a: Action)
    requires IsRefund(s, a)
    ensures Holds(s, Processing(a.w), a.raw) && RecordOf(s, a.raw.id).Some?
    ensures RecordOf(s, a.raw.id).value.location == AtProcessing
  {
  }

  lemma HeldClaimIsRecorded(s: State, w: Worker, raw: Message)
    requires TasksOk(s) && Holds(s, Processing(w), raw)
    requires RecordOf(s, raw.id).Some? && RecordOf(s, raw.id).value.location == AtProcessing
    ensures raw.claimToken.Some? && RecordOf(s, raw.id).value.claimToken == raw.claimToken
  {
    assert TaskOk(raw.id, s.tasks[raw.id]);
  }

  lemma RefundedIsOver(s: State, a: Action)
    requires Inv(s) && RunningApart(s) && IsRefund(s, a) && a.raw.claimToken.Some?
    ensures Over(Step(s, a).0, a.raw.claimToken.value)
  {
    RefundStarts(s, a);
    RefundCarriesToken(s, a);
  }

  lemma OverIsNotRefunded(s: State, b: Action, t: Token)
    requires Inv(s) && RunningApart(s) && Over(s, t) && IsRefund(s, b)
    ensures b.raw.claimToken.Some? && b.raw.claimToken != Some(t)
  {
    RefundCarriesToken(s, b);
    RefundStarts(s, b);
  }

  lemma RefundKeeps(s: State, a: Action)
    requires Inv(s) && RunningApart(s) && IsRefund(s, a)
    ensures Inv(Step(s, a).0) && RunningApart(Step(s, a).0)
  {
    StepKeepsInv(s, a);
    RefundStarts(s, a);
    StartsKeepsApart(s, Step(s, a).0, None);
  }

  /** The same from a state of a run, the first refund having led to `s`. */
  lemma LaterRefundsDiffer(s: State, between: seq<Action>, b: Action, t: Token)
    requires Inv(s) && RunningApart(s) && Over(s, t) && FreshRun(s, between) && IsRefund(Run(s, between), b)
    ensures b.raw.claimToken.Some? && b.raw.claimToken != Some(t)
  {
    RunKeepsInv(s, between);
    RunKeepsApart(s, between);
    RunKeepsOver(s, between, t);
    OverIsNotRefunded(Run(s, between), b, t);
  }

  lemma RefundEndsItsToken(before: seq<Action>, a: Action)
    requires FreshRun(EMPTY, before) && IsRefund(Run(EMPTY, before), a)
    ensures var s' := Step(Run(EMPTY, before), a).0;
      a.raw.claimToken.Some? && Inv(s') && RunningApart(s') && Over(s', a.raw.claimToken.value)
  {
    EmptyOk();
    RunKeepsInv(EMPTY, before);
    RunKeepsApart(EMPTY, before);
    RefundCarriesToken(Run(EMPTY, before), a);
    RefundedIsOver(Run(EMPTY, before), a);
    RefundKeeps(Run(EMPTY, before), a);
  }

  /**
   In any run of any clients, two steps that give an attempt back carry different claim tokens: no
   attempt is given back twice.
   */
  lemma NoAttemptIsRefundedTwice(before: seq<Action>, a: Action, between: seq<Action>, b: Action)
    requires FreshRun(EMPTY, before) && IsRefund(Run(EMPTY, before), a)
    requires FreshRun(Step(Run(EMPTY, before), a).0, between)
      && IsRefund(Run(Step(Run(EMPTY, before), a).0, between), b)
    ensures a.raw.claimToken.Some? && b.raw.claimToken.Some? && a.raw.claimToken != b.raw.claimToken
  {
    RefundEndsItsToken(before, a);
    LaterRefundsDiffer(Step(Run(EMPTY, before), a).0, between, b, a.raw.claimToken.value);
  }
}
