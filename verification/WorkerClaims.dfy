/**
 The worker's side of claiming and settling, as a second layer of steps over the task state machine.
 A worker process polls in one thread and runs handlers in others; replies can be lost after the
 store has committed, handlers can die, and other clients act in between.  `admitted` is the history
 of attempts whose handler was let in, `granted` the attempts begun and not given back.
 */
module WorkerClaims {
  import opened Prelude
  import opened TaskModel
  import opened TaskInvariants

  // ---------- State ----------

  /** Where the polling thread is. */
  datatype Poll =
    | Idle
    | Recovering(protected: set<Message>, snapshot: set<TaskId>)
    | Recovered
    | HasPopped(raw: Message)
    | HasBegun(msg: Message)
    | Registered(msg: Message)

  /** `held` claims wait for a handler thread, `running` ones are in their handler, `done` ones have been settled. */
  datatype Process = Process(
    active: map<TaskId, Message>,
    spent: set<TaskId>,
    held: set<Message>,
    running: set<Message>,
    done: set<Message>,
    stopping: bool,
    poll: Poll)

  const NEW := Process(map[], {}, {}, {}, {}, false, Idle)

  /** An attempt: the worker that began it, and the message the begin script produced. */
  datatype Start = Start(worker: Worker, msg: Message)

  datatype Claims = Claims(
    s: State,
    procs: map<Worker, Process>,
    began: map<Token, Start>,
    granted: map<TaskId, set<Token>>,
    admitted: map<TaskId, set<Token>>,
    budget: map<TaskId, nat>)

  const START := Claims(EMPTY, map[], map[], map[], map[], map[])

  function ProcOf(c: Claims, w: Worker): Process {
    if w in c.procs then c.procs[w] else NEW
  }

  function SetProc(c: Claims, w: Worker, p: Process): Claims {
    c.(procs := c.procs[w := p])
  }

  function TokensOf(m: map<TaskId, set<Token>>, id: TaskId): set<Token> {
    if id in m then m[id] else {}
  }

  // ---------- Steps ----------

  datatype ClaimStep =
    | Other(a: Action)
    | Snapshot(w: Worker)
    | RecoverOne(w: Worker, raw: Message)
    | RecoverDone(w: Worker)
    | PollFails(w: Worker)
    | PopTask(w: Worker, raw: Message)
    | BeginTask(w: Worker, claim: Token, lease: Token, time: Timing, replied: bool)
    | Register(w: Worker)
    | Undecodable(w: Worker, settlement: Settlement, committed: bool, replied: bool)
    | Submit(w: Worker)
    | Stop(w: Worker)
    | LetIn(w: Worker, m: Message)
    | ReturnClaim(w: Worker, m: Message, committed: bool, replied: bool)
    | Settle(w: Worker, m: Message, settlement: Settlement, replied: bool)
    | Leave(w: Worker, m: Message)
    | Crash(w: Worker, m: Message)

  datatype Settlement = Success(ttl: nat) | Failure(permanent: bool, error: nat, runAt: Time, ttl: nat)

  function SettleIn(s: State, w: Worker, m: Message, how: Settlement): State {
    match how
    case Success(ttl) => Complete(s, w, m, ttl).0
    case Failure(permanent, error, runAt, ttl) => Fail(s, w, m, permanent, error, runAt, ttl).0
  }

  /** Only worker processes pop, begin, give back and recover their own list. */
  predicate ClaimAction(a: Action) { a.APop? || a.ABegin? || a.AReturn? || a.ARecoverAbandoned? }

  predicate AllProtected(s: State, w: Worker, protected: set<Message>) {
    forall id <- s.tasks :: s.tasks[id].slot.Some? && s.tasks[id].slot.value.place == Processing(w)
      ==> s.tasks[id].slot.value.msg in protected
  }

  /** Does recovering this message give an attempt back? */
  predicate GivesBack(s: State, w: Worker, raw: Message, spent: bool) {
    && Holds(s, Processing(w), raw)
    && RecordOf(s, raw.id).Some? && RecordOf(s, raw.id).value.outcome == Live
    && Refunds(RecordOf(s, raw.id).value, raw, spent)
  }

  function Withdraw(granted: map<TaskId, set<Token>>, m: Message): map<TaskId, set<Token>> {
    if m.claimToken.Some? then granted[m.id := TokensOf(granted, m.id) - {m.claimToken.value}] else granted
  }

  function Credit(tokens: map<TaskId, set<Token>>, id: TaskId, t: Token): map<TaskId, set<Token>> {
    tokens[id := TokensOf(tokens, id) + {t}]
  }

  function Recover(c: Claims, w: Worker, raw: Message, spent: bool): Claims {
    c.(s := RecoverAbandoned(c.s, w, raw, spent).0,
       granted := if GivesBack(c.s, w, raw, spent) then Withdraw(c.granted, raw) else c.granted)
  }

  function GiveBack(c: Claims, w: Worker, m: Message): Claims {
    c.(s := ReturnUnstarted(c.s, w, m).0,
       granted := if ReturnUnstarted(c.s, w, m).1 == WasReturned then Withdraw(c.granted, m) else c.granted)
  }

  /** An answer of the begin script and, when it starts an attempt, its place in history. */
  function BegunWith(c: Claims, w: Worker, id: TaskId, claim: Token, r: (State, Reply), rec: Option<Record>): Claims {
    if r.1.WasStarted? && rec.Some? then
      c.(s := r.0, began := c.began[claim := Start(w, r.1.msg)], granted := Credit(c.granted, id, claim),
         budget := c.budget[id := rec.value.spec.maxAttempts])
    else c.(s := r.0)
  }

  function BeginIn(c: Claims, w: Worker, raw: Message, claim: Token, lease: Token, time: Timing): Claims {
    BegunWith(c, w, raw.id, claim, Begin(c.s, w, raw, claim, lease, time), RecordOf(c.s, raw.id))
  }

  /** The handler of a held claim is let in. */
  function Admitted(c: Claims, w: Worker, m: Message): Claims
    requires m.claimToken.Some?
  {
    var p := ProcOf(c, w);
    SetProc(c, w, p.(held := p.held - {m}, running := p.running + {m}))
      .(admitted := Credit(c.admitted, m.id, m.claimToken.value))
  }

  /** A claim whose payload cannot be read is settled at once and leaves the table. */
  function Undecoded(c: Claims, w: Worker, s': State, replied: bool): Claims
    requires ProcOf(c, w).poll.Registered?
  {
    var p := ProcOf(c, w);
    SetProc(c.(s := s'), w,
            p.(active := p.active - {p.poll.msg.id}, spent := if replied then p.spent else p.spent + {p.poll.msg.id},
               poll := if replied then Recovered else Idle))
  }

  /** A handler thread has its settlement committed, and goes on when the reply arrives. */
  function Settled(c: Claims, w: Worker, m: Message, s': State, replied: bool): Claims {
    var p := ProcOf(c, w);
    SetProc(c.(s := s'), w, if replied then p.(running := p.running - {m}, done := p.done + {m}) else p)
  }

  /** A handler thread died: the claim leaves the table and its attempt is remembered as spent. */
  function Crashed(p: Process, m: Message): Process {
    p.(held := p.held - {m}, running := p.running - {m}, done := p.done - {m},
       active := p.active - {m.id}, spent := p.spent + {m.id})
  }

  /** One turn of recover_abandoned_claims. */
  function RecoverNext(c: Claims, w: Worker, raw: Message): Claims {
    var p := ProcOf(c, w);
    if p.poll.Recovering? && raw !in p.poll.protected then Recover(c, w, raw, raw.id in p.poll.snapshot) else c
  }

  function PopNext(c: Claims, w: Worker, raw: Message): Claims {
    var p := ProcOf(c, w);
    if p.poll.Recovered? && Pop(c.s, w, raw).1 == WasMoved
    then SetProc(c.(s := Pop(c.s, w, raw).0), w, p.(poll := HasPopped(raw))) else c
  }

  function SettleUndecoded(c: Claims, w: Worker, how: Settlement, committed: bool, replied: bool): Claims {
    var p := ProcOf(c, w);
    if !p.poll.Registered? then c
    else Undecoded(c, w, if committed || replied then SettleIn(c.s, w, p.poll.msg, how) else c.s, replied)
  }

  function BeginPopped(c: Claims, w: Worker, claim: Token, lease: Token, time: Timing, replied: bool): Claims {
    var p := ProcOf(c, w);
    if !p.poll.HasPopped? then c
    else
      var raw := p.poll.raw;
      var reply := Begin(c.s, w, raw, claim, lease, time).1;
      SetProc(BeginIn(c, w, raw, claim, lease, time), w,
              p.(poll := if !replied then Idle else if reply.WasStarted? then HasBegun(reply.msg) else Recovered))
  }

  /** A worker that stops gives back a claim no handler was let in on. */
  function ReturnHeld(c: Claims, w: Worker, m: Message, committed: bool, replied: bool): Claims {
    var p := ProcOf(c, w);
    if m in p.held && p.stopping then
      SetProc(if committed || replied then GiveBack(c, w, m) else c, w,
              p.(held := p.held - {m}, active := p.active - {m.id},
                 spent := if replied then p.spent else p.spent + {m.id}))
    else c
  }

  function SettleRunning(c: Claims, w: Worker, m: Message, how: Settlement, replied: bool): Claims {
    if m in ProcOf(c, w).running then Settled(c, w, m, SettleIn(c.s, w, m, how), replied) else c
  }

  function Next(c: Claims, x: ClaimStep): Claims {
    match x
    case Other(a) => if ClaimAction(a) then c else c.(s := Step(c.s, a).0)
    case Snapshot(w) =>
      var p := ProcOf(c, w);
      if p.poll.Idle? then SetProc(c, w, p.(poll := Recovering(p.active.Values, p.spent))) else c
    case RecoverOne(w, raw) => RecoverNext(c, w, raw)
    case RecoverDone(w) =>
      var p := ProcOf(c, w);
      if p.poll.Recovering? && AllProtected(c.s, w, p.poll.protected)
      then SetProc(c, w, p.(spent := p.spent - p.poll.snapshot, poll := Recovered)) else c
    case PollFails(w) =>
      var p := ProcOf(c, w);
      if p.poll.Registered? then c else SetProc(c, w, p.(poll := Idle))
    case PopTask(w, raw) => PopNext(c, w, raw)
    case BeginTask(w, claim, lease, time, replied) => BeginPopped(c, w, claim, lease, time, replied)
    case Register(w) =>
      var p := ProcOf(c, w);
      if p.poll.HasBegun?
      then SetProc(c, w, p.(active := p.active[p.poll.msg.id := p.poll.msg], poll := Registered(p.poll.msg))) else c
    case Undecodable(w, how, committed, replied) => SettleUndecoded(c, w, how, committed, replied)
    case Submit(w) =>
      var p := ProcOf(c, w);
      if p.poll.Registered? then SetProc(c, w, p.(held := p.held + {p.poll.msg}, poll := Idle)) else c
    case Stop(w) => SetProc(c, w, ProcOf(c, w).(stopping := true))
    case LetIn(w, m) =>
      var p := ProcOf(c, w);
      if m in p.held && !p.stopping && m.claimToken.Some? then Admitted(c, w, m) else c
    case ReturnClaim(w, m, committed, replied) => ReturnHeld(c, w, m, committed, replied)
    case Settle(w, m, how, replied) => SettleRunning(c, w, m, how, replied)
    case Leave(w, m) =>
      var p := ProcOf(c, w);
      if m in p.done then SetProc(c, w, p.(done := p.done - {m}, active := p.active - {m.id})) else c
    case Crash(w, m) =>
      var p := ProcOf(c, w);
      if m in p.held + p.running + p.done then SetProc(c, w, Crashed(p, m)) else c
  }

  /** New ids and tokens are new. */
  predicate FreshStep(c: Claims, x: ClaimStep) {
    match x
    case Other(a) => Fresh(c.s, a)
    case BeginTask(_, claim, lease, _, _) => claim !in c.s.tokens && lease !in c.s.tokens && claim != lease
    case _ => true
  }

  /** The worker does not register a claim on a task it still remembers an earlier claim of. */
  predicate Guarded(c: Claims, x: ClaimStep) {
    x.Register? && ProcOf(c, x.w).poll.HasBegun? ==>
      var p := ProcOf(c, x.w); p.poll.msg.id !in p.active && p.poll.msg.id !in p.spent
  }

  predicate FreshSteps(c: Claims, xs: seq<ClaimStep>)
    decreases |xs|
  {
    xs == [] || (FreshStep(c, xs[0]) && FreshSteps(Next(c, xs[0]), xs[1..]))
  }

  predicate GuardedSteps(c: Claims, xs: seq<ClaimStep>)
    decreases |xs|
  {
    xs == [] || (Guarded(c, xs[0]) && GuardedSteps(Next(c, xs[0]), xs[1..]))
  }

  function After(c: Claims, xs: seq<ClaimStep>): Claims
    decreases |xs|
  {
    if xs == [] then c else After(Next(c, xs[0]), xs[1..])
  }

  // ---------- Invariant ----------

  /** The task's message is in a worker's list and its attempt has begun. */
  predicate Begun(s: State, id: TaskId) {
    && SlotOf(s, id).Some? && SlotOf(s, id).value.place.Processing?
    && RecordOf(s, id).Some? && RecordOf(s, id).value.location == AtProcessing
  }

  predicate BegunBy(s: State, w: Worker, m: Message) {
    Begun(s, m.id) && SlotOf(s, m.id).value == Slot(Processing(w), m)
  }

  predicate WasBegun(c: Claims, w: Worker, m: Message) {
    m.claimToken.Some? && m.claimToken.value in c.began && c.began[m.claimToken.value] == Start(w, m)
  }

  predicate AttemptOk(c: Claims, id: TaskId) {
    && (forall t <- TokensOf(c.granted, id) :: t in c.began && c.began[t].msg.id == id)
    && TokensOf(c.admitted, id) <= TokensOf(c.granted, id)
    && (TokensOf(c.granted, id) != {} ==>
       id in c.s.tasks && id in c.budget && |TokensOf(c.granted, id)| <= c.budget[id])
    && (RecordOf(c.s, id).Some? ==>
          && |TokensOf(c.granted, id)| == RecordOf(c.s, id).value.attempt
          && (id in c.budget ==> c.budget[id] == RecordOf(c.s, id).value.spec.maxAttempts))
    && (id in c.budget ==> id in c.s.tasks)
  }

  predicate RunningOk(c: Claims, id: TaskId) {
    Begun(c.s, id) ==>
      var slot := SlotOf(c.s, id).value;
      && slot.msg.id == id && WasBegun(c, slot.place.worker, slot.msg)
      && RecordOf(c.s, id).value.claimToken == slot.msg.claimToken
      && slot.msg.claimToken.value in TokensOf(c.granted, id)
      && (slot.msg.claimToken.value in TokensOf(c.admitted, id) ==>
            var p := ProcOf(c, slot.place.worker); slot.msg in p.running || id in p.spent)
  }

  predicate BeganOk(c: Claims) {
    forall t <- c.began :: t in c.s.tokens && c.began[t].msg.claimToken == Some(t)
  }

  /** A claim whose handler has not been let in: its attempt is granted and not admitted. */
  predicate PendingOk(c: Claims, w: Worker, m: Message) {
    && WasBegun(c, w, m)
    && m.claimToken.value in TokensOf(c.granted, m.id) && m.claimToken.value !in TokensOf(c.admitted, m.id)
  }

  /** A claim is with a handler thread, or the polling thread still has it. */
  predicate HasThread(p: Process, m: Message) {
    m in p.held + p.running + p.done || (p.poll.Registered? && p.poll.msg == m)
  }

  predicate ThreadsOk(p: Process) {
    && (forall m <- p.held + p.running + p.done :: m.id in p.active && p.active[m.id] == m)
    && p.held !! p.running && p.held !! p.done && p.running !! p.done
    && (forall id <- p.active :: p.active[id].id == id && id !in p.spent && HasThread(p, p.active[id]))
    && (p.poll.Registered? ==>
          && p.poll.msg !in p.held + p.running + p.done
          && p.poll.msg.id in p.active && p.active[p.poll.msg.id] == p.poll.msg)
  }

  predicate ClaimsOf(c: Claims, w: Worker, p: Process) {
    && (forall id <- p.active :: WasBegun(c, w, p.active[id]))
    && (forall m <- p.held :: PendingOk(c, w, m))
    && (p.poll.HasBegun? || p.poll.Registered? ==> PendingOk(c, w, p.poll.msg))
    && (p.poll.HasBegun? ==> p.poll.msg !in p.active.Values)
    && (forall m <- p.done :: !BegunBy(c.s, w, m))
  }

  /** During recovery, an admitted attempt is protected or known to be spent. */
  predicate RecoveryOk(c: Claims, w: Worker, p: Process) {
    p.poll.Recovering? ==>
      && p.active.Values <= p.poll.protected && p.poll.snapshot <= p.spent
      && (forall m <- p.poll.protected :: m.id !in p.poll.snapshot)
      && (forall id <- c.s.tasks :: Begun(c.s, id) && SlotOf(c.s, id).value.place.worker == w
            && SlotOf(c.s, id).value.msg.claimToken.Some?
            && SlotOf(c.s, id).value.msg.claimToken.value in TokensOf(c.admitted, id)
            ==> SlotOf(c.s, id).value.msg in p.poll.protected || id in p.poll.snapshot)
  }

  predicate ProcOk(c: Claims, w: Worker, p: Process) {
    ThreadsOk(p) && ClaimsOf(c, w, p) && RecoveryOk(c, w, p)
  }

  ghost predicate ClaimsOk(c: Claims) {
    && BeganOk(c)
    && (forall id: TaskId :: AttemptOk(c, id) && RunningOk(c, id))
    && (forall w: Worker :: ProcOk(c, w, ProcOf(c, w)))
  }

  // ---------- Store steps that begin and refund nothing ----------

  predicate QuietAt(s: State, s': State, id: TaskId) {
    && (id in s.tasks ==> id in s'.tasks)
    && (RecordOf(s', id).Some? ==>
          if id in s.tasks then
            && RecordOf(s, id).Some?
            && RecordOf(s', id).value.spec == RecordOf(s, id).value.spec
            && RecordOf(s', id).value.attempt == RecordOf(s, id).value.attempt
          else RecordOf(s', id).value.attempt == 0)
    && (Begun(s', id) ==>
          && Begun(s, id) && SlotOf(s', id) == SlotOf(s, id)
          && RecordOf(s', id).value.claimToken == RecordOf(s, id).value.claimToken)
  }

  ghost predicate Quiet(s: State, s': State) {
    s.tokens <= s'.tokens && forall id: TaskId :: QuietAt(s, s', id)
  }

  /** One task changes, keeps its attempts, and is not running afterwards. */
  predicate QuietEdit(s: State, s': State, id: TaskId) {
    && s.tokens <= s'.tokens && id in s.tasks && id in s'.tasks && s'.tasks == s.tasks[id := s'.tasks[id]]
    && (RecordOf(s', id).Some? ==>
          && RecordOf(s, id).Some?
          && RecordOf(s', id).value.spec == RecordOf(s, id).value.spec
          && RecordOf(s', id).value.attempt == RecordOf(s, id).value.attempt)
    && !Begun(s', id)
  }

  lemma QuietEdits(s: State, s': State, id: TaskId)
    requires s' == s || QuietEdit(s, s', id)
    ensures Quiet(s, s')
  {
  }

  lemma PopIsQuiet(s: State, w: Worker, raw: Message)
    requires TasksOk(s)
    ensures Quiet(s, Pop(s, w, raw).0)
  {
  }

  lemma FinishIsQuiet(s: State, raw: Message, rec: Record, outcome: Outcome, dlq: Option<Message>, token: Option<Token>,
                      ttl: nat)
    requires RecordOf(s, raw.id) == Some(rec)
    ensures QuietEdit(s, Finish(s, raw, rec, outcome, dlq, token, ttl), raw.id)
  {
  }

  lemma BeginIsQuiet(s: State, w: Worker, raw: Message, claim: Token, lease: Token, time: Timing)
    requires !Begin(s, w, raw, claim, lease, time).1.WasStarted?
    ensures Quiet(s, Begin(s, w, raw, claim, lease, time).0)
  {
    var reply := Begin(s, w, raw, claim, lease, time).1;
    if reply.WasSkipped? { FinishIsQuiet(s, raw, RecordOf(s, raw.id).value, Skipped, None, Some(lease), time.ttl); }
    if reply.WasSuperseded? {
      FinishIsQuiet(s, raw, RecordOf(s, raw.id).value, Cancelled, None, Some(lease), time.ttl);
    }
    if reply.WasOverBudget? {
      FinishIsQuiet(s, raw, RecordOf(s, raw.id).value, Failed, Some(raw), Some(lease), time.ttl);
    }
    QuietEdits(s, Begin(s, w, raw, claim, lease, time).0, raw.id);
  }

  lemma RetryIsQuiet(s: State, w: Worker, raw: Message, next: Message, runAt: Time, ttl: nat)
    ensures var s' := RetryScript(s, w, raw, next, runAt, ttl).0; s' == s || QuietEdit(s, s', raw.id)
  {
    if RetryScript(s, w, raw, next, runAt, ttl).1.WasSkipped? {
      FinishIsQuiet(s, raw, RecordOf(s, raw.id).value, Skipped, None, raw.leaseToken, ttl);
    }
  }

  lemma SettlingIsQuiet(s: State, w: Worker, m: Message, how: Settlement)
    ensures Quiet(s, SettleIn(s, w, m, how))
  {
    match how
    case Success(ttl) =>
      if RecordOf(s, m.id).Some? { FinishIsQuiet(s, m, RecordOf(s, m.id).value, Completed, None, m.leaseToken, ttl); }
    case Failure(permanent, error, runAt, ttl) =>
      if RecordOf(s, m.id).Some? {
        FinishIsQuiet(s, m, RecordOf(s, m.id).value, Failed, Some(m.(lastError := Some(error))), m.leaseToken, 0);
      }
      RetryIsQuiet(s, w, m, m.(availableAt := runAt, reason := OnRetry, lastError := Some(error)), runAt, ttl);
    QuietEdits(s, SettleIn(s, w, m, how), m.id);
  }

  lemma RecoveringIsQuiet(s: State, w: Worker, raw: Message, spent: bool)
    requires !GivesBack(s, w, raw, spent)
    ensures Quiet(s, RecoverAbandoned(s, w, raw, spent).0)
  {
  }

  lemma BackToReadyIsQuiet(s: State, m: Message, reindex: bool)
    requires m.id in s.tasks
    ensures QuietEdit(s, BackToReady(s, m, reindex), m.id)
  {
  }

  lemma LeaveDelayIsQuiet(s: State, m: Message)
    requires m.id in s.tasks
    ensures QuietEdit(s, LeaveDelay(s, m), m.id)
  {
    BackToReadyIsQuiet(s.(metrics := LeaveRetryWait(s.metrics, m)), m, false);
  }

  lemma MovingIsQuiet(s: State, a: Action)
    requires a.ARecoverStale? || a.AMoveDue? || a.AMoveProcessing? || a.AMoveDelay?
    ensures Quiet(s, Step(s, a).0)
  {
    var m := a.raw;
    if m.id in s.tasks {
      BackToReadyIsQuiet(s, m, true);
      LeaveDelayIsQuiet(s, m);
      assert Step(s, a).0 in {s, BackToReady(s, m, true), LeaveDelay(s, m)};
    }
    QuietEdits(s, Step(s, a).0, m.id);
  }

  lemma CancelIsQuiet(s: State, raw: Message, delayed: bool, policy: IdentityPolicy, ttl: nat)
    requires RecordOf(s, raw.id).Some?
    ensures QuietEdit(s, CancelHeld(s, raw, delayed, policy, ttl).0, raw.id)
  {
  }

  lemma CancellingIsQuiet(s: State, a: Action)
    requires TasksOk(s) && (a.ACancelListed? || a.ACancelDelayed?)
    ensures Quiet(s, Step(s, a).0)
  {
    if SlotOf(s, a.raw.id).Some? {
      assert TaskOk(a.raw.id, s.tasks[a.raw.id]);
      CancelIsQuiet(s, a.raw, a.ACancelDelayed?, a.policy, a.ttl);
    }
    QuietEdits(s, Step(s, a).0, a.raw.id);
  }

  lemma AdmitIsQuiet(s: State, id: TaskId, spec: TaskSpec, parent: Option<TaskId>, availableAt: Time)
    requires id !in s.tasks
    ensures Quiet(s, Admit(s, id, spec, parent, availableAt))
  {
  }

  lemma EnqueueIsQuiet(s: State, id: TaskId, spec: TaskSpec, availableAt: Time, onDuplicate: DuplicateAction)
    requires id !in s.tasks
    ensures Quiet(s, Enqueue(s, id, spec, availableAt, onDuplicate).0)
  {
    AdmitIsQuiet(s, id, spec, None, availableAt);
  }

  lemma ReplayIsQuiet(s: State, plan: ReplayPlan, id: TaskId, spec: TaskSpec, availableAt: Time, ttl: nat)
    requires id !in s.tasks
    ensures Quiet(s, CommitReplay(s, plan, id, spec, availableAt, ttl).0)
  {
    if CommitReplay(s, plan, id, spec, availableAt, ttl).1.Accepted? {
      var t := ReplayedSource(s.tasks[plan.source], RecordOf(s, plan.source).value, id, plan.requireSource, s.now, ttl);
      var s1 := Put(s, plan.source, t);
      QuietEdits(s, s1, plan.source);
      AdmitIsQuiet(s1, id, spec, Some(plan.source), availableAt);
      QuietTransitive(s, s1, CommitReplay(s, plan, id, spec, availableAt, ttl).0);
    }
  }

  lemma QuietTransitive(s: State, s1: State, s2: State)
    requires Quiet(s, s1) && Quiet(s1, s2)
    ensures Quiet(s, s2)
  {
    forall id: TaskId ensures QuietAt(s, s2, id) { assert QuietAt(s, s1, id) && QuietAt(s1, s2, id); }
  }

  lemma TickIsQuiet(s: State, elapsed: nat)
    ensures Quiet(s, Tick(s, elapsed).0)
  {
  }

  lemma SweepIsQuiet(s: State, id: TaskId)
    ensures Quiet(s, CommitSweep(s, id).0)
  {
  }

  lemma CalmIsQuiet(s: State, a: Action)
    requires IsCalm(a) || a.AForget?
    ensures Quiet(s, Step(s, a).0)
  {
    assert Step(s, a).0.tasks == s.tasks && Step(s, a).0.tokens == s.tokens;
  }

  lemma OtherIsQuiet(s: State, a: Action)
    requires TasksOk(s) && Fresh(s, a) && !ClaimAction(a)
    ensures Quiet(s, Step(s, a).0)
  {
    if a.AComplete? { SettlingIsQuiet(s, a.w, a.raw, Success(a.ttl)); }
    else if a.AFail? { SettlingIsQuiet(s, a.w, a.raw, Failure(a.permanent, a.error, a.runAt, a.ttl)); }
    else if a.ARecoverStale? || a.AMoveDue? || a.AMoveProcessing? || a.AMoveDelay? { MovingIsQuiet(s, a); }
    else if a.ACancelListed? || a.ACancelDelayed? { CancellingIsQuiet(s, a); }
    else if a.AEnqueue? { EnqueueIsQuiet(s, a.id, a.spec, a.availableAt, a.onDuplicate); }
    else if a.ACommitReplay? { ReplayIsQuiet(s, a.plan, a.id, a.spec, a.availableAt, a.ttl); }
    else if a.ATick? { TickIsQuiet(s, a.elapsed); }
    else if a.ACommitSweep? { SweepIsQuiet(s, a.id); }
    else { CalmIsQuiet(s, a); }
  }

  lemma QuietKeepsProc(c: Claims, s': State, w: Worker, p: Process)
    requires Quiet(c.s, s') && ProcOk(c, w, p)
    ensures ProcOk(c.(s := s'), w, p)
  {
    var c' := c.(s := s');
    assert forall m: Message :: WasBegun(c', w, m) == WasBegun(c, w, m) && PendingOk(c', w, m) == PendingOk(c, w, m);
    assert forall m: Message :: BegunBy(s', w, m) ==> BegunBy(c.s, w, m) by {
      forall m: Message | BegunBy(s', w, m) ensures BegunBy(c.s, w, m) { assert QuietAt(c.s, s', m.id); }
    }
    forall id <- s'.tasks | Begun(s', id) ensures Begun(c.s, id) && SlotOf(s', id) == SlotOf(c.s, id) {
      assert QuietAt(c.s, s', id);
    }
  }

  lemma QuietKeepsTask(c: Claims, s': State, id: TaskId)
    requires Quiet(c.s, s') && AttemptOk(c, id) && RunningOk(c, id)
    ensures AttemptOk(c.(s := s'), id) && RunningOk(c.(s := s'), id)
  {
    assert QuietAt(c.s, s', id);
  }

  lemma QuietKeeps(c: Claims, s': State)
    requires ClaimsOk(c) && Quiet(c.s, s')
    ensures ClaimsOk(c.(s := s'))
  {
    var c' := c.(s := s');
    forall id: TaskId ensures AttemptOk(c', id) && RunningOk(c', id) { QuietKeepsTask(c, s', id); }
    forall w: Worker ensures ProcOk(c', w, ProcOf(c', w)) { QuietKeepsProc(c, s', w, ProcOf(c, w)); }
  }

  // ---------- Steps of a process ----------

  /** Every attempt that was let in and still runs in this worker's list is accounted for by the process. */
  ghost predicate Accounted(c: Claims, w: Worker, p: Process) {
    forall id: TaskId :: Begun(c.s, id) && SlotOf(c.s, id).value.place.worker == w
      && SlotOf(c.s, id).value.msg.claimToken.Some?
      && SlotOf(c.s, id).value.msg.claimToken.value in TokensOf(c.admitted, id)
      ==> SlotOf(c.s, id).value.msg in p.running || id in p.spent
  }

  lemma ProcIsAccounted(c: Claims, w: Worker)
    requires ClaimsOk(c)
    ensures Accounted(c, w, ProcOf(c, w))
  {
    forall id: TaskId | Begun(c.s, id) && SlotOf(c.s, id).value.place.worker == w
      && SlotOf(c.s, id).value.msg.claimToken.Some?
      && SlotOf(c.s, id).value.msg.claimToken.value in TokensOf(c.admitted, id)
      ensures SlotOf(c.s, id).value.msg in ProcOf(c, w).running || id in ProcOf(c, w).spent
    {
      assert RunningOk(c, id);
    }
  }

  lemma SetProcKeeps(c: Claims, w: Worker, p: Process)
    requires ClaimsOk(c) && ProcOk(c, w, p) && Accounted(c, w, p)
    ensures ClaimsOk(SetProc(c, w, p))
  {
    var c' := SetProc(c, w, p);
    forall id: TaskId ensures AttemptOk(c', id) && RunningOk(c', id) {
      assert AttemptOk(c, id) && RunningOk(c, id);
    }
    forall x: Worker ensures ProcOk(c', x, ProcOf(c', x)) {
      assert x != w ==> ProcOf(c', x) == ProcOf(c, x) && ProcOk(c, x, ProcOf(c, x));
      ProcFrame(c, c', x, ProcOf(c', x));
    }
  }

  lemma ProcFrame(c: Claims, c': Claims, w: Worker, p: Process)
    requires ProcOk(c, w, p) && c'.s == c.s && c'.began == c.began && c'.granted == c.granted
      && c'.admitted == c.admitted
    ensures ProcOk(c', w, p)
  {
    assert forall m: Message :: WasBegun(c', w, m) == WasBegun(c, w, m) && PendingOk(c', w, m) == PendingOk(c, w, m);
  }

  lemma SnapshotKeeps(c: Claims, w: Worker)
    requires ClaimsOk(c)
    ensures ClaimsOk(Next(c, Snapshot(w)))
  {
    var p := ProcOf(c, w);
    if p.poll.Idle? {
      var p' := p.(poll := Recovering(p.active.Values, p.spent));
      ProcIsAccounted(c, w);
      assert ThreadsOk(p') && ClaimsOf(c, w, p');
      assert RecoveryOk(c, w, p') by {
        forall m <- p.active.Values ensures m.id !in p.spent {
          var id :| id in p.active && p.active[id] == m;
        }
      }
      SetProcKeeps(c, w, p');
    }
  }

  lemma RecoverDoneKeeps(c: Claims, w: Worker)
    requires ClaimsOk(c)
    ensures ClaimsOk(Next(c, RecoverDone(w)))
  {
    var p := ProcOf(c, w);
    if p.poll.Recovering? && AllProtected(c.s, w, p.poll.protected) {
      var p' := p.(spent := p.spent - p.poll.snapshot, poll := Recovered);
      ProcIsAccounted(c, w);
      assert ProcOk(c, w, p);
      assert ProcOk(c, w, p');
      assert Accounted(c, w, p') by {
        forall id: TaskId | Begun(c.s, id) && SlotOf(c.s, id).value.place.worker == w
          ensures id !in p.poll.snapshot
        {
          assert RunningOk(c, id);
          assert c.s.tasks[id].slot.value.msg in p.poll.protected;
        }
      }
      SetProcKeeps(c, w, p');
    }
  }

  lemma PollFailsKeeps(c: Claims, w: Worker)
    requires ClaimsOk(c)
    ensures ClaimsOk(Next(c, PollFails(w)))
  {
    var p := ProcOf(c, w);
    assert ProcOk(c, w, p);
    ProcIsAccounted(c, w);
    if !p.poll.Registered? { SetProcKeeps(c, w, p.(poll := Idle)); }
  }

  lemma RegisterKeeps(c: Claims, w: Worker)
    requires ClaimsOk(c) && Guarded(c, Register(w))
    ensures ClaimsOk(Next(c, Register(w)))
  {
    var p := ProcOf(c, w);
    assert ProcOk(c, w, p);
    ProcIsAccounted(c, w);
    if p.poll.HasBegun? {
      var m := p.poll.msg;
      var p' := p.(active := p.active[m.id := m], poll := Registered(m));
      assert ThreadsOk(p') && ClaimsOf(c, w, p');
      SetProcKeeps(c, w, p');
    }
  }

  lemma SubmitKeeps(c: Claims, w: Worker)
    requires ClaimsOk(c)
    ensures ClaimsOk(Next(c, Submit(w)))
  {
    var p := ProcOf(c, w);
    assert ProcOk(c, w, p);
    ProcIsAccounted(c, w);
    if p.poll.Registered? { SetProcKeeps(c, w, p.(held := p.held + {p.poll.msg}, poll := Idle)); }
  }

  lemma StopKeeps(c: Claims, w: Worker)
    requires ClaimsOk(c)
    ensures ClaimsOk(Next(c, Stop(w)))
  {
    var p := ProcOf(c, w);
    assert ProcOk(c, w, p);
    ProcIsAccounted(c, w);
    SetProcKeeps(c, w, p.(stopping := true));
  }

  lemma LeaveKeeps(c: Claims, w: Worker, m: Message)
    requires ClaimsOk(c)
    ensures ClaimsOk(Next(c, Leave(w, m)))
  {
    var p := ProcOf(c, w);
    assert ProcOk(c, w, p);
    ProcIsAccounted(c, w);
    if m in p.done {
      var p' := p.(done := p.done - {m}, active := p.active - {m.id});
      DropClaim(c, w, p, m, p');
      SetProcKeeps(c, w, p');
    }
  }

  /** A claim leaves the thread pool and the table of active claims. */
  lemma DropClaim(c: Claims, w: Worker, p: Process, m: Message, p': Process)
    requires ProcOk(c, w, p) && Drops(p, m, p')
    ensures ProcOk(c, w, p')
  {
    DropThread(p, m, p');
    assert ClaimsOf(c, w, p') && RecoveryOk(c, w, p');
  }

  predicate Drops(p: Process, m: Message, p': Process) {
    && p'.held == p.held - {m} && p'.running == p.running - {m} && p'.done == p.done - {m}
    && p'.active == p.active - {m.id} && (p'.spent == p.spent || p'.spent == p.spent + {m.id})
    && if p'.poll == p.poll then m in p.held + p.running + p.done
       else p.poll.Registered? && m == p.poll.msg && (p'.poll.Idle? || p'.poll.Recovered?)
  }

  lemma DropThread(p: Process, m: Message, p': Process)
    requires ThreadsOk(p) && Drops(p, m, p')
    ensures ThreadsOk(p') && p'.active.Values <= p.active.Values
  {
    forall id <- p'.active ensures HasThread(p', p'.active[id]) {
      assert HasThread(p, p.active[id]) && p.active[id] != m;
    }
  }

  lemma CrashKeeps(c: Claims, w: Worker, m: Message)
    requires ClaimsOk(c)
    ensures ClaimsOk(Next(c, Crash(w, m)))
  {
    if m in ProcOf(c, w).held + ProcOf(c, w).running + ProcOf(c, w).done {
      ProcIsAccounted(c, w);
      CrashedIsOk(c, w, ProcOf(c, w), m);
      SetProcKeeps(c, w, Crashed(ProcOf(c, w), m));
    }
  }

  lemma CrashedIsOk(c: Claims, w: Worker, p: Process, m: Message)
    requires ProcOk(c, w, p) && Accounted(c, w, p) && m in p.held + p.running + p.done
    requires forall id: TaskId :: RunningOk(c, id)
    ensures ProcOk(c, w, Crashed(p, m)) && Accounted(c, w, Crashed(p, m))
  {
    DropClaim(c, w, p, m, Crashed(p, m));
    forall id: TaskId | Begun(c.s, id) && SlotOf(c.s, id).value.msg == m ensures id == m.id { assert RunningOk(c, id); }
  }

  // ---------- Steps of a process on the store ----------

  lemma OtherKeeps(c: Claims, a: Action)
    requires ClaimsOk(c) && TasksOk(c.s) && Fresh(c.s, a)
    ensures ClaimsOk(Next(c, Other(a)))
  {
    if !ClaimAction(a) {
      OtherIsQuiet(c.s, a);
      QuietKeeps(c, Step(c.s, a).0);
    }
  }

  lemma PopTaskKeeps(c: Claims, w: Worker, raw: Message)
    requires ClaimsOk(c) && TasksOk(c.s)
    ensures ClaimsOk(PopNext(c, w, raw))
  {
    var p := ProcOf(c, w);
    if p.poll.Recovered? && Pop(c.s, w, raw).1 == WasMoved {
      var c1 := c.(s := Pop(c.s, w, raw).0);
      PopIsQuiet(c.s, w, raw);
      QuietKeeps(c, c1.s);
      assert ProcOf(c1, w) == p && ProcOk(c1, w, p);
      ProcIsAccounted(c1, w);
      SetProcKeeps(c1, w, p.(poll := HasPopped(raw)));
    }
  }

  /** After a reply to a settlement the message is no longer in the worker's list. */
  lemma SettledLeaves(s: State, w: Worker, m: Message, how: Settlement)
    requires TasksOk(s)
    ensures !Holds(SettleIn(s, w, m, how), Processing(w), m)
  {
  }

  lemma SettleKeeps(c: Claims, w: Worker, m: Message, how: Settlement, replied: bool)
    requires ClaimsOk(c) && TasksOk(c.s)
    ensures ClaimsOk(SettleRunning(c, w, m, how, replied))
  {
    if m in ProcOf(c, w).running {
      SettlingIsQuiet(c.s, w, m, how);
      SettledLeaves(c.s, w, m, how);
      SettledKeeps(c, w, m, SettleIn(c.s, w, m, how), replied);
    }
  }

  lemma SettledKeeps(c: Claims, w: Worker, m: Message, s': State, replied: bool)
    requires ClaimsOk(c) && Quiet(c.s, s') && m in ProcOf(c, w).running && !Holds(s', Processing(w), m)
    ensures ClaimsOk(Settled(c, w, m, s', replied))
  {
    var p, c1 := ProcOf(c, w), c.(s := s');
    QuietKeeps(c, s');
    SettleMoves(c1, w, p, m);
    ProcIsAccounted(c1, w);
    SetProcKeeps(c1, w, p);
  }

  lemma SettleMoves(c: Claims, w: Worker, p: Process, m: Message)
    requires ClaimsOk(c) && p == ProcOf(c, w) && m in p.running && !Holds(c.s, Processing(w), m)
    ensures ClaimsOk(SetProc(c, w, p.(running := p.running - {m}, done := p.done + {m})))
  {
    var p' := p.(running := p.running - {m}, done := p.done + {m});
    assert ProcOk(c, w, p);
    ProcIsAccounted(c, w);
    assert ThreadsOk(p') && ClaimsOf(c, w, p');
    assert Accounted(c, w, p') by {
      forall id: TaskId | Begun(c.s, id) && SlotOf(c.s, id).value.place.worker == w
        ensures SlotOf(c.s, id).value.msg != m
      {
        assert RunningOk(c, id);
      }
    }
    SetProcKeeps(c, w, p');
  }

  lemma UndecodableKeeps(c: Claims, w: Worker, how: Settlement, committed: bool, replied: bool)
    requires ClaimsOk(c)
    ensures ClaimsOk(SettleUndecoded(c, w, how, committed, replied))
  {
    if ProcOf(c, w).poll.Registered? {
      var s' := UndecodedSettles(c.s, w, ProcOf(c, w).poll.msg, how, committed || replied);
      UndecodedKeeps(c, w, s', replied);
    }
  }

  lemma UndecodedSettles(s: State, w: Worker, m: Message, how: Settlement, committed: bool) returns (s': State)
    ensures s' == (if committed then SettleIn(s, w, m, how) else s) && Quiet(s, s')
  {
    s' := if committed then SettleIn(s, w, m, how) else s;
    if committed { SettlingIsQuiet(s, w, m, how); } else { SameIsQuiet(s); }
  }

  lemma SameIsQuiet(s: State)
    ensures Quiet(s, s)
  {
  }

  lemma UndecodedKeeps(c: Claims, w: Worker, s': State, replied: bool)
    requires ClaimsOk(c) && Quiet(c.s, s') && ProcOf(c, w).poll.Registered?
    ensures ClaimsOk(Undecoded(c, w, s', replied))
  {
    var p, p', c1 := ProcOf(c, w), ProcOf(Undecoded(c, w, s', replied), w), c.(s := s');
    QuietKeeps(c, s');
    assert ProcOf(c1, w) == p && ProcOk(c1, w, ProcOf(c1, w));
    ProcIsAccounted(c1, w);
    DropClaim(c1, w, p, p.poll.msg, p');
    SetProcKeeps(c1, w, p');
  }

  lemma LetInKeeps(c: Claims, w: Worker, m: Message)
    requires ClaimsOk(c)
    ensures ClaimsOk(Next(c, LetIn(w, m)))
  {
    var p := ProcOf(c, w);
    if m in p.held && !p.stopping && m.claimToken.Some? {
      assert ProcOk(c, w, p);
      var c' := Next(c, LetIn(w, m));
      forall id: TaskId ensures AttemptOk(c', id) && RunningOk(c', id) { LetInTask(c, w, m, id); }
      forall x: Worker ensures ProcOk(c', x, ProcOf(c', x)) { LetInProc(c, w, m, x); }
    }
  }

  /** The steps below name what the admission of `m` at `w` needs. */
  predicate CanLetIn(c: Claims, w: Worker, m: Message) {
    var p := ProcOf(c, w);
    m in p.held && !p.stopping && m.claimToken.Some? && ProcOk(c, w, p)
  }

  lemma LetInTask(c: Claims, w: Worker, m: Message, id: TaskId)
    requires CanLetIn(c, w, m) && AttemptOk(c, id) && RunningOk(c, id)
    ensures AttemptOk(Admitted(c, w, m), id) && RunningOk(Admitted(c, w, m), id)
  {
    assert PendingOk(c, w, m);
    LetInRunning(c, w, m, id);
  }

  lemma LetInRunning(c: Claims, w: Worker, m: Message, id: TaskId)
    requires CanLetIn(c, w, m) && PendingOk(c, w, m) && RunningOk(c, id)
    ensures RunningOk(Admitted(c, w, m), id)
  {
  }

  lemma LetInProc(c: Claims, w: Worker, m: Message, x: Worker)
    requires CanLetIn(c, w, m) && ProcOk(c, x, ProcOf(c, x)) && forall id: TaskId :: RunningOk(c, id)
    ensures ProcOk(Admitted(c, w, m), x, ProcOf(Admitted(c, w, m), x))
  {
    assert PendingOk(c, w, m);
    if x == w { LetInThreads(ProcOf(c, w), m); }
    LetInClaims(c, w, m, x);
    LetInRecovery(c, w, m, x);
  }

  lemma LetInThreads(p: Process, m: Message)
    requires ThreadsOk(p) && m in p.held
    ensures ThreadsOk(p.(held := p.held - {m}, running := p.running + {m}))
  {
    var p' := p.(held := p.held - {m}, running := p.running + {m});
    forall id <- p'.active ensures HasThread(p', p'.active[id]) { assert HasThread(p, p.active[id]); }
  }

  lemma LetInClaims(c: Claims, w: Worker, m: Message, x: Worker)
    requires CanLetIn(c, w, m) && PendingOk(c, w, m) && ClaimsOf(c, x, ProcOf(c, x)) && ThreadsOk(ProcOf(c, x))
    ensures ClaimsOf(Admitted(c, w, m), x, ProcOf(Admitted(c, w, m), x))
  {
    var c' := Admitted(c, w, m);
    assert forall n: Message :: WasBegun(c', x, n) == WasBegun(c, x, n);
    forall n: Message | PendingOk(c, x, n) && (x != w || n != m) ensures PendingOk(c', x, n) {}
  }

  lemma LetInRecovery(c: Claims, w: Worker, m: Message, x: Worker)
    requires CanLetIn(c, w, m) && PendingOk(c, w, m) && RecoveryOk(c, x, ProcOf(c, x)) && ThreadsOk(ProcOf(c, w))
    requires forall id: TaskId :: RunningOk(c, id)
    ensures RecoveryOk(Admitted(c, w, m), x, ProcOf(Admitted(c, w, m), x))
  {
    if ProcOf(c, x).poll.Recovering? {
      forall id: TaskId | Begun(c.s, id) && SlotOf(c.s, id).value.place.worker == x
        ensures SlotOf(c.s, id).value.msg.claimToken == m.claimToken ==> x == w && SlotOf(c.s, id).value.msg == m
      {
        assert RunningOk(c, id);
      }
    }
  }

  // ---------- Giving an attempt back ----------

  /** The running attempt of one task is given back, and nothing else begins or ends. */
  ghost predicate GivenBack(s: State, s': State, id: TaskId) {
    && s.tokens <= s'.tokens && (forall x: TaskId :: x != id ==> QuietAt(s, s', x))
    && id in s.tasks && id in s'.tasks && !Begun(s', id)
    && RecordOf(s, id).Some? && RecordOf(s', id).Some?
    && RecordOf(s', id).value.spec == RecordOf(s, id).value.spec
    && RecordOf(s', id).value.attempt == RecordOf(s, id).value.attempt - 1
  }

  lemma RecoveryGivesBack(s: State, w: Worker, raw: Message)
    requires GivesBack(s, w, raw, false)
    ensures GivenBack(s, RecoverAbandoned(s, w, raw, false).0, raw.id)
    ensures BegunBy(s, w, raw)
  {
  }

  lemma ReturnGivesBack(s: State, w: Worker, m: Message)
    requires ReturnUnstarted(s, w, m).1 == WasReturned
    ensures GivenBack(s, ReturnUnstarted(s, w, m).0, m.id)
    ensures BegunBy(s, w, m)
  {
  }

  lemma ReturnIsQuiet(s: State, w: Worker, m: Message)
    requires ReturnUnstarted(s, w, m).1 != WasReturned
    ensures ReturnUnstarted(s, w, m).0 == s
  {
  }

  predicate Waits(p: Process, m: Message) {
    m in p.held || ((p.poll.HasBegun? || p.poll.Registered?) && p.poll.msg == m)
  }

  lemma WaitsWhereBegun(c: Claims, x: Worker, m: Message)
    requires ProcOk(c, x, ProcOf(c, x)) && Waits(ProcOf(c, x), m)
    ensures PendingOk(c, x, m)
    ensures m in ProcOf(c, x).held ==> m in ProcOf(c, x).active.Values
  {
    if m in ProcOf(c, x).held { assert ProcOf(c, x).active[m.id] == m; }
  }

  /** No process waits to let this attempt in. */
  ghost predicate NotWaiting(c: Claims, m: Message) {
    forall w: Worker :: !Waits(ProcOf(c, w), m)
  }

  lemma WithdrawKeeps(c: Claims, s': State, w: Worker, m: Message)
    requires ClaimsOk(c) && BegunBy(c.s, w, m) && GivenBack(c.s, s', m.id) && NotWaiting(c, m)
    requires m.claimToken.Some? && m.claimToken.value !in TokensOf(c.admitted, m.id)
    ensures ClaimsOk(c.(s := s', granted := Withdraw(c.granted, m)))
  {
    var c' := c.(s := s', granted := Withdraw(c.granted, m));
    assert RunningOk(c, m.id);
    forall id: TaskId ensures AttemptOk(c', id) && RunningOk(c', id) {
      assert AttemptOk(c, id) && RunningOk(c, id);
      if id == m.id { WithdrawTask(c, s', w, m); } else { assert QuietAt(c.s, s', id); }
    }
    forall x: Worker ensures ProcOk(c', x, ProcOf(c', x)) { WithdrawProc(c, s', w, m, x); }
  }

  lemma WithdrawTask(c: Claims, s': State, w: Worker, m: Message)
    requires AttemptOk(c, m.id) && RunningOk(c, m.id) && BegunBy(c.s, w, m) && GivenBack(c.s, s', m.id)
    requires m.claimToken.Some? && m.claimToken.value !in TokensOf(c.admitted, m.id)
    ensures AttemptOk(c.(s := s', granted := Withdraw(c.granted, m)), m.id)
  {
    var t, before := m.claimToken.value, TokensOf(c.granted, m.id);
    assert t in before && |before - {t}| == |before| - 1;
  }

  lemma WithdrawProc(c: Claims, s': State, w: Worker, m: Message, x: Worker)
    requires ProcOk(c, x, ProcOf(c, x)) && RunningOk(c, m.id) && BegunBy(c.s, w, m) && GivenBack(c.s, s', m.id)
      && NotWaiting(c, m)
    requires m.claimToken.Some?
    ensures ProcOk(c.(s := s', granted := Withdraw(c.granted, m)), x, ProcOf(c, x))
  {
    var c', p := c.(s := s', granted := Withdraw(c.granted, m)), ProcOf(c, x);
    assert WasBegun(c, w, m);
    forall n: Message | PendingOk(c, x, n) && Waits(p, n)
      ensures PendingOk(c', x, n)
    {
      assert n != m && c.began[n.claimToken.value] == Start(x, n);
    }
    forall id: TaskId | Begun(s', id) ensures Begun(c.s, id) && SlotOf(s', id) == SlotOf(c.s, id) {
      assert id != m.id;
      assert QuietAt(c.s, s', id);
    }
    assert ClaimsOf(c', x, p) by {
      assert forall n: Message :: BegunBy(s', x, n) ==> BegunBy(c.s, x, n);
    }
  }

  /** What recovery may take from the list is not protected, so no handler was or will be let in on it. */
  lemma RecoverOneKeeps(c: Claims, w: Worker, raw: Message)
    requires ClaimsOk(c)
    ensures ClaimsOk(RecoverNext(c, w, raw))
  {
    var p := ProcOf(c, w);
    if p.poll.Recovering? && raw !in p.poll.protected {
      var spent := raw.id in p.poll.snapshot;
      if GivesBack(c.s, w, raw, spent) {
        RecoveryGivesBack(c.s, w, raw);
        UnprotectedIsIdle(c, w, raw);
        WithdrawKeeps(c, RecoverAbandoned(c.s, w, raw, spent).0, w, raw);
      } else {
        RecoveringIsQuiet(c.s, w, raw, spent);
        QuietKeeps(c, RecoverAbandoned(c.s, w, raw, spent).0);
      }
    }
  }

  lemma UnprotectedIsIdle(c: Claims, w: Worker, raw: Message)
    requires ClaimsOk(c) && BegunBy(c.s, w, raw) && ProcOf(c, w).poll.Recovering?
    requires raw !in ProcOf(c, w).poll.protected && raw.id !in ProcOf(c, w).poll.snapshot
    ensures raw.claimToken.Some? && raw.claimToken.value !in TokensOf(c.admitted, raw.id)
    ensures NotWaiting(c, raw)
  {
    assert RunningOk(c, raw.id);
    forall x: Worker
      ensures !Waits(ProcOf(c, x), raw)
    {
      assert ProcOk(c, x, ProcOf(c, x));
      if Waits(ProcOf(c, x), raw) { WaitsWhereBegun(c, x, raw); }
    }
  }

  lemma ReturnClaimKeeps(c: Claims, w: Worker, m: Message, committed: bool, replied: bool)
    requires ClaimsOk(c)
    ensures ClaimsOk(ReturnHeld(c, w, m, committed, replied))
  {
    var p := ProcOf(c, w);
    if m in p.held && p.stopping {
      var p' := p.(held := p.held - {m}, active := p.active - {m.id},
                   spent := if replied then p.spent else p.spent + {m.id});
      var c1 := SetProc(c, w, p');
      assert ProcOk(c, w, p);
      ProcIsAccounted(c, w);
      DropClaim(c, w, p, m, p');
      SetProcKeeps(c, w, p');
      if (committed || replied) && ReturnUnstarted(c.s, w, m).1 == WasReturned {
        ReturnGivesBack(c.s, w, m);
        NobodyElseWaits(c, w, m, p');
        WithdrawKeeps(c1, ReturnUnstarted(c.s, w, m).0, w, m);
      } else {
        ReturnIsQuietUnlessReturned(c, w, m);
      }
    }
  }

  lemma ReturnIsQuietUnlessReturned(c: Claims, w: Worker, m: Message)
    ensures ReturnUnstarted(c.s, w, m).1 != WasReturned ==> GiveBack(c, w, m) == c
  {
    if ReturnUnstarted(c.s, w, m).1 != WasReturned { ReturnIsQuiet(c.s, w, m); }
  }

  lemma NobodyElseWaits(c: Claims, w: Worker, m: Message, p': Process)
    requires ClaimsOk(c) && m in ProcOf(c, w).held && p'.held == ProcOf(c, w).held - {m} && p'.poll == ProcOf(c, w).poll
    ensures NotWaiting(SetProc(c, w, p'), m)
    ensures m.claimToken.Some? && m.claimToken.value !in TokensOf(c.admitted, m.id)
  {
    var c1 := SetProc(c, w, p');
    assert ProcOk(c, w, ProcOf(c, w)) && PendingOk(c, w, m);
    forall x: Worker
      ensures !Waits(ProcOf(c1, x), m)
    {
      assert ProcOk(c, x, ProcOf(c, x));
      if Waits(ProcOf(c, x), m) { WaitsWhereBegun(c, x, m); }
    }
  }

  // ---------- Beginning an attempt ----------

  lemma BeginShape(s: State, w: Worker, raw: Message, claim: Token, lease: Token, time: Timing)
    requires Begin(s, w, raw, claim, lease, time).1.WasStarted?
    ensures RecordOf(s, raw.id).Some? && RecordOf(s, raw.id).value.attempt < RecordOf(s, raw.id).value.spec.maxAttempts
    ensures Begin(s, w, raw, claim, lease, time)
      == BeginStarted(s, w, raw, RecordOf(s, raw.id).value, claim, lease, time.lease)
  {
  }

  /** What the start of an attempt does to the store, as far as claims can see. */
  ghost predicate Started(s: State, s': State, w: Worker, m: Message) {
    && s.tokens <= s'.tokens && (forall x: TaskId :: x != m.id ==> QuietAt(s, s', x))
    && m.claimToken.Some? && m.claimToken.value !in s.tokens && m.claimToken.value in s'.tokens
    && m.id in s.tasks && m.id in s'.tasks && BegunBy(s', w, m)
    && RecordOf(s, m.id).Some? && RecordOf(s', m.id).Some?
    && RecordOf(s', m.id).value.claimToken == m.claimToken
    && RecordOf(s', m.id).value.spec == RecordOf(s, m.id).value.spec
    && RecordOf(s', m.id).value.attempt
       == RecordOf(s, m.id).value.attempt + 1 <= RecordOf(s, m.id).value.spec.maxAttempts
  }

  lemma BeginStarts(s: State, w: Worker, raw: Message, claim: Token, lease: Token, time: Timing)
    requires Begin(s, w, raw, claim, lease, time).1.WasStarted? && claim !in s.tokens
    ensures var (s', reply) := Begin(s, w, raw, claim, lease, time);
      Started(s, s', w, reply.msg) && reply.msg.id == raw.id && reply.msg.claimToken == Some(claim)
  {
    BeginShape(s, w, raw, claim, lease, time);
  }

  /** The claims after a start, apart from the polling thread. */
  function Grant(c: Claims, s': State, w: Worker, m: Message, maxAttempts: nat): Claims
    requires m.claimToken.Some?
  {
    c.(s := s', began := c.began[m.claimToken.value := Start(w, m)],
       granted := Credit(c.granted, m.id, m.claimToken.value), budget := c.budget[m.id := maxAttempts])
  }

  lemma GrantOwnAttempt(c: Claims, s': State, w: Worker, m: Message)
    requires BeganOk(c) && AttemptOk(c, m.id) && Started(c.s, s', w, m)
    ensures AttemptOk(Grant(c, s', w, m, RecordOf(c.s, m.id).value.spec.maxAttempts), m.id)
  {
    var t, before := m.claimToken.value, TokensOf(c.granted, m.id);
    assert t !in c.began && t !in before;
    assert |before + {t}| == |before| + 1;
  }

  lemma GrantOtherAttempt(c: Claims, s': State, w: Worker, m: Message, id: TaskId)
    requires BeganOk(c) && AttemptOk(c, id) && Started(c.s, s', w, m) && id != m.id
    ensures AttemptOk(Grant(c, s', w, m, RecordOf(c.s, m.id).value.spec.maxAttempts), id)
  {
    assert m.claimToken.value !in c.began;
    assert QuietAt(c.s, s', id);
  }

  lemma GrantOwnRunning(c: Claims, s': State, w: Worker, m: Message)
    requires BeganOk(c) && AttemptOk(c, m.id) && Started(c.s, s', w, m)
    ensures RunningOk(Grant(c, s', w, m, RecordOf(c.s, m.id).value.spec.maxAttempts), m.id)
  {
    assert m.claimToken.value !in TokensOf(c.admitted, m.id) && SlotOf(s', m.id).value == Slot(Processing(w), m);
  }

  lemma GrantOtherRunning(c: Claims, s': State, w: Worker, m: Message, id: TaskId)
    requires BeganOk(c) && RunningOk(c, id) && Started(c.s, s', w, m) && id != m.id
    ensures RunningOk(Grant(c, s', w, m, RecordOf(c.s, m.id).value.spec.maxAttempts), id)
  {
    assert m.claimToken.value !in c.began;
    assert QuietAt(c.s, s', id);
  }

  lemma GrantClaims(c: Claims, s': State, w: Worker, m: Message, x: Worker, p: Process)
    requires BeganOk(c) && ClaimsOf(c, x, p) && ThreadsOk(p) && Started(c.s, s', w, m) && AttemptOk(c, m.id)
    ensures ClaimsOf(Grant(c, s', w, m, RecordOf(c.s, m.id).value.spec.maxAttempts), x, p)
  {
    var c' := Grant(c, s', w, m, RecordOf(c.s, m.id).value.spec.maxAttempts);
    assert m.claimToken.value !in c.began;
    forall n: Message | WasBegun(c, x, n) ensures WasBegun(c', x, n) && n != m {}
    forall n: Message | PendingOk(c, x, n) ensures PendingOk(c', x, n) {}
    forall n <- p.done ensures !BegunBy(s', x, n) {
      assert WasBegun(c, x, p.active[n.id]);
      if n.id != m.id { assert QuietAt(c.s, s', n.id); }
    }
  }

  lemma GrantRecovery(c: Claims, s': State, w: Worker, m: Message, x: Worker, p: Process)
    requires BeganOk(c) && RecoveryOk(c, x, p) && Started(c.s, s', w, m) && AttemptOk(c, m.id)
    ensures RecoveryOk(Grant(c, s', w, m, RecordOf(c.s, m.id).value.spec.maxAttempts), x, p)
  {
    assert m.claimToken.value !in c.began && m.claimToken.value !in TokensOf(c.admitted, m.id);
    forall id: TaskId | id != m.id && Begun(s', id) ensures Begun(c.s, id) && SlotOf(s', id) == SlotOf(c.s, id) {
      assert QuietAt(c.s, s', id);
    }
  }

  lemma GrantProc(c: Claims, s': State, w: Worker, m: Message, x: Worker)
    requires BeganOk(c) && ProcOk(c, x, ProcOf(c, x)) && Started(c.s, s', w, m) && AttemptOk(c, m.id)
    ensures ProcOk(Grant(c, s', w, m, RecordOf(c.s, m.id).value.spec.maxAttempts), x, ProcOf(c, x))
  {
    GrantClaims(c, s', w, m, x, ProcOf(c, x));
    GrantRecovery(c, s', w, m, x, ProcOf(c, x));
  }

  lemma GrantKeepsTask(c: Claims, s': State, w: Worker, m: Message, id: TaskId)
    requires BeganOk(c) && AttemptOk(c, id) && RunningOk(c, id) && Started(c.s, s', w, m)
    ensures var c' := Grant(c, s', w, m, RecordOf(c.s, m.id).value.spec.maxAttempts);
      AttemptOk(c', id) && RunningOk(c', id)
  {
    if id == m.id {
      GrantOwnAttempt(c, s', w, m);
      GrantOwnRunning(c, s', w, m);
    } else {
      GrantOtherAttempt(c, s', w, m, id);
      GrantOtherRunning(c, s', w, m, id);
    }
  }

  lemma GrantKeeps(c: Claims, s': State, w: Worker, m: Message)
    requires ClaimsOk(c) && Started(c.s, s', w, m)
    ensures ClaimsOk(Grant(c, s', w, m, RecordOf(c.s, m.id).value.spec.maxAttempts))
  {
    var c' := Grant(c, s', w, m, RecordOf(c.s, m.id).value.spec.maxAttempts);
    forall id: TaskId ensures AttemptOk(c', id) && RunningOk(c', id) { GrantKeepsTask(c, s', w, m, id); }
    forall x: Worker ensures ProcOk(c', x, ProcOf(c', x)) {
      assert ProcOk(c, x, ProcOf(c, x)) && AttemptOk(c, m.id);
      GrantProc(c, s', w, m, x);
    }
    assert BeganOk(c');
  }

  lemma GrantPends(c: Claims, s': State, w: Worker, m: Message)
    requires BeganOk(c) && AttemptOk(c, m.id) && ProcOk(c, w, ProcOf(c, w)) && Started(c.s, s', w, m)
    ensures PendingOk(Grant(c, s', w, m, RecordOf(c.s, m.id).value.spec.maxAttempts), w, m)
    ensures m !in ProcOf(c, w).active.Values
  {
    assert m.claimToken.value !in c.began;
  }

  lemma SetPollKeeps(c: Claims, w: Worker, poll: Poll)
    requires ClaimsOk(c) && !poll.Recovering? && !poll.Registered? && !ProcOf(c, w).poll.Registered?
    requires poll.HasBegun? ==> PendingOk(c, w, poll.msg) && poll.msg !in ProcOf(c, w).active.Values
    ensures ClaimsOk(SetProc(c, w, ProcOf(c, w).(poll := poll)))
  {
    assert ProcOk(c, w, ProcOf(c, w));
    ProcIsAccounted(c, w);
    SetProcKeeps(c, w, ProcOf(c, w).(poll := poll));
  }

  lemma BeginTaskKeeps(c: Claims, w: Worker, claim: Token, lease: Token, time: Timing, replied: bool)
    requires ClaimsOk(c) && claim !in c.s.tokens
    ensures ClaimsOk(BeginPopped(c, w, claim, lease, time, replied))
  {
    var p := ProcOf(c, w);
    if p.poll.HasPopped? {
      var raw := p.poll.raw;
      var (s', reply) := Begin(c.s, w, raw, claim, lease, time);
      var c1 := BeginIn(c, w, raw, claim, lease, time);
      if reply.WasStarted? {
        BeginShape(c.s, w, raw, claim, lease, time);
        BeginStarts(c.s, w, raw, claim, lease, time);
        GrantKeeps(c, s', w, reply.msg);
        assert AttemptOk(c, raw.id) && ProcOk(c, w, p);
        GrantPends(c, s', w, reply.msg);
        assert c1 == Grant(c, s', w, reply.msg, RecordOf(c.s, raw.id).value.spec.maxAttempts);
      } else {
        BeginIsQuiet(c.s, w, raw, claim, lease, time);
        QuietKeeps(c, s');
      }
      SetPollKeeps(c1, w, if !replied then Idle else if reply.WasStarted? then HasBegun(reply.msg) else Recovered);
    }
  }

  // ---------- All runs ----------

  lemma ClaimStepKeeps(c: Claims, x: ClaimStep)
    requires ClaimsOk(c) && TasksOk(c.s) && FreshStep(c, x) && Guarded(c, x)
    ensures ClaimsOk(Next(c, x))
  {
    match x
    case Other(a) => OtherKeeps(c, a);
    case Snapshot(w) => SnapshotKeeps(c, w);
    case RecoverOne(w, raw) => RecoverOneKeeps(c, w, raw);
    case RecoverDone(w) => RecoverDoneKeeps(c, w);
    case PollFails(w) => PollFailsKeeps(c, w);
    case PopTask(w, raw) => PopTaskKeeps(c, w, raw);
    case BeginTask(w, claim, lease, time, replied) => BeginTaskKeeps(c, w, claim, lease, time, replied);
    case Register(w) => RegisterKeeps(c, w);
    case Undecodable(w, how, committed, replied) => UndecodableKeeps(c, w, how, committed, replied);
    case Submit(w) => SubmitKeeps(c, w);
    case Stop(w) => StopKeeps(c, w);
    case LetIn(w, m) => LetInKeeps(c, w, m);
    case ReturnClaim(w, m, committed, replied) => ReturnClaimKeeps(c, w, m, committed, replied);
    case Settle(w, m, how, replied) => SettleKeeps(c, w, m, how, replied);
    case Leave(w, m) => LeaveKeeps(c, w, m);
    case Crash(w, m) => CrashKeeps(c, w, m);
  }

  function SettleAction(w: Worker, m: Message, how: Settlement): Action {
    match how
    case Success(ttl) => AComplete(w, m, ttl)
    case Failure(permanent, error, runAt, ttl) => AFail(w, m, permanent, error, runAt, ttl)
  }

  /** The script a step may run. */
  function Script(c: Claims, x: ClaimStep): Option<Action> {
    match x
    case Other(a) => Some(a)
    case RecoverOne(w, raw) =>
      var p := ProcOf(c, w);
      if p.poll.Recovering? then Some(ARecoverAbandoned(w, raw, raw.id in p.poll.snapshot)) else None
    case PopTask(w, raw) => Some(APop(w, raw))
    case BeginTask(w, claim, lease, time, _) =>
      if ProcOf(c, w).poll.HasPopped? then Some(ABegin(w, ProcOf(c, w).poll.raw, claim, lease, time)) else None
    case Undecodable(w, how, _, _) =>
      if ProcOf(c, w).poll.Registered? then Some(SettleAction(w, ProcOf(c, w).poll.msg, how)) else None
    case ReturnClaim(w, m, _, _) => Some(AReturn(w, m))
    case Settle(w, m, how, _) => Some(SettleAction(w, m, how))
    case _ => None
  }

  predicate RunsScript(c: Claims, x: ClaimStep) {
    Script(c, x).Some? && Fresh(c.s, Script(c, x).value) && Next(c, x).s == Step(c.s, Script(c, x).value).0
  }

  lemma SettlementIsAScript(c: Claims, x: ClaimStep)
    requires x.Settle? || x.Undecodable?
    ensures Next(c, x).s == c.s || RunsScript(c, x)
  {
    if x.Settle? {
      SettlingIsAScript(c.s, x.w, x.m, x.settlement);
    } else if ProcOf(c, x.w).poll.Registered? {
      SettlingIsAScript(c.s, x.w, ProcOf(c, x.w).poll.msg, x.settlement);
    }
  }

  lemma ClaimingIsAScript(c: Claims, x: ClaimStep)
    requires FreshStep(c, x) && (x.PopTask? || x.BeginTask?)
    ensures Next(c, x).s == c.s || RunsScript(c, x)
  {
  }

  lemma RecoveryIsAScript(c: Claims, x: ClaimStep)
    requires x.RecoverOne? || x.ReturnClaim?
    ensures Next(c, x).s == c.s || RunsScript(c, x)
  {
  }

  /** A step of this layer is one script of the queue, or leaves the store alone. */
  lemma ClaimStepIsAScript(c: Claims, x: ClaimStep)
    requires FreshStep(c, x)
    ensures Next(c, x).s == c.s || RunsScript(c, x)
  {
    if x.Settle? || x.Undecodable? { SettlementIsAScript(c, x); }
    else if x.PopTask? || x.BeginTask? { ClaimingIsAScript(c, x); }
    else if x.RecoverOne? || x.ReturnClaim? { RecoveryIsAScript(c, x); }
  }

  lemma SettlingIsAScript(s: State, w: Worker, m: Message, how: Settlement)
    ensures SettleIn(s, w, m, how) == Step(s, SettleAction(w, m, how)).0 && Fresh(s, SettleAction(w, m, how))
  {
  }

  lemma {:induction false} ClaimRunKeeps(c: Claims, xs: seq<ClaimStep>)
    requires Inv(c.s) && ClaimsOk(c) && FreshSteps(c, xs) && GuardedSteps(c, xs)
    ensures Inv(After(c, xs).s) && ClaimsOk(After(c, xs))
    decreases |xs|
  {
    if xs != [] {
      var x := xs[0];
      ClaimStepKeeps(c, x);
      ClaimStepIsAScript(c, x);
      if Next(c, x).s != c.s { StepKeepsInv(c.s, Script(c, x).value); }
      ClaimRunKeeps(Next(c, x), xs[1..]);
    }
  }

  lemma StartOk()
    ensures Inv(START.s) && ClaimsOk(START)
  {
    EmptyOk();
  }

  /**
   Handlers are let in on a task at most as often as its budget allows, whatever replies are lost,
   handlers die and claims are recovered, provided a worker never registers a claim on a task it
   still remembers.
   */
  lemma AdmittedWithinBudget(xs: seq<ClaimStep>, id: TaskId)
    requires FreshSteps(START, xs) && GuardedSteps(START, xs)
    ensures var c := After(START, xs);
      && TokensOf(c.admitted, id) <= TokensOf(c.granted, id)
      && |TokensOf(c.admitted, id)| <= (if id in c.budget then c.budget[id] else 0)
      && (RecordOf(c.s, id).Some? ==>
            |TokensOf(c.admitted, id)| <= |TokensOf(c.granted, id)| == RecordOf(c.s, id).value.attempt
            <= RecordOf(c.s, id).value.spec.maxAttempts)
  {
    StartOk();
    ClaimRunKeeps(START, xs);
    BudgetHolds(After(START, xs), id);
  }

  lemma BudgetHolds(c: Claims, id: TaskId)
    requires TasksOk(c.s) && AttemptOk(c, id)
    ensures TokensOf(c.admitted, id) <= TokensOf(c.granted, id)
    ensures |TokensOf(c.admitted, id)| <= |TokensOf(c.granted, id)| <= (if id in c.budget then c.budget[id] else 0)
    ensures RecordOf(c.s, id).Some? ==>
      |TokensOf(c.granted, id)| == RecordOf(c.s, id).value.attempt <= RecordOf(c.s, id).value.spec.maxAttempts
  {
    SubsetSize(TokensOf(c.admitted, id), TokensOf(c.granted, id));
    if id !in c.budget { assert TokensOf(c.granted, id) == {}; }
  }

  // ---------- What has been given back ----------

  predicate Spoken(c: Claims, t: Token) {
    t in c.s.tokens && forall id <- c.granted :: t !in c.granted[id]
  }

  lemma TokensGrow(s: State, a: Action)
    ensures s.tokens <= Step(s, a).0.tokens
  {
  }

  lemma BeginGrantsItsToken(c: Claims, w: Worker, claim: Token, lease: Token, time: Timing, replied: bool)
    ensures Next(c, BeginTask(w, claim, lease, time, replied)).granted == c.granted
         || exists id :: Next(c, BeginTask(w, claim, lease, time, replied)).granted == Credit(c.granted, id, claim)
  {
    if ProcOf(c, w).poll.HasPopped? {
      var raw := ProcOf(c, w).poll.raw;
      assert BeginIn(c, w, raw, claim, lease, time).granted in {c.granted, Credit(c.granted, raw.id, claim)};
    }
  }

  lemma GivingBackGrantsNothing(c: Claims, x: ClaimStep)
    requires x.RecoverOne? || x.ReturnClaim?
    ensures Next(c, x).granted in {c.granted, Withdraw(c.granted, if x.RecoverOne? then x.raw else x.m)}
  {
  }

  lemma StepGrantsNothingOld(c: Claims, x: ClaimStep, t: Token)
    requires FreshStep(c, x) && Spoken(c, t)
    ensures forall id <- Next(c, x).granted :: t !in Next(c, x).granted[id]
  {
    if x.BeginTask? { BeginGrantsItsToken(c, x.w, x.claim, x.lease, x.time, x.replied); }
    else if x.RecoverOne? || x.ReturnClaim? { GivingBackGrantsNothing(c, x); }
    else { OthersGrantNothing(c, x); }
  }

  lemma OthersGrantNothing(c: Claims, x: ClaimStep)
    requires !x.BeginTask? && !x.RecoverOne? && !x.ReturnClaim?
    ensures Next(c, x).granted == c.granted
  {
  }

  /**
   In the history of granted attempts, one that has been given back is never granted again.  That no
   script gives it back a second time is shown in `AttemptRefunds`.
   */
  lemma {:induction false} GivenBackForGood(c: Claims, xs: seq<ClaimStep>, t: Token)
    requires FreshSteps(c, xs) && Spoken(c, t)
    ensures Spoken(After(c, xs), t)
    decreases |xs|
  {
    if xs != [] {
      var x := xs[0];
      StepGrantsNothingOld(c, x, t);
      ClaimStepIsAScript(c, x);
      if Next(c, x).s != c.s { TokensGrow(c.s, Script(c, x).value); }
      GivenBackForGood(Next(c, x), xs[1..], t);
    }
  }
}
