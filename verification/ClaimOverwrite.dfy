/**
 Why `WorkerClaims` needs its guard, and that nothing weaker will do.  The table of active claims is
 keyed by the task id, and so is the memory of spent attempts.  A worker that claims a task again
 while it still remembers an earlier claim of it can lose the newer attempt in two ways: the older
 handler takes the newer claim out of the table as it leaves, or the next poll forgets the newer
 attempt together with the older one.  Either way a poll then gives back an attempt whose handler was
 let in.
 */
module ClaimOverwrite {
  import opened Prelude
  import opened TaskModel
  import opened TaskInvariants
  import opened WorkerClaims

  // ---------- Runs ----------

  /** Steps that issue nothing new and register nothing. */
  predicate Easy(run: seq<ClaimStep>) {
    forall x <- run :: !x.BeginTask? && !x.Register? && (x.Other? ==> x.a.AHeartbeat? || x.a.ATick?)
  }

  lemma {:induction false} EasyRunsAreProper(c: Claims, run: seq<ClaimStep>)
    requires Easy(run)
    ensures FreshSteps(c, run) && GuardedSteps(c, run)
    decreases |run|
  {
    if run != [] {
      assert run[0] in run && Easy(run[1..]);
      EasyRunsAreProper(Next(c, run[0]), run[1..]);
    }
  }

  lemma {:induction false} AfterAppend(c: Claims, xs: seq<ClaimStep>, ys: seq<ClaimStep>)
    ensures After(c, xs + ys) == After(After(c, xs), ys)
    ensures FreshSteps(c, xs) && FreshSteps(After(c, xs), ys) ==> FreshSteps(c, xs + ys)
    ensures GuardedSteps(c, xs) && GuardedSteps(After(c, xs), ys) ==> GuardedSteps(c, xs + ys)
    decreases |xs|
  {
    if xs == [] {
      assert xs + ys == ys;
    } else {
      assert (xs + ys)[1..] == xs[1..] + ys;
      AfterAppend(Next(c, xs[0]), xs[1..], ys);
    }
  }

  lemma AfterOne(c: Claims, x: ClaimStep)
    ensures After(c, [x]) == Next(c, x)
    ensures FreshStep(c, x) ==> FreshSteps(c, [x])
  {
    assert [x][1..] == [];
  }

  lemma AfterTwo(c: Claims, x: ClaimStep, y: ClaimStep)
    ensures After(c, [x, y]) == Next(Next(c, x), y)
    ensures FreshStep(c, x) && FreshStep(Next(c, x), y) ==> FreshSteps(c, [x, y])
  {
    AfterOne(c, x);
    AfterOne(Next(c, x), y);
    AfterAppend(c, [x], [y]);
    assert [x] + [y] == [x, y];
  }

  lemma AfterThree(c: Claims, x: ClaimStep, y: ClaimStep, z: ClaimStep)
    ensures After(c, [x, y, z]) == Next(Next(Next(c, x), y), z)
    ensures FreshStep(c, x) && FreshStep(Next(c, x), y) && FreshStep(Next(Next(c, x), y), z) ==>
      FreshSteps(c, [x, y, z])
  {
    AfterTwo(c, x, y);
    AfterOne(Next(Next(c, x), y), z);
    AfterAppend(c, [x, y], [z]);
    assert [x, y] + [z] == [x, y, z];
  }

  // ---------- What a poll gives back ----------

  /** An attempt the abandoned-claim script would give back. */
  predicate Refundable(s: State, w: Worker, m: Message) {
    && BegunBy(s, w, m) && RecordOf(s, m.id).value.outcome == Live && m.claimToken.Some?
    && RecordOf(s, m.id).value.claimToken == m.claimToken && RecordOf(s, m.id).value.attempt == m.attempt > 0
  }

  /** The handler of a refundable attempt was let in. */
  predicate Exposed(c: Claims, w: Worker, m: Message) {
    Refundable(c.s, w, m) && m.claimToken.value in TokensOf(c.admitted, m.id)
  }

  /** The handler of `m` was let in and the attempt has been given back. */
  predicate Lost(c: Claims, m: Message) {
    && m.claimToken.Some?
    && m.claimToken.value in TokensOf(c.admitted, m.id) && m.claimToken.value !in TokensOf(c.granted, m.id)
  }

  /** How long a heartbeat lasts. */
  const BEAT: nat := 120 * SECOND

  /** Every poll begins with a heartbeat. */
  function Beat(w: Worker): seq<ClaimStep> {
    [Other(AHeartbeat(w, BEAT))]
  }

  /** Two states that differ in heartbeats at most. */
  predicate SameButBeats(c: Claims, c': Claims) {
    c' == c.(s := c'.s) && c'.s == c.s.(heartbeats := c'.s.heartbeats)
  }

  lemma Beats(c: Claims, w: Worker) returns (c': Claims)
    ensures c' == After(c, Beat(w)) && SameButBeats(c, c') && Easy(Beat(w))
  {
    c' := Next(c, Other(AHeartbeat(w, BEAT)));
    AfterOne(c, Other(AHeartbeat(w, BEAT)));
  }

  /** The poll reads the table and the spent attempts, and recovers this message. */
  function Takes(w: Worker, m: Message): seq<ClaimStep> {
    [Snapshot(w), RecoverOne(w, m)]
  }

  /** A running message that is in neither memory is taken for a lost reply. */
  lemma TakesRefund(c: Claims, w: Worker, m: Message)
    requires Exposed(c, w, m) && ProcOf(c, w).poll.Idle?
    requires m !in ProcOf(c, w).active.Values && m.id !in ProcOf(c, w).spent
    ensures var c' := After(c, Takes(w, m));
      Lost(c', m) && RecordOf(c'.s, m.id).Some? && RecordOf(c'.s, m.id).value.attempt == m.attempt - 1
  {
    var c1 := Next(c, Snapshot(w));
    assert c1.s == c.s && c1.admitted == c.admitted && c1.granted == c.granted;
    assert GivesBack(c1.s, w, m, false);
    RecoveryGivesBack(c1.s, w, m);
    AfterTwo(c, Snapshot(w), RecoverOne(w, m));
  }

  lemma NextPollRefunds(c: Claims, w: Worker, m: Message)
    requires Exposed(c, w, m) && ProcOf(c, w).poll.Idle?
    requires m !in ProcOf(c, w).active.Values && m.id !in ProcOf(c, w).spent
    ensures var c' := After(c, Beat(w) + Takes(w, m));
      Lost(c', m) && RecordOf(c'.s, m.id).Some? && RecordOf(c'.s, m.id).value.attempt == m.attempt - 1
  {
    var c1 := Beats(c, w);
    TakesRefund(c1, w, m);
    AfterAppend(c, Beat(w), Takes(w, m));
  }

  // ---------- The newer claim ----------

  /** A worker that still accepts work has begun an attempt on a live task and is about to register it. */
  predicate Registers(c: Claims, w: Worker, newer: Message) {
    && ProcOf(c, w).poll == HasBegun(newer) && !ProcOf(c, w).stopping
    && BegunBy(c.s, w, newer) && RecordOf(c.s, newer.id).value.outcome == Live
  }

  lemma BegunIsRefundable(c: Claims, w: Worker, newer: Message)
    requires ClaimsOk(c) && TasksOk(c.s) && Registers(c, w, newer)
    ensures Refundable(c.s, w, newer) && newer !in ProcOf(c, w).held
  {
    assert RunningOk(c, newer.id) && TaskOk(newer.id, c.s.tasks[newer.id]);
    assert ProcOk(c, w, ProcOf(c, w));
    assert forall m <- ProcOf(c, w).held :: ProcOf(c, w).active[m.id] == m;
  }

  lemma ActiveIsKeyed(c: Claims, w: Worker)
    requires ClaimsOk(c)
    ensures forall id <- ProcOf(c, w).active :: ProcOf(c, w).active[id].id == id
  {
    assert ProcOk(c, w, ProcOf(c, w));
  }

  function Enters(w: Worker, newer: Message): seq<ClaimStep> {
    [Submit(w), LetIn(w, newer)]
  }

  /** Registered, submitted and let in. */
  lemma NewerIsLetIn(c: Claims, w: Worker, newer: Message)
    requires Registers(c, w, newer) && Refundable(c.s, w, newer) && newer !in ProcOf(c, w).held
    ensures var c' := After(Next(c, Register(w)), Enters(w, newer)); var p := ProcOf(c, w);
      && c'.s == c.s && Exposed(c', w, newer)
      && ProcOf(c', w) == p.(active := p.active[newer.id := newer], running := p.running + {newer}, poll := Idle)
  {
    var p := ProcOf(c, w);
    var c1 := Next(c, Register(w));
    var c2 := Next(c1, Submit(w));
    assert ProcOf(c2, w) == p.(active := p.active[newer.id := newer], held := p.held + {newer}, poll := Idle);
    assert p.held + {newer} - {newer} == p.held;
    assert Next(c2, LetIn(w, newer)) == Admitted(c2, w, newer);
    AfterTwo(c1, Submit(w), LetIn(w, newer));
  }

  // ---------- Over an active claim ----------

  /** The older handler is let in if it waits, settles in vain if it runs, and leaves. */
  function Leaves(w: Worker, older: Message): seq<ClaimStep> {
    [LetIn(w, older), Settle(w, older, Success(0), true), Leave(w, older)]
  }

  predicate IsOlder(p: Process, older: Message, newer: Message) {
    && older.id == newer.id && older != newer && older in p.held + p.running + p.done
    && older.claimToken.Some? && !p.stopping && p.poll.Idle?
  }

  lemma OlderLeaves(c: Claims, w: Worker, older: Message, newer: Message)
    requires IsOlder(ProcOf(c, w), older, newer) && Exposed(c, w, newer)
    ensures var c' := After(c, Leaves(w, older));
      && c'.s == c.s && Exposed(c', w, newer)
      && ProcOf(c', w).active == ProcOf(c, w).active - {newer.id} && ProcOf(c', w).spent == ProcOf(c, w).spent
      && ProcOf(c', w).poll.Idle?
  {
    var c1 := Next(c, LetIn(w, older));
    OlderRuns(c, w, older, newer);
    var c2 := Next(c1, Settle(w, older, Success(0), true));
    OlderSettles(c1, w, older, newer);
    var c3 := Next(c2, Leave(w, older));
    assert c3.s == c2.s && c3.admitted == c2.admitted;
    AfterThree(c, LetIn(w, older), Settle(w, older, Success(0), true), Leave(w, older));
  }

  /** Where the older claim is does not matter: it gets to its handler's end. */
  lemma OlderRuns(c: Claims, w: Worker, older: Message, newer: Message)
    requires IsOlder(ProcOf(c, w), older, newer) && Exposed(c, w, newer)
    ensures var c', p := Next(c, LetIn(w, older)), ProcOf(c, w);
      && c'.s == c.s && Exposed(c', w, newer)
      && older in ProcOf(c', w).running + ProcOf(c', w).done
      && ProcOf(c', w).active == p.active && ProcOf(c', w).spent == p.spent && ProcOf(c', w).poll == p.poll
  {
  }

  lemma OlderSettles(c: Claims, w: Worker, older: Message, newer: Message)
    requires older.id == newer.id && older != newer && older in ProcOf(c, w).running + ProcOf(c, w).done
      && Exposed(c, w, newer)
    ensures var c', p := Next(c, Settle(w, older, Success(0), true)), ProcOf(c, w);
      && c'.s == c.s && c'.admitted == c.admitted && older in ProcOf(c', w).done
      && ProcOf(c', w).active == p.active && ProcOf(c', w).spent == p.spent && ProcOf(c', w).poll == p.poll
  {
    assert Complete(c.s, w, older, 0) == (c.s, NotFound);
  }

  /** The run of a worker that registers over a claim it still has. */
  function OverwriteRun(w: Worker, older: Message, newer: Message): seq<ClaimStep> {
    Enters(w, newer) + (Leaves(w, older) + (Beat(w) + Takes(w, newer)))
  }

  lemma OverwriteIsEasy(w: Worker, older: Message, newer: Message)
    ensures Easy(OverwriteRun(w, older, newer))
  {
  }

  lemma LeavingLosesAttempt(c: Claims, w: Worker, older: Message, newer: Message)
    requires IsOlder(ProcOf(c, w), older, newer) && Exposed(c, w, newer) && newer.id !in ProcOf(c, w).spent
    requires forall id <- ProcOf(c, w).active :: ProcOf(c, w).active[id].id == id
    ensures var c' := After(c, Leaves(w, older) + (Beat(w) + Takes(w, newer)));
      Lost(c', newer) && RecordOf(c'.s, newer.id).Some? && RecordOf(c'.s, newer.id).value.attempt == newer.attempt - 1
  {
    OlderLeaves(c, w, older, newer);
    NextPollRefunds(After(c, Leaves(w, older)), w, newer);
    AfterAppend(c, Leaves(w, older), Beat(w) + Takes(w, newer));
  }

  /** Registration over an active claim, wherever its handler is. */
  lemma OverwriteLosesAttempt(c: Claims, w: Worker, newer: Message)
    requires ClaimsOk(c) && TasksOk(c.s) && Registers(c, w, newer) && newer.id in ProcOf(c, w).active
    ensures var run := OverwriteRun(w, ProcOf(c, w).active[newer.id], newer);
      var c' := After(Next(c, Register(w)), run);
      && Lost(c', newer)
      && RecordOf(c'.s, newer.id).Some? && RecordOf(c'.s, newer.id).value.attempt == newer.attempt - 1
  {
    var c1, older := Next(c, Register(w)), ProcOf(c, w).active[newer.id];
    OlderIsThere(c, w, newer);
    BegunIsRefundable(c, w, newer);
    NewerIsLetIn(c, w, newer);
    ActiveIsKeyed(c, w);
    LeavingLosesAttempt(After(c1, Enters(w, newer)), w, older, newer);
    AfterAppend(c1, Enters(w, newer), Leaves(w, older) + (Beat(w) + Takes(w, newer)));
  }

  lemma OlderIsThere(c: Claims, w: Worker, newer: Message)
    requires ClaimsOk(c) && Registers(c, w, newer) && newer.id in ProcOf(c, w).active
    ensures var p := ProcOf(c, w); var older := p.active[newer.id];
      && older.id == newer.id && older != newer && older in p.held + p.running + p.done && older.claimToken.Some?
      && newer.id !in p.spent
  {
    var p := ProcOf(c, w);
    assert ProcOk(c, w, p);
    assert HasThread(p, p.active[newer.id]) && WasBegun(c, w, p.active[newer.id]);
  }

  // ---------- Over a spent claim ----------

  /** The messages a recovery in progress still has to take from the list. */
  function Unprotected(s: State, w: Worker, protected: set<Message>): set<TaskId> {
    set id <- s.tasks | s.tasks[id].slot.Some? && s.tasks[id].slot.value.place == Processing(w)
                        && s.tasks[id].slot.value.msg !in protected
  }

  predicate Named(s: State) {
    forall id <- s.tasks :: s.tasks[id].slot.Some? ==> s.tasks[id].slot.value.msg.id == id
  }

  lemma RecoveryTakesOne(s: State, w: Worker, raw: Message, spent: bool, protected: set<Message>)
    requires Named(s) && Holds(s, Processing(w), raw) && raw !in protected
    ensures var s' := RecoverAbandoned(s, w, raw, spent).0;
      && Named(s') && Unprotected(s', w, protected) == Unprotected(s, w, protected) - {raw.id}
      && forall m <- protected :: Refundable(s, w, m) ==> Refundable(s', w, m)
    ensures raw.id in Unprotected(s, w, protected)
  {
  }

  lemma DrainsOne(c: Claims, w: Worker, raw: Message, newer: Message)
    requires Named(c.s) && ProcOf(c, w).poll.Recovering? && Holds(c.s, Processing(w), raw)
      && raw !in ProcOf(c, w).poll.protected
    requires Exposed(c, w, newer) && newer in ProcOf(c, w).poll.protected
    ensures var c' := Next(c, RecoverOne(w, raw)); var protected := ProcOf(c, w).poll.protected;
      && Named(c'.s) && Unprotected(c'.s, w, protected) < Unprotected(c.s, w, protected)
      && ProcOf(c', w) == ProcOf(c, w) && Exposed(c', w, newer)
  {
    RecoveryTakesOne(c.s, w, raw, raw.id in ProcOf(c, w).poll.snapshot, ProcOf(c, w).poll.protected);
  }

  /** Recovery can always take everything that is not protected. */
  lemma {:induction false} Drain(c: Claims, w: Worker, newer: Message) returns (run: seq<ClaimStep>)
    requires Named(c.s) && ProcOf(c, w).poll.Recovering?
    requires Exposed(c, w, newer) && newer in ProcOf(c, w).poll.protected
    ensures Easy(run)
    ensures var c' := After(c, run);
      AllProtected(c'.s, w, ProcOf(c, w).poll.protected) && ProcOf(c', w) == ProcOf(c, w) && Exposed(c', w, newer)
    decreases Unprotected(c.s, w, ProcOf(c, w).poll.protected)
  {
    if AllProtected(c.s, w, ProcOf(c, w).poll.protected) {
      run := [];
    } else {
      var id :| id in c.s.tasks && c.s.tasks[id].slot.Some? && c.s.tasks[id].slot.value.place == Processing(w)
                && c.s.tasks[id].slot.value.msg !in ProcOf(c, w).poll.protected;
      var x := RecoverOne(w, c.s.tasks[id].slot.value.msg);
      DrainsOne(c, w, x.raw, newer);
      var rest := Drain(Next(c, x), w, newer);
      run := [x] + rest;
      AfterOne(c, x);
      AfterAppend(c, [x], rest);
    }
  }

  /** A poll reads both memories while the newer handler runs, and that handler dies. */
  function Dies(w: Worker, newer: Message): seq<ClaimStep> {
    [Snapshot(w), Crash(w, newer)]
  }

  predicate RunsAgain(p: Process, newer: Message) {
    && p.poll.Idle? && newer in p.running && newer.id in p.spent
    && newer.id in p.active && p.active[newer.id] == newer
  }

  lemma NewerDies(c: Claims, w: Worker, newer: Message)
    requires Exposed(c, w, newer) && RunsAgain(ProcOf(c, w), newer)
    ensures var c', p := After(c, Dies(w, newer)), ProcOf(c, w);
      && c'.s == c.s && Exposed(c', w, newer) && ProcOf(c', w).poll == Recovering(p.active.Values, p.spent)
      && newer in p.active.Values
      && ProcOf(c', w).active == p.active - {newer.id} && ProcOf(c', w).spent == p.spent
  {
    var p := ProcOf(c, w);
    var c1 := Next(c, Snapshot(w));
    assert c1 == SetProc(c, w, p.(poll := Recovering(p.active.Values, p.spent)));
    var c2 := Next(c1, Crash(w, newer));
    assert c2 == SetProc(c1, w, Crashed(ProcOf(c1, w), newer)) && p.spent + {newer.id} == p.spent;
    AfterTwo(c, Snapshot(w), Crash(w, newer));
  }

  /** The recovery ends and forgets the attempts it knew to be spent; the pop fails. */
  function Forgets(w: Worker): seq<ClaimStep> {
    [RecoverDone(w), PollFails(w)]
  }

  lemma ForgetsNewer(c: Claims, w: Worker, newer: Message)
    requires Exposed(c, w, newer) && ProcOf(c, w).poll.Recovering? && AllProtected(c.s, w, ProcOf(c, w).poll.protected)
    ensures var c', p := After(c, Forgets(w)), ProcOf(c, w);
      Exposed(c', w, newer) && ProcOf(c', w) == p.(spent := p.spent - p.poll.snapshot, poll := Idle)
  {
    AfterTwo(c, RecoverDone(w), PollFails(w));
  }

  lemma RecoveryForgets(c: Claims, w: Worker, newer: Message) returns (run: seq<ClaimStep>)
    requires Named(c.s) && Exposed(c, w, newer) && ProcOf(c, w).poll.Recovering? && newer in ProcOf(c, w).poll.protected
    ensures Easy(run)
    ensures var c', p := After(c, run), ProcOf(c, w);
      Exposed(c', w, newer) && ProcOf(c', w) == p.(spent := p.spent - p.poll.snapshot, poll := Idle)
  {
    var drain := Drain(c, w, newer);
    ForgetsNewer(After(c, drain), w, newer);
    run := drain + Forgets(w);
    AfterAppend(c, drain, Forgets(w));
  }

  /** A poll during which the newer handler dies forgets that its attempt is spent. */
  lemma DeathIsForgotten(c: Claims, w: Worker, newer: Message) returns (run: seq<ClaimStep>)
    requires Named(c.s) && Exposed(c, w, newer) && RunsAgain(ProcOf(c, w), newer)
    ensures Easy(run)
    ensures var c', p := After(c, run), ProcOf(c, w);
      && Exposed(c', w, newer) && ProcOf(c', w).poll.Idle?
      && ProcOf(c', w).active == p.active - {newer.id} && ProcOf(c', w).spent == {}
  {
    NewerDies(c, w, newer);
    var rest := RecoveryForgets(After(c, Dies(w, newer)), w, newer);
    run := Dies(w, newer) + rest;
    AfterAppend(c, Dies(w, newer), rest);
  }

  /** Beat, death, forgetting, and the poll that then gives the attempt back. */
  lemma DeathLosesAttempt(c: Claims, w: Worker, newer: Message) returns (run: seq<ClaimStep>)
    requires Named(c.s) && Exposed(c, w, newer) && RunsAgain(ProcOf(c, w), newer)
    requires forall id <- ProcOf(c, w).active :: ProcOf(c, w).active[id].id == id
    ensures Easy(run) && Lost(After(c, run), newer)
    ensures var c' := After(c, run);
      RecordOf(c'.s, newer.id).Some? && RecordOf(c'.s, newer.id).value.attempt == newer.attempt - 1
  {
    var c1 := Beats(c, w);
    var death := DeathIsForgotten(c1, w, newer);
    var c2 := After(c1, death);
    assert newer !in ProcOf(c2, w).active.Values;
    NextPollRefunds(c2, w, newer);
    run := Beat(w) + death + (Beat(w) + Takes(w, newer));
    AfterAppend(c, Beat(w), death);
    AfterAppend(c, Beat(w) + death, Beat(w) + Takes(w, newer));
  }

  /** Registration over a claim that is remembered as spent. */
  lemma SpentLosesAttempt(c: Claims, w: Worker, newer: Message) returns (run: seq<ClaimStep>)
    requires ClaimsOk(c) && TasksOk(c.s) && Registers(c, w, newer) && newer.id in ProcOf(c, w).spent
    ensures Easy(run) && Lost(After(Next(c, Register(w)), run), newer)
    ensures var c' := After(Next(c, Register(w)), run);
      RecordOf(c'.s, newer.id).Some? && RecordOf(c'.s, newer.id).value.attempt == newer.attempt - 1
  {
    BegunIsRefundable(c, w, newer);
    NewerIsLetIn(c, w, newer);
    TasksAreNamed(c.s);
    ActiveIsKeyed(c, w);
    var rest := DeathLosesAttempt(After(Next(c, Register(w)), Enters(w, newer)), w, newer);
    run := Enters(w, newer) + rest;
    AfterAppend(Next(c, Register(w)), Enters(w, newer), rest);
  }

  lemma TasksAreNamed(s: State)
    requires TasksOk(s)
    ensures Named(s)
  {
    assert forall id <- s.tasks :: TaskOk(id, s.tasks[id]);
  }

  // ---------- The guard is exact ----------

  /** Every attempt whose handler was let in is still granted. */
  ghost predicate AccountingKept(c: Claims) {
    forall id: TaskId :: TokensOf(c.admitted, id) <= TokensOf(c.granted, id)
  }

  /** Whatever happens from here, as long as later registrations keep to the guard. */
  ghost predicate SafeFrom(c: Claims) {
    forall xs: seq<ClaimStep> :: FreshSteps(c, xs) && GuardedSteps(c, xs) ==> AccountingKept(After(c, xs))
  }

  lemma GuardedIsSafe(c: Claims, w: Worker)
    requires Inv(c.s) && ClaimsOk(c) && Guarded(c, Register(w))
    ensures SafeFrom(Next(c, Register(w)))
  {
    RegisterKeeps(c, w);
    assert Next(c, Register(w)).s == c.s;
    OkIsSafe(Next(c, Register(w)));
  }

  lemma OkIsSafe(c: Claims)
    requires Inv(c.s) && ClaimsOk(c)
    ensures SafeFrom(c)
  {
    forall xs: seq<ClaimStep> | FreshSteps(c, xs) && GuardedSteps(c, xs) ensures AccountingKept(After(c, xs)) {
      ClaimRunKeeps(c, xs);
      OkIsKept(After(c, xs));
    }
  }

  lemma OkIsKept(c: Claims)
    requires ClaimsOk(c)
    ensures AccountingKept(c)
  {
    forall id: TaskId ensures TokensOf(c.admitted, id) <= TokensOf(c.granted, id) { assert AttemptOk(c, id); }
  }

  lemma UnguardedIsUnsafe(c: Claims, w: Worker, newer: Message)
    requires TasksOk(c.s) && ClaimsOk(c) && Registers(c, w, newer) && !Guarded(c, Register(w))
    ensures !SafeFrom(Next(c, Register(w)))
  {
    var c1, run := Next(c, Register(w)), OverwriteRun(w, newer, newer);
    if newer.id in ProcOf(c, w).active {
      run := OverwriteRun(w, ProcOf(c, w).active[newer.id], newer);
      OverwriteLosesAttempt(c, w, newer);
      OverwriteIsEasy(w, ProcOf(c, w).active[newer.id], newer);
    } else {
      run := SpentLosesAttempt(c, w, newer);
    }
    EasyRunsAreProper(c1, run);
    assert !AccountingKept(After(c1, run));
  }

  /**
   At every state of a guarded run in which a worker that still accepts work is about to register a
   live claim of its list: registering it keeps the accounting of attempts, whatever follows, if and
   only if the worker remembers no earlier claim of that task.
   */
  lemma RegistrationIsSafeIffGuarded(xs: seq<ClaimStep>, w: Worker, newer: Message)
    requires FreshSteps(START, xs) && GuardedSteps(START, xs) && Registers(After(START, xs), w, newer)
    ensures SafeFrom(Next(After(START, xs), Register(w))) <==> Guarded(After(START, xs), Register(w))
  {
    StartOk();
    ClaimRunKeeps(START, xs);
    var c := After(START, xs);
    if Guarded(c, Register(w)) { GuardedIsSafe(c, w); } else { UnguardedIsUnsafe(c, w, newer); }
  }
}
