/**
 Runs from the empty queue that reach the states `ClaimOverwrite` is about: a queue with one task of
 budget two, and one worker.  A run is a chain of scenes, each with the steps that lead to the next.
 */
module ClaimScenarios {
  import opened Prelude
  import opened TaskModel
  import opened TaskInvariants
  import opened WorkerClaims
  import opened ClaimOverwrite

  // ---------- Scenes ----------

  const SPEC := TaskSpec(None, None, None, None, None, None, 2, 0)

  const TIMING := Timing(0, 0, 0)

  /** The task, of id 0; its worker; the tokens issued and those of handlers let in. */
  datatype Scene = Scene(w: Worker, place: Place, m: Message, attempt: int, location: Location, claim: Option<Token>,
                         p: Process, tokens: set<Token>, admitted: set<Token>)

  predicate Shows(c: Claims, z: Scene) {
    && z.m.id == 0 && z.m.spec == SPEC
    && c.s.tasks == map[0 := Task(Some(NewRecord(SPEC, None, z.location, 1).(attempt := z.attempt,
                                                                             claimToken := z.claim)),
                                  Some(Slot(z.place, z.m)), None)]
    && ProcOf(c, z.w) == z.p && c.s.tokens == z.tokens && TokensOf(c.admitted, 0) == z.admitted
    && 0 <= c.s.now && forall w <- c.s.heartbeats :: c.s.heartbeats[w] <= c.s.now + BEAT
  }

  /** From wherever `z` shows this run is possible and `z'` shows at its end; does it keep to the guard? */
  ghost predicate Leads(z: Scene, run: seq<ClaimStep>, z': Scene, guarded: bool) {
    forall c: Claims :: Shows(c, z)
      ==> FreshSteps(c, run) && Shows(After(c, run), z') && (guarded ==> GuardedSteps(c, run))
  }

  lemma LeadsBy(z: Scene, run: seq<ClaimStep>, z': Scene)
    requires forall c: Claims :: Shows(c, z) ==> FreshSteps(c, run) && Shows(After(c, run), z') && GuardedSteps(c, run)
    ensures Leads(z, run, z', true)
  {
  }

  lemma Then(z: Scene, xs: seq<ClaimStep>, z1: Scene, ys: seq<ClaimStep>, z2: Scene, guarded: bool)
    requires Leads(z, xs, z1, guarded) && Leads(z1, ys, z2, guarded)
    ensures Leads(z, xs + ys, z2, guarded)
  {
    forall c: Claims | Shows(c, z)
      ensures FreshSteps(c, xs + ys) && Shows(After(c, xs + ys), z2) && (guarded ==> GuardedSteps(c, xs + ys))
    {
      AfterAppend(c, xs, ys);
    }
  }

  lemma {:induction false} NoRegistrationIsGuarded(c: Claims, run: seq<ClaimStep>)
    requires forall x <- run :: !x.Register?
    ensures GuardedSteps(c, run)
    decreases |run|
  {
    if run != [] { NoRegistrationIsGuarded(Next(c, run[0]), run[1..]); }
  }

  // ---------- Polling ----------

  lemma BeatShows(c: Claims, z: Scene)
    requires Shows(c, z)
    ensures FreshSteps(c, Beat(z.w)) && Shows(After(c, Beat(z.w)), z)
  {
    var c' := Next(c, Other(AHeartbeat(z.w, BEAT)));
    assert c' == c.(s := c'.s) && c'.s == c.s.(heartbeats := c.s.heartbeats[z.w := c.s.now + BEAT]);
    AfterOne(c, Other(AHeartbeat(z.w, BEAT)));
  }

  lemma BeatLeads(z: Scene)
    ensures Leads(z, Beat(z.w), z, true)
  {
    forall c: Claims | Shows(c, z)
      ensures FreshSteps(c, Beat(z.w)) && Shows(After(c, Beat(z.w)), z) && GuardedSteps(c, Beat(z.w))
    {
      BeatShows(c, z);
      NoRegistrationIsGuarded(c, Beat(z.w));
    }
    LeadsBy(z, Beat(z.w), z);
  }

  function Look(w: Worker): seq<ClaimStep> {
    [Snapshot(w), RecoverDone(w)]
  }

  function Looked(z: Scene): Scene {
    z.(p := z.p.(spent := {}, poll := Recovered))
  }

  /** There is nothing to recover: the message is not in the worker's list. */
  lemma LookLeads(z: Scene)
    requires z.place == Ready && z.p.poll.Idle?
    ensures Leads(z, Look(z.w), Looked(z), true)
  {
    forall c: Claims | Shows(c, z)
      ensures FreshSteps(c, Look(z.w)) && GuardedSteps(c, Look(z.w))
      ensures Shows(After(c, Look(z.w)), Looked(z))
    {
      var c1 := Next(c, Snapshot(z.w));
      assert AllProtected(c1.s, z.w, z.p.active.Values);
      assert z.p.spent - z.p.spent == {};
      AfterTwo(c, Snapshot(z.w), RecoverDone(z.w));
      NoRegistrationIsGuarded(c, Look(z.w));
    }
  }

  lemma PopShows(c: Claims, z: Scene)
    requires Shows(c, z) && z.place == Ready && z.p.poll.Recovered?
    ensures var c' := Next(c, PopTask(z.w, z.m));
      Shows(c', z.(place := Processing(z.w), p := z.p.(poll := HasPopped(z.m)))) && Popped(z.w, z.m) in c'.s.popped
  {
    assert Holds(c.s, Ready, z.m);
  }

  function StartedAs(m: Message, attempt: int, claim: Token): Message {
    m.(attempt := attempt, claimToken := Some(claim), leaseToken := None)
  }

  /** The scene after the next attempt has begun with this token. */
  function Begins(z: Scene, claim: Token): Scene {
    var m := StartedAs(z.m, z.attempt + 1, claim);
    z.(m := m, place := Processing(z.w), attempt := z.attempt + 1, location := AtProcessing, claim := Some(claim),
       p := z.p.(poll := HasBegun(m)), tokens := z.tokens + {claim})
  }

  lemma BeginShows(c: Claims, z: Scene, claim: Token)
    requires Shows(c, z) && z.place == Processing(z.w) && z.p.poll == HasPopped(z.m) && Popped(z.w, z.m) in c.s.popped
    requires 0 <= z.attempt < 2
    ensures Shows(Next(c, BeginTask(z.w, claim, claim + 1, TIMING, true)), Begins(z, claim))
  {
    assert Begin(c.s, z.w, z.m, claim, claim + 1, TIMING)
      == BeginStarted(c.s, z.w, z.m, RecordOf(c.s, 0).value, claim, claim + 1, 0);
  }

  function PopsAndBegins(w: Worker, m: Message, claim: Token): seq<ClaimStep> {
    [PopTask(w, m), BeginTask(w, claim, claim + 1, TIMING, true)]
  }

  predicate Beginnable(z: Scene, claim: Token) {
    z.place == Ready && 0 <= z.attempt < 2 && claim !in z.tokens && claim + 1 !in z.tokens
  }

  function Popping(z: Scene): Scene { z.(place := Processing(z.w), p := z.p.(poll := HasPopped(z.m))) }

  lemma PopsTo(c: Claims, z: Scene) returns (c1: Claims)
    requires Shows(c, z) && z.place == Ready && z.p.poll.Recovered?
    ensures c1 == Next(c, PopTask(z.w, z.m)) && Shows(c1, Popping(z)) && Popped(z.w, z.m) in c1.s.popped
  {
    c1 := Next(c, PopTask(z.w, z.m));
    PopShows(c, z);
  }

  lemma BeginsTo(c: Claims, z: Scene, claim: Token) returns (c1: Claims)
    requires Shows(c, Popping(z)) && Popped(z.w, z.m) in c.s.popped && Beginnable(z, claim)
    ensures FreshStep(c, BeginTask(z.w, claim, claim + 1, TIMING, true))
    ensures c1 == Next(c, BeginTask(z.w, claim, claim + 1, TIMING, true)) && Shows(c1, Begins(z, claim))
  {
    BeginShows(c, Popping(z), claim);
    c1 := Next(c, BeginTask(z.w, claim, claim + 1, TIMING, true));
  }

  lemma ThenBegins(c: Claims, x: ClaimStep, c1: Claims, y: ClaimStep, run: seq<ClaimStep>)
    requires c1 == Next(c, x) && FreshStep(c, x) && FreshStep(c1, y) && run == [x, y]
    ensures FreshSteps(c, run) && After(c, run) == Next(c1, y)
  {
    AfterTwo(c, x, y);
  }

  lemma PopAndBeginShows(c: Claims, z: Scene, claim: Token, run: seq<ClaimStep>)
    requires Shows(c, z) && z.p.poll.Recovered? && Beginnable(z, claim) && run == PopsAndBegins(z.w, z.m, claim)
    ensures FreshSteps(c, run) && Shows(After(c, run), Begins(z, claim))
  {
    var c1 := PopsTo(c, z);
    var c2 := BeginsTo(c1, z, claim);
    ThenBegins(c, PopTask(z.w, z.m), c1, BeginTask(z.w, claim, claim + 1, TIMING, true), run);
  }

  lemma PopAndBeginIsGuarded(c: Claims, w: Worker, m: Message, claim: Token)
    ensures GuardedSteps(c, PopsAndBegins(w, m, claim))
  {
    NoRegistrationIsGuarded(c, PopsAndBegins(w, m, claim));
  }

  lemma PopAndBeginFrom(c: Claims, z: Scene, claim: Token, run: seq<ClaimStep>)
    requires Shows(c, z) && z.p.poll.Recovered? && Beginnable(z, claim) && run == PopsAndBegins(z.w, z.m, claim)
    ensures FreshSteps(c, run) && Shows(After(c, run), Begins(z, claim)) && GuardedSteps(c, run)
  {
    PopAndBeginShows(c, z, claim, run);
    PopAndBeginIsGuarded(c, z.w, z.m, claim);
  }

  lemma RunOfPop(w: Worker, m: Message, claim: Token) returns (run: seq<ClaimStep>)
    ensures run == PopsAndBegins(w, m, claim)
  {
    run := PopsAndBegins(w, m, claim);
  }

  lemma PopAndBeginLeads(z: Scene, claim: Token)
    requires z.p.poll.Recovered? && Beginnable(z, claim)
    ensures Leads(z, PopsAndBegins(z.w, z.m, claim), Begins(z, claim), true)
  {
    var run := RunOfPop(z.w, z.m, claim);
    forall c: Claims | Shows(c, z)
      ensures FreshSteps(c, run) && Shows(After(c, run), Begins(z, claim)) && GuardedSteps(c, run)
    {
      PopAndBeginFrom(c, z, claim, run);
    }
    LeadsBy(z, run, Begins(z, claim));
  }

  /** A poll that ends with a claim about to be registered. */
  function Claiming(w: Worker, m: Message, claim: Token): seq<ClaimStep> {
    Beat(w) + Look(w) + PopsAndBegins(w, m, claim)
  }

  lemma ClaimingLeads(z: Scene, claim: Token)
    requires z.p.poll.Idle? && Beginnable(z, claim)
    ensures Leads(z, Claiming(z.w, z.m, claim), Begins(Looked(z), claim), true)
  {
    BeatLeads(z);
    LookLeads(z);
    PopAndBeginLeads(Looked(z), claim);
    Then(z, Beat(z.w), z, Look(z.w), Looked(z), true);
    Then(z, Beat(z.w) + Look(z.w), Looked(z), PopsAndBegins(z.w, z.m, claim), Begins(Looked(z), claim), true);
  }

  /** The scene after the claim is registered, submitted and let in. */
  function Enter(z: Scene): Scene
    requires z.m.claimToken.Some?
  {
    z.(p := z.p.(active := z.p.active[0 := z.m], running := z.p.running + {z.m}, poll := Idle),
       admitted := z.admitted + {z.m.claimToken.value})
  }

  function Entering(w: Worker, m: Message): seq<ClaimStep> {
    [Register(w)] + Enters(w, m)
  }

  lemma EntersShows(c: Claims, z: Scene)
    requires Shows(c, z) && z.p.poll == HasBegun(z.m) && z.m.claimToken.Some? && z.p.held == {} && !z.p.stopping
    ensures Shows(After(Next(c, Register(z.w)), Enters(z.w, z.m)), Enter(z))
  {
    var c2 := SubmitsTo(c, z);
    LetInShows(c2, z);
    AfterTwo(Next(c, Register(z.w)), Submit(z.w), LetIn(z.w, z.m));
  }

  /** The scene with the claim in the table and waiting for its handler. */
  function Submitted(z: Scene): Scene {
    z.(p := z.p.(active := z.p.active[0 := z.m], held := {z.m}, poll := Idle))
  }

  lemma SubmitsTo(c: Claims, z: Scene) returns (c2: Claims)
    requires Shows(c, z) && z.p.poll == HasBegun(z.m) && z.p.held == {}
    ensures c2 == Next(Next(c, Register(z.w)), Submit(z.w)) && Shows(c2, Submitted(z))
  {
    c2 := Next(Next(c, Register(z.w)), Submit(z.w));
  }

  lemma LetInShows(c: Claims, z: Scene)
    requires Shows(c, Submitted(z)) && z.m.claimToken.Some? && z.p.held == {} && !z.p.stopping
    ensures Shows(Next(c, LetIn(z.w, z.m)), Enter(z))
  {
    assert {z.m} - {z.m} == {};
  }

  lemma EnterShows(c: Claims, z: Scene)
    requires Shows(c, z) && z.p.poll == HasBegun(z.m) && z.m.claimToken.Some? && z.p.held == {} && !z.p.stopping
    ensures FreshSteps(c, Entering(z.w, z.m)) && Shows(After(c, Entering(z.w, z.m)), Enter(z))
    ensures 0 !in z.p.active && 0 !in z.p.spent ==> GuardedSteps(c, Entering(z.w, z.m))
  {
    EntersShows(c, z);
    AfterOne(c, Register(z.w));
    EasyRunsAreProper(Next(c, Register(z.w)), Enters(z.w, z.m));
    RegistersFirst(c, z.w);
    AfterAppend(c, [Register(z.w)], Enters(z.w, z.m));
  }

  lemma RegistersFirst(c: Claims, w: Worker)
    ensures Guarded(c, Register(w)) ==> GuardedSteps(c, [Register(w)])
  {
    assert [Register(w)][1..] == [];
  }

  // ---------- From the handler on ----------

  predicate Enterable(z: Scene, guarded: bool) {
    && z.p.poll == HasBegun(z.m) && z.m.claimToken.Some? && z.p.held == {} && !z.p.stopping
    && (guarded ==> 0 !in z.p.active && 0 !in z.p.spent)
  }

  lemma EnterLeads(z: Scene, guarded: bool)
    requires Enterable(z, guarded)
    ensures Leads(z, Entering(z.w, z.m), Enter(z), guarded)
  {
    forall c: Claims | Shows(c, z)
      ensures FreshSteps(c, Entering(z.w, z.m)) && Shows(After(c, Entering(z.w, z.m)), Enter(z))
      ensures guarded ==> GuardedSteps(c, Entering(z.w, z.m))
    {
      EnterShows(c, z);
    }
  }

  /** A whole poll, from the heartbeat to the handler. */
  function Round(w: Worker, m: Message, attempt: int, claim: Token): seq<ClaimStep> {
    Claiming(w, m, claim) + Entering(w, StartedAs(m, attempt + 1, claim))
  }

  lemma Weaken(z: Scene, run: seq<ClaimStep>, z': Scene, guarded: bool)
    requires Leads(z, run, z', true)
    ensures Leads(z, run, z', guarded)
  {
  }

  lemma RoundLeads(z: Scene, claim: Token, guarded: bool)
    requires z.p.poll.Idle? && Beginnable(z, claim) && Enterable(Begins(Looked(z), claim), guarded)
    ensures Leads(z, Round(z.w, z.m, z.attempt, claim), Enter(Begins(Looked(z), claim)), guarded)
  {
    RoundIs(z, claim);
    ClaimingLeads(z, claim);
    EntersAfter(z, Claiming(z.w, z.m, claim), Begins(Looked(z), claim), guarded);
  }

  lemma RoundIs(z: Scene, claim: Token)
    ensures var z1 := Begins(Looked(z), claim);
      Round(z.w, z.m, z.attempt, claim) == Claiming(z.w, z.m, claim) + Entering(z1.w, z1.m)
  {
  }

  lemma EntersAfter(z: Scene, run: seq<ClaimStep>, z1: Scene, guarded: bool)
    requires Leads(z, run, z1, true) && Enterable(z1, guarded)
    ensures Leads(z, run + Entering(z1.w, z1.m), Enter(z1), guarded)
  {
    Weaken(z, run, z1, guarded);
    EnterLeads(z1, guarded);
    Then(z, run, z1, Entering(z1.w, z1.m), Enter(z1), guarded);
  }

  predicate Running(z: Scene) {
    z.place == Processing(z.w) && z.location == AtProcessing
  }

  /** The worker misses its heartbeats for as long as one lasts, and its list is recovered as stale. */
  function Lapse(w: Worker, m: Message): seq<ClaimStep> {
    [Other(ATick(BEAT)), Other(ARecoverStale(w, m))]
  }

  function Reclaimable(z: Scene): Scene {
    z.(place := Ready, location := AtReady)
  }

  lemma TickShows(c: Claims, z: Scene)
    requires Shows(c, z)
    ensures Shows(Next(c, Other(ATick(BEAT))), z) && Next(c, Other(ATick(BEAT))).s.heartbeats == map[]
  {
    var s' := Tick(c.s, BEAT).0;
    assert Next(c, Other(ATick(BEAT))) == c.(s := s');
    assert s'.tasks == c.s.tasks && s'.heartbeats == map[];
  }

  lemma StaleShows(c: Claims, z: Scene)
    requires Shows(c, z) && Running(z) && c.s.heartbeats == map[]
    ensures Shows(Next(c, Other(ARecoverStale(z.w, z.m))), Reclaimable(z))
  {
    assert RecoverStale(c.s, z.w, z.m) == (BackToReady(c.s, z.m, true), WasMoved);
  }

  lemma LapseLeads(z: Scene)
    requires Running(z)
    ensures Leads(z, Lapse(z.w, z.m), Reclaimable(z), true)
  {
    forall c: Claims | Shows(c, z)
      ensures FreshSteps(c, Lapse(z.w, z.m)) && GuardedSteps(c, Lapse(z.w, z.m))
      ensures Shows(After(c, Lapse(z.w, z.m)), Reclaimable(z))
    {
      TickShows(c, z);
      StaleShows(Next(c, Other(ATick(BEAT))), z);
      AfterTwo(c, Other(ATick(BEAT)), Other(ARecoverStale(z.w, z.m)));
      NoRegistrationIsGuarded(c, Lapse(z.w, z.m));
    }
  }

  // ---------- The next poll after an overwritten claim ----------

  function Settles(w: Worker, older: Message): seq<ClaimStep> {
    [Settle(w, older, Success(0), true), Leave(w, older)]
  }

  predicate Overtaken(z: Scene, older: Message) {
    && Running(z) && older.id == 0 && older != z.m && older in z.p.running
    && z.p.poll.Idle? && z.p.active == map[0 := z.m] && z.p.spent == {} && z.p.done == {}
    && z.claim.Some? && z.m.claimToken == z.claim && z.m.attempt == z.attempt > 0
  }

  function WithoutOlder(z: Scene, older: Message): Scene {
    z.(p := z.p.(active := map[], running := z.p.running - {older}))
  }

  lemma SettleShows(c: Claims, z: Scene, older: Message)
    requires Shows(c, z) && Overtaken(z, older)
    ensures Shows(Next(c, Settle(z.w, older, Success(0), true)),
                  z.(p := z.p.(running := z.p.running - {older}, done := {older})))
  {
    assert Complete(c.s, z.w, older, 0) == (c.s, NotFound);
    assert {} + {older} == {older};
  }

  lemma LeaveShows(c: Claims, z: Scene, older: Message)
    requires Overtaken(z, older) && Shows(c, z.(p := z.p.(running := z.p.running - {older}, done := {older})))
    ensures Shows(Next(c, Leave(z.w, older)), WithoutOlder(z, older))
  {
    assert {older} - {older} == {};
    assert map[0 := z.m] - {0} == map[];
  }

  lemma SettlesLeads(z: Scene, older: Message)
    requires Overtaken(z, older)
    ensures Leads(z, Settles(z.w, older), WithoutOlder(z, older), false)
  {
    forall c: Claims | Shows(c, z)
      ensures FreshSteps(c, Settles(z.w, older)) && Shows(After(c, Settles(z.w, older)), WithoutOlder(z, older))
    {
      SettleShows(c, z, older);
      LeaveShows(Next(c, Settle(z.w, older, Success(0), true)), z, older);
      AfterTwo(c, Settle(z.w, older, Success(0), true), Leave(z.w, older));
    }
  }

  predicate Refunding(z: Scene) {
    && Running(z) && z.p.poll.Idle? && z.p.active == map[] && z.p.spent == {}
    && z.claim.Some? && z.m.claimToken == z.claim && z.m.attempt == z.attempt > 0
  }

  /** The poll gives the attempt back, and its pop fails. */
  function GivesUp(w: Worker, m: Message): seq<ClaimStep> {
    Takes(w, m) + [PollFails(w)]
  }

  function Refunded(z: Scene): Scene {
    z.(place := Ready, location := AtReady, attempt := z.attempt - 1)
  }

  lemma TakesLeads(z: Scene)
    requires Refunding(z)
    ensures Leads(z, Takes(z.w, z.m), Refunded(z).(p := z.p.(poll := Recovering(z.p.active.Values, z.p.spent))), false)
  {
    forall c: Claims | Shows(c, z)
      ensures FreshSteps(c, Takes(z.w, z.m))
      ensures Shows(After(c, Takes(z.w, z.m)),
                    Refunded(z).(p := z.p.(poll := Recovering(z.p.active.Values, z.p.spent))))
    {
      var c1 := LooksTo(c, z);
      TakeShows(c1, z);
      AfterTwo(c, Snapshot(z.w), RecoverOne(z.w, z.m));
    }
  }

  function Looking(z: Scene): Scene { z.(p := z.p.(poll := Recovering(z.p.active.Values, z.p.spent))) }

  lemma LooksTo(c: Claims, z: Scene) returns (c1: Claims)
    requires Shows(c, z) && z.p.poll.Idle?
    ensures c1 == Next(c, Snapshot(z.w)) && Shows(c1, Looking(z))
  {
    c1 := Next(c, Snapshot(z.w));
  }

  lemma TakeShows(c: Claims, z: Scene)
    requires Refunding(z) && Shows(c, Looking(z))
    ensures Shows(Next(c, RecoverOne(z.w, z.m)), Refunded(z).(p := Looking(z).p))
  {
    assert Holds(c.s, Processing(z.w), z.m) && Refunds(RecordOf(c.s, 0).value, z.m, false);
  }

  lemma FailLeads(z: Scene)
    requires !z.p.poll.Registered?
    ensures Leads(z, [PollFails(z.w)], z.(p := z.p.(poll := Idle)), false)
  {
    forall c: Claims | Shows(c, z)
      ensures FreshSteps(c, [PollFails(z.w)]) && Shows(After(c, [PollFails(z.w)]), z.(p := z.p.(poll := Idle)))
    {
      AfterOne(c, PollFails(z.w));
    }
  }

  lemma GivesUpLeads(z: Scene)
    requires Refunding(z)
    ensures Leads(z, GivesUp(z.w, z.m), Refunded(z), false)
  {
    var z1 := Refunded(z).(p := z.p.(poll := Recovering(z.p.active.Values, z.p.spent)));
    TakesLeads(z);
    FailLeads(z1);
    assert z1.(p := z1.p.(poll := Idle)) == Refunded(z);
    Then(z, Takes(z.w, z.m), z1, [PollFails(z.w)], Refunded(z), false);
  }

  /** The older handler leaves, and the next poll gives back the newer attempt. */
  function Tail(w: Worker, older: Message, newer: Message): seq<ClaimStep> {
    Settles(w, older) + Beat(w) + GivesUp(w, newer)
  }

  lemma TailLeads(z: Scene, older: Message)
    requires Overtaken(z, older)
    ensures Leads(z, Tail(z.w, older, z.m), Refunded(WithoutOlder(z, older)), false)
  {
    var z1 := WithoutOlder(z, older);
    SettlesLeads(z, older);
    BeatLeads(z1);
    Weaken(z1, Beat(z1.w), z1, false);
    GivesUpLeads(z1);
    Then(z, Settles(z.w, older), z1, Beat(z1.w), z1, false);
    Then(z, Settles(z.w, older) + Beat(z.w), z1, GivesUp(z1.w, z1.m), Refunded(z1), false);
  }

  // ---------- Three handlers on a budget of two ----------

  const M0 := NewMessage(0, SPEC, 0)
  const M1 := StartedAs(M0, 1, 0)
  const M2 := StartedAs(M1, 2, 2)

  const PUSH := Other(AEnqueue(0, SPEC, 0, Reject))

  const PUSHED := Scene(0, Ready, M0, 0, AtReady, None, NEW, {}, {})

  lemma PushShows()
    ensures FreshSteps(START, [PUSH]) && GuardedSteps(START, [PUSH]) && Shows(After(START, [PUSH]), PUSHED)
  {
    assert Enqueue(EMPTY, 0, SPEC, 0, Reject).0 == Admit(EMPTY, 0, SPEC, None, 0);
    AfterOne(START, PUSH);
    NoRegistrationIsGuarded(START, [PUSH]);
  }

  /** A chain of scenes that begins with the task in the queue. */
  lemma FromPush(run: seq<ClaimStep>, z: Scene, guarded: bool)
    requires Leads(PUSHED, run, z, guarded)
    ensures FreshSteps(START, [PUSH] + run) && Shows(After(START, [PUSH] + run), z)
    ensures guarded ==> GuardedSteps(START, [PUSH] + run)
  {
    PushShows();
    AfterAppend(START, [PUSH], run);
  }

  const FIRST_RUNS := Scene(0, Processing(0), M1, 1, AtProcessing, Some(0),
                            NEW.(active := map[0 := M1], running := {M1}), {0}, {0})

  /** The first handler is let in. */
  lemma FirstHandler()
    ensures Leads(PUSHED, Round(0, M0, 0, 0), FIRST_RUNS, true)
  {
    RoundLeads(PUSHED, 0, true);
    assert Enter(Begins(Looked(PUSHED), 0)) == FIRST_RUNS;
  }

  const SECOND_RUNS := Scene(0, Processing(0), M2, 2, AtProcessing, Some(2),
                             NEW.(active := map[0 := M2], running := {M1, M2}), {0, 2}, {0, 2})

  /** Its worker lapses, and lets a second handler in on the same task. */
  lemma SecondHandler()
    ensures Leads(FIRST_RUNS, Lapse(0, M1) + Round(0, M1, 1, 2), SECOND_RUNS, false)
  {
    var z := Reclaimable(FIRST_RUNS);
    LapseLeads(FIRST_RUNS);
    Weaken(FIRST_RUNS, Lapse(0, M1), z, false);
    RoundLeads(z, 2, false);
    assert Enter(Begins(Looked(z), 2)) == SECOND_RUNS;
    Then(FIRST_RUNS, Lapse(0, M1), z, Round(0, M1, 1, 2), SECOND_RUNS, false);
  }

  const SECOND_LOST := Scene(0, Ready, M2, 1, AtReady, Some(2), NEW.(running := {M2}), {0, 2}, {0, 2})

  lemma SecondIsLost()
    ensures Leads(SECOND_RUNS, Tail(0, M1, M2), SECOND_LOST, false)
  {
    TailLeads(SECOND_RUNS, M1);
    assert {M1, M2} - {M1} == {M2};
    assert Refunded(WithoutOlder(SECOND_RUNS, M1)) == SECOND_LOST;
  }

  const THIRD_RUNS := Enter(Begins(Looked(SECOND_LOST), 4))

  const THREE_HANDLERS :=
    [PUSH] + (Round(0, M0, 0, 0) + (Lapse(0, M1) + Round(0, M1, 1, 2)) + Tail(0, M1, M2) + Round(0, M2, 1, 4))

  lemma ThirdHandler()
    ensures FreshSteps(START, THREE_HANDLERS) && Shows(After(START, THREE_HANDLERS), THIRD_RUNS)
  {
    var first, second, tail, third :=
      Round(0, M0, 0, 0), Lapse(0, M1) + Round(0, M1, 1, 2), Tail(0, M1, M2), Round(0, M2, 1, 4);
    FirstHandler();
    Weaken(PUSHED, first, FIRST_RUNS, false);
    SecondHandler();
    SecondIsLost();
    RoundLeads(SECOND_LOST, 4, false);
    Then(PUSHED, first, FIRST_RUNS, second, SECOND_RUNS, false);
    Then(PUSHED, first + second, SECOND_RUNS, tail, SECOND_LOST, false);
    Then(PUSHED, first + second + tail, SECOND_LOST, third, THIRD_RUNS, false);
    FromPush(first + second + tail + third, THIRD_RUNS, false);
  }

  /**
   Without the guard the budget is not kept: one worker, which beats before every poll but once goes
   without a heartbeat for as long as one lasts, lets three handlers in on a task that allows two
   attempts.
   */
  lemma ThreeHandlersOnABudgetOfTwo()
    ensures FreshSteps(START, THREE_HANDLERS)
    ensures var c := After(START, THREE_HANDLERS);
      && RecordOf(c.s, 0).Some? && RecordOf(c.s, 0).value.spec.maxAttempts == 2
      && |TokensOf(c.admitted, 0)| == 3
  {
    ThirdHandler();
    SceneOfThree(After(START, THREE_HANDLERS));
  }

  lemma SceneOfThree(c: Claims)
    requires Shows(c, THIRD_RUNS)
    ensures RecordOf(c.s, 0).Some? && RecordOf(c.s, 0).value.spec.maxAttempts == 2 && |TokensOf(c.admitted, 0)| == 3
  {
    assert TokensOf(c.admitted, 0) == {0, 2, 4};
  }

  // ---------- Guarded runs to an unguarded registration ----------

  const RETRY := M1.(availableAt := SECOND, reason := OnRetry, lastError := Some(0))

  const SETTLE := Settle(0, M1, Failure(false, 0, SECOND, 0), true)

  /** The handler fails, its retry is scheduled and falls due, and the message is ready again. */
  const RETRIES := [SETTLE, Other(ATick(SECOND)), Other(AMoveDue(RETRY))]

  const RETRIED := Scene(0, Ready, RETRY, 1, AtReady, Some(0), NEW.(active := map[0 := M1], done := {M1}), {0}, {0})

  lemma RetryShows(c: Claims)
    requires Shows(c, FIRST_RUNS)
    ensures Shows(Next(c, SETTLE), RETRIED.(place := Delay(SECOND), location := AtDelay))
  {
    assert Fail(c.s, 0, M1, false, 0, SECOND, 0)
      == (RetryScheduled(c.s, M1, RecordOf(c.s, 0).value, RETRY, SECOND), WasRetried);
    assert {M1} - {M1} == {} && {} + {M1} == {M1};
  }

  lemma SecondTickShows(c: Claims, z: Scene)
    requires Shows(c, z)
    ensures Shows(Next(c, Other(ATick(SECOND))), z) && Next(c, Other(ATick(SECOND))).s.now >= SECOND
  {
    var s' := Tick(c.s, SECOND).0;
    assert Next(c, Other(ATick(SECOND))) == c.(s := s') && s'.tasks == c.s.tasks;
  }

  lemma DueShows(c: Claims)
    requires Shows(c, RETRIED.(place := Delay(SECOND), location := AtDelay)) && c.s.now >= SECOND
    ensures Shows(Next(c, Other(AMoveDue(RETRY))), RETRIED)
  {
    assert MoveDue(c.s, RETRY) == (LeaveDelay(c.s, RETRY), WasMoved);
  }

  lemma RetriesLead()
    ensures Leads(FIRST_RUNS, RETRIES, RETRIED, true)
  {
    forall c: Claims | Shows(c, FIRST_RUNS)
      ensures FreshSteps(c, RETRIES) && Shows(After(c, RETRIES), RETRIED) && GuardedSteps(c, RETRIES)
    {
      RetryShows(c);
      SecondTickShows(Next(c, SETTLE), RETRIED.(place := Delay(SECOND), location := AtDelay));
      DueShows(Next(Next(c, SETTLE), Other(ATick(SECOND))));
      AfterThree(c, SETTLE, Other(ATick(SECOND)), Other(AMoveDue(RETRY)));
      NoRegistrationIsGuarded(c, RETRIES);
    }
  }

  const RETRY_OVERTAKES := [PUSH] + (Round(0, M0, 0, 0) + RETRIES + Claiming(0, RETRY, 2))

  lemma RetryIsClaimed()
    ensures FreshSteps(START, RETRY_OVERTAKES) && GuardedSteps(START, RETRY_OVERTAKES)
    ensures Shows(After(START, RETRY_OVERTAKES), Begins(Looked(RETRIED), 2))
  {
    FirstHandler();
    RetriesLead();
    ClaimingLeads(RETRIED, 2);
    Then(PUSHED, Round(0, M0, 0, 0), FIRST_RUNS, RETRIES, RETRIED, true);
    Then(PUSHED, Round(0, M0, 0, 0) + RETRIES, RETRIED, Claiming(0, RETRY, 2), Begins(Looked(RETRIED), 2), true);
    FromPush(Round(0, M0, 0, 0) + RETRIES + Claiming(0, RETRY, 2), Begins(Looked(RETRIED), 2), true);
  }

  /**
   The guard can fail although every heartbeat is kept and nothing is recovered: a retry falls due and
   is claimed again before the handler that asked for it has left the table.
   */
  lemma RetryOvertakesItsHandler()
    ensures FreshSteps(START, RETRY_OVERTAKES) && GuardedSteps(START, RETRY_OVERTAKES)
    ensures var c := After(START, RETRY_OVERTAKES);
      exists newer :: Registers(c, 0, newer) && newer.id in ProcOf(c, 0).active && !Guarded(c, Register(0))
  {
    RetryIsClaimed();
    assert Registers(After(START, RETRY_OVERTAKES), 0, StartedAs(RETRY, 2, 2));
  }

  /** A handler dies while its worker polls. */
  const DIES := [Snapshot(0), Crash(0, M1), RecoverDone(0)]

  const DEAD := FIRST_RUNS.(p := NEW.(spent := {0}, poll := Recovered))

  lemma DeathLeads()
    ensures Leads(FIRST_RUNS, DIES, DEAD, true)
  {
    forall c: Claims | Shows(c, FIRST_RUNS)
      ensures FreshSteps(c, DIES) && Shows(After(c, DIES), DEAD) && GuardedSteps(c, DIES)
    {
      DeathShows(c);
      AfterThree(c, Snapshot(0), Crash(0, M1), RecoverDone(0));
      NoRegistrationIsGuarded(c, DIES);
    }
  }

  lemma DeathShows(c: Claims)
    requires Shows(c, FIRST_RUNS)
    ensures Shows(Next(Next(Next(c, Snapshot(0)), Crash(0, M1)), RecoverDone(0)), DEAD)
  {
    var p, c1 := FIRST_RUNS.p, Next(c, Snapshot(0));
    assert p.active[0] == M1 && M1 in p.active.Values;
    assert {M1} - {M1} == {} && map[0 := M1] - {0} == map[] && {} + {0} - {} == {0};
    var c2 := Next(c1, Crash(0, M1));
    assert ProcOf(c2, 0) == NEW.(spent := {0}, poll := Recovering(p.active.Values, {}));
    assert AllProtected(c2.s, 0, p.active.Values);
  }

  const SPENT_IS_CLAIMED := [PUSH] + (Round(0, M0, 0, 0) + Beat(0) + DIES + Lapse(0, M1) + PopsAndBegins(0, M1, 2))

  lemma SpentIsClaimed()
    ensures FreshSteps(START, SPENT_IS_CLAIMED) && GuardedSteps(START, SPENT_IS_CLAIMED)
    ensures Shows(After(START, SPENT_IS_CLAIMED), Begins(Reclaimable(DEAD), 2))
  {
    var round, lapse, begin := Round(0, M0, 0, 0), Lapse(0, M1), PopsAndBegins(0, M1, 2);
    FirstHandler();
    BeatLeads(FIRST_RUNS);
    DeathLeads();
    LapseLeads(DEAD);
    PopAndBeginLeads(Reclaimable(DEAD), 2);
    Then(PUSHED, round, FIRST_RUNS, Beat(0), FIRST_RUNS, true);
    Then(PUSHED, round + Beat(0), FIRST_RUNS, DIES, DEAD, true);
    Then(PUSHED, round + Beat(0) + DIES, DEAD, lapse, Reclaimable(DEAD), true);
    Then(PUSHED, round + Beat(0) + DIES + lapse, Reclaimable(DEAD), begin, Begins(Reclaimable(DEAD), 2), true);
    FromPush(round + Beat(0) + DIES + lapse + begin, Begins(Reclaimable(DEAD), 2), true);
  }

  /** The guard can also fail over a spent attempt: a handler dies during a poll whose pop claims the task again. */
  lemma SpentAttemptIsReclaimed()
    ensures FreshSteps(START, SPENT_IS_CLAIMED) && GuardedSteps(START, SPENT_IS_CLAIMED)
    ensures var c := After(START, SPENT_IS_CLAIMED);
      exists newer :: Registers(c, 0, newer) && newer.id in ProcOf(c, 0).spent && !Guarded(c, Register(0))
  {
    SpentIsClaimed();
    assert Registers(After(START, SPENT_IS_CLAIMED), 0, StartedAs(M1, 2, 2));
  }
}
