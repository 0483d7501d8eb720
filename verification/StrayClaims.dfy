/**
 Worker processes with the stray writes among the clients: the writes change the records they leave
 behind and nothing in the workers' attempt accounting.
 */
module StrayClaims {
  import opened Prelude
  import opened TaskModel
  import opened TaskInvariants
  import opened WorkerClaims
  import StrayRecords

  /** The claims, as they would be without the stray records. */
  function Cleaned(c: Claims): Claims { c.(s := StrayRecords.Erase(c.s)) }

  // ---------- Steps of a worker do not see stray records ----------

  /** A script on a popped message, with or without the stray records. */
  lemma ScriptCleans(s: State, a: Action, r: (State, Reply), q: (State, Reply))
    requires Inv(StrayRecords.Erase(s)) && Fresh(s, a) && Subject(a).Some?
    requires r == Step(s, a) && q == Step(StrayRecords.Erase(s), a)
    ensures StrayRecords.Erase(r.0) == q.0
    ensures r.1 == q.1 || (!StrayRecords.Takes(r.1) && !StrayRecords.Takes(q.1))
  {
    InvIsLocal(StrayRecords.Erase(s));
    StrayRecords.ScriptErases(s, a, r, q);
  }

  lemma SettlingCleans(s: State, w: Worker, m: Message, how: Settlement)
    requires Inv(StrayRecords.Erase(s))
    ensures StrayRecords.Erase(SettleIn(s, w, m, how)) == SettleIn(StrayRecords.Erase(s), w, m, how)
  {
    SettlingIsAScript(s, w, m, how);
    SettlingIsAScript(StrayRecords.Erase(s), w, m, how);
    var a := SettleAction(w, m, how);
    ScriptCleans(s, a, Step(s, a), Step(StrayRecords.Erase(s), a));
  }

  lemma OtherCleans(c: Claims, a: Action)
    requires Inv(StrayRecords.Erase(c.s)) && Fresh(c.s, a) && !StrayRecords.Idle(c.s, a)
    ensures Cleaned(Next(c, Other(a))) == Next(Cleaned(c), Other(a))
  {
    StrayRecords.StepErases(c.s, a);
  }

  lemma GivesBackAlike(s: State, w: Worker, raw: Message, spent: bool)
    ensures GivesBack(s, w, raw, spent) == GivesBack(StrayRecords.Erase(s), w, raw, spent)
  {
  }

  lemma RecoverCleans(c: Claims, w: Worker, raw: Message, spent: bool)
    requires Inv(StrayRecords.Erase(c.s))
    ensures Cleaned(Recover(c, w, raw, spent)) == Recover(Cleaned(c), w, raw, spent)
  {
    ScriptCleans(c.s, ARecoverAbandoned(w, raw, spent), RecoverAbandoned(c.s, w, raw, spent),
                 RecoverAbandoned(StrayRecords.Erase(c.s), w, raw, spent));
    GivesBackAlike(c.s, w, raw, spent);
  }

  lemma RecoverNextCleans(c: Claims, w: Worker, raw: Message)
    requires Inv(StrayRecords.Erase(c.s))
    ensures Cleaned(RecoverNext(c, w, raw)) == RecoverNext(Cleaned(c), w, raw)
  {
    var p := ProcOf(c, w);
    if p.poll.Recovering? { RecoverCleans(c, w, raw, raw.id in p.poll.snapshot); }
  }

  lemma RecoverDoneCleans(c: Claims, w: Worker)
    ensures Cleaned(Next(c, RecoverDone(w))) == Next(Cleaned(c), RecoverDone(w))
  {
    assert forall id <- c.s.tasks :: StrayRecords.Erase(c.s).tasks[id].slot == c.s.tasks[id].slot;
  }

  lemma PopNextCleans(c: Claims, w: Worker, raw: Message)
    requires Inv(StrayRecords.Erase(c.s))
    ensures Cleaned(PopNext(c, w, raw)) == PopNext(Cleaned(c), w, raw)
  {
    ScriptCleans(c.s, APop(w, raw), Pop(c.s, w, raw), Pop(StrayRecords.Erase(c.s), w, raw));
  }

  lemma BegunWithCleans(c: Claims, w: Worker, id: TaskId, claim: Token, r: (State, Reply), q: (State, Reply),
                        rec: Option<Record>, rec': Option<Record>)
    requires StrayRecords.Erase(r.0) == q.0 && (r.1 == q.1 || (!r.1.WasStarted? && !q.1.WasStarted?))
    requires r.1.WasStarted? ==> rec == rec'
    ensures Cleaned(BegunWith(c, w, id, claim, r, rec)) == BegunWith(Cleaned(c), w, id, claim, q, rec')
  {
  }

  lemma BeginInCleans(c: Claims, w: Worker, raw: Message, claim: Token, lease: Token, time: Timing)
    requires Inv(StrayRecords.Erase(c.s)) && claim !in c.s.tokens && lease !in c.s.tokens && claim != lease
    ensures Cleaned(BeginIn(c, w, raw, claim, lease, time)) == BeginIn(Cleaned(c), w, raw, claim, lease, time)
    ensures var r, q := Begin(c.s, w, raw, claim, lease, time).1, Begin(Cleaned(c).s, w, raw, claim, lease, time).1;
      r == q || (!r.WasStarted? && !q.WasStarted?)
  {
    var r, q := Begin(c.s, w, raw, claim, lease, time), Begin(StrayRecords.Erase(c.s), w, raw, claim, lease, time);
    var rec, rec' := RecordOf(c.s, raw.id), RecordOf(StrayRecords.Erase(c.s), raw.id);
    ScriptCleans(c.s, ABegin(w, raw, claim, lease, time), r, q);
    if r.1.WasStarted? { StartedHasRecord(c.s, w, raw, claim, lease, time); }
    BegunWithCleans(c, w, raw.id, claim, r, q, rec, rec');
  }

  lemma StartedHasRecord(s: State, w: Worker, raw: Message, claim: Token, lease: Token, time: Timing)
    requires Begin(s, w, raw, claim, lease, time).1.WasStarted?
    ensures RecordOf(s, raw.id).Some? && RecordOf(StrayRecords.Erase(s), raw.id) == RecordOf(s, raw.id)
  {
  }

  lemma BeginPoppedCleans(c: Claims, w: Worker, claim: Token, lease: Token, time: Timing, replied: bool)
    requires Inv(StrayRecords.Erase(c.s)) && claim !in c.s.tokens && lease !in c.s.tokens && claim != lease
    ensures Cleaned(BeginPopped(c, w, claim, lease, time, replied))
      == BeginPopped(Cleaned(c), w, claim, lease, time, replied)
  {
    if ProcOf(c, w).poll.HasPopped? { BeginInCleans(c, w, ProcOf(c, w).poll.raw, claim, lease, time); }
  }

  lemma GiveBackCleans(c: Claims, w: Worker, m: Message)
    requires Inv(StrayRecords.Erase(c.s))
    ensures Cleaned(GiveBack(c, w, m)) == GiveBack(Cleaned(c), w, m)
  {
    ScriptCleans(c.s, AReturn(w, m), ReturnUnstarted(c.s, w, m), ReturnUnstarted(StrayRecords.Erase(c.s), w, m));
  }

  lemma ReturnHeldCleans(c: Claims, w: Worker, m: Message, committed: bool, replied: bool)
    requires Inv(StrayRecords.Erase(c.s))
    ensures Cleaned(ReturnHeld(c, w, m, committed, replied)) == ReturnHeld(Cleaned(c), w, m, committed, replied)
  {
    GiveBackCleans(c, w, m);
  }

  lemma SettleRunningCleans(c: Claims, w: Worker, m: Message, how: Settlement, replied: bool)
    requires Inv(StrayRecords.Erase(c.s))
    ensures Cleaned(SettleRunning(c, w, m, how, replied)) == SettleRunning(Cleaned(c), w, m, how, replied)
  {
    SettlingCleans(c.s, w, m, how);
  }

  lemma SettleUndecodedCleans(c: Claims, w: Worker, how: Settlement, committed: bool, replied: bool)
    requires Inv(StrayRecords.Erase(c.s))
    ensures Cleaned(SettleUndecoded(c, w, how, committed, replied))
      == SettleUndecoded(Cleaned(c), w, how, committed, replied)
  {
    if ProcOf(c, w).poll.Registered? { SettlingCleans(c.s, w, ProcOf(c, w).poll.msg, how); }
  }

  lemma PollStepCleans(c: Claims, x: ClaimStep)
    requires x.Snapshot? || x.PollFails? || x.Register? || x.Submit?
    ensures Cleaned(Next(c, x)) == Next(Cleaned(c), x)
  {
  }

  lemma ThreadStepCleans(c: Claims, x: ClaimStep)
    requires x.Stop? || x.LetIn? || x.Leave? || x.Crash?
    ensures Cleaned(Next(c, x)) == Next(Cleaned(c), x)
  {
  }

  /** Every step of a worker does the same with or without the stray records, but for a read that comes to nothing. */
  lemma StepCleans(c: Claims, x: ClaimStep)
    requires Inv(StrayRecords.Erase(c.s)) && FreshStep(c, x) && !(x.Other? && StrayRecords.Idle(c.s, x.a))
    ensures Cleaned(Next(c, x)) == Next(Cleaned(c), x)
  {
    match x
    case Other(a) => OtherCleans(c, a);
    case RecoverOne(w, raw) => RecoverNextCleans(c, w, raw);
    case RecoverDone(w) => RecoverDoneCleans(c, w);
    case PopTask(w, raw) => PopNextCleans(c, w, raw);
    case BeginTask(w, claim, lease, time, replied) => BeginPoppedCleans(c, w, claim, lease, time, replied);
    case ReturnClaim(w, m, committed, replied) => ReturnHeldCleans(c, w, m, committed, replied);
    case Settle(w, m, how, replied) => SettleRunningCleans(c, w, m, how, replied);
    case Undecodable(w, how, committed, replied) => SettleUndecodedCleans(c, w, how, committed, replied);
    case _ => if x.Stop? || x.LetIn? || x.Leave? || x.Crash? { ThreadStepCleans(c, x); } else { PollStepCleans(c, x); }
  }

  // ---------- Runs ----------

  datatype ClaimWorld = ClaimWorld(c: Claims, missing: set<Popped>, found: set<TaskId>)

  const EMPTY_WORLD := ClaimWorld(START, {}, {})

  /** A step of a worker or another client, or a look or write outside the scripts. */
  datatype ClaimEvent = Worked(x: ClaimStep) | Wrote(e: StrayRecords.Event)

  function WorldOf(y: ClaimWorld): StrayRecords.World { StrayRecords.World(y.c.s, y.missing, y.found) }

  function NextClaims(y: ClaimWorld, v: ClaimEvent): ClaimWorld {
    match v
    case Worked(x) => y.(c := Next(y.c, x))
    case Wrote(e) =>
      if e.Script? then y
      else
        var world := StrayRecords.NextWorld(WorldOf(y), e);
        ClaimWorld(y.c.(s := world.s), world.missing, world.found)
  }

  predicate FreshClaims(y: ClaimWorld, vs: seq<ClaimEvent>)
    decreases |vs|
  {
    vs == [] || ((vs[0].Worked? ==> FreshStep(y.c, vs[0].x)) && FreshClaims(NextClaims(y, vs[0]), vs[1..]))
  }

  predicate GuardedClaims(y: ClaimWorld, vs: seq<ClaimEvent>)
    decreases |vs|
  {
    vs == [] || ((vs[0].Worked? ==> Guarded(y.c, vs[0].x)) && GuardedClaims(NextClaims(y, vs[0]), vs[1..]))
  }

  function AfterClaims(y: ClaimWorld, vs: seq<ClaimEvent>): ClaimWorld
    decreases |vs|
  {
    if vs == [] then y else AfterClaims(NextClaims(y, vs[0]), vs[1..])
  }

  /** A step that the run without stray records takes too. */
  predicate Counts(y: ClaimWorld, v: ClaimEvent) {
    v.Worked? && !(v.x.Other? && StrayRecords.Idle(y.c.s, v.x.a))
  }

  function StepsOf(y: ClaimWorld, vs: seq<ClaimEvent>): seq<ClaimStep>
    decreases |vs|
  {
    if vs == [] then [] else (if Counts(y, vs[0]) then [vs[0].x] else []) + StepsOf(NextClaims(y, vs[0]), vs[1..])
  }

  lemma StepKeepsWorld(y: ClaimWorld, x: ClaimStep)
    requires StrayRecords.WorldOk(WorldOf(y)) && FreshStep(y.c, x)
    ensures StrayRecords.WorldOk(WorldOf(NextClaims(y, Worked(x))))
  {
    ClaimStepIsAScript(y.c, x);
    if Next(y.c, x).s != y.c.s { StrayRecords.ScriptKeepsWorld(WorldOf(y), Script(y.c, x).value); }
  }

  lemma IdleStepStays(c: Claims, a: Action)
    requires StrayRecords.Idle(c.s, a)
    ensures Next(c, Other(a)) == c
  {
  }

  lemma EventCleans(y: ClaimWorld, v: ClaimEvent)
    requires StrayRecords.WorldOk(WorldOf(y)) && (v.Worked? ==> FreshStep(y.c, v.x))
    ensures StrayRecords.WorldOk(WorldOf(NextClaims(y, v)))
    ensures Cleaned(NextClaims(y, v).c) == if Counts(y, v) then Next(Cleaned(y.c), v.x) else Cleaned(y.c)
  {
    if v.Worked? {
      StepKeepsWorld(y, v.x);
      if Counts(y, v) { StepCleans(y.c, v.x); } else { IdleStepStays(y.c, v.x.a); }
    } else if !v.e.Script? {
      StrayRecords.EventKeepsWorld(WorldOf(y), v.e);
    }
  }

  lemma SameGuards(c: Claims, x: ClaimStep)
    ensures FreshStep(c, x) <==> FreshStep(Cleaned(c), x)
    ensures Guarded(c, x) <==> Guarded(Cleaned(c), x)
  {
  }

  /** Without the stray records, the run is one of the workers and the scripts alone. */
  lemma {:induction false} ClaimsUnderWrites(y: ClaimWorld, vs: seq<ClaimEvent>)
    requires StrayRecords.WorldOk(WorldOf(y)) && FreshClaims(y, vs) && GuardedClaims(y, vs)
    ensures FreshSteps(Cleaned(y.c), StepsOf(y, vs)) && GuardedSteps(Cleaned(y.c), StepsOf(y, vs))
    ensures After(Cleaned(y.c), StepsOf(y, vs)) == Cleaned(AfterClaims(y, vs).c)
    decreases |vs|
  {
    if vs != [] {
      var y1 := NextClaims(y, vs[0]);
      EventCleans(y, vs[0]);
      ClaimsUnderWrites(y1, vs[1..]);
      if Counts(y, vs[0]) {
        SameGuards(y.c, vs[0].x);
        assert StepsOf(y, vs)[0] == vs[0].x && StepsOf(y, vs)[1..] == StepsOf(y1, vs[1..]);
      } else {
        assert StepsOf(y, vs) == StepsOf(y1, vs[1..]);
      }
    }
  }

  lemma NothingToClean()
    ensures Cleaned(START) == START && StrayRecords.WorldOk(WorldOf(EMPTY_WORLD))
  {
    StrayRecords.StartIsOk();
  }

  /**
   Attempts stay within their budget with the stray writes among the clients, and match every record
   that is no ghost.
   */
  lemma AdmittedUnderWrites(vs: seq<ClaimEvent>, id: TaskId)
    requires FreshClaims(EMPTY_WORLD, vs) && GuardedClaims(EMPTY_WORLD, vs)
    ensures var c := AfterClaims(EMPTY_WORLD, vs).c;
      && TokensOf(c.admitted, id) <= TokensOf(c.granted, id)
      && |TokensOf(c.admitted, id)| <= (if id in c.budget then c.budget[id] else 0)
      && (id in c.s.tasks && c.s.tasks[id].record.Some? && !StrayRecords.Ghost(c.s.tasks[id]) ==>
            |TokensOf(c.granted, id)|
              == c.s.tasks[id].record.value.attempt <= c.s.tasks[id].record.value.spec.maxAttempts)
  {
    NothingToClean();
    ClaimsUnderWrites(EMPTY_WORLD, vs);
    AdmittedWithinBudget(StepsOf(EMPTY_WORLD, vs), id);
  }
}
