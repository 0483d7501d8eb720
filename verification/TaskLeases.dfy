/**
 The life of a concurrency lease: taken by the start of an attempt, kept for as long as it was granted,
 released by whatever ends or takes back the attempt, and then free for the next task of its key.
 */
module TaskLeases {
  import opened Prelude
  import opened TaskModel
  import opened TaskInvariants
  import opened TaskTheorems
  import opened ScriptAnswers

  // ---------- Release ----------

  /** Scripts that end an attempt or take it back from its worker. */
  predicate EndsAttempt(a: Action) {
    a.AComplete? || a.AFail? || a.AReturn? || a.ARecoverAbandoned? || a.ACancelListed? || a.ACancelDelayed?
  }

  predicate TookEffect(reply: Reply) {
    || reply in {WasCompleted, WasFailed, WasSkipped, WasRetried, WasReturned, WasMoved}
    || reply.WasRemoved?
  }

  /** The lease of this key, if there is one, is the one this message carries. */
  predicate IsItsLease(s: State, raw: Message, k: Key) {
    && raw.spec.concurrencyKey == Some(k) && raw.leaseToken.Some?
    && (k in s.leases ==> s.leases[k].token == raw.leaseToken.value)
  }

  lemma DropReleases(s: State, raw: Message, k: Key)
    requires IsItsLease(s, raw, k)
    ensures k !in DropLease(s.leases, Some(k), raw.leaseToken)
  {
  }

  lemma SettlingReleases(s: State, a: Action, k: Key)
    requires IsSettling(a) && TookEffect(Step(s, a).1) && IsItsLease(s, a.raw, k)
    ensures k !in Step(s, a).0.leases
  {
    DropReleases(s, a.raw, k);
    if a.AFail? { FailingReleases(s, a, k); }
  }

  lemma FailingReleases(s: State, a: Action, k: Key)
    requires a.AFail? && TookEffect(Step(s, a).1) && IsItsLease(s, a.raw, k)
    ensures k !in Step(s, a).0.leases
  {
    DropReleases(s, a.raw, k);
  }

  lemma PurgeReleases(s: State, raw: Message, delayed: bool, policy: IdentityPolicy, ttl: nat, k: Key)
    requires TasksOk(s) && SlotOf(s, raw.id).Some? && SlotOf(s, raw.id).value.msg == raw && IsItsLease(s, raw, k)
    ensures k !in CancelHeld(s, raw, delayed, policy, ttl).0.leases
  {
    assert TaskOk(raw.id, s.tasks[raw.id]);
    DropReleases(s, raw, k);
  }

  lemma CancellingReleases(s: State, a: Action, k: Key)
    requires TasksOk(s) && (a.ACancelListed? || a.ACancelDelayed?) && Step(s, a).1.WasRemoved?
    requires IsItsLease(s, a.raw, k)
    ensures k !in Step(s, a).0.leases
  {
    PurgeReleases(s, a.raw, a.ACancelDelayed?, a.policy, a.ttl, k);
  }

  lemma RecoveringReleases(s: State, a: Action, k: Key)
    requires a.ARecoverAbandoned? && Step(s, a).1 == WasMoved && IsItsLease(s, a.raw, k)
    ensures k !in Step(s, a).0.leases
  {
    DropReleases(s, a.raw, k);
  }

  /** Whatever ends an attempt or takes it back releases the lease it held. */
  lemma EndReleasesLease(s: State, a: Action, k: Key)
    requires Inv(s) && EndsAttempt(a) && TookEffect(Step(s, a).1) && IsItsLease(s, a.raw, k)
    ensures k !in Step(s, a).0.leases
  {
    if IsSettling(a) { SettlingReleases(s, a, k); }
    else if a.ARecoverAbandoned? { RecoveringReleases(s, a, k); }
    else { CancellingReleases(s, a, k); }
  }

  /**
   After any run, once the attempt that held the lease of a key has ended or been taken back, the next
   waiting task of that key is started: it is in time, current and has an attempt left, and nothing else
   can stand in its way.
   */
  lemma NextOfKeyStarts(before: seq<Action>, a: Action, k: Key, w: Worker, raw: Message, claim: Token, lease: Token,
                        time: Timing)
    requires FreshRun(EMPTY, before) && Fresh(Run(EMPTY, before), a) && EndsAttempt(a)
    requires TookEffect(Step(Run(EMPTY, before), a).1) && IsItsLease(Run(EMPTY, before), a.raw, k)
    requires var s := Step(Run(EMPTY, before), a).0;
      && Awaits(s, w, raw) && raw.spec.concurrencyKey == Some(k)
      && InTime(raw.spec, s.now) && IsCurrent(raw.spec, s.register) && AttemptsOf(s, raw.id) < raw.spec.maxAttempts
    ensures Begin(Step(Run(EMPTY, before), a).0, w, raw, claim, lease, time).1.WasStarted?
  {
    var s := Run(EMPTY, before);
    EmptyOk();
    RunKeepsInv(EMPTY, before);
    StepKeepsInv(s, a);
    EndReleasesLease(s, a, k);
    BeginVerdict(Step(s, a).0, w, raw, claim, lease, time);
  }

  // ---------- How long a lease lasts ----------

  /** The token is on this key's lease, as it was granted, and only until it expires. */
  predicate Lasts(s: State, k: Key, granted: Lease) {
    && granted.token in s.tokens
    && (k in s.leases && s.leases[k].token == granted.token ==> s.leases[k] == granted && s.now < granted.expireAt)
  }

  predicate Renews(a: Action, token: Token) { a.ARenew? && a.token == token }

  lemma BeginKeepsLasting(s: State, a: Action, k: Key, granted: Lease)
    requires Lasts(s, k, granted) && Fresh(s, a) && a.ABegin?
    ensures Lasts(Step(s, a).0, k, granted)
  {
  }

  lemma SettlingKeepsLasting(s: State, a: Action, k: Key, granted: Lease)
    requires Lasts(s, k, granted) && IsSettling(a)
    ensures Lasts(Step(s, a).0, k, granted)
  {
  }

  lemma OthersKeepLasting(s: State, a: Action, k: Key, granted: Lease)
    requires Lasts(s, k, granted) && !a.ABegin? && !IsSettling(a) && !Renews(a, granted.token)
    ensures Lasts(Step(s, a).0, k, granted)
  {
    if Removes(a) { RemovingKeepsLasting(s, a, k, granted); }
    else if a.ATick? || a.ARenew? || a.ARelease? { LeaseStepKeepsLasting(s, a, k, granted); }
    else { LeasesStay(s, a); }
  }

  lemma RemovingKeepsLasting(s: State, a: Action, k: Key, granted: Lease)
    requires Lasts(s, k, granted) && Removes(a)
    ensures Lasts(Step(s, a).0, k, granted)
  {
  }

  lemma LeaseStepKeepsLasting(s: State, a: Action, k: Key, granted: Lease)
    requires Lasts(s, k, granted) && (a.ATick? || a.ARenew? || a.ARelease?) && !Renews(a, granted.token)
    ensures Lasts(Step(s, a).0, k, granted)
  {
  }

  lemma LeasesStay(s: State, a: Action)
    requires !a.ABegin? && !IsSettling(a) && !Removes(a) && !a.ATick? && !a.ARenew? && !a.ARelease?
    ensures Step(s, a).0.leases == s.leases && Step(s, a).0.now == s.now && s.tokens <= Step(s, a).0.tokens
  {
    if Moves(a) { MovesKeepLeases(s, a); } else if a.AEnqueue? || a.ACommitReplay? { AdmittingKeepsLeases(s, a); }
  }

  lemma MovesKeepLeases(s: State, a: Action)
    requires Moves(a)
    ensures Step(s, a).0.leases == s.leases && Step(s, a).0.now == s.now && Step(s, a).0.tokens == s.tokens
  {
    if a.AMoveDue? || a.AMoveDelay? { DelayMovesKeepLeases(s, a); } else { ListMovesKeepLeases(s, a); }
  }

  lemma DelayMovesKeepLeases(s: State, a: Action)
    requires a.AMoveDue? || a.AMoveDelay?
    ensures Step(s, a).0.leases == s.leases && Step(s, a).0.now == s.now && Step(s, a).0.tokens == s.tokens
  {
  }

  lemma ListMovesKeepLeases(s: State, a: Action)
    requires a.APop? || a.ARecoverStale? || a.AMoveProcessing?
    ensures Step(s, a).0.leases == s.leases && Step(s, a).0.now == s.now && Step(s, a).0.tokens == s.tokens
  {
  }

  lemma AdmittingKeepsLeases(s: State, a: Action)
    requires a.AEnqueue? || a.ACommitReplay?
    ensures Step(s, a).0.leases == s.leases && Step(s, a).0.now == s.now && Step(s, a).0.tokens == s.tokens
  {
  }

  lemma StepKeepsLasting(s: State, a: Action, k: Key, granted: Lease)
    requires Lasts(s, k, granted) && Fresh(s, a) && !Renews(a, granted.token)
    ensures Lasts(Step(s, a).0, k, granted)
  {
    if a.ABegin? { BeginKeepsLasting(s, a, k, granted); }
    else if IsSettling(a) { SettlingKeepsLasting(s, a, k, granted); }
    else { OthersKeepLasting(s, a, k, granted); }
  }

  lemma {:induction false} RunKeepsLasting(s: State, run: seq<Action>, k: Key, granted: Lease)
    requires Lasts(s, k, granted) && FreshRun(s, run) && forall a <- run :: !Renews(a, granted.token)
    ensures Lasts(Run(s, run), k, granted)
    decreases |run|
  {
    if run != [] {
      StepKeepsLasting(s, run[0], k, granted);
      RunKeepsLasting(Step(s, run[0]).0, run[1..], k, granted);
    }
  }

  lemma {:induction false} RunKeepsLease(s: State, run: seq<Action>, k: Key)
    requires Inv(s) && FreshRun(s, run) && k in s.leases && Run(s, run).now < s.leases[k].expireAt
    requires forall a <- run :: !Carries(a, s.leases[k].token)
    ensures k in Run(s, run).leases && Run(s, run).leases[k] == s.leases[k]
    decreases |run|
  {
    if run != [] {
      var s1 := Step(s, run[0]).0;
      LeaseFencing(s, run[0], k);
      StepKeepsInv(s, run[0]);
      TimeNeverRunsBack(s1, run[1..]);
      RunKeepsLease(s1, run[1..], k);
    }
  }

  /**
   The lease of a started attempt is its own for exactly as long as it was granted, over every run in which
   nobody uses its token to settle, renew or release it.
   */
  lemma LeaseLastsAsGranted(s: State, w: Worker, raw: Message, claim: Token, lease: Token, time: Timing, k: Key,
                            run: seq<Action>)
    requires Inv(s) && Fresh(s, ABegin(w, raw, claim, lease, time)) && raw.spec.concurrencyKey == Some(k)
    requires Begin(s, w, raw, claim, lease, time).1.WasStarted? && time.lease > 0
    requires FreshRun(Begin(s, w, raw, claim, lease, time).0, run) && forall a <- run :: !Carries(a, lease)
    ensures var s' := Run(Begin(s, w, raw, claim, lease, time).0, run);
      k in s'.leases && s'.leases[k].token == lease <==> s'.now < s.now + time.lease
  {
    var s1 := GrantedState(s, w, raw, claim, lease, time, k);
    GrantLasts(s1, run, k, Lease(lease, s.now + time.lease));
  }

  lemma GrantLasts(s: State, run: seq<Action>, k: Key, granted: Lease)
    requires Inv(s) && k in s.leases && s.leases[k] == granted && Lasts(s, k, granted)
    requires FreshRun(s, run) && forall a <- run :: !Carries(a, granted.token)
    ensures var s' := Run(s, run); k in s'.leases && s'.leases[k].token == granted.token <==> s'.now < granted.expireAt
  {
    RenewingCarries(run, granted.token);
    RunKeepsLasting(s, run, k, granted);
    if Run(s, run).now < granted.expireAt { RunKeepsLease(s, run, k); }
  }

  lemma RenewingCarries(run: seq<Action>, token: Token)
    requires forall a <- run :: !Carries(a, token)
    ensures forall a <- run :: !Renews(a, token)
  {
  }

  lemma GrantedState(s: State, w: Worker, raw: Message, claim: Token, lease: Token, time: Timing, k: Key)
    returns (s1: State)
    requires Inv(s) && Fresh(s, ABegin(w, raw, claim, lease, time)) && raw.spec.concurrencyKey == Some(k)
    requires Begin(s, w, raw, claim, lease, time).1.WasStarted? && time.lease > 0
    ensures s1 == Begin(s, w, raw, claim, lease, time).0 && Inv(s1) && s1.now == s.now
    ensures k in s1.leases && s1.leases[k] == Lease(lease, s.now + time.lease) && lease in s1.tokens
    ensures Lasts(s1, k, Lease(lease, s.now + time.lease))
  {
    s1 := BegunState(s, w, raw, claim, lease, time);
    LeaseGranted(s, w, raw, claim, lease, time, k, s1);
    LeasesAreKnown(s1, k);
  }

  lemma LeasesAreKnown(s: State, k: Key)
    requires TokensKnown(s) && k in s.leases
    ensures s.leases[k].token in s.tokens
  {
  }

  lemma BegunState(s: State, w: Worker, raw: Message, claim: Token, lease: Token, time: Timing) returns (s1: State)
    requires Inv(s) && Fresh(s, ABegin(w, raw, claim, lease, time))
    ensures s1 == Begin(s, w, raw, claim, lease, time).0 && Inv(s1) && s1.now == s.now
  {
    s1 := Begin(s, w, raw, claim, lease, time).0;
    StepKeepsInv(s, ABegin(w, raw, claim, lease, time));
    StepClock(s, ABegin(w, raw, claim, lease, time));
  }

  lemma LeaseGranted(s: State, w: Worker, raw: Message, claim: Token, lease: Token, time: Timing, k: Key, s1: State)
    requires Inv(s) && raw.spec.concurrencyKey == Some(k) && s1 == Begin(s, w, raw, claim, lease, time).0
    requires Begin(s, w, raw, claim, lease, time).1.WasStarted?
    ensures k in s1.leases && s1.leases[k] == Lease(lease, s.now + time.lease)
  {
    StartedAwaited(s, w, raw, claim, lease, time);
    BeginEffect(s, w, raw, claim, lease, time);
  }

  lemma StartedAwaited(s: State, w: Worker, raw: Message, claim: Token, lease: Token, time: Timing)
    requires Begin(s, w, raw, claim, lease, time).1.WasStarted?
    ensures Awaits(s, w, raw)
  {
    if !Awaits(s, w, raw) { BeginNeedsMessage(s, w, raw, claim, lease, time); }
  }

  lemma StepClock(s: State, a: Action)
    ensures Step(s, a).0.now == s.now + (if a.ATick? then a.elapsed else 0)
  {
  }

  /** A renewal grants the lease anew from now on, and a release frees the key, each exactly to its holder. */
  lemma RenewalAndRelease(s: State, k: Key, token: Token, duration: nat)
    ensures var (s', reply) := RenewLease(s, k, token, duration);
      && (reply == Done <==> k in s.leases && s.leases[k].token == token)
      && (if reply == Done then s'.leases == s.leases[k := Lease(token, s.now + duration)] else s' == s)
    ensures var (s', reply) := ReleaseLease(s, k, token);
      && (reply == Done <==> k in s.leases && s.leases[k].token == token)
      && (if reply == Done then k !in s'.leases else s' == s)
  {
  }
}
