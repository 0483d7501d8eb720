/**
 Letting handlers in, and stopping: a claim's way from the ready list to its handler, and the promise of
 `stop` that no handler is let in after it and that the attempts of the claims that wait are given back.
 */
module WorkerStops {
  import opened Prelude
  import opened TaskModel
  import opened TaskInvariants
  import opened ScriptAnswers
  import opened WorkerClaims

  // ---------- Letting in ----------

  /** A handler is let in exactly on a waiting claim of a worker that is not stopping. */
  lemma LetInIffWaiting(c: Claims, w: Worker, m: Message)
    requires ClaimsOk(c)
    ensures var c' := Next(c, LetIn(w, m));
      if m in ProcOf(c, w).held && !ProcOf(c, w).stopping then
        && m.claimToken.Some? && m in ProcOf(c', w).running && m !in ProcOf(c', w).held
        && TokensOf(c'.admitted, m.id) == TokensOf(c.admitted, m.id) + {m.claimToken.value}
      else c' == c
  {
    assert ProcOk(c, w, ProcOf(c, w));
    if m in ProcOf(c, w).held { assert PendingOk(c, w, m); }
  }

  /** What the polling thread does with a begun attempt leads to a waiting claim. */
  lemma BegunIsHeld(c: Claims, w: Worker)
    requires ProcOf(c, w).poll.HasBegun?
    ensures var c' := Next(Next(c, Register(w)), Submit(w)); var m := ProcOf(c, w).poll.msg;
      && m in ProcOf(c', w).held && m.id in ProcOf(c', w).active && ProcOf(c', w).active[m.id] == m
      && ProcOf(c', w).poll.Idle? && ProcOf(c', w).stopping == ProcOf(c, w).stopping
      && c'.s == c.s && c'.admitted == c.admitted
  {
    var c1 := Next(c, Register(w));
    assert ProcOf(c1, w).poll == Registered(ProcOf(c, w).poll.msg);
  }

  /** A ready message becomes the polling thread's, and the attempt it begins becomes a claim. */
  lemma PoppedIsBegun(c: Claims, w: Worker, raw: Message, claim: Token, lease: Token, time: Timing)
    requires ProcOf(c, w).poll.Recovered? && Holds(c.s, Ready, raw)
    requires Begin(Pop(c.s, w, raw).0, w, raw, claim, lease, time).1.WasStarted?
    ensures var c' := Next(Next(c, PopTask(w, raw)), BeginTask(w, claim, lease, time, true));
      && ProcOf(c', w).poll == HasBegun(Begin(Pop(c.s, w, raw).0, w, raw, claim, lease, time).1.msg)
      && ProcOf(c', w).stopping == ProcOf(c, w).stopping && c'.admitted == c.admitted
      && c'.s == Begin(Pop(c.s, w, raw).0, w, raw, claim, lease, time).0
  {
    PopAnswers(c.s, w, raw);
    var c1 := Next(c, PopTask(w, raw));
    assert ProcOf(c1, w) == ProcOf(c, w).(poll := HasPopped(raw)) && c1.s == Pop(c.s, w, raw).0;
    BeginTakes(c1, w, raw, claim, lease, time, Begin(c1.s, w, raw, claim, lease, time));
  }

  lemma PopAnswers(s: State, w: Worker, raw: Message)
    requires Holds(s, Ready, raw)
    ensures Pop(s, w, raw).1 == WasMoved
  {
  }

  lemma BeginTakes(c: Claims, w: Worker, raw: Message, claim: Token, lease: Token, time: Timing, r: (State, Reply))
    requires ProcOf(c, w).poll == HasPopped(raw) && r == Begin(c.s, w, raw, claim, lease, time) && r.1.WasStarted?
    ensures var c' := Next(c, BeginTask(w, claim, lease, time, true));
      && ProcOf(c', w) == ProcOf(c, w).(poll := HasBegun(r.1.msg))
      && c'.admitted == c.admitted && c'.s == r.0
  {
  }

  /** A begun attempt's handler is let in after its claim was registered and submitted. */
  lemma BegunIsLetIn(c: Claims, w: Worker, m: Message)
    requires ProcOf(c, w).poll == HasBegun(m) && !ProcOf(c, w).stopping && m.claimToken.Some?
    ensures var c' := Next(Next(Next(c, Register(w)), Submit(w)), LetIn(w, m));
      m in ProcOf(c', w).running && m.claimToken.value in TokensOf(c'.admitted, m.id) && c'.s == c.s
  {
    BegunIsHeld(c, w);
    LetInAdmits(Next(Next(c, Register(w)), Submit(w)), w, m);
  }

  lemma LetInAdmits(c: Claims, w: Worker, m: Message)
    requires m in ProcOf(c, w).held && !ProcOf(c, w).stopping && m.claimToken.Some?
    ensures var c' := Next(c, LetIn(w, m));
      m in ProcOf(c', w).running && m.claimToken.value in TokensOf(c'.admitted, m.id) && c'.s == c.s
  {
  }

  /**
   The way of a task to its handler: a message that is ready and whose begin script starts an attempt gets
   its handler in five steps, if the worker is not stopping.
   */
  lemma ReadyTaskGetsItsHandler(c: Claims, w: Worker, raw: Message, claim: Token, lease: Token, time: Timing,
                                m: Message)
    requires ProcOf(c, w).poll.Recovered? && !ProcOf(c, w).stopping && Holds(c.s, Ready, raw)
    requires Begin(Pop(c.s, w, raw).0, w, raw, claim, lease, time).1 == WasStarted(m)
    ensures var c2 := Next(Next(c, PopTask(w, raw)), BeginTask(w, claim, lease, time, true));
      var c' := Next(Next(Next(c2, Register(w)), Submit(w)), LetIn(w, m));
      m.id == raw.id && m in ProcOf(c', w).running && claim in TokensOf(c'.admitted, raw.id)
  {
    PoppedIsBegun(c, w, raw, claim, lease, time);
    StartedNames(Pop(c.s, w, raw).0, w, raw, claim, lease, time);
    BegunIsLetIn(Next(Next(c, PopTask(w, raw)), BeginTask(w, claim, lease, time, true)), w, m);
  }

  lemma StartedNames(s: State, w: Worker, raw: Message, claim: Token, lease: Token, time: Timing)
    requires Begin(s, w, raw, claim, lease, time).1.WasStarted?
    ensures Begin(s, w, raw, claim, lease, time).1.msg.id == raw.id
    ensures Begin(s, w, raw, claim, lease, time).1.msg.claimToken == Some(claim)
  {
  }

  // ---------- Stopping ----------

  lemma StepLetsNoneIn(c: Claims, x: ClaimStep, w: Worker)
    requires ProcOf(c, w).stopping
    ensures ProcOf(Next(c, x), w).stopping && ProcOf(Next(c, x), w).running <= ProcOf(c, w).running
  {
  }

  lemma {:induction false} StoppedLetsNoneIn(c: Claims, xs: seq<ClaimStep>, w: Worker)
    requires ProcOf(c, w).stopping
    ensures ProcOf(After(c, xs), w).stopping && ProcOf(After(c, xs), w).running <= ProcOf(c, w).running
    decreases |xs|
  {
    if xs != [] {
      StepLetsNoneIn(c, xs[0], w);
      StoppedLetsNoneIn(Next(c, xs[0]), xs[1..], w);
    }
  }

  /** A worker that is told to stop stays so, and no handler is let in on it any more. */
  lemma StopLetsNoneIn(c: Claims, w: Worker, xs: seq<ClaimStep>)
    ensures var c' := After(Next(c, Stop(w)), xs);
      ProcOf(c', w).stopping && ProcOf(c', w).running <= ProcOf(c, w).running
  {
    StopStops(c, w);
    StoppedLetsNoneIn(Next(c, Stop(w)), xs, w);
  }

  lemma StopStops(c: Claims, w: Worker)
    ensures var c' := Next(c, Stop(w));
      ProcOf(c', w).stopping && ProcOf(c', w).running == ProcOf(c, w).running && c'.admitted == c.admitted
  {
  }

  lemma OnlyLetInAdmits(c: Claims, x: ClaimStep)
    requires !x.LetIn?
    ensures Next(c, x).admitted == c.admitted
  {
  }

  /** Only a handler let in admits an attempt, and it admits the one its worker began. */
  lemma AdmittedWhereBegun(c: Claims, x: ClaimStep, id: TaskId, t: Token)
    requires ClaimsOk(c) && t in TokensOf(Next(c, x).admitted, id) && t !in TokensOf(c.admitted, id)
    ensures x.LetIn? && !ProcOf(c, x.w).stopping && t in c.began && c.began[t].worker == x.w
    ensures Next(c, x).began == c.began
  {
    if !x.LetIn? { OnlyLetInAdmits(c, x); }
    else {
      LetInIffWaiting(c, x.w, x.m);
      assert ProcOk(c, x.w, ProcOf(c, x.w));
      assert PendingOk(c, x.w, x.m);
    }
  }

  lemma BeginKeepsStarts(c: Claims, w: Worker, claim: Token, lease: Token, time: Timing, replied: bool)
    requires BeganOk(c) && claim !in c.s.tokens
    ensures forall t <- c.began :: var c' := Next(c, BeginTask(w, claim, lease, time, replied));
      t in c'.began && c'.began[t] == c.began[t]
  {
  }

  lemma StepKeepsStarts(c: Claims, x: ClaimStep)
    requires BeganOk(c) && FreshStep(c, x)
    ensures forall t <- c.began :: t in Next(c, x).began && Next(c, x).began[t] == c.began[t]
  {
    if x.BeginTask? { BeginKeepsStarts(c, x.w, x.claim, x.lease, x.time, x.replied); }
    else { OnlyBeginStarts(c, x); }
  }

  lemma OnlyBeginStarts(c: Claims, x: ClaimStep)
    requires !x.BeginTask?
    ensures Next(c, x).began == c.began
  {
  }

  lemma StepKeepsAll(c: Claims, x: ClaimStep)
    requires Inv(c.s) && ClaimsOk(c) && FreshStep(c, x) && Guarded(c, x)
    ensures Inv(Next(c, x).s) && ClaimsOk(Next(c, x))
  {
    ClaimStepKeeps(c, x);
    ClaimStepIsAScript(c, x);
    if Next(c, x).s != c.s { StepKeepsInv(c.s, Script(c, x).value); }
  }

  lemma {:induction false} StartsStay(c: Claims, xs: seq<ClaimStep>, t: Token)
    requires Inv(c.s) && ClaimsOk(c) && FreshSteps(c, xs) && GuardedSteps(c, xs) && t in c.began
    ensures t in After(c, xs).began && After(c, xs).began[t] == c.began[t]
    decreases |xs|
  {
    if xs != [] {
      StepKeepsAll(c, xs[0]);
      StepKeepsStarts(c, xs[0]);
      StartsStay(Next(c, xs[0]), xs[1..], t);
    }
  }

  /** Every attempt admitted after a worker was told to stop was begun by another worker. */
  lemma {:induction false} LaterAdmissionsAreElsewhere(c: Claims, xs: seq<ClaimStep>, w: Worker, id: TaskId, t: Token)
    requires Inv(c.s) && ClaimsOk(c) && FreshSteps(c, xs) && GuardedSteps(c, xs) && ProcOf(c, w).stopping
    requires t in TokensOf(After(c, xs).admitted, id) && t !in TokensOf(c.admitted, id)
    ensures t in After(c, xs).began && After(c, xs).began[t].worker != w
    decreases |xs|
  {
    if xs != [] {
      var c1 := Next(c, xs[0]);
      StepKeepsAll(c, xs[0]);
      StepLetsNoneIn(c, xs[0], w);
      if t in TokensOf(c1.admitted, id) {
        AdmittedWhereBegun(c, xs[0], id, t);
        StartsStay(c1, xs[1..], t);
      } else {
        LaterAdmissionsAreElsewhere(c1, xs[1..], w, id, t);
      }
    }
  }

  /** A stopping worker's waiting claim goes back to the ready list and its attempt is given back. */
  lemma StoppedClaimIsReturned(c: Claims, w: Worker, m: Message, replied: bool)
    requires Inv(c.s) && ClaimsOk(c) && ProcOf(c, w).stopping && m in ProcOf(c, w).held && BegunBy(c.s, w, m)
    ensures var c' := Next(c, ReturnClaim(w, m, true, replied));
      && IsAt(c'.s, m.id, Ready, m, AttemptsOf(c.s, m.id) - 1)
      && TokensOf(c'.granted, m.id) == TokensOf(c.granted, m.id) - {m.claimToken.value}
      && c'.admitted == c.admitted && m.claimToken.value !in TokensOf(c.admitted, m.id)
      && m !in ProcOf(c', w).held && m.id !in ProcOf(c', w).active
  {
    assert ProcOk(c, w, ProcOf(c, w));
    assert PendingOk(c, w, m);
    ReturnVerdict(c.s, w, m);
    ReturnIsWithdrawn(c, w, m, replied, ReturnUnstarted(c.s, w, m));
  }

  lemma ReturnIsWithdrawn(c: Claims, w: Worker, m: Message, replied: bool, r: (State, Reply))
    requires r == ReturnUnstarted(c.s, w, m) && r.1 == WasReturned
    requires ProcOf(c, w).stopping && m in ProcOf(c, w).held && m.claimToken.Some?
    ensures var c' := Next(c, ReturnClaim(w, m, true, replied));
      && c'.s == r.0 && c'.admitted == c.admitted && m !in ProcOf(c', w).held && m.id !in ProcOf(c', w).active
      && TokensOf(c'.granted, m.id) == TokensOf(c.granted, m.id) - {m.claimToken.value}
  {
  }
}
