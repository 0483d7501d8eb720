/**
 What the storage server does take, and when: a payload nobody refers to any more is there until its date
 and gone after the next pass of the collector, an upload nobody claimed goes the same way after its grace
 time, a rejected producer's delete leaves nothing behind, and the retention sweep takes exactly the
 uploads that are late.
 */
module StorageCollection {
  import opened Prelude
  import opened StorageHandshake

  /** One pass of the collector over one object. */
  function CollectorPass(k: ObjectKey): seq<StorageStep> { [ReadDue(k), UnlinkDue(k), ForgetDue(k)] }

  /** A producer's delete. */
  function Delete(k: ObjectKey): seq<StorageStep> { [PromoteForced(k), UnlinkForced(k), ForgetForced(k)] }

  /** Nothing of the object is left: no file, no entry, no date. */
  predicate IsCollected(o: Object) { !o.file && o.pending.None? && o.gc.None? && !o.due && o.retain.Default? }

  function At(h: Storage, k: ObjectKey): Object
    requires k in h.objects
  {
    h.objects[k]
  }

  // ---------- The collector ----------

  lemma ActsOn(h: Storage, x: StorageStep, k: ObjectKey)
    requires KeyOf(x) == Some(k) && k in h.objects && !x.Write?
    ensures k in StepStorage(h, x).objects && StepStorage(h, x).objects[k] == Act(h.objects[k], x, h.now, h.ttl)
    ensures StepStorage(h, x).now == h.now && StepStorage(h, x).ttl == h.ttl
  {
  }

  /** What one pass does to an object. */
  lemma PassActs(h: Storage, k: ObjectKey)
    requires k in h.objects
    ensures k in RunStorage(h, CollectorPass(k)).objects
    ensures At(RunStorage(h, CollectorPass(k)), k)
         == Act(Act(Act(At(h, k), ReadDue(k), h.now, h.ttl), UnlinkDue(k), h.now, h.ttl), ForgetDue(k), h.now, h.ttl)
  {
    ThreeSteps(h, CollectorPass(k));
    var h1 := StepStorage(h, ReadDue(k));
    var h2 := StepStorage(h1, UnlinkDue(k));
    ActsOn(h, ReadDue(k), k);
    ActsOn(h1, UnlinkDue(k), k);
    ActsOn(h2, ForgetDue(k), k);
  }

  lemma DueIsCollected(o: Object, k: ObjectKey, now: Time, ttl: nat)
    requires o.pending.None? && o.gc.Some? && o.gc.value <= now
    ensures IsCollected(Act(Act(Act(o, ReadDue(k), now, ttl), UnlinkDue(k), now, ttl), ForgetDue(k), now, ttl))
  {
  }

  /** Once its date has passed, one pass of the collector leaves nothing of an object. */
  lemma PassCollects(h: Storage, k: ObjectKey)
    requires k in h.objects && At(h, k).pending.None? && At(h, k).gc.Some? && At(h, k).gc.value <= h.now
    ensures k in RunStorage(h, CollectorPass(k)).objects && IsCollected(At(RunStorage(h, CollectorPass(k)), k))
  {
    PassActs(h, k);
    DueIsCollected(At(h, k), k, h.now, h.ttl);
  }

  /** An upload whose grace time has passed unclaimed is promoted and collected in one pass. */
  lemma GraceOverCollects(h: Storage, k: ObjectKey)
    requires k in h.objects && At(h, k).pending.Some? && At(h, k).pending.value <= h.now
    ensures var h' := RunStorage(h, [PromoteDue(k)] + CollectorPass(k)); k in h'.objects && IsCollected(At(h', k))
  {
    var h1 := StepStorage(h, PromoteDue(k));
    ActsOn(h, PromoteDue(k), k);
    PassCollects(h1, k);
    RunAppend(h, [PromoteDue(k)], CollectorPass(k));
    assert RunStorage(h, [PromoteDue(k)]) == h1 by { assert [PromoteDue(k)][1..] == []; }
  }

  // ---------- Not before its date ----------

  /** The task has ended: the payload is there until this date, and from then on on its way out. */
  predicate Ending(o: Object, date: Time, now: Time) {
    && o.mail.Ended? && o.pending.None?
    && (if o.file then o.retain.Forever? && !o.expired && o.gc == Some(date) else o.retain.Default? && date <= now)
    && (o.gc.Some? ==> o.gc == Some(date)) && (o.gc.None? ==> !o.due) && (o.due ==> date <= now)
  }

  predicate EndsAgain(x: StorageStep, k: ObjectKey) { x.EndTask? && x.k == k }

  lemma ActKeepsEnding(o: Object, x: StorageStep, now: Time, ttl: nat, date: Time)
    requires ObjectOk(o, now, ttl) && Ending(o, date, now) && !x.EndTask?
    ensures Ending(Act(o, x, now, ttl), date, now)
  {
  }

  lemma {:induction false} RunKeepsEnding(h: Storage, run: seq<StorageStep>, k: ObjectKey, date: Time)
    requires StorageOk(h) && ProperRun(h, run) && k in h.objects && Ending(At(h, k), date, h.now)
    requires forall x <- run :: !EndsAgain(x, k)
    ensures k in RunStorage(h, run).objects && Ending(At(RunStorage(h, run), k), date, RunStorage(h, run).now)
    decreases |run|
  {
    if run != [] {
      StepKeepsOk(h, run[0]);
      assert run[0] in run;
      assert !EndsAgain(run[0], k);
      if KeyOf(run[0]) == Some(k) { ActKeepsEnding(At(h, k), run[0], h.now, h.ttl, date); }
      RunKeepsEnding(StepStorage(h, run[0]), run[1..], k, date);
    }
  }

  lemma StepKeepsOk(h: Storage, x: StorageStep)
    requires StorageOk(h) && Proper(h, x)
    ensures StorageOk(StepStorage(h, x))
  {
    assert RunStorage(h, [x]) == StepStorage(h, x) && ProperRun(h, [x]) by { assert [x][1..] == []; }
    RunKeepsStorage(h, [x]);
  }

  lemma EndingIsCollected(h: Storage, k: ObjectKey, date: Time)
    requires k in h.objects && Ending(At(h, k), date, h.now) && date <= h.now
    ensures k in RunStorage(h, CollectorPass(k)).objects && IsCollected(At(RunStorage(h, CollectorPass(k)), k))
  {
    if At(h, k).gc.Some? { PassCollects(h, k); } else { PassLeaves(h, k); }
  }

  lemma PassLeaves(h: Storage, k: ObjectKey)
    requires k in h.objects && At(h, k).gc.None? && !At(h, k).due
    ensures k in RunStorage(h, CollectorPass(k)).objects && At(RunStorage(h, CollectorPass(k)), k) == At(h, k)
  {
    PassActs(h, k);
  }

  /**
   In every proper run the payload of a task that ends is there for exactly as long as it was to be kept:
   before its date the file is untouched, and from its date on one pass leaves nothing of it.
   */
  lemma EndedPayload(ttl: nat, before: seq<StorageStep>, k: ObjectKey, kept: nat, run: seq<StorageStep>)
    requires ProperRun(Start(ttl), before) && k in RunStorage(Start(ttl), before).objects
    requires At(RunStorage(Start(ttl), before), k).mail.HasMessage?
    requires ProperRun(StepStorage(RunStorage(Start(ttl), before), EndTask(k, kept)), run)
    requires forall x <- run :: !EndsAgain(x, k)
    ensures var h := RunStorage(Start(ttl), before); var h' := RunStorage(StepStorage(h, EndTask(k, kept)), run);
      && k in h'.objects
      && (h'.now < h.now + kept ==> At(h', k).file && At(h', k).gc == Some(h.now + kept) && !At(h', k).due)
      && (h'.now >= h.now + kept ==>
            k in RunStorage(h', CollectorPass(k)).objects && IsCollected(At(RunStorage(h', CollectorPass(k)), k)))
  {
    var h := RunStorage(Start(ttl), before);
    var h1 := StepStorage(h, EndTask(k, kept));
    RunKeepsStorage(Start(ttl), before);
    StepKeepsOk(h, EndTask(k, kept));
    ActsOn(h, EndTask(k, kept), k);
    RunKeepsEnding(h1, run, k, h.now + kept);
    var h' := RunStorage(h1, run);
    if h'.now >= h.now + kept { EndingIsCollected(h', k, h.now + kept); }
  }

  // ---------- Uploads that nobody claims ----------

  /** A finished upload waits for its task until then. */
  predicate Offered(o: Object, until: Time) {
    o.upload.Kept? && o.pending == Some(until) && o.file && o.retain.Forever? && !o.expired && o.gc.None? && !o.due
  }

  /** The script takes the payload, or the producer gives it up. */
  predicate Claims(x: StorageStep, k: ObjectKey) { (x.Commit? || x.PromoteForced?) && x.k == k }

  /** A finished upload is offered for the full grace time. */
  lemma UploadIsOffered(h: Storage, k: ObjectKey)
    requires k !in h.objects
    ensures var h' := RunStorage(h, [Write(k), Provision(k)] + [Pend(k), Keep(k)]);
      h'.now == h.now && k in h'.objects && Offered(At(h', k), h.now + GRACE) && At(h', k).producer.Waiting?
  {
    var h2 := RunStorage(h, [Write(k), Provision(k)]);
    TwoSteps(h, [Write(k), Provision(k)]);
    TwoSteps(h2, [Pend(k), Keep(k)]);
    RunAppend(h, [Write(k), Provision(k)], [Pend(k), Keep(k)]);
  }

  lemma ActKeepsOffered(o: Object, x: StorageStep, now: Time, ttl: nat, until: Time)
    requires ObjectOk(o, now, ttl) && Offered(o, until) && now < until && !x.Commit? && !x.PromoteForced?
    ensures Offered(Act(o, x, now, ttl), until)
  {
  }

  lemma {:induction false} TimeRises(h: Storage, run: seq<StorageStep>)
    ensures h.now <= RunStorage(h, run).now
    decreases |run|
  {
    if run != [] { TimeRises(StepStorage(h, run[0]), run[1..]); }
  }

  /** Until its grace time is over an upload waits untouched for its task, whatever sweeps and passes there are. */
  lemma {:induction false} OfferLasts(h: Storage, run: seq<StorageStep>, k: ObjectKey, until: Time)
    requires StorageOk(h) && ProperRun(h, run) && k in h.objects && Offered(At(h, k), until)
    requires RunStorage(h, run).now < until && forall x <- run :: !Claims(x, k)
    ensures k in RunStorage(h, run).objects && Offered(At(RunStorage(h, run), k), until)
    decreases |run|
  {
    if run != [] {
      StepKeepsOk(h, run[0]);
      TimeRises(h, run);
      assert run[0] in run;
      assert !Claims(run[0], k);
      if KeyOf(run[0]) == Some(k) { ActKeepsOffered(At(h, k), run[0], h.now, h.ttl, until); }
      OfferLasts(StepStorage(h, run[0]), run[1..], k, until);
    }
  }

  /** The request and the script that follow in time give the task its message and its file. */
  lemma OfferIsTaken(h: Storage, k: ObjectKey, until: Time)
    requires k in h.objects && Offered(At(h, k), until) && At(h, k).producer.Waiting?
    ensures var h' := RunStorage(h, [Ask(k), Commit(k)]);
      k in h'.objects && At(h', k).mail.HasMessage? && At(h', k).file && At(h', k).pending.None?
  {
    TwoSteps(h, [Ask(k), Commit(k)]);
  }

  /** A script whose payload is no longer offered takes nothing. */
  lemma TooLateToTake(h: Storage, k: ObjectKey)
    requires k in h.objects && At(h, k).pending.None?
    ensures var h' := StepStorage(h, Commit(k));
      k in h'.objects && At(h', k).mail == At(h, k).mail && At(h', k).file == At(h, k).file && !At(h', k).inFlight
  {
  }

  /** The delete of a producer whose task was rejected leaves nothing of its upload. */
  lemma GivenUpIsDeleted(h: Storage, k: ObjectKey)
    requires k in h.objects && At(h, k).producer.GaveUp? && !At(h, k).due
    ensures var h' := RunStorage(h, Delete(k));
      && k in h'.objects && IsCollected(At(h', k)) && At(h', k).producer.Finished?
      && At(h', k).mail == At(h, k).mail && At(h', k).inFlight == At(h, k).inFlight
  {
    ThreeSteps(h, Delete(k));
    var h1 := StepStorage(h, PromoteForced(k));
    var h2 := StepStorage(h1, UnlinkForced(k));
    ActsOn(h, PromoteForced(k), k);
    ActsOn(h1, UnlinkForced(k), k);
    ActsOn(h2, ForgetForced(k), k);
  }

  /** A producer whose task is refused deletes its upload, and nothing of it is left. */
  lemma RefusedLeavesNothing(h: Storage, k: ObjectKey, until: Time)
    requires k in h.objects && Offered(At(h, k), until) && At(h, k).producer.Waiting?
    ensures var h' := RunStorage(h, [Ask(k), Reject(k)] + Delete(k));
      k in h'.objects && IsCollected(At(h', k)) && At(h', k).mail == At(h, k).mail
  {
    var h1 := RunStorage(h, [Ask(k), Reject(k)]);
    TwoSteps(h, [Ask(k), Reject(k)]);
    RunAppend(h, [Ask(k), Reject(k)], Delete(k));
    GivenUpIsDeleted(h1, k);
  }

  /** A producer that lost the script's reply finds its task, and then deletes nothing. */
  lemma LostReplyKeepsPayload(h: Storage, k: ObjectKey, until: Time)
    requires k in h.objects && Offered(At(h, k), until) && At(h, k).producer.Waiting?
    ensures var h' := RunStorage(h, [Ask(k), Commit(k), Check(k)] + Delete(k));
      k in h'.objects && At(h', k).mail.HasMessage? && At(h', k).file && At(h', k).producer.Finished?
  {
    var h1 := RunStorage(h, [Ask(k), Commit(k), Check(k)]);
    ThreeSteps(h, [Ask(k), Commit(k), Check(k)]);
    RunAppend(h, [Ask(k), Commit(k), Check(k)], Delete(k));
    FinishedDeletesNothing(h1, k);
  }

  lemma FinishedDeletesNothing(h: Storage, k: ObjectKey)
    requires k in h.objects && At(h, k).producer.Finished?
    ensures k in RunStorage(h, Delete(k)).objects && At(RunStorage(h, Delete(k)), k) == At(h, k)
  {
    ThreeSteps(h, Delete(k));
    var h1 := StepStorage(h, PromoteForced(k));
    var h2 := StepStorage(h1, UnlinkForced(k));
    ActsOn(h, PromoteForced(k), k);
    ActsOn(h1, UnlinkForced(k), k);
    ActsOn(h2, ForgetForced(k), k);
  }

  /** A script that comes after the delete finds nothing on offer: there is no task, and nothing is left. */
  lemma CommitAfterDelete(h: Storage, k: ObjectKey, until: Time)
    requires k in h.objects && Offered(At(h, k), until) && At(h, k).producer.Waiting? && At(h, k).mail.NoMessage?
    ensures var h' := StepStorage(RunStorage(h, [Ask(k), Check(k)] + Delete(k)), Commit(k));
      k in h'.objects && At(h', k).mail.NoMessage? && IsCollected(At(h', k))
  {
    var h1 := RunStorage(h, [Ask(k), Check(k)]);
    TwoSteps(h, [Ask(k), Check(k)]);
    RunAppend(h, [Ask(k), Check(k)], Delete(k));
    GivenUpIsDeleted(h1, k);
    TooLateToTake(RunStorage(h1, Delete(k)), k);
  }

  /** An upload that fails at its pending entry leaves nothing, or an entry that the collector clears in time. */
  lemma FailedUploadIsCleared(h: Storage, k: ObjectKey, committed: bool, elapsed: nat)
    requires k in h.objects && ObjectOk(At(h, k), h.now, h.ttl) && At(h, k).upload.Provisioned?
    ensures var h1 := StepStorage(h, PendFails(k, committed));
      && k in h1.objects && !At(h1, k).file
      && (!committed ==> IsCollected(At(h1, k)))
      && (committed && elapsed >= GRACE ==>
            var h' := RunStorage(StepStorage(h1, Pass(elapsed)), [PromoteDue(k)] + CollectorPass(k));
            k in h'.objects && IsCollected(At(h', k)))
  {
    var h1 := StepStorage(h, PendFails(k, committed));
    ActsOn(h, PendFails(k, committed), k);
    if committed && elapsed >= GRACE { GraceOverCollects(StepStorage(h1, Pass(elapsed)), k); }
  }

  // ---------- The retention sweep ----------

  /** While an upload is under way, the sweep takes its file exactly if its next step is late. */
  lemma SweepTakesIffLate(h: Storage, k: ObjectKey, x: StorageStep)
    requires k in h.objects && ObjectOk(At(h, k), h.now, h.ttl) && Uploads(At(h, k), x)
    requires At(h, k).file && !At(h, k).expired
    ensures k in RunStorage(h, Sweeps(k)).objects
    ensures !At(RunStorage(h, Sweeps(k)), k).file <==> !Timely(At(h, k), x, h.now, h.ttl)
  {
    TwoSteps(h, Sweeps(k));
    ActsOn(h, ReadExpired(k), k);
    ActsOn(StepStorage(h, ReadExpired(k)), UnlinkExpired(k), k);
  }
}
