/**
 The life of an external payload: uploaded and marked pending by the storage server, claimed by the
 enqueue or replay script, released when its task ends, and collected.  Every request can stop
 between any two of its steps.  One object belongs to one task, because its key is a fresh uuid.
 */
module StorageHandshake {
  import opened Prelude

  type ObjectKey = nat
  type Time = int

  const GRACE := 86400        // how long an object may stay pending
  const PROVISION := GRACE + 3600

  /** How far the upload request has come. */
  datatype Upload = Written | Provisioned | Pended | Kept | Failed

  /** What the producer of the task is doing. */
  datatype Producer = Waiting | Asked | GaveUp | Promoted | Unlinked | Finished

  /** Whether the task of this object has a message in some container. */
  datatype Mail = NoMessage | HasMessage | Ended

  datatype Retention = Default | Until(time: Time) | Forever

  /**
   The file and its metadata, the entries in the pending and gc sets, what the collector and the
   retention sweep have read and may still act on, and the requests around the object.
   */
  datatype Object = Object(
    file: bool,
    written: Time,
    limit: Time,
    retain: Retention,
    pending: Option<Time>,
    gc: Option<Time>,
    due: bool,
    expired: bool,
    upload: Upload,
    producer: Producer,
    inFlight: bool,
    mail: Mail)

  /** `ttl` is the server's setting: how long files without a date of their own are kept, zero for ever. */
  datatype Storage = Storage(now: Time, ttl: nat, objects: map<ObjectKey, Object>)

  function Start(ttl: nat): Storage { Storage(0, ttl, map[]) }

  datatype StorageStep =
    | Write(k: ObjectKey)
    | Provision(k: ObjectKey)
    | Pend(k: ObjectKey)
    | PendFails(k: ObjectKey, committed: bool)
    | Keep(k: ObjectKey)
    | Ask(k: ObjectKey)
    | Commit(k: ObjectKey)
    | Reject(k: ObjectKey)
    | Check(k: ObjectKey)
    | PromoteForced(k: ObjectKey)
    | UnlinkForced(k: ObjectKey)
    | ForgetForced(k: ObjectKey)
    | EndTask(k: ObjectKey, kept: nat)
    | PromoteDue(k: ObjectKey)
    | ReadDue(k: ObjectKey)
    | UnlinkDue(k: ObjectKey)
    | ForgetDue(k: ObjectKey)
    | ReadExpired(k: ObjectKey)
    | UnlinkExpired(k: ObjectKey)
    | Pass(elapsed: nat)

  /** _extend_retention: monotone, and zero means forever. */
  function Extend(retain: Retention, requested: Retention): Retention {
    match (retain, requested)
    case (Forever, _) => Forever
    case (_, Forever) => Forever
    case (Default, r) => r
    case (r, Default) => r
    case (Until(a), Until(b)) => Until(if a > b then a else b)
  }

  function NewObject(now: Time): Object {
    Object(true, now, now, Default, None, None, false, false, Written, Waiting, false, NoMessage)
  }

  function KeyOf(x: StorageStep): Option<ObjectKey> {
    if x.Pass? then None else Some(x.k)
  }

  /** What the retention sweep looks for; without a retention setting it does not run. */
  predicate IsExpired(o: Object, now: Time, ttl: nat) {
    && ttl > 0
    && ((o.retain.Until? && o.retain.time <= now) || (o.retain.Default? && now - o.written > ttl))
  }

  /** A step on an existing object; it does nothing where the request is not that far. */
  function Act(o: Object, x: StorageStep, now: Time, ttl: nat): Object {
    match x
    case Provision(_) =>
      if o.upload.Written?
        then o.(upload := Provisioned, limit := now + PROVISION, retain := Extend(o.retain, Until(now + PROVISION)))
          else o
    case Pend(_) => if o.upload.Provisioned? then o.(upload := Pended, pending := Some(now + GRACE)) else o
    case PendFails(_, committed) =>
      if o.upload.Provisioned? then
        o.(upload := Failed, pending := if committed then Some(now + GRACE) else o.pending, file := false,
           retain := Default)
      else o
    case Keep(_) => if o.upload.Pended? then o.(upload := Kept, retain := Extend(o.retain, Forever)) else o
    case Ask(_) => if o.upload.Kept? && o.producer.Waiting? then o.(producer := Asked, inFlight := true) else o
    case Commit(_) =>
      if !o.inFlight then o
      else if o.pending.None? then o.(inFlight := false)
      else o.(inFlight := false, pending := None, mail := HasMessage)
    case Reject(_) => if o.inFlight && o.producer.Asked? then o.(inFlight := false, producer := GaveUp) else o
    case Check(_) =>
      if o.producer.Asked? then o.(producer := if o.mail.NoMessage? then GaveUp else Finished) else o
    case PromoteForced(_) =>
      if !o.producer.GaveUp? then o
      else o.(producer := Promoted, pending := None, gc := if o.pending.Some? then Some(now) else o.gc)
    case UnlinkForced(_) =>
      if o.producer.Promoted? then o.(producer := Unlinked, file := false, retain := Default) else o
    case ForgetForced(_) => if o.producer.Unlinked? then o.(producer := Finished, gc := None) else o
    case EndTask(_, kept) =>
      if o.mail.HasMessage? || o.mail.Ended? then o.(mail := Ended, gc := Some(now + kept)) else o
    case PromoteDue(_) => if o.pending.Some? && o.pending.value <= now then o.(pending := None, gc := Some(now)) else o
    case ReadDue(_) => if o.gc.Some? && o.gc.value <= now then o.(due := true) else o
    case UnlinkDue(_) => if o.due then o.(file := false, retain := Default) else o
    case ForgetDue(_) => if o.due && !o.file then o.(gc := None, due := false) else o
    case ReadExpired(_) =>
      if IsExpired(o, now, ttl) then o.(expired := true) else o
    case UnlinkExpired(_) => if o.expired then o.(file := false, retain := Default, expired := false) else o
    case Write(_) => o
    case Pass(_) => o
  }

  function StepStorage(h: Storage, x: StorageStep): Storage {
    match x
    case Pass(elapsed) => h.(now := h.now + elapsed)
    case Write(k) => if k in h.objects then h else h.(objects := h.objects[k := NewObject(h.now)])
    case _ =>
      var k := KeyOf(x).value;
      if k in h.objects then h.(objects := h.objects[k := Act(h.objects[k], x, h.now, h.ttl)]) else h
  }

  // ---------- Hypotheses ----------

  /** The script commits although its producer has already found no task and is about to delete. */
  predicate CommitsLate(o: Object, x: StorageStep) {
    x.Commit? && o.inFlight && o.pending.Some? && !o.producer.Asked?
  }

  /** The upload request takes its next step before what it wrote so far may be swept. */
  predicate Timely(o: Object, x: StorageStep, now: Time, ttl: nat) {
    ttl > 0 ==>
      match x
      case Provision(_) => now - o.written <= ttl
      case Pend(_) => now < o.limit
      case Keep(_) => now < o.limit
      case _ => true
  }

  predicate Proper(h: Storage, x: StorageStep) {
    KeyOf(x).Some? && KeyOf(x).value in h.objects ==>
      !CommitsLate(h.objects[KeyOf(x).value], x) && Timely(h.objects[KeyOf(x).value], x, h.now, h.ttl)
  }

  predicate ProperRun(h: Storage, run: seq<StorageStep>)
    decreases |run|
  {
    run == [] || (Proper(h, run[0]) && ProperRun(StepStorage(h, run[0]), run[1..]))
  }

  function RunStorage(h: Storage, run: seq<StorageStep>): Storage
    decreases |run|
  {
    if run == [] then h else RunStorage(StepStorage(h, run[0]), run[1..])
  }

  // ---------- Invariant ----------

  predicate UploadOk(o: Object, now: Time, ttl: nat) {
    match o.upload
    case Written =>
      && o.retain.Default? && o.pending.None? && o.gc.None? && !o.due
      && ((ttl > 0 && now - o.written > ttl) || (o.file && !o.expired))
    case Provisioned =>
      && o.pending.None? && o.gc.None? && !o.due && (o.file ==> o.retain == Until(o.limit))
      && ((ttl > 0 && now >= o.limit) || (o.file && !o.expired))
    case Pended =>
      && (o.file ==> o.retain == Until(o.limit))
      && (o.pending.Some? ==> o.gc.None? && !o.due && ((ttl > 0 && now >= o.limit) || (o.file && !o.expired)))
    case Kept => o.pending.Some? ==> o.gc.None? && !o.due && o.file && o.retain.Forever? && !o.expired
    case Failed => true
  }

  predicate ObjectOk(o: Object, now: Time, ttl: nat) {
    && UploadOk(o, now, ttl)
    && (o.mail.HasMessage? ==>
          && o.upload.Kept? && o.file && o.retain.Forever? && !o.expired
          && o.pending.None? && o.gc.None? && !o.due && (o.producer.Asked? || o.producer.Finished?))
    && (!o.upload.Kept? ==> o.producer.Waiting? && !o.inFlight && o.mail.NoMessage?)
    && (o.producer.Waiting? ==> !o.inFlight && o.mail.NoMessage?)
    && (o.producer.GaveUp? || o.producer.Promoted? || o.producer.Unlinked? ==> o.mail.NoMessage?)
    && (o.producer.Promoted? || o.producer.Unlinked? || o.producer.Finished? ==> o.pending.None?)
    && (o.inFlight ==> o.mail.NoMessage?)
    && (!o.mail.NoMessage? ==> o.pending.None?)
  }

  predicate StorageOk(h: Storage) {
    forall k <- h.objects :: ObjectOk(h.objects[k], h.now, h.ttl)
  }

  lemma ActKeeps(o: Object, x: StorageStep, now: Time, ttl: nat)
    requires ObjectOk(o, now, ttl) && !CommitsLate(o, x) && Timely(o, x, now, ttl)
    ensures ObjectOk(Act(o, x, now, ttl), now, ttl)
  {
  }

  lemma {:induction false} RunKeepsStorage(h: Storage, run: seq<StorageStep>)
    requires StorageOk(h) && ProperRun(h, run)
    ensures StorageOk(RunStorage(h, run))
    decreases |run|
  {
    if run != [] {
      var x := run[0];
      if KeyOf(x).Some? && KeyOf(x).value in h.objects { ActKeeps(h.objects[KeyOf(x).value], x, h.now, h.ttl); }
      RunKeepsStorage(StepStorage(h, x), run[1..]);
    }
  }

  /** A task that has a message has its payload: the file is there and nobody is about to take it. */
  lemma LiveTaskHasItsFile(ttl: nat, run: seq<StorageStep>, k: ObjectKey)
    requires ProperRun(Start(ttl), run)
    ensures var h := RunStorage(Start(ttl), run);
      k in h.objects && h.objects[k].mail.HasMessage? ==>
        h.objects[k].file && !h.objects[k].due && !h.objects[k].expired && h.objects[k].gc.None?
  {
    RunKeepsStorage(Start(ttl), run);
  }

  // ---------- One way only ----------

  /** 0: not handed over yet, 1: pending, 2: referenced by a message, 3: to be collected or collected. */
  function Stage(o: Object): nat {
    if o.mail.HasMessage? then 2
    else if o.mail.Ended? || o.gc.Some? || o.due then 3
    else if o.pending.Some? then 1
    else if HandedOver(o) then 3
    else 0
  }

  predicate HandedOver(o: Object) { o.upload.Pended? || o.upload.Kept? }

  /** From pending on, an object only moves forward: pending, referenced, collected. */
  lemma {:induction false} StageOnlyRises(h: Storage, run: seq<StorageStep>, k: ObjectKey)
    requires StorageOk(h) && ProperRun(h, run) && k in h.objects
    ensures k in RunStorage(h, run).objects
    ensures HandedOver(h.objects[k]) ==> HandedOver(RunStorage(h, run).objects[k])
    ensures HandedOver(h.objects[k]) ==> Stage(h.objects[k]) <= Stage(RunStorage(h, run).objects[k])
    decreases |run|
  {
    if run != [] {
      var x := run[0];
      if KeyOf(x).Some? && KeyOf(x).value in h.objects { ActKeeps(h.objects[KeyOf(x).value], x, h.now, h.ttl); }
      if HandedOver(h.objects[k]) { ActRaises(h.objects[k], x, h.now, h.ttl); }
      StageOnlyRises(StepStorage(h, x), run[1..], k);
    }
  }

  lemma ActRaises(o: Object, x: StorageStep, now: Time, ttl: nat)
    requires ObjectOk(o, now, ttl) && HandedOver(o)
    ensures HandedOver(Act(o, x, now, ttl)) && Stage(o) <= Stage(Act(o, x, now, ttl))
  {
  }

  // ---------- The late commit ----------

  function LateDelete(k: ObjectKey): seq<StorageStep> {
    [Commit(k), PromoteForced(k), UnlinkForced(k)]
  }

  /**
   Wherever a producer has given up on a script that can still commit, the commit and the producer's
   delete leave a task with a message and without its payload: the forced promotion finds nothing
   pending any more, and the delete goes on regardless.
   */
  lemma LateCommitLosesTheFile(h: Storage, k: ObjectKey)
    requires k in h.objects && ObjectOk(h.objects[k], h.now, h.ttl)
    requires h.objects[k].producer.GaveUp? && h.objects[k].inFlight && h.objects[k].pending.Some?
    ensures CommitsLate(h.objects[k], Commit(k))
    ensures var h' := RunStorage(h, LateDelete(k));
      k in h'.objects && h'.objects[k].mail.HasMessage? && !h'.objects[k].file
  {
    ThreeSteps(h, LateDelete(k));
    var o := h.objects[k];
    var o1 := Act(o, Commit(k), h.now, h.ttl);
    var o2 := Act(o1, PromoteForced(k), h.now, h.ttl);
    assert StepStorage(h, Commit(k)).objects[k] == o1 && o1.mail.HasMessage? && o1.pending.None?;
    assert o2.producer.Promoted? && o2.mail.HasMessage? && !Act(o2, UnlinkForced(k), h.now, h.ttl).file;
  }

  lemma ThreeSteps(h: Storage, run: seq<StorageStep>)
    requires |run| == 3
    ensures RunStorage(h, run) == StepStorage(StepStorage(StepStorage(h, run[0]), run[1]), run[2])
  {
    var h1 := StepStorage(h, run[0]);
    var h2 := StepStorage(h1, run[1]);
    assert run[1..][1..] == run[2..] && run[2..][1..] == [];
    assert RunStorage(h2, run[2..]) == StepStorage(h2, run[2]);
  }

  /** Such a state is reached by an upload, a request and a check that finds no task yet. */
  lemma LateCommitHappens(ttl: nat)
    ensures var run := [Write(0), Provision(0), Pend(0), Keep(0), Ask(0), Check(0)] + LateDelete(0);
      var h := RunStorage(Start(ttl), run);
      0 in h.objects && h.objects[0].mail.HasMessage? && !h.objects[0].file
  {
    var start := [Write(0), Provision(0), Pend(0), Keep(0), Ask(0), Check(0)];
    GivesUp(ttl);
    LateCommitLosesTheFile(RunStorage(Start(ttl), start), 0);
    RunAppend(Start(ttl), start, LateDelete(0));
  }

  lemma GivesUp(ttl: nat)
    ensures RunStorage(Start(ttl), [Write(0), Provision(0), Pend(0), Keep(0), Ask(0), Check(0)])
      == Storage(0, ttl,
                 map[0 := Object(true, 0, PROVISION, Forever, Some(GRACE), None, false, false, Kept, GaveUp, true,
                                 NoMessage)])
  {
    SixSteps(Start(ttl), [Write(0), Provision(0), Pend(0), Keep(0), Ask(0), Check(0)]);
  }

  lemma SixSteps(h: Storage, run: seq<StorageStep>)
    requires |run| == 6
    ensures RunStorage(h, run) ==
      StepStorage(StepStorage(StepStorage(StepStorage(StepStorage(StepStorage(h, run[0]), run[1]), run[2]), run[3]),
                              run[4]), run[5])
  {
    var h1 := StepStorage(h, run[0]);
    var h2 := StepStorage(h1, run[1]);
    var h3 := StepStorage(h2, run[2]);
    var h4 := StepStorage(h3, run[3]);
    var h5 := StepStorage(h4, run[4]);
    var h6 := StepStorage(h5, run[5]);
    assert run[1..][1..] == run[2..] && run[2..][1..] == run[3..] && run[3..][1..] == run[4..]
      && run[4..][1..] == run[5..];
    assert run[5..][1..] == [];
    assert RunStorage(h5, run[5..]) == h6;
    assert RunStorage(h3, run[3..]) == RunStorage(h4, run[4..]) == RunStorage(h5, run[5..]);
    assert RunStorage(h1, run[1..]) == RunStorage(h2, run[2..]) == RunStorage(h3, run[3..]);
  }

  lemma {:induction false} RunAppend(h: Storage, xs: seq<StorageStep>, ys: seq<StorageStep>)
    ensures RunStorage(h, xs + ys) == RunStorage(RunStorage(h, xs), ys)
    decreases |xs|
  {
    if xs == [] {
      assert xs + ys == ys;
    } else {
      assert (xs + ys)[1..] == xs[1..] + ys;
      RunAppend(StepStorage(h, xs[0]), xs[1..], ys);
    }
  }

  // ---------- The slow upload ----------

  /** The rest of an upload from this step on, and the request and commit that follow it. */
  function Onward(x: StorageStep, k: ObjectKey): seq<StorageStep> {
    match x
    case Provision(_) => [Provision(k)] + ([Pend(k)] + [Keep(k), Ask(k), Commit(k)])
    case Pend(_) => [Pend(k)] + [Keep(k), Ask(k), Commit(k)]
    case _ => [Keep(k), Ask(k), Commit(k)]
  }

  /** The upload is about to take this step, and its object can still be committed. */
  predicate Uploads(o: Object, x: StorageStep) {
    match x
    case Provision(_) => o.upload.Written?
    case Pend(_) => o.upload.Provisioned?
    case Keep(_) => o.upload.Pended? && o.pending.Some?
    case _ => false
  }

  function Sweeps(k: ObjectKey): seq<StorageStep> {
    [ReadExpired(k), UnlinkExpired(k)]
  }

  lemma TwoSteps(h: Storage, run: seq<StorageStep>)
    requires |run| == 2
    ensures RunStorage(h, run) == StepStorage(StepStorage(h, run[0]), run[1])
  {
    assert run[1..][1..] == [];
    assert RunStorage(StepStorage(h, run[0]), run[1..]) == StepStorage(StepStorage(h, run[0]), run[1]);
  }

  /** Once a step is late, the sweep may take the file. */
  lemma LateIsSwept(h: Storage, k: ObjectKey, x: StorageStep)
    requires k in h.objects && ObjectOk(h.objects[k], h.now, h.ttl) && Uploads(h.objects[k], x)
    requires !Timely(h.objects[k], x, h.now, h.ttl)
    ensures k in RunStorage(h, Sweeps(k)).objects && !RunStorage(h, Sweeps(k)).objects[k].file
    ensures var o, o' := h.objects[k], RunStorage(h, Sweeps(k)).objects[k];
      && o'.upload == o.upload && o'.pending == o.pending && o'.producer == o.producer && o'.inFlight == o.inFlight
  {
    TwoSteps(h, Sweeps(k));
    var o := h.objects[k];
    assert o.file ==> IsExpired(o, h.now, h.ttl);
    assert StepStorage(h, ReadExpired(k)).objects[k] == Act(o, ReadExpired(k), h.now, h.ttl);
  }

  /** The upload goes on regardless, and so do the request and the script. */
  lemma UploadGoesOn(h: Storage, k: ObjectKey, x: StorageStep)
    requires k in h.objects && Uploads(h.objects[k], x) && !h.objects[k].file
    requires h.objects[k].producer.Waiting? && !h.objects[k].inFlight
    ensures var h' := RunStorage(h, Onward(x, k));
      k in h'.objects && h'.objects[k].mail.HasMessage? && !h'.objects[k].file
    decreases if x.Provision? then 2 else if x.Pend? then 1 else 0
  {
    if x.Keep? {
      ThreeSteps(h, Onward(x, k));
    } else {
      var next := if x.Provision? then Pend(k) else Keep(k);
      var y := if x.Provision? then Provision(k) else Pend(k);
      var h1 := StepStorage(h, y);
      assert h1.objects[k] == Act(h.objects[k], y, h.now, h.ttl);
      UploadGoesOn(h1, k, next);
      RunAppend(h, [y], Onward(next, k));
      assert RunStorage(h, [y]) == h1 by { assert [y][1..] == []; }
    }
  }

  /** The deadline of every upload step is needed: wherever one is late, a task can end up without its file. */
  lemma SlowUploadLosesTheFile(h: Storage, k: ObjectKey, x: StorageStep)
    requires k in h.objects && ObjectOk(h.objects[k], h.now, h.ttl) && Uploads(h.objects[k], x)
    requires !Timely(h.objects[k], x, h.now, h.ttl)
    ensures var h' := RunStorage(h, Sweeps(k) + Onward(x, k));
      k in h'.objects && h'.objects[k].mail.HasMessage? && !h'.objects[k].file
  {
    LateIsSwept(h, k, x);
    UploadGoesOn(RunStorage(h, Sweeps(k)), k, x);
    RunAppend(h, Sweeps(k), Onward(x, k));
  }

  /** Such a state is reached by an upload that stalls after its pending entry is written. */
  lemma SlowUploadHappens(ttl: nat)
    requires ttl > 0
    ensures var run := [Write(0), Provision(0), Pend(0), Pass(PROVISION)] + (Sweeps(0) + Onward(Keep(0), 0));
      var h := RunStorage(Start(ttl), run);
      0 in h.objects && h.objects[0].mail.HasMessage? && !h.objects[0].file
  {
    var start := [Write(0), Provision(0), Pend(0), Pass(PROVISION)];
    Stalls(ttl);
    SlowUploadLosesTheFile(RunStorage(Start(ttl), start), 0, Keep(0));
    RunAppend(Start(ttl), start, Sweeps(0) + Onward(Keep(0), 0));
  }

  lemma Stalls(ttl: nat)
    ensures RunStorage(Start(ttl), [Write(0), Provision(0), Pend(0), Pass(PROVISION)])
      == Storage(PROVISION, ttl,
                 map[0 := Object(true, 0, PROVISION, Until(PROVISION), Some(GRACE), None, false, false, Pended, Waiting,
                                 false, NoMessage)])
  {
    var run := [Write(0), Provision(0), Pend(0), Pass(PROVISION)];
    TwoSteps(Start(ttl), [Write(0), Provision(0)]);
    TwoSteps(RunStorage(Start(ttl), [Write(0), Provision(0)]), [Pend(0), Pass(PROVISION)]);
    RunAppend(Start(ttl), [Write(0), Provision(0)], [Pend(0), Pass(PROVISION)]);
    assert run == [Write(0), Provision(0)] + [Pend(0), Pass(PROVISION)];
  }
}
