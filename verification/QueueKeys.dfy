/**
 The keys of a queue are built from its name.  The registration scripts refuse a name whose state
 paths overlap those of a registered queue; this module proves that the test is exact, and that the
 queues of a registry grown through it never share a key.
 */
module QueueKeys {

  const SEGMENTS := ["processing", "retry", "dlq", "delay", "worker", "dedup", "supersede", "lease", "maintenance",
                     "__qtask_dummy__"]

  predicate StartsWith(s: string, prefix: string) {
    |prefix| <= |s| && s[..|prefix|] == prefix
  }

  /** `child` is `parent:segment` or lies below it. */
  predicate UnderSegment(parent: string, segment: string, child: string) {
    var prefix := parent + ":" + segment;
    child == prefix || StartsWith(child, prefix + ":")
  }

  predicate Overlaps(parent: string, child: string) {
    exists i :: 0 <= i < |SEGMENTS| && UnderSegment(parent, SEGMENTS[i], child)
  }

  /** The keys a queue may use: its ready list, and everything at or below one of its state paths. */
  predicate Owns(name: string, key: string) {
    key == name || Overlaps(name, key)
  }

  /** state_path_overlaps. */
  method StatePathOverlaps(parent: string, child: string) returns (overlaps: bool)
    ensures overlaps == Overlaps(parent, child)
  {
    for i := 0 to |SEGMENTS|
      invariant forall j :: 0 <= j < i ==> !UnderSegment(parent, SEGMENTS[j], child)
    {
      var prefix := parent + ":" + SEGMENTS[i];
      if child == prefix || (|child| >= |prefix| + 1 && child[..|prefix| + 1] == prefix + ":") { return true; }
    }
    return false;
  }

  lemma SegmentsHaveNoColon(i: nat, k: nat)
    requires i < |SEGMENTS| && k < |SEGMENTS[i]|
    ensures SEGMENTS[i][k] != ':'
  {
    assert ':' !in "processing" && ':' !in "retry" && ':' !in "dlq" && ':' !in "delay" && ':' !in "worker";
    assert ':' !in "dedup" && ':' !in "supersede" && ':' !in "lease" && ':' !in "maintenance"
      && ':' !in "__qtask_dummy__";
    assert SEGMENTS[i] in SEGMENTS;
  }

  lemma KeyStartsWithName(q: string, segment: string, key: string)
    requires UnderSegment(q, segment, key)
    ensures |key| > |q| && key[..|q|] == q && key[|q|] == ':'
  {
    var prefix := q + ":" + segment;
    assert key[..|prefix|] == prefix;
    assert prefix[..|q|] == q && prefix[|q|] == ':';
  }

  /** A name that goes on past the segment of a key goes on with a colon. */
  lemma NameGoesOn(prefix: string, q: string, key: string)
    requires |prefix| < |q| < |key| && key[..|q|] == q && key != prefix && StartsWith(key, prefix + ":")
    ensures StartsWith(q, prefix + ":")
  {
    var longer := prefix + ":";
    assert q[..|longer|] == key[..|q|][..|longer|] == key[..|longer|];
  }

  /** Two names of different length that both lead to one key: the longer is at or below the shorter's segment. */
  lemma LongerIsUnderShorter(p: string, i: nat, q: string, j: nat, key: string)
    requires i < |SEGMENTS| && j < |SEGMENTS| && |p| < |q|
    requires UnderSegment(p, SEGMENTS[i], key) && UnderSegment(q, SEGMENTS[j], key)
    ensures UnderSegment(p, SEGMENTS[i], q)
  {
    var prefix := p + ":" + SEGMENTS[i];
    KeyStartsWithName(q, SEGMENTS[j], key);
    assert key[..|prefix|] == prefix;
    if |q| < |prefix| {
      assert key[|q|] == key[..|prefix|][|q|] == SEGMENTS[i][|q| - |p| - 1];
      SegmentsHaveNoColon(i, |q| - |p| - 1);
    } else if |q| > |prefix| {
      NameGoesOn(prefix, q, key);
    } else {
      assert q == prefix;
    }
  }

  lemma SameLengthSameName(p: string, i: nat, q: string, j: nat, key: string)
    requires i < |SEGMENTS| && j < |SEGMENTS| && |p| == |q|
    requires UnderSegment(p, SEGMENTS[i], key) && UnderSegment(q, SEGMENTS[j], key)
    ensures p == q
  {
    assert key[..|p|] == (p + ":" + SEGMENTS[i])[..|p|] == p;
    assert key[..|q|] == (q + ":" + SEGMENTS[j])[..|q|] == q;
  }

  lemma NoCommonKey(p: string, q: string, key: string)
    requires p != q && !Overlaps(p, q) && !Overlaps(q, p)
    ensures !(Owns(p, key) && Owns(q, key))
  {
    if Overlaps(p, key) && Overlaps(q, key) {
      var i :| 0 <= i < |SEGMENTS| && UnderSegment(p, SEGMENTS[i], key);
      var j :| 0 <= j < |SEGMENTS| && UnderSegment(q, SEGMENTS[j], key);
      if |p| < |q| { LongerIsUnderShorter(p, i, q, j, key); }
      else if |q| < |p| { LongerIsUnderShorter(q, j, p, i, key); }
      else { SameLengthSameName(p, i, q, j, key); }
    }
  }

  /** Two queues share a key exactly when they are the same or one lies on a state path of the other. */
  lemma ShareAKeyIffOverlap(p: string, q: string)
    ensures (exists key :: Owns(p, key) && Owns(q, key)) <==> p == q || Overlaps(p, q) || Overlaps(q, p)
  {
    if p == q || Overlaps(q, p) {
      assert Owns(p, p) && Owns(q, p);
    } else if Overlaps(p, q) {
      assert Owns(p, q) && Owns(q, q);
    } else {
      forall key ensures !(Owns(p, key) && Owns(q, key)) { NoCommonKey(p, q, key); }
    }
  }

  // ---------- The registry ----------

  predicate Conflicts(registry: seq<string>, candidate: string) {
    exists e :: e in registry && e != candidate && (Overlaps(e, candidate) || Overlaps(candidate, e))
  }

  /** assert_queue_namespace, and the registration that follows it when it passes. */
  method Register(registry: seq<string>, candidate: string) returns (ok: bool, registry': seq<string>)
    ensures ok == !Conflicts(registry, candidate)
    ensures registry' == Registered(registry, candidate)
  {
    for i := 0 to |registry|
      invariant forall j :: 0 <= j < i ==>
        registry[j] == candidate || (!Overlaps(registry[j], candidate) && !Overlaps(candidate, registry[j]))
    {
      if registry[i] != candidate {
        var below := StatePathOverlaps(registry[i], candidate);
        var above := StatePathOverlaps(candidate, registry[i]);
        if below || above { return false, registry; }
      }
    }
    ok := true;
    registry' := if candidate in registry then registry else registry + [candidate];
  }

  /** The registry after a guarded registration, refused or not; ZADD keeps members unique. */
  function Registered(registry: seq<string>, candidate: string): seq<string> {
    if Conflicts(registry, candidate) || candidate in registry then registry else registry + [candidate]
  }

  function RegisterAll(registry: seq<string>, candidates: seq<string>): seq<string>
    decreases |candidates|
  {
    if candidates == [] then registry else RegisterAll(Registered(registry, candidates[0]), candidates[1..])
  }

  predicate Separate(registry: seq<string>) {
    forall a, b :: a in registry && b in registry && a != b ==> !Overlaps(a, b)
  }

  lemma {:induction false} RegistryStaysSeparate(registry: seq<string>, candidates: seq<string>)
    requires Separate(registry)
    ensures Separate(RegisterAll(registry, candidates))
    decreases |candidates|
  {
    if candidates != [] { RegistryStaysSeparate(Registered(registry, candidates[0]), candidates[1..]); }
  }

  /** No two registered queues ever share a key, whatever names were offered. */
  lemma RegisteredQueuesShareNothing(candidates: seq<string>, a: string, b: string, key: string)
    requires a in RegisterAll([], candidates) && b in RegisterAll([], candidates) && a != b
    ensures !(Owns(a, key) && Owns(b, key))
  {
    RegistryStaysSeparate([], candidates);
    NoCommonKey(a, b, key);
  }

  // ---------- The keys themselves ----------

  /** What a queue and its workers keep under the queue's name; hashed parts are opaque texts. */
  datatype QueueKey =
    | ReadyList
    | SharedProcessing
    | ProcessingOf(worker: string)
    | RetryList
    | DeadLetters
    | Delayed
    | OldOwner(identity: string)
    | VersionRegister(supersedeKey: string)
    | Lease(concurrencyKey: string)
    | Placeholder(kind: string, id: string)
    | Heartbeat(worker: string)
    | Leader

  function Below(segment: string, rest: string): string { (":" + segment + ":") + rest }

  /** What a key has after the queue's name. */
  function Tail(k: QueueKey): string {
    match k
    case ReadyList => ""
    case SharedProcessing => ":processing"
    case ProcessingOf(worker) => Below("processing", worker)
    case RetryList => ":retry"
    case DeadLetters => ":dlq"
    case Delayed => ":delay"
    case OldOwner(identity) => Below("dedup", identity)
    case VersionRegister(key) => Below("supersede", key)
    case Lease(key) => Below("lease", key)
    case Placeholder(kind, id) => Below("__qtask_dummy__", kind + ":" + id)
    case Heartbeat(worker) => Below("worker", worker)
    case Leader => Below("maintenance", "leader")
  }

  function KeyText(base: string, k: QueueKey): string { base + Tail(k) }

  function SegmentOf(k: QueueKey): nat
    requires !k.ReadyList?
    ensures SegmentOf(k) < |SEGMENTS|
  {
    match k
    case SharedProcessing => 0
    case ProcessingOf(_) => 0
    case RetryList => 1
    case DeadLetters => 2
    case Delayed => 3
    case Heartbeat(_) => 4
    case OldOwner(_) => 5
    case VersionRegister(_) => 6
    case Lease(_) => 7
    case Leader => 8
    case Placeholder(_, _) => 9
  }

  /** What follows the segment and its colon. */
  function RestOf(k: QueueKey): string {
    match k
    case ProcessingOf(worker) => worker
    case OldOwner(identity) => identity
    case VersionRegister(key) => key
    case Lease(key) => key
    case Placeholder(kind, id) => kind + ":" + id
    case Heartbeat(worker) => worker
    case Leader => "leader"
    case _ => ""
  }

  predicate IsBare(k: QueueKey) { k.SharedProcessing? || k.RetryList? || k.DeadLetters? || k.Delayed? }

  lemma BareTails(k: QueueKey)
    requires IsBare(k)
    ensures Tail(k) == ":" + SEGMENTS[SegmentOf(k)]
  {
  }

  lemma LongTails(k: QueueKey)
    requires !IsBare(k) && !k.ReadyList?
    ensures Tail(k) == Below(SEGMENTS[SegmentOf(k)], RestOf(k))
  {
  }

  lemma AtSegment(base: string, segment: string, rest: string)
    ensures UnderSegment(base, segment, base + (":" + segment))
    ensures UnderSegment(base, segment, base + Below(segment, rest))
  {
    var prefix := base + ":" + segment;
    assert base + (":" + segment) == prefix;
    assert (base + Below(segment, rest))[..|prefix| + 1] == prefix + ":";
  }

  /** Every key of a queue is its ready list or lies on one of its state paths. */
  lemma KeyIsUnderSegment(base: string, k: QueueKey)
    requires !k.ReadyList?
    ensures UnderSegment(base, SEGMENTS[SegmentOf(k)], KeyText(base, k)) && Overlaps(base, KeyText(base, k))
  {
    AtSegment(base, SEGMENTS[SegmentOf(k)], RestOf(k));
    if IsBare(k) { BareTails(k); } else { LongTails(k); }
  }

  /** No path is reserved without need: each is that of some key. */
  lemma EverySegmentIsUsed(base: string, i: nat)
    requires i < |SEGMENTS|
    ensures exists k: QueueKey :: !k.ReadyList? && SegmentOf(k) == i
  {
    var keys := [SharedProcessing, RetryList, DeadLetters, Delayed, Heartbeat(""), OldOwner(""), VersionRegister(""),
                 Lease(""), Leader, Placeholder("", "")];
    assert SegmentOf(keys[i]) == i;
  }

  /** A name that is a key of a registered queue is refused. */
  lemma KeyIsNoName(registry: seq<string>, base: string, k: QueueKey)
    requires base in registry && !k.ReadyList?
    ensures Conflicts(registry, KeyText(base, k)) && Registered(registry, KeyText(base, k)) == registry
  {
    KeyIsUnderSegment(base, k);
    assert |KeyText(base, k)| > |base|;
  }

  /** The keys of registered queues differ, whatever they keep under them. */
  lemma RegisteredKeysDiffer(candidates: seq<string>, a: string, k: QueueKey, b: string, j: QueueKey)
    requires a in RegisterAll([], candidates) && b in RegisterAll([], candidates) && a != b
    ensures KeyText(a, k) != KeyText(b, j)
  {
    if !k.ReadyList? { KeyIsUnderSegment(a, k); }
    if !j.ReadyList? { KeyIsUnderSegment(b, j); }
    RegisteredQueuesShareNothing(candidates, a, b, KeyText(a, k));
  }

  lemma SegmentsDiffer(i: nat, j: nat, a: string, b: string)
    requires i < |SEGMENTS| && j < |SEGMENTS|
    requires ":" + SEGMENTS[i] <= a && ":" + SEGMENTS[j] <= b && a == b
    ensures i == j
  {
    assert forall n | 0 <= n < |SEGMENTS| :: |SEGMENTS[n]| >= 3;
    assert a[1] == SEGMENTS[i][0] == SEGMENTS[j][0];
    assert a[2] == SEGMENTS[i][1] == SEGMENTS[j][1];
    assert a[3] == SEGMENTS[i][2] == SEGMENTS[j][2];
  }

  lemma SameSegment(k: QueueKey, j: QueueKey)
    requires Tail(k) == Tail(j) && !k.ReadyList? && !j.ReadyList?
    ensures SegmentOf(k) == SegmentOf(j)
  {
    if IsBare(k) { BareTails(k); } else { LongTails(k); }
    if IsBare(j) { BareTails(j); } else { LongTails(j); }
    SegmentsDiffer(SegmentOf(k), SegmentOf(j), Tail(k), Tail(j));
  }

  lemma SameRest(segment: string, a: string, b: string)
    requires Below(segment, a) == Below(segment, b)
    ensures a == b
  {
    assert a == Below(segment, a)[|segment| + 2..] == Below(segment, b)[|segment| + 2..] == b;
  }

  lemma TailsDiffer(k: QueueKey, j: QueueKey)
    requires Tail(k) == Tail(j)
    ensures k == j || (k.Placeholder? && j.Placeholder?)
  {
    if !k.ReadyList? && !j.ReadyList? {
      SameSegment(k, j);
      if !IsBare(k) && !IsBare(j) {
        LongTails(k);
        LongTails(j);
        SameRest(SEGMENTS[SegmentOf(k)], RestOf(k), RestOf(j));
      }
    }
  }

  /** Within a queue, what is kept under different kinds or names is kept apart. */
  lemma KeysOfAQueueDiffer(base: string, k: QueueKey, j: QueueKey)
    requires KeyText(base, k) == KeyText(base, j)
    ensures k == j || (k.Placeholder? && j.Placeholder?)
  {
    assert Tail(k) == KeyText(base, k)[|base|..] == KeyText(base, j)[|base|..] == Tail(j);
    TailsDiffer(k, j);
  }

  // ---------- Keys that are not under a queue's name ----------

  /** What the library keeps under its own prefix: indexes for each queue, task records, owners, storage sets. */
  datatype ServiceKey =
    | Queues
    | Workers(base: string)
    | ProcessingLists(base: string)
    | Metrics(base: string)
    | Deadlines(base: string)
    | History(base: string)
    | TaskRecord(id: string)
    | Owner(rest: string)
    | Payloads(rest: string)

  function ServiceTail(i: ServiceKey): string {
    match i
    case Queues => ":queues"
    case Workers(base) => Below("workers", base)
    case ProcessingLists(base) => Below("processing", base)
    case Metrics(base) => Below("metrics", base)
    case Deadlines(base) => Below("deadline", base)
    case History(base) => Below("hist", base)
    case TaskRecord(id) => Below("task", id)
    case Owner(rest) => Below("owner", rest)
    case Payloads(rest) => Below("storage", rest)
  }

  function ServiceText(i: ServiceKey): string { "qtask" + ServiceTail(i) }

  /** Of what the constructor asks of a name, what matters here: it is not under the prefix of the library. */
  predicate IsName(base: string) { base != "" && !StartsWith(base, "qtask:") }

  lemma WhereTheNameEnds(base: string, rest: string, tail: string)
    requires base + rest == "qtask" + tail && tail != "" && tail[0] == ':'
    ensures |base| >= 6 ==> StartsWith(base, "qtask:")
    ensures |base| < 5 ==> rest != "" && rest[0] != ':'
    ensures |base| == 5 ==> base == "qtask" && rest == tail
  {
    var text := base + rest;
    assert text[..6] == "qtask" + tail[..1] == "qtask:";
    assert text[..|base|] == base && text[|base|..] == rest;
    assert |base| >= 6 ==> base[..6] == text[..6];
    assert |base| < 5 ==> rest[0] == text[|base|] == "qtask"[|base|];
    assert text[..5] == "qtask" && text[5..] == tail;
  }

  lemma OnlyTheBarePrefixReaches(base: string, rest: string, tail: string)
    requires IsName(base) && base + rest == "qtask" + tail && tail != "" && tail[0] == ':'
    requires rest == "" || rest[0] == ':'
    ensures base == "qtask" && rest == tail
  {
    WhereTheNameEnds(base, rest, tail);
  }

  lemma SegmentOfService(i: ServiceKey, k: QueueKey)
    requires !k.ReadyList? && Tail(k) == ServiceTail(i)
    ensures i.ProcessingLists? && k == ProcessingOf(i.base)
  {
    var segment := ":" + SEGMENTS[SegmentOf(k)];
    if IsBare(k) { BareTails(k); } else { LongTails(k); }
    assert segment <= Tail(k);
    ServiceWord(i, SegmentOf(k));
    if k.ProcessingOf? {
      assert k.worker == Tail(k)[12..] == ServiceTail(i)[12..] == i.base;
    }
  }

  lemma ServiceWord(i: ServiceKey, n: nat)
    requires n < |SEGMENTS| && ":" + SEGMENTS[n] <= ServiceTail(i)
    requires ":" + SEGMENTS[n] == ServiceTail(i) || ":" + SEGMENTS[n] + ":" <= ServiceTail(i)
    ensures i.ProcessingLists? && n == 0
  {
    var prefix, tail := ":" + SEGMENTS[n], ServiceTail(i);
    assert |SEGMENTS[n]| >= 3 && |tail| >= 6;
    assert tail[1] == SEGMENTS[n][0] && tail[2] == SEGMENTS[n][1] && tail[3] == SEGMENTS[n][2];
    assert |tail| > |prefix| ==> tail[|prefix|] == ':';
  }

  /**
   A key of a queue is a key of the library itself in exactly one case: a queue that has just the prefix as
   its name, and a worker of it that is named like another queue.
   */
  lemma ReachesIndexIff(base: string, k: QueueKey, i: ServiceKey)
    requires IsName(base)
    ensures KeyText(base, k) == ServiceText(i)
       <==> base == "qtask" && i.ProcessingLists? && k == ProcessingOf(i.base)
  {
    if KeyText(base, k) == ServiceText(i) {
      OnlyTheBarePrefixReaches(base, Tail(k), ServiceTail(i));
      SegmentOfService(i, k);
    }
  }
}
