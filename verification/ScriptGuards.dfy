/**
 All or nothing: the checks that `_guard_key_types` puts before a script make sure that once the
 script has written anything, none of its later commands can fail.  A script is described by the
 commands it can issue, in order, with its branches; `Safe` is a check over that description, and its
 soundness is proved for every store, every branch and every outcome of the commands.
 */
module ScriptGuards {
  import opened Prelude
  import opened VersionOrder

  // ---------- Counters ----------

  const INT64_MIN: int := -0x8000_0000_0000_0000
  const INT64_MAX: int := 0x7fff_ffff_ffff_ffff
  const LARGEST: int := 9223372036854775806
  const LARGEST_TEXT := "9223372036854775806"

  /** assert_counter for an integer counter: the pattern, then a bound on the text of the digits. */
  predicate CounterAccepted(raw: string) {
    var digits := if raw != [] && raw[0] == '-' then raw[1..] else raw;
    && digits != [] && IsDigits(digits)
    && !(|digits| > 19 || (|digits| == 19 && BEFORE(LARGEST_TEXT, digits)))
  }

  lemma LastDigit(n: nat, digit: nat)
    requires digit < 10
    ensures (10 * n + digit) / 10 == n && (10 * n + digit) % 10 == digit
  {
  }

  lemma AppendDigit(n: nat, digit: nat)
    requires n >= 1 && digit < 10
    ensures Decimal(10 * n + digit) == Decimal(n) + [DIGITS[digit]]
  {
    LastDigit(n, digit);
  }

  /** One more digit of a text known up to its first `k` characters. */
  lemma NextDigit(n: nat, digit: nat, text: string, k: nat) returns (m: nat)
    requires n >= 1 && digit < 10 && k < |text| && Decimal(n) == text[..k] && text[k] == DIGITS[digit]
    ensures m == 10 * n + digit && Decimal(m) == text[..k + 1]
  {
    m := 10 * n + digit;
    AppendDigit(n, digit);
    assert text[..k + 1] == text[..k] + [text[k]];
  }

  lemma NextThree(n: nat, a: nat, b: nat, c: nat, text: string, k: nat) returns (m: nat)
    requires n >= 1 && a < 10 && b < 10 && c < 10 && k + 2 < |text| && Decimal(n) == text[..k]
    requires text[k] == DIGITS[a] && text[k + 1] == DIGITS[b] && text[k + 2] == DIGITS[c]
    ensures m == 1000 * n + 100 * a + 10 * b + c && Decimal(m) == text[..k + 3]
  {
    m := NextDigit(n, a, text, k);
    m := NextDigit(m, b, text, k + 1);
    m := NextDigit(m, c, text, k + 2);
  }

  lemma LargestFront() returns (n: nat)
    ensures n == 9223372036 && Decimal(n) == LARGEST_TEXT[..10]
  {
    n := NextThree(9, 2, 2, 3, LARGEST_TEXT, 1);
    n := NextThree(n, 3, 7, 2, LARGEST_TEXT, 4);
    n := NextThree(n, 0, 3, 6, LARGEST_TEXT, 7);
  }

  lemma LargestText() returns (n: nat)
    ensures n == LARGEST && Decimal(n) == LARGEST_TEXT && |LARGEST_TEXT| == 19
  {
    n := LargestFront();
    n := NextThree(n, 8, 5, 4, LARGEST_TEXT, 10);
    n := NextThree(n, 7, 7, 5, LARGEST_TEXT, 13);
    n := NextThree(n, 8, 0, 6, LARGEST_TEXT, 16);
    assert LARGEST_TEXT[..19] == LARGEST_TEXT;
  }

  lemma AtMostLargest(n: nat)
    ensures (|Decimal(n)| < 19 || (|Decimal(n)| == 19 && !BEFORE(LARGEST_TEXT, Decimal(n)))) <==> n <= LARGEST
  {
    var largest := LargestText();
    DecimalIsDigits(largest);
    DecimalIsDigits(n);
    assert IsTextOrder(BEFORE);
    if |Decimal(n)| < 19 { ShorterIsSmaller(n, largest); }
    else if |Decimal(n)| > 19 { ShorterIsSmaller(largest, n); }
    else { SameLengthOrder(largest, n); }
  }

  /** On counters in canonical decimal text, the text check is exactly a bound on the number. */
  lemma AcceptedIffBounded(v: int)
    ensures CounterAccepted(IntText(v)) <==> -LARGEST <= v <= LARGEST
  {
    var n: nat := if v < 0 then -v else v;
    DecimalIsDigits(n);
    AtMostLargest(n);
    assert v < 0 ==> IntText(v)[0] == '-' && IntText(v)[1..] == Decimal(n);
  }

  /** An accepted counter has room for one step either way, the only steps the scripts take. */
  lemma AcceptedHasRoom(v: int, step: int)
    requires CounterAccepted(IntText(v)) && -1 <= step <= 1
    ensures INT64_MIN <= v + step <= INT64_MAX
  {
    AcceptedIffBounded(v);
  }

  // ---------- Commands and stores ----------

  datatype Kind = KString | KList | KHash | KZset

  /** What assert_key_type lets a key be, if it exists. */
  datatype Allowed = Only(kind: Kind) | OneOf(first: Kind, second: Kind) | Anything

  /** A key by its number in KEYS, with the kinds the guard allows it. */
  datatype Name = Name(number: nat, allowed: Allowed)

  datatype Counter =
    | Accepted | Override | DuplicateActive | DuplicateRetained
    | ReplayAccepted | ReplayDuplicateActive | ReplayDuplicateRetained
    | Started | StartedNth | WaitCount | WaitSeconds | Deferred | Superseded | DeadlineMissed
    | OutcomeCompleted | OutcomeFailed | OutcomeSkipped | OutcomeCancelled
    | RetryWaiting | RetryScheduled | RetryCode | FailureCode | Purged

  /**
   What a script can ask of the store.  A probe is a read that always runs and whose failure ends the
   script; the other commands depend on the branch taken.  DEL, EXPIRE and their like never fail.
   */
  datatype Cmd =
    | Probe(kind: Kind, key: Name)
    | Read(kind: Kind, key: Name)
    | Write(kind: Kind, key: Name)
    | Incr(key: Name, counter: Counter, amount: int)
    | IncrFloat(key: Name, counter: Counter)
    | Touch(key: Name)

  /** The commands of a script in the order of its text; a run executes some of them in that order. */
  datatype Script = End | Then(cmd: Cmd, rest: Script)

  /** The counters a guard lists: those it checks as integers and those it checks as floating numbers. */
  datatype Counters = Counters(whole: set<Counter>, floating: set<Counter>)

  /**
   The kinds of the keys that exist, the integer counters of the metrics hash, and its floating ones:
   None where the text is not a finite number.
   */
  datatype Db = Db(kinds: map<Name, Kind>, counters: map<Counter, int>, floats: map<Counter, Option<real>>)

  function CounterOf(db: Db, c: Counter): int {
    if c in db.counters then db.counters[c] else 0
  }

  function FloatOf(db: Db, c: Counter): Option<real> {
    if c in db.floats then db.floats[c] else Some(0.0)
  }

  predicate HasOtherKind(db: Db, key: Name, kind: Kind) {
    key in db.kinds && db.kinds[key] != kind
  }

  /** WRONGTYPE, an increment that leaves the 64-bit range, or a floating one of what is not a finite number. */
  predicate Fails(db: Db, c: Cmd) {
    match c
    case Probe(kind, key) => HasOtherKind(db, key, kind)
    case Read(kind, key) => HasOtherKind(db, key, kind)
    case Write(kind, key) => HasOtherKind(db, key, kind)
    case Incr(key, counter, amount) =>
      HasOtherKind(db, key, KHash) || !(INT64_MIN <= CounterOf(db, counter) + amount <= INT64_MAX)
    case IncrFloat(key, counter) => HasOtherKind(db, key, KHash) || FloatOf(db, counter).None?
    case Touch(_) => false
  }

  /**
   A write leaves the key with its kind, or gone once it is empty; `stays` says which. A floating
   increment adds `waited`.
   */
  function Effect(db: Db, c: Cmd, stays: bool, waited: real): Db {
    match c
    case Write(kind, key) => db.(kinds := if stays then db.kinds[key := kind] else db.kinds - {key})
    case Incr(key, counter, amount) =>
      db.(kinds := db.kinds[key := KHash], counters := db.counters[counter := CounterOf(db, counter) + amount])
    case IncrFloat(key, counter) =>
      db.(kinds := db.kinds[key := KHash],
          floats := db.floats[counter := if FloatOf(db, counter).Some? then Some(FloatOf(db, counter).value + waited)
            else None])
    case Touch(key) => db.(kinds := if stays then db.kinds else db.kinds - {key})
    case _ => db
  }

  predicate Writes(c: Cmd) { c.Write? || c.Incr? || c.IncrFloat? || c.Touch? }

  datatype Result = Finished(db: Db) | Raised(partial: bool)

  /**
   A run: `taken` says which commands the branches reach, `stays` what their writes leave, `waited`
   how long the task has waited.
   */
  function Exec(db: Db, script: Script, taken: nat -> bool, stays: nat -> bool, waited: real, i: nat,
                wrote: bool): Result
    decreases script
  {
    match script
    case End => Finished(db)
    case Then(c, rest) =>
      if !c.Probe? && !taken(i) then Exec(db, rest, taken, stays, waited, i + 1, wrote)
      else if Fails(db, c) then Raised(wrote)
      else Exec(Effect(db, c, stays(i), waited), rest, taken, stays, waited, i + 1, wrote || Writes(c))
  }

  // ---------- The check ----------

  predicate Allows(a: Allowed, kind: Kind) {
    match a
    case Only(k) => kind == k
    case OneOf(j, k) => kind == j || kind == k
    case Anything => true
  }

  /** The guard has passed: every key has an allowed kind, and every listed counter is accepted. */
  predicate Passes(counters: Counters, db: Db) {
    && (forall k <- db.kinds :: Allows(k.allowed, db.kinds[k]))
    && (forall c <- counters.whole :: c in db.counters ==> CounterAccepted(IntText(db.counters[c])))
    && (forall c <- counters.floating :: FloatOf(db, c).Some?)
  }

  predicate Known(key: Name, kind: Kind, probed: Option<Cmd>) {
    key.allowed == Only(kind) || probed == Some(Probe(kind, key))
  }

  /**
   Once something has been written, every command is on a key of known kind, and every increment is
   of a listed counter that has not been used before.  At most one probe is tracked.
   */
  predicate Safe(counters: Counters, script: Script, probed: Option<Cmd>, used: set<Counter>, wrote: bool)
    decreases script
  {
    match script
    case End => true
    case Then(c, rest) =>
      match c
      case Probe(_, key) =>
        !wrote && probed.None? && key.allowed.Anything? && Safe(counters, rest, Some(c), used, false)
      case Read(kind, key) => (wrote ==> Known(key, kind, probed)) && Safe(counters, rest, probed, used, wrote)
      case Write(kind, key) =>
        && Allows(key.allowed, kind) && (wrote ==> Known(key, kind, probed))
        && (probed.Some? && probed.value.key == key ==> probed.value == Probe(kind, key))
        && Safe(counters, rest, probed, used, true)
      case Incr(key, counter, amount) =>
        && key.allowed == Only(KHash) && counter in counters.whole && counter !in used && -1 <= amount <= 1
        && Safe(counters, rest, probed, used + {counter}, true)
      case IncrFloat(key, counter) =>
        key.allowed == Only(KHash) && counter in counters.floating && Safe(counters, rest, probed, used, true)
      case Touch(_) => Safe(counters, rest, probed, used, true)
  }

  predicate Conforms(counters: Counters, db: Db, probed: Option<Cmd>, used: set<Counter>) {
    && (forall k <- db.kinds :: Allows(k.allowed, db.kinds[k]))
    && (probed.Some? ==>
          && probed.value.Probe? && probed.value.key.allowed.Anything?
          && !HasOtherKind(db, probed.value.key, probed.value.kind))
    && (forall c <- counters.whole :: c !in used && c in db.counters ==> CounterAccepted(IntText(db.counters[c])))
    && (forall c <- counters.floating :: FloatOf(db, c).Some?)
  }

  lemma ZeroIsAccepted()
    ensures CounterAccepted(IntText(0))
  {
    AcceptedIffBounded(0);
  }

  lemma StepIsSafe(counters: Counters, db: Db, script: Script, probed: Option<Cmd>, used: set<Counter>, wrote: bool,
                   stays: bool, waited: real)
    requires script.Then? && Conforms(counters, db, probed, used) && Safe(counters, script, probed, used, wrote)
    requires !Fails(db, script.cmd)
    ensures var c := script.cmd;
      Conforms(counters, Effect(db, c, stays, waited), if c.Probe? then Some(c) else probed,
               if c.Incr? then used + {c.counter} else used)
  {
  }

  lemma WrittenCannotFail(counters: Counters, db: Db, script: Script, probed: Option<Cmd>, used: set<Counter>)
    requires script.Then? && Conforms(counters, db, probed, used) && Safe(counters, script, probed, used, true)
    ensures !Fails(db, script.cmd)
  {
    var c := script.cmd;
    if c.Incr? {
      ZeroIsAccepted();
      AcceptedHasRoom(CounterOf(db, c.counter), c.amount);
    }
  }

  /** A script that is safe after more has happened is safe after less. */
  lemma {:induction false} SkipIsSafe(counters: Counters, script: Script, probed: Option<Cmd>, used: set<Counter>,
                                      less: set<Counter>, wrote: bool, wroteLess: bool)
    requires Safe(counters, script, probed, used, wrote) && less <= used && (wroteLess ==> wrote)
    ensures Safe(counters, script, probed, less, wroteLess)
    decreases script
  {
    if script.Then? {
      var c, rest := script.cmd, script.rest;
      match c
      case Probe(_, _) => SkipIsSafe(counters, rest, Some(c), used, less, false, false);
      case Read(_, _) => SkipIsSafe(counters, rest, probed, used, less, wrote, wroteLess);
      case Write(_, _) => SkipIsSafe(counters, rest, probed, used, less, true, true);
      case Incr(_, counter, _) => SkipIsSafe(counters, rest, probed, used + {counter}, less + {counter}, true, true);
      case IncrFloat(_, _) => SkipIsSafe(counters, rest, probed, used, less, true, true);
      case Touch(_) => SkipIsSafe(counters, rest, probed, used, less, true, true);
    }
  }

  /** Whatever branches a safe script takes, it never fails with something already written. */
  lemma {:induction false} SafeNeverStopsHalfway(counters: Counters, db: Db, script: Script, probed: Option<Cmd>,
                                                 used: set<Counter>, taken: nat -> bool, stays: nat -> bool,
                                                 waited: real, i: nat, wrote: bool)
    requires Conforms(counters, db, probed, used) && Safe(counters, script, probed, used, wrote)
    ensures Exec(db, script, taken, stays, waited, i, wrote) != Raised(true)
    decreases script
  {
    if script.Then? {
      var c, rest := script.cmd, script.rest;
      if !c.Probe? && !taken(i) {
        var after := if c.Incr? then used + {c.counter} else used;
        SkipIsSafe(counters, rest, probed, after, used, wrote || Writes(c), wrote);
        SafeNeverStopsHalfway(counters, db, rest, probed, used, taken, stays, waited, i + 1, wrote);
      } else {
        if wrote { WrittenCannotFail(counters, db, script, probed, used); }
        if !Fails(db, c) {
          StepIsSafe(counters, db, script, probed, used, wrote, stays(i), waited);
          SafeNeverStopsHalfway(counters, Effect(db, c, stays(i), waited), rest, if c.Probe? then Some(c) else probed,
                                if c.Incr? then used + {c.counter} else used,
                                taken, stays, waited, i + 1, wrote || Writes(c));
        }
      }
    }
  }

  /** All or nothing: with its guard passed, a script runs to its end or fails before its first write. */
  ghost predicate AllOrNothing(counters: Counters, script: Script) {
    forall db: Db, taken: nat -> bool, stays: nat -> bool, waited: real ::
      Passes(counters, db) ==> Exec(db, script, taken, stays, waited, 0, false) != Raised(true)
  }

  lemma SafeIsAllOrNothing(counters: Counters, script: Script)
    requires Safe(counters, script, None, {}, false)
    ensures AllOrNothing(counters, script)
  {
    forall db: Db, taken: nat -> bool, stays: nat -> bool, waited: real | Passes(counters, db)
      ensures Exec(db, script, taken, stays, waited, 0, false) != Raised(true)
    {
      SafeNeverStopsHalfway(counters, db, script, None, {}, taken, stays, waited, 0, false);
    }
  }

  // ---------- The guarded scripts ----------

  function Lists(n: nat): Name { Name(n, Only(KList)) }
  function Hash(n: nat): Name { Name(n, Only(KHash)) }
  function Zset(n: nat): Name { Name(n, Only(KZset)) }
  function Text(n: nat): Name { Name(n, Only(KString)) }

  /** The gc set of the payload's storage, which the guard checks too, and its pending set, which it does not. */
  function Gc(): Name { Name(100, Only(KZset)) }
  function Pending(): Name { Name(101, Anything) }

  /** finalize_owner; the owner's kind is tested before it is touched. */
  function FinalizeOwner(owner: Name, rest: Script): Script {
    Then(Read(KHash, owner), Then(Write(KHash, owner), Then(Touch(owner), rest)))
  }

  /** The payload's hand-over to the collector. */
  function ReleasePayload(record: Name, rest: Script): Script {
    Then(Read(KHash, record), Then(Write(KZset, Gc()), rest))
  }

  /** The comparison of a lease token and the delete of the lease. */
  function DropLease(lease: Name, rest: Script): Script {
    Then(Read(KString, lease), Then(Touch(lease), rest))
  }

  const COMPLETE_COUNTERS := Counters({OutcomeCompleted}, {})

  /** COMPLETE_TASK. */
  function CompleteScript(): Script {
    Then(Read(KHash, Hash(2)),
         Then(Write(KList, Lists(1)), Then(Write(KHash, Hash(2)), Then(Touch(Hash(2)), Then(Write(KZset, Zset(7)),
    ReleasePayload(Hash(2),
                   FinalizeOwner(Hash(3), DropLease(Text(4), Then(Incr(Hash(5), OutcomeCompleted, 1), End)))))))))
  }

  lemma CompleteIsAllOrNothing()
    ensures AllOrNothing(COMPLETE_COUNTERS, CompleteScript())
  {
    SafeIsAllOrNothing(COMPLETE_COUNTERS, CompleteScript());
  }

  const RETRY_COUNTERS := Counters({OutcomeSkipped, DeadlineMissed, RetryWaiting, RetryScheduled, RetryCode}, {})

  /** RETRY_TASK: first the branch that misses the deadline, then the one that schedules a retry. */
  function RetryScript(): Script {
    Then(Read(KHash, Hash(2)),
         Then(Write(KList, Lists(1)), Then(Write(KHash, Hash(2)), Then(Touch(Hash(2)), Then(Write(KZset, Zset(8)),
    ReleasePayload(Hash(2), FinalizeOwner(Hash(4), DropLease(Text(5),
    Then(Incr(Hash(6), OutcomeSkipped, 1), Then(Incr(Hash(6), DeadlineMissed, 1), RetrySchedule()))))))))))
  }

  function RetrySchedule(): Script {
    Then(Write(KList, Lists(1)),
         Then(Write(KZset, Zset(3)), Then(Write(KZset, Zset(8)), Then(Incr(Hash(6), RetryWaiting, 1),
    Then(Write(KHash, Hash(2)),
         DropLease(Text(5), Then(Incr(Hash(6), RetryScheduled, 1), Then(Incr(Hash(6), RetryCode, 1), End))))))))
  }

  lemma RetryScheduleIsSafe(used: set<Counter>)
    requires used <= {OutcomeSkipped, DeadlineMissed}
    ensures Safe(RETRY_COUNTERS, RetrySchedule(), None, used, true)
  {
  }

  lemma RetryIsAllOrNothing()
    ensures AllOrNothing(RETRY_COUNTERS, RetryScript())
  {
    RetryScheduleIsSafe({} + {OutcomeSkipped} + {DeadlineMissed});
    SafeIsAllOrNothing(RETRY_COUNTERS, RetryScript());
  }

  const FAIL_COUNTERS := Counters({OutcomeFailed, FailureCode}, {})

  /** FAIL_TASK. */
  function FailScript(): Script {
    Then(Read(KHash, Hash(2)), Then(Write(KList, Lists(1)), Then(Write(KList, Lists(3)), Then(Write(KZset, Zset(7)),
    Then(Write(KHash, Hash(2)), FinalizeOwner(Hash(4), DropLease(Text(5),
    Then(Incr(Hash(6), OutcomeFailed, 1), Then(Incr(Hash(6), FailureCode, 1), End)))))))))
  }

  lemma FailIsAllOrNothing()
    ensures AllOrNothing(FAIL_COUNTERS, FailScript())
  {
    SafeIsAllOrNothing(FAIL_COUNTERS, FailScript());
  }

  const BEGIN_COUNTERS := Counters({OutcomeSkipped, OutcomeCancelled, OutcomeFailed, DeadlineMissed, Superseded,
                                    Deferred, Started, StartedNth, WaitCount}, {WaitSeconds})

  /** BEGIN_ATTEMPT: its three terminal branches share their commands; then the lease, and the start. */
  function BeginScript(): Script {
    Then(Read(KHash, Hash(2)), Then(Read(KString, Text(5)), Then(Write(KList, Lists(1)), Then(Write(KList, Lists(3)),
    Then(Write(KHash, Hash(2)), FinalizeOwner(Hash(4), Then(Write(KZset, Zset(10)), Then(Touch(Hash(2)),
    ReleasePayload(Hash(2), BeginCounts())))))))))
  }

  function BeginCounts(): Script {
    DropLease(Text(6), Then(Incr(Hash(8), OutcomeSkipped, 1), Then(Incr(Hash(8), DeadlineMissed, 1),
    Then(Incr(Hash(8), OutcomeCancelled, 1),
         Then(Incr(Hash(8), Superseded, 1), Then(Incr(Hash(8), OutcomeFailed, 1), BeginLease()))))))
  }

  function BeginLease(): Script {
    Then(Write(KString, Text(6)), Then(Write(KList, Lists(1)), Then(Write(KZset, Zset(7)), Then(Write(KHash, Hash(2)),
    Then(Incr(Hash(8), Deferred, 1), Then(Write(KList, Lists(1)), DropLease(Text(6), BeginStart())))))))
  }

  function BeginStart(): Script {
    Then(Write(KList, Lists(1)), Then(Write(KZset, Zset(10)), Then(Write(KHash, Hash(2)), Then(Read(KHash, Hash(2)),
    Then(Write(KHash, Hash(2)),
         Then(Incr(Hash(8), Started, 1), Then(Incr(Hash(8), StartedNth, 1), Then(Read(KHash, Hash(2)),
    Then(IncrFloat(Hash(8), WaitSeconds), Then(Incr(Hash(8), WaitCount, 1), End))))))))))
  }

  const ENDS := {OutcomeSkipped, OutcomeCancelled, OutcomeFailed, DeadlineMissed, Superseded}

  lemma BeginStartIsSafe(used: set<Counter>)
    requires used <= ENDS + {Deferred}
    ensures Safe(BEGIN_COUNTERS, BeginStart(), None, used, true)
  {
  }

  lemma BeginLeaseIsSafe(used: set<Counter>)
    requires used <= ENDS
    ensures Safe(BEGIN_COUNTERS, BeginLease(), None, used, true)
  {
    BeginStartIsSafe(used + {Deferred});
  }

  lemma BeginCountsIsSafe()
    ensures Safe(BEGIN_COUNTERS, BeginCounts(), None, {}, true)
  {
    BeginLeaseIsSafe({} + {OutcomeSkipped} + {DeadlineMissed} + {OutcomeCancelled} + {Superseded} + {OutcomeFailed});
  }

  lemma BeginIsAllOrNothing()
    ensures AllOrNothing(BEGIN_COUNTERS, BeginScript())
  {
    BeginCountsIsSafe();
    SafeIsAllOrNothing(BEGIN_COUNTERS, BeginScript());
  }

  const CANCEL_COUNTERS := Counters({RetryWaiting, Purged, OutcomeCancelled}, {})

  /** CANCEL_OR_PURGE; the removal itself may fail, on a list or on the delay set, before anything is written. */
  function CancelScript(source: Kind): Script {
    Then(Write(source, Name(1, OneOf(KList, KZset))), CancelRest())
  }

  function CancelRest(): Script {
    Then(Write(KZset, Zset(8)), Then(Read(KHash, Hash(5)), Then(Incr(Hash(5), RetryWaiting, -1),
    Then(Read(KHash, Hash(2)), Then(Write(KHash, Hash(2)), Then(Touch(Hash(2)), ReleasePayload(Hash(2),
    Then(Read(KHash, Hash(3)), Then(Touch(Hash(3)), FinalizeOwner(Hash(3), CancelEnd()))))))))))
  }

  function CancelEnd(): Script {
    DropLease(Text(4), Then(Incr(Hash(5), Purged, 1), Then(Incr(Hash(5), OutcomeCancelled, 1), End)))
  }

  lemma CancelRestIsSafe()
    ensures Safe(CANCEL_COUNTERS, CancelRest(), None, {}, true)
  {
    assert Safe(CANCEL_COUNTERS, CancelEnd(), None, {} + {RetryWaiting}, true);
  }

  lemma CancelIsAllOrNothing(source: Kind)
    requires source == KList || source == KZset
    ensures AllOrNothing(CANCEL_COUNTERS, CancelScript(source))
  {
    CancelRestIsSafe();
    SafeIsAllOrNothing(CANCEL_COUNTERS, CancelScript(source));
  }

  const ENQUEUE_COUNTERS := Counters({Accepted, Override, DuplicateActive, DuplicateRetained}, {})

  /** ENQUEUE, with or without an external payload whose pending entry is looked up before anything is written. */
  function EnqueueScript(pending: bool): Script {
    var body := Then(Read(KZset, Zset(7)), Then(Read(KHash, Hash(3)), Then(Incr(Hash(9), DuplicateActive, 1),
                Then(Incr(Hash(9), DuplicateRetained, 1), EnqueueWrites(pending)))));
    if pending then Then(Probe(KZset, Pending()), body) else body
  }

  function EnqueueWrites(pending: bool): Script {
    Then(Touch(Hash(3)),
         Then(Touch(Name(4, OneOf(KString, KHash))), Then(Write(KHash, Hash(3)), Then(Write(KHash, Hash(5)),
    Then(Write(KZset, Zset(6)), Then(Write(KZset, Zset(7)), Then(Read(KZset, Zset(6)), Then(Write(KHash, Hash(9)),
    EnqueuePush(pending)))))))))
  }

  function EnqueuePush(pending: bool): Script {
    Then(Write(KZset, Zset(10)), Then(Read(KString, Text(8)), Then(Write(KString, Text(8)), Then(Write(KZset, Zset(2)),
    Then(Write(KList, Lists(1)),
         Then(Write(KHash, Hash(5)), if pending then Then(Write(KZset, Pending()), EnqueueEnd()) else EnqueueEnd()))))))
  }

  function EnqueueEnd(): Script {
    Then(Incr(Hash(9), Accepted, 1), Then(Incr(Hash(9), Override, 1), Then(Write(KHash, Hash(5)), End)))
  }

  function Probed(pending: bool): Option<Cmd> {
    if pending then Some(Probe(KZset, Pending())) else None
  }

  lemma EnqueuePushIsSafe(pending: bool, used: set<Counter>)
    requires used <= {DuplicateActive, DuplicateRetained}
    ensures Safe(ENQUEUE_COUNTERS, EnqueuePush(pending), Probed(pending), used, true)
  {
    assert Safe(ENQUEUE_COUNTERS, EnqueueEnd(), Probed(pending), used, true);
    if pending {
      assert Safe(ENQUEUE_COUNTERS, EnqueuePush(true), Probed(true), used, true);
    } else {
      assert Safe(ENQUEUE_COUNTERS, EnqueuePush(false), Probed(false), used, true);
    }
  }

  lemma EnqueueWritesIsSafe(pending: bool, used: set<Counter>)
    requires used <= {DuplicateActive, DuplicateRetained}
    ensures Safe(ENQUEUE_COUNTERS, EnqueueWrites(pending), Probed(pending), used, true)
  {
    EnqueuePushIsSafe(pending, used);
    if pending {
      assert Safe(ENQUEUE_COUNTERS, EnqueueWrites(true), Probed(true), used, true);
    } else {
      assert Safe(ENQUEUE_COUNTERS, EnqueueWrites(false), Probed(false), used, true);
    }
  }

  lemma EnqueueIsAllOrNothing(pending: bool)
    ensures AllOrNothing(ENQUEUE_COUNTERS, EnqueueScript(pending))
  {
    EnqueueWritesIsSafe(pending, {} + {DuplicateActive} + {DuplicateRetained});
    if pending {
      assert Safe(ENQUEUE_COUNTERS, EnqueueScript(true), None, {}, false);
    } else {
      assert Safe(ENQUEUE_COUNTERS, EnqueueScript(false), None, {}, false);
    }
    SafeIsAllOrNothing(ENQUEUE_COUNTERS, EnqueueScript(pending));
  }

  const REPLAY_COUNTERS := Counters({ReplayAccepted, Accepted, ReplayDuplicateActive, ReplayDuplicateRetained}, {})

  /** REPLAY_TASK. */
  function ReplayScript(pending: bool): Script {
    var body := Then(Read(KZset, Zset(9)), Then(Read(KHash, Hash(6)), Then(Read(KHash, Hash(4)),
                Then(Incr(Hash(11), ReplayDuplicateActive, 1),
                     Then(Incr(Hash(11), ReplayDuplicateRetained, 1), ReplaySource(pending))))));
    if pending then Then(Probe(KZset, Pending()), body) else body
  }

  function ReplaySource(pending: bool): Script {
    Then(Read(KHash, Hash(6)),
         Then(Write(KList, Lists(1)), Then(Write(KHash, Hash(6)), Then(Touch(Hash(6)), ReleasePayload(Hash(6),
    Then(Touch(Hash(4)),
         Then(Touch(Name(5, OneOf(KString, KHash))), Then(Write(KHash, Hash(4)), ReplayWrites(pending)))))))))
  }

  function ReplayWrites(pending: bool): Script {
    Then(Write(KHash, Hash(7)), Then(Write(KZset, Zset(8)), Then(Write(KZset, Zset(9)), Then(Read(KZset, Zset(8)),
    Then(Write(KHash, Hash(11)),
         Then(Write(KZset, Zset(13)), Then(Read(KString, Text(10)), Then(Write(KString, Text(10)),
    ReplayPush(pending)))))))))
  }

  function ReplayPush(pending: bool): Script {
    Then(Write(KZset, Zset(3)), Then(Write(KList, Lists(2)), Then(Write(KHash, Hash(7)),
    if pending then Then(Write(KZset, Pending()), ReplayEnd()) else ReplayEnd())))
  }

  function ReplayEnd(): Script {
    Then(Incr(Hash(11), ReplayAccepted, 1), Then(Incr(Hash(11), Accepted, 1), Then(Write(KHash, Hash(7)), End)))
  }

  lemma ReplayPushIsSafe(pending: bool, used: set<Counter>)
    requires used <= {ReplayDuplicateActive, ReplayDuplicateRetained}
    ensures Safe(REPLAY_COUNTERS, ReplayPush(pending), Probed(pending), used, true)
  {
    assert Safe(REPLAY_COUNTERS, ReplayEnd(), Probed(pending), used, true);
    if pending {
      assert Safe(REPLAY_COUNTERS, ReplayPush(true), Probed(true), used, true);
    } else {
      assert Safe(REPLAY_COUNTERS, ReplayPush(false), Probed(false), used, true);
    }
  }

  lemma ReplayWritesIsSafe(pending: bool, used: set<Counter>)
    requires used <= {ReplayDuplicateActive, ReplayDuplicateRetained}
    ensures Safe(REPLAY_COUNTERS, ReplayWrites(pending), Probed(pending), used, true)
  {
    ReplayPushIsSafe(pending, used);
    if pending {
      assert Safe(REPLAY_COUNTERS, ReplayWrites(true), Probed(true), used, true);
    } else {
      assert Safe(REPLAY_COUNTERS, ReplayWrites(false), Probed(false), used, true);
    }
  }

  lemma ReplaySourceIsSafe(pending: bool, used: set<Counter>)
    requires used <= {ReplayDuplicateActive, ReplayDuplicateRetained}
    ensures Safe(REPLAY_COUNTERS, ReplaySource(pending), Probed(pending), used, true)
  {
    ReplayWritesIsSafe(pending, used);
    if pending {
      assert Safe(REPLAY_COUNTERS, ReplaySource(true), Probed(true), used, true);
    } else {
      assert Safe(REPLAY_COUNTERS, ReplaySource(false), Probed(false), used, true);
    }
  }

  lemma ReplayIsAllOrNothing(pending: bool)
    ensures AllOrNothing(REPLAY_COUNTERS, ReplayScript(pending))
  {
    ReplaySourceIsSafe(pending, {} + {ReplayDuplicateActive} + {ReplayDuplicateRetained});
    if pending {
      assert Safe(REPLAY_COUNTERS, ReplayScript(true), None, {}, false);
    } else {
      assert Safe(REPLAY_COUNTERS, ReplayScript(false), None, {}, false);
    }
    SafeIsAllOrNothing(REPLAY_COUNTERS, ReplayScript(pending));
  }
}
