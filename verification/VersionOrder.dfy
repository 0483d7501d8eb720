/**
 Supersede versions.  The enqueue and replay scripts compare versions as tagged text, because the
 numbers of the script language cannot hold 64-bit integers; this module proves that the text
 comparison is the intended order and that the order is strict and total.  The script language
 compares text by the server's locale, so all this is proved for any order of text a locale may give.
 */
module VersionOrder {
  import opened Prelude

  datatype Version = IntVersion(n: int) | TextVersion(s: string)

  // ---------- Byte order on text ----------

  /** Byte-wise "a comes before b", the order of sorted sets and of a locale that compares bytes. */
  predicate TextBefore(a: string, b: string) {
    if b == [] then false
    else if a == [] then true
    else if a[0] != b[0] then a[0] < b[0]
    else TextBefore(a[1..], b[1..])
  }

  lemma {:induction false} TextIrreflexive(a: string)
    ensures !TextBefore(a, a)
  {
    if a != [] { TextIrreflexive(a[1..]); }
  }

  lemma {:induction false} TextTransitive(a: string, b: string, c: string)
    requires TextBefore(a, b) && TextBefore(b, c)
    ensures TextBefore(a, c)
  {
    if a != [] && a[0] == b[0] && b[0] == c[0] {
      TextTransitive(a[1..], b[1..], c[1..]);
    }
  }

  lemma {:induction false} TextTotal(a: string, b: string)
    ensures a != b ==> TextBefore(a, b) || TextBefore(b, a)
  {
    if a == [] || b == [] {
    } else if a[0] == b[0] {
      assert a == [a[0]] + a[1..] && b == [b[0]] + b[1..];
      TextTotal(a[1..], b[1..]);
    }
  }

  // ---------- The order of the script language ----------

  type Comparison = (string, string) -> bool

  predicate IsDigits(t: string) { forall i :: 0 <= i < |t| ==> '0' <= t[i] <= '9' }

  /**
   What is asked of the order in which the script language compares text: it is strict, transitive and
   total, puts "i:" before "s:", and compares equally long rows of digits like numbers.
   */
  ghost predicate IsTextOrder(before: Comparison) {
    && (forall a :: !before(a, a))
    && (forall a, b, c :: before(a, b) && before(b, c) ==> before(a, c))
    && (forall a, b :: a != b ==> before(a, b) || before(b, a))
    && (forall a, b :: before("i:" + a, "s:" + b))
    && (forall a, b :: |a| == |b| && IsDigits(a) && IsDigits(b) ==> (before(a, b) <==> TextBefore(a, b)))
  }

  lemma BytesAreOrdered(before: Comparison)
    requires forall a, b :: before(a, b) == TextBefore(a, b)
    ensures IsTextOrder(before)
  {
    forall a: string ensures !before(a, a) { TextIrreflexive(a); }
    forall a, b, c | before(a, b) && before(b, c) ensures before(a, c) { TextTransitive(a, b, c); }
    forall a, b | a != b ensures before(a, b) || before(b, a) { TextTotal(a, b); }
    forall a, b ensures before("i:" + a, "s:" + b) { assert ("i:" + a)[0] == 'i' && ("s:" + b)[0] == 's'; }
  }

  /** Byte order is such an order. */
  function ByteOrder(): (before: Comparison)
    ensures IsTextOrder(before) && forall a, b :: before(a, b) == TextBefore(a, b)
  {
    var before := (a: string, b: string) => TextBefore(a, b);
    BytesAreOrdered(before);
    before
  }

  type TextOrder = before: Comparison | IsTextOrder(before) witness ByteOrder()

  /** The order of the server's locale: any text order at all. */
  const BEFORE: TextOrder

  // ---------- The intended order ----------

  /** Integers by value, text by the locale, and every text version above every integer version. */
  predicate Newer(a: Version, b: Version) {
    match (a, b)
    case (IntVersion(x), IntVersion(y)) => x > y
    case (TextVersion(x), TextVersion(y)) => BEFORE(y, x)
    case (TextVersion(_), IntVersion(_)) => true
    case (IntVersion(_), TextVersion(_)) => false
  }

  lemma NewerIsStrictTotalOrder(a: Version, b: Version, c: Version)
    ensures !Newer(a, a)
    ensures Newer(a, b) && Newer(b, c) ==> Newer(a, c)
    ensures a != b ==> Newer(a, b) != Newer(b, a)
  {
    assert IsTextOrder(BEFORE);
  }

  // ---------- Decimal text ----------

  const DIGITS := "0123456789"

  /** Canonical decimal text of a natural number: no leading zero, at least one digit. */
  function Decimal(n: nat): (t: string)
    ensures |t| >= 1
  {
    if n < 10 then [DIGITS[n]] else Decimal(n / 10) + [DIGITS[n % 10]]
  }

  /** What Python's str(int) prints. */
  function IntText(n: int): string {
    if n < 0 then "-" + Decimal(-n) else Decimal(n)
  }

  function Pow10(k: nat): (p: nat)
    ensures p >= 1
  {
    if k == 0 then 1 else 10 * Pow10(k - 1)
  }

  lemma {:induction false} DigitOrder(x: nat, y: nat)
    requires x < 10 && y < 10
    ensures DIGITS[x] < DIGITS[y] <==> x < y
    ensures DIGITS[x] == DIGITS[y] <==> x == y
    ensures DIGITS[x] != '-'
  {
    assert DIGITS == ['0', '1', '2', '3', '4', '5', '6', '7', '8', '9'];
  }

  /** A number with d digits lies in [10^(d-1), 10^d). */
  lemma {:induction false} DecimalLength(n: nat)
    ensures n < Pow10(|Decimal(n)|)
    ensures n >= 1 ==> Pow10(|Decimal(n)| - 1) <= n
  {
    if n >= 10 { DecimalLength(n / 10); }
  }

  lemma {:induction false} Pow10Monotone(j: nat, k: nat)
    requires j <= k
    ensures Pow10(j) <= Pow10(k)
  {
    if j < k { Pow10Monotone(j, k - 1); }
  }

  /** Fewer digits means a smaller number. */
  lemma ShorterIsSmaller(a: nat, b: nat)
    requires |Decimal(a)| < |Decimal(b)|
    ensures a < b
  {
    DecimalLength(a);
    DecimalLength(b);
    Pow10Monotone(|Decimal(a)|, |Decimal(b)| - 1);
  }

  /** Byte order of equally long texts is decided by the front, then by the last character. */
  lemma {:induction false} TextBeforeSnoc(a: string, x: char, b: string, y: char)
    requires |a| == |b|
    ensures TextBefore(a + [x], b + [y]) <==> TextBefore(a, b) || (a == b && x < y)
  {
    var s, t := a + [x], b + [y];
    if a == [] {
      assert s[1..] == [] && t[1..] == [];
    } else {
      assert s[0] == a[0] && t[0] == b[0];
      assert s[1..] == a[1..] + [x] && t[1..] == b[1..] + [y];
      TextBeforeSnoc(a[1..], x, b[1..], y);
      assert a == [a[0]] + a[1..] && b == [b[0]] + b[1..];
      TextTotal(a, b);
      if a == b { TextIrreflexive(a); }
    }
  }

  /** On equally long decimal texts, byte order is numeric order. */
  lemma {:induction false} SameLengthOrder(a: nat, b: nat)
    requires |Decimal(a)| == |Decimal(b)|
    ensures TextBefore(Decimal(a), Decimal(b)) <==> a < b
    ensures Decimal(a) == Decimal(b) <==> a == b
  {
    if a < 10 && b < 10 {
      DigitOrder(a, b);
      assert Decimal(a) == [] + [DIGITS[a]] && Decimal(b) == [] + [DIGITS[b]];
      TextBeforeSnoc([], DIGITS[a], [], DIGITS[b]);
    } else if a >= 10 && b >= 10 {
      SameLengthOrder(a / 10, b / 10);
      DigitOrder(a % 10, b % 10);
      TextBeforeSnoc(Decimal(a / 10), DIGITS[a % 10], Decimal(b / 10), DIGITS[b % 10]);
      var s, t := Decimal(a), Decimal(b);
      assert s == t ==> s[..|s| - 1] == t[..|t| - 1] && s[|s| - 1] == t[|t| - 1];
      assert s[..|s| - 1] == Decimal(a / 10) && t[..|t| - 1] == Decimal(b / 10);
    }
  }

  // ---------- The scripts' comparisons ----------

  /** integer_is_newer of the scripts: a comparison on decimal text only. */
  predicate IntegerIsNewer(candidate: string, current: string) {
    var candidateNegative := candidate != [] && candidate[0] == '-';
    var currentNegative := current != [] && current[0] == '-';
    if candidateNegative != currentNegative then !candidateNegative
    else
      var a := if candidateNegative then candidate[1..] else candidate;
      var b := if currentNegative then current[1..] else current;
      if |a| != |b| then
        (if candidateNegative then |a| < |b| else |a| > |b|)
      else if candidateNegative then BEFORE(a, b)
      else BEFORE(b, a)
  }

  lemma {:induction false} DecimalIsDigits(n: nat)
    ensures IsDigits(Decimal(n)) && Decimal(n)[0] != '-'
  {
    assert DIGITS == ['0', '1', '2', '3', '4', '5', '6', '7', '8', '9'];
    if n >= 10 { DecimalIsDigits(n / 10); }
  }

  /** On unbounded integers the text comparison is exactly "greater than". */
  lemma IntegerIsNewerIsGreater(a: int, b: int)
    ensures IntegerIsNewer(IntText(a), IntText(b)) <==> a > b
  {
    var x: nat, y: nat := if a < 0 then -a else a, if b < 0 then -b else b;
    DecimalIsDigits(x);
    DecimalIsDigits(y);
    assert a < 0 ==> IntText(a)[0] == '-' && IntText(a)[1..] == Decimal(x);
    assert b < 0 ==> IntText(b)[0] == '-' && IntText(b)[1..] == Decimal(y);
    if |Decimal(x)| < |Decimal(y)| {
      ShorterIsSmaller(x, y);
    } else if |Decimal(y)| < |Decimal(x)| {
      ShorterIsSmaller(y, x);
    } else {
      SameLengthOrder(x, y);
      SameLengthOrder(y, x);
      assert IsTextOrder(BEFORE);
    }
  }

  /** The register's text form of a version. */
  function Encode(v: Version): string {
    match v
    case IntVersion(n) => "i:" + IntText(n)
    case TextVersion(s) => "s:" + s
  }

  /** supersede_is_newer of the scripts; an absent or empty register is always older. */
  predicate SupersedeIsNewer(candidate: string, current: Option<string>) {
    if current.None? || current.value == "" then true
    else
      var cur := current.value;
      var candidateKind, currentKind := Take(candidate, 2), Take(cur, 2);
      if candidateKind == "i:" && currentKind == "i:" then
        IntegerIsNewer(candidate[2..], cur[2..])
      else if candidateKind == currentKind && |candidate| >= 2 && |cur| >= 2 then
        BEFORE(cur[2..], candidate[2..])
      else BEFORE(cur, candidate)
  }

  /** The scripts' comparison of encoded versions is the intended order. */
  lemma EncodedComparison(a: Version, b: Version)
    ensures SupersedeIsNewer(Encode(a), Some(Encode(b))) <==> Newer(a, b)
  {
    var s, t := Encode(a), Encode(b);
    assert s[..2] == (if a.IntVersion? then "i:" else "s:");
    assert t[..2] == (if b.IntVersion? then "i:" else "s:");
    assert s[2..] == (if a.IntVersion? then IntText(a.n) else a.s);
    assert t[2..] == (if b.IntVersion? then IntText(b.n) else b.s);
    assert s[0] == s[..2][0] && t[0] == t[..2][0];
    assert s == s[..2] + s[2..] && t == t[..2] + t[2..];
    assert IsTextOrder(BEFORE);
    if a.IntVersion? && b.IntVersion? { IntegerIsNewerIsGreater(a.n, b.n); }
  }

  /** Equal text means equal version, so the begin script may compare registers as text. */
  lemma EncodeInjective(a: Version, b: Version)
    ensures Encode(a) == Encode(b) <==> a == b
  {
    EncodedComparison(a, b);
    EncodedComparison(b, a);
    EncodedComparison(b, b);
    EncodedComparison(a, a);
    NewerIsStrictTotalOrder(a, b, a);
    NewerIsStrictTotalOrder(b, a, b);
  }
}
