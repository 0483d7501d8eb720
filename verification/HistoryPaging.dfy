/**
 Resumable paging over history indexes: the binary search that finds the place after an anchor, the
 merge of several indexes, and what a client sees of an index that changes between its fetches.  An
 index is its ZREVRANGE order, from the highest score down.
 */
module HistoryPaging {
  import opened Prelude
  import opened VersionOrder

  // ---------- Order ----------

  datatype Item = Item(score: int, id: string)

  /** `x` comes strictly after `y` in ZREVRANGE order. */
  predicate Below(x: Item, y: Item) {
    x.score < y.score || (x.score == y.score && TextBefore(x.id, y.id))
  }

  predicate Descending(s: seq<Item>) {
    forall i, j :: 0 <= i < j < |s| ==> Below(s[j], s[i])
  }

  lemma BelowIsStrictTotalOrder(x: Item, y: Item, z: Item)
    ensures !Below(x, x)
    ensures Below(x, y) && Below(y, z) ==> Below(x, z)
    ensures x != y ==> Below(x, y) || Below(y, x)
    ensures Below(x, y) ==> !Below(y, x)
  {
    TextIrreflexive(x.id);
    TextTotal(x.id, y.id);
    if TextBefore(x.id, y.id) && TextBefore(y.id, z.id) { TextTransitive(x.id, y.id, z.id); }
    if TextBefore(x.id, y.id) && TextBefore(y.id, x.id) { TextTransitive(x.id, y.id, x.id); }
  }

  lemma TextBeforeCommon(a: string, b: string, n: nat)
    requires n <= |a| && n <= |b| && a[..n] == b[..n]
    ensures TextBefore(a, b) == TextBefore(a[n..], b[n..])
    decreases n
  {
    if n > 0 {
      assert a[0] == a[..n][0] == b[..n][0] == b[0];
      assert a[1..][..n - 1] == a[..n][1..] == b[..n][1..] == b[1..][..n - 1];
      TextBeforeCommon(a[1..], b[1..], n - 1);
      assert a[1..][n - 1..] == a[n..] && b[1..][n - 1..] == b[n..];
    }
  }

  /** byte_before: the first differing byte decides, and a prefix comes first. */
  method ByteBefore(a: string, b: string) returns (before: bool)
    ensures before == TextBefore(a, b)
  {
    var n := if |a| < |b| then |a| else |b|;
    for i := 0 to n
      invariant a[..i] == b[..i]
    {
      if a[i] != b[i] {
        TextBeforeCommon(a, b, i);
        return a[i] < b[i];
      }
      assert a[..i + 1] == a[..i] + [a[i]] && b[..i + 1] == b[..i] + [b[i]];
    }
    TextBeforeCommon(a, b, n);
    return |a| < |b|;
  }

  // ---------- The page script ----------

  /** Not newer than the cutoff, and strictly after the anchor. */
  predicate Eligible(x: Item, cutoff: int, anchor: Option<Item>) {
    x.score <= cutoff && (anchor.Some? ==> Below(x, anchor.value))
  }

  /** What is left of an index: the eligible items, in order. */
  function Rest(s: seq<Item>, cutoff: int, anchor: Option<Item>): seq<Item> {
    if s == [] then []
    else (if Eligible(s[0], cutoff, anchor) then [s[0]] else []) + Rest(s[1..], cutoff, anchor)
  }

  lemma {:induction false} RestMembers(s: seq<Item>, cutoff: int, anchor: Option<Item>)
    ensures forall x :: x in Rest(s, cutoff, anchor) <==> x in s && Eligible(x, cutoff, anchor)
  {
    if s != [] { RestMembers(s[1..], cutoff, anchor); }
  }

  /** In a descending index the eligible items are a suffix. */
  lemma {:induction false} RestIsSuffix(s: seq<Item>, cutoff: int, anchor: Option<Item>, k: nat)
    requires k <= |s| && forall i :: 0 <= i < |s| ==> (Eligible(s[i], cutoff, anchor) <==> i >= k)
    ensures Rest(s, cutoff, anchor) == s[k..]
  {
    if s == [] {
    } else if k == 0 {
      RestIsSuffix(s[1..], cutoff, anchor, 0);
    } else {
      RestIsSuffix(s[1..], cutoff, anchor, k - 1);
      assert s[1..][k - 1..] == s[k..];
    }
  }

  lemma EligibleIsDownward(s: seq<Item>, cutoff: int, anchor: Option<Item>, i: nat, j: nat)
    requires Descending(s) && i <= j < |s| && Eligible(s[i], cutoff, anchor)
    ensures Eligible(s[j], cutoff, anchor)
  {
    if i < j && anchor.Some? { BelowIsStrictTotalOrder(s[j], s[i], anchor.value); }
  }

  method IsEligible(x: Item, cutoff: int, anchor: Option<Item>) returns (eligible: bool)
    ensures eligible == Eligible(x, cutoff, anchor)
  {
    if x.score > cutoff { return false; }
    if anchor.None? || x.score < anchor.value.score { return true; }
    if x.score > anchor.value.score { return false; }
    eligible := ByteBefore(x.id, anchor.value.id);
  }

  /** READ_HISTORY_PAGE_LUA: exactly the first `count` items strictly after the anchor. */
  method ReadPage(s: seq<Item>, cutoff: int, anchor: Option<Item>, count: nat) returns (page: seq<Item>)
    requires Descending(s)
    ensures page == Take(Rest(s, cutoff, anchor), count)
  {
    var left, right := 0, |s|;
    while left < right
      invariant 0 <= left <= right <= |s|
      invariant forall i :: 0 <= i < left ==> !Eligible(s[i], cutoff, anchor)
      invariant forall i :: right <= i < |s| ==> Eligible(s[i], cutoff, anchor)
    {
      var middle := (left + right) / 2;
      var eligible := IsEligible(s[middle], cutoff, anchor);
      if eligible {
        forall j | middle <= j < |s| ensures Eligible(s[j], cutoff, anchor) {
          EligibleIsDownward(s, cutoff, anchor, middle, j);
        }
        right := middle;
      } else {
        forall i | 0 <= i <= middle ensures !Eligible(s[i], cutoff, anchor) {
          if Eligible(s[i], cutoff, anchor) { EligibleIsDownward(s, cutoff, anchor, i, middle); }
        }
        left := middle + 1;
      }
    }
    RestIsSuffix(s, cutoff, anchor, left);
    page := if left + count <= |s| then s[left..left + count] else s[left..];
  }

  lemma {:induction false} RestDescends(s: seq<Item>, cutoff: int, anchor: Option<Item>)
    requires Descending(s)
    ensures Descending(Rest(s, cutoff, anchor))
  {
    if s != [] {
      assert Descending(s[1..]);
      RestDescends(s[1..], cutoff, anchor);
      RestMembers(s[1..], cutoff, anchor);
      var rest := Rest(s[1..], cutoff, anchor);
      forall x <- rest ensures Below(x, s[0]) {
        var j :| 0 <= j < |s[1..]| && s[1..][j] == x;
        assert s[j + 1] == x;
      }
    }
  }

  /** Moving the anchor to the first remaining item removes exactly that item. */
  lemma RestAdvances(s: seq<Item>, cutoff: int, anchor: Option<Item>)
    requires Descending(s) && Rest(s, cutoff, anchor) != []
    ensures var rest := Rest(s, cutoff, anchor); Rest(s, cutoff, Some(rest[0])) == rest[1..]
  {
    var rest := Rest(s, cutoff, anchor);
    RestDescends(s, cutoff, anchor);
    RestMembers(s, cutoff, anchor);
    RestFilters(s, cutoff, anchor, rest[0]);
    RestOfRest(rest, cutoff, rest[0]);
  }

  /** A later anchor selects from what an earlier one left. */
  lemma {:induction false} RestFilters(s: seq<Item>, cutoff: int, anchor: Option<Item>, next: Item)
    requires Eligible(next, cutoff, anchor)
    ensures Rest(s, cutoff, Some(next)) == Rest(Rest(s, cutoff, anchor), cutoff, Some(next))
  {
    if s != [] {
      RestFilters(s[1..], cutoff, anchor, next);
      if anchor.Some? { BelowIsStrictTotalOrder(s[0], next, anchor.value); }
      var rest := Rest(s[1..], cutoff, anchor);
      if Eligible(s[0], cutoff, anchor) {
        var all := [s[0]] + rest;
        assert Rest(s, cutoff, anchor) == all && all[0] == s[0] && all[1..] == rest;
      } else {
        assert [] + rest == rest;
      }
    }
  }

  lemma RestOfRest(rest: seq<Item>, cutoff: int, first: Item)
    requires Descending(rest) && rest != [] && first == rest[0]
    requires forall x <- rest :: x.score <= cutoff
    ensures Rest(rest, cutoff, Some(first)) == rest[1..]
  {
    BelowIsStrictTotalOrder(first, first, first);
    RestIsSuffix(rest, cutoff, Some(first), 1);
  }

  // ---------- The merge ----------

  /** One item seen in the index of one queue. */
  datatype Visit = Visit(queue: nat, item: Item)

  /** The queue whose next item is largest, the first one on a tie; -1 when nothing is left. */
  function BestOf(rests: seq<seq<Item>>, n: nat): (best: int)
    requires n <= |rests|
    ensures -1 <= best < n && (best >= 0 ==> rests[best] != [])
    ensures best < 0 <==> forall i :: 0 <= i < n ==> rests[i] == []
  {
    if n == 0 then -1
    else
      var b := BestOf(rests, n - 1);
      if rests[n - 1] != [] && (b < 0 || Below(rests[b][0], rests[n - 1][0])) then n - 1 else b
  }

  function Size(rests: seq<seq<Item>>): nat {
    if rests == [] then 0 else |rests[0]| + Size(rests[1..])
  }

  lemma {:induction false} SizeShrinks(rests: seq<seq<Item>>, b: nat)
    requires b < |rests| && rests[b] != []
    ensures Size(rests[b := rests[b][1..]]) == Size(rests) - 1
  {
    if b > 0 {
      assert rests[b := rests[b][1..]][1..] == rests[1..][b - 1 := rests[b][1..]];
      SizeShrinks(rests[1..], b - 1);
    } else {
      assert rests[0 := rests[0][1..]][1..] == rests[1..];
    }
  }

  function Merge(rests: seq<seq<Item>>): seq<Visit>
    decreases Size(rests)
  {
    var b := BestOf(rests, |rests|);
    if b < 0 then []
    else
      SizeShrinks(rests, b);
      [Visit(b, rests[b][0])] + Merge(rests[b := rests[b][1..]])
  }

  function ItemsOf(visits: seq<Visit>, q: nat): seq<Item> {
    if visits == [] then []
    else (if visits[0].queue == q then [visits[0].item] else []) + ItemsOf(visits[1..], q)
  }

  lemma ItemsCons(v: Visit, visits: seq<Visit>, q: nat)
    ensures ItemsOf([v] + visits, q) == (if v.queue == q then [v.item] else []) + ItemsOf(visits, q)
  {
    assert ([v] + visits)[1..] == visits;
  }

  /** The merge holds every item of every queue once, in the queue's own order, and nothing else. */
  lemma {:induction false} MergeKeepsEveryItem(rests: seq<seq<Item>>, q: nat)
    ensures ItemsOf(Merge(rests), q) == if q < |rests| then rests[q] else []
    decreases Size(rests)
  {
    var b := BestOf(rests, |rests|);
    if b >= 0 {
      var rests' := rests[b := rests[b][1..]];
      SizeShrinks(rests, b);
      MergeKeepsEveryItem(rests', q);
      ItemsCons(Visit(b, rests[b][0]), Merge(rests'), q);
    }
  }

  lemma {:induction false} BestIsLargest(rests: seq<seq<Item>>, n: nat, i: nat)
    requires i < n <= |rests| && rests[i] != []
    ensures var b := BestOf(rests, n); b >= 0 && !Below(rests[b][0], rests[i][0])
  {
    var b := BestOf(rests, n - 1);
    if i < n - 1 {
      BestIsLargest(rests, n - 1, i);
      if rests[n - 1] != [] && Below(rests[b][0], rests[n - 1][0]) && Below(rests[n - 1][0], rests[i][0]) {
        BelowIsStrictTotalOrder(rests[b][0], rests[n - 1][0], rests[i][0]);
      }
    } else {
      BelowIsStrictTotalOrder(rests[i][0], rests[i][0], rests[i][0]);
    }
  }

  lemma {:induction false} MergeMembers(rests: seq<seq<Item>>, v: Visit)
    requires v in Merge(rests)
    ensures v.queue < |rests| && v.item in rests[v.queue]
    decreases Size(rests)
  {
    var b := BestOf(rests, |rests|);
    var rests' := rests[b := rests[b][1..]];
    SizeShrinks(rests, b);
    if v != Visit(b, rests[b][0]) {
      assert v in Merge(rests');
      MergeMembers(rests', v);
    }
  }

  /** The merge never goes up. */
  lemma {:induction false} MergeDescends(rests: seq<seq<Item>>, i: nat, j: nat)
    requires forall q :: 0 <= q < |rests| ==> Descending(rests[q])
    requires i < j < |Merge(rests)|
    ensures !Below(Merge(rests)[i].item, Merge(rests)[j].item)
    decreases Size(rests)
  {
    var b := BestOf(rests, |rests|);
    var rests' := rests[b := rests[b][1..]];
    SizeShrinks(rests, b);
    if i > 0 {
      MergeDescends(rests', i - 1, j - 1);
    } else {
      var v := Merge(rests)[j];
      assert v == Merge(rests')[j - 1];
      MergeMembers(rests', v);
      HeadIsLargest(rests, v);
    }
  }

  lemma HeadIsLargest(rests: seq<seq<Item>>, v: Visit)
    requires v.queue < |rests| && v.item in rests[v.queue] && Descending(rests[v.queue])
    ensures var b := BestOf(rests, |rests|); b >= 0 && !Below(rests[b][0], v.item)
  {
    var q := v.queue;
    BestIsLargest(rests, |rests|, q);
    var b := BestOf(rests, |rests|);
    BelowIsStrictTotalOrder(rests[b][0], v.item, rests[q][0]);
  }

  // ---------- Indexes that change while a client pages ----------

  /** One fetch of a queue's index as it then was, and how many of the fetched items were visited. */
  datatype Fetch = Fetch(index: seq<Item>, count: nat, used: nat)

  function Seen(f: Fetch, cutoff: int, anchor: Option<Item>): seq<Item> {
    Take(Take(Rest(f.index, cutoff, anchor), f.count), f.used)
  }

  function LastAnchor(anchor: Option<Item>, seen: seq<Item>): Option<Item> {
    if seen == [] then anchor else Some(seen[|seen| - 1])
  }

  /** What one fetch lets a client see from where it stands. */
  type View = (Fetch, Option<Item>) -> seq<Item>

  function ViewUpTo(cutoff: int): View {
    (f, anchor) => Seen(f, cutoff, anchor)
  }

  /** Where a client stands after these fetches: at the last item it visited. */
  function StandsAfter(fetches: seq<Fetch>, view: View, start: Option<Item>): Option<Item> {
    if fetches == [] then start
    else
      var n := |fetches| - 1;
      var anchor := StandsAfter(fetches[..n], view, start);
      LastAnchor(anchor, view(fetches[n], anchor))
  }

  function ViewedIn(fetches: seq<Fetch>, view: View, start: Option<Item>): seq<Item> {
    if fetches == [] then []
    else
      var n := |fetches| - 1;
      ViewedIn(fetches[..n], view, start) + view(fetches[n], StandsAfter(fetches[..n], view, start))
  }

  /** Fetches after fetches, the later ones from where the earlier ones ended. */
  lemma {:induction false} ViewedAppend(xs: seq<Fetch>, ys: seq<Fetch>, view: View, start: Option<Item>)
    ensures StandsAfter(xs + ys, view, start) == StandsAfter(ys, view, StandsAfter(xs, view, start))
    ensures ViewedIn(xs + ys, view, start)
      == ViewedIn(xs, view, start) + ViewedIn(ys, view, StandsAfter(xs, view, start))
    decreases |ys|
  {
    if ys == [] {
      assert xs + ys == xs;
    } else {
      var n := |ys| - 1;
      ViewedAppend(xs, ys[..n], view, start);
      assert (xs + ys)[..|xs| + n] == xs + ys[..n];
    }
  }

  function AnchorAfter(fetches: seq<Fetch>, cutoff: int, start: Option<Item>): Option<Item> {
    StandsAfter(fetches, ViewUpTo(cutoff), start)
  }

  /** What a client visits of one queue, fetch by fetch, each one from the last visited item on. */
  function SeenAll(fetches: seq<Fetch>, cutoff: int, start: Option<Item>): seq<Item> {
    ViewedIn(fetches, ViewUpTo(cutoff), start)
  }

  /** A page is a prefix of what is left; an item of the rest is in it or after it. */
  lemma SeenOrAhead(f: Fetch, cutoff: int, anchor: Option<Item>, e: Item)
    requires Descending(f.index) && e in f.index && Eligible(e, cutoff, anchor)
    ensures var seen := Seen(f, cutoff, anchor);
      (e in seen) != Eligible(e, cutoff, LastAnchor(anchor, seen))
  {
    var rest, seen := Rest(f.index, cutoff, anchor), Seen(f, cutoff, anchor);
    RestDescends(f.index, cutoff, anchor);
    RestMembers(f.index, cutoff, anchor);
    assert seen <= rest && e in rest;
    if seen != [] {
      var last := |seen| - 1;
      var k :| 0 <= k < |rest| && rest[k] == e;
      BelowIsStrictTotalOrder(e, rest[last], e);
      BelowIsStrictTotalOrder(rest[last], e, e);
      if k <= last { assert seen[k] == e; }
      if e in seen {
        var i :| 0 <= i < |seen| && seen[i] == e;
        assert rest[i] == e;
      }
    }
  }

  lemma SeenIsEligible(f: Fetch, cutoff: int, anchor: Option<Item>, x: Item)
    requires x in Seen(f, cutoff, anchor)
    ensures Eligible(x, cutoff, anchor)
  {
    RestMembers(f.index, cutoff, anchor);
  }

  /** What comes after what was seen comes after the anchor it was seen from. */
  lemma AnchorsFall(f: Fetch, cutoff: int, anchor: Option<Item>, x: Item)
    requires Eligible(x, cutoff, LastAnchor(anchor, Seen(f, cutoff, anchor)))
    ensures Eligible(x, cutoff, anchor)
  {
    var seen := Seen(f, cutoff, anchor);
    if seen != [] && anchor.Some? {
      var last := seen[|seen| - 1];
      SeenIsEligible(f, cutoff, anchor, last);
      BelowIsStrictTotalOrder(x, last, anchor.value);
    }
  }

  /**
   Whatever is added to or deleted from the index between fetches, anchors included: an entry that
   is there at every fetch is visited exactly once or is still ahead, and no two visits repeat.
   */
  lemma {:induction false} EntryVisitedOnce(fetches: seq<Fetch>, cutoff: int, start: Option<Item>, e: Item)
    requires forall f <- fetches :: Descending(f.index) && e in f.index
    requires Eligible(e, cutoff, start)
    ensures (e in SeenAll(fetches, cutoff, start)) != Eligible(e, cutoff, AnchorAfter(fetches, cutoff, start))
    ensures multiset(SeenAll(fetches, cutoff, start))[e] <= 1
  {
    if fetches != [] {
      var n := |fetches| - 1;
      var f, anchor := fetches[n], AnchorAfter(fetches[..n], cutoff, start);
      EntryVisitedOnce(fetches[..n], cutoff, start, e);
      if Eligible(e, cutoff, anchor) {
        SeenOrAhead(f, cutoff, anchor, e);
        SeenHasNoRepeats(f, cutoff, anchor, e);
      } else {
        StaysPassed(f, cutoff, anchor, e);
      }
    }
  }

  /** Once passed, an entry stays passed. */
  lemma StaysPassed(f: Fetch, cutoff: int, anchor: Option<Item>, e: Item)
    requires !Eligible(e, cutoff, anchor)
    ensures e !in Seen(f, cutoff, anchor) && !Eligible(e, cutoff, LastAnchor(anchor, Seen(f, cutoff, anchor)))
  {
    if e in Seen(f, cutoff, anchor) { SeenIsEligible(f, cutoff, anchor, e); }
    if Eligible(e, cutoff, LastAnchor(anchor, Seen(f, cutoff, anchor))) { AnchorsFall(f, cutoff, anchor, e); }
  }

  lemma SeenHasNoRepeats(f: Fetch, cutoff: int, anchor: Option<Item>, e: Item)
    requires Descending(f.index)
    ensures multiset(Seen(f, cutoff, anchor))[e] <= 1
  {
    RestDescends(f.index, cutoff, anchor);
    var seen := Seen(f, cutoff, anchor);
    assert seen <= Rest(f.index, cutoff, anchor);
    DescendingIsSet(seen, e);
  }

  lemma {:induction false} DescendingIsSet(s: seq<Item>, e: Item)
    requires Descending(s)
    ensures multiset(s)[e] <= 1
  {
    if s != [] {
      DescendingIsSet(s[1..], e);
      assert s == [s[0]] + s[1..];
      if s[0] == e && e in s[1..] {
        var j :| 0 <= j < |s[1..]| && s[1..][j] == e;
        BelowIsStrictTotalOrder(s[j + 1], s[0], e);
      }
    }
  }

  /** The chain ends at an empty fetch; by then every entry that was always there has been visited. */
  lemma EndOfChain(fetches: seq<Fetch>, cutoff: int, e: Item, last: seq<Item>)
    requires forall f <- fetches :: Descending(f.index) && e in f.index
    requires e.score <= cutoff && e in last && Rest(last, cutoff, AnchorAfter(fetches, cutoff, None)) == []
    ensures multiset(SeenAll(fetches, cutoff, None))[e] == 1
  {
    EntryVisitedOnce(fetches, cutoff, None, e);
    RestMembers(last, cutoff, AnchorAfter(fetches, cutoff, None));
    assert e !in Rest(last, cutoff, AnchorAfter(fetches, cutoff, None));
  }

  lemma Assoc<T>(a: seq<T>, b: seq<T>, c: seq<T>)
    ensures (a + b) + c == a + (b + c)
  {
  }
}
