/**
 The page loop over the history indexes of many queues, with its buffers, anchors and budgets, and
 clients that follow its cursors.  Every fetch reads the index as it then is.
 */
module HistoryBrowsing {
  import opened Prelude
  import opened VersionOrder
  import opened HistoryPaging

  // ---------- One queue ----------

  /** The index of a queue as a fetch finds it; fetches are numbered. */
  type Source = (nat, nat) -> seq<Item>

  ghost predicate Ordered(source: Source) {
    forall q: nat, t: nat :: Descending(source(q, t))
  }

  /** No index changes. */
  ghost predicate Fixed(source: Source) {
    forall q: nat, t: nat :: source(q, t) == source(q, 0)
  }

  /** These fetches found the index of this queue as it was at some moments. */
  ghost predicate Fetched(source: Source, q: nat, log: seq<Fetch>) {
    forall f <- log :: exists t: nat :: f.index == source(q, t)
  }

  /**
   What the page keeps for one queue: its anchor, its buffer and how far it is used, and its
   fetches' end and size.
   */
  datatype Reader = Reader(anchor: Option<Item>, buffer: seq<Item>, position: nat, exhausted: bool, size: nat)

  /**
   After these fetches and a last one, the buffer is what the last one returned, the position how
   much of it was visited.
   */
  predicate TracksLast(past: seq<Fetch>, f: Fetch, start: Option<Item>, cutoff: int, anchor: Option<Item>,
                       buffer: seq<Item>, position: nat) {
    && f.count >= 1 && f.used == position <= |buffer|
    && buffer == Take(Rest(f.index, cutoff, AnchorAfter(past, cutoff, start)), f.count)
    && anchor == LastAnchor(AnchorAfter(past, cutoff, start), buffer[..position])
  }

  predicate Tracks(log: seq<Fetch>, start: Option<Item>, cutoff: int, anchor: Option<Item>, buffer: seq<Item>,
                   position: nat) {
    if log == [] then buffer == [] && position == 0 && anchor == start
    else TracksLast(log[..|log| - 1], log[|log| - 1], start, cutoff, anchor, buffer, position)
  }

  predicate Behind(log: seq<Fetch>, start: Option<Item>, cutoff: int, r: Reader) {
    Tracks(log, start, cutoff, r.anchor, r.buffer, r.position) && r.size >= 1
      && (r.exhausted ==> r.buffer == [] && log != [])
  }

  /** A reader that is not in the middle of its body: a used-up buffer means that its last fetch found nothing. */
  ghost predicate ReaderOk(source: Source, q: nat, log: seq<Fetch>, start: Option<Item>, cutoff: int, r: Reader) {
    Behind(log, start, cutoff, r) && Fetched(source, q, log) && Ready(r)
  }

  predicate Ready(r: Reader) {
    r.position <= |r.buffer| && (r.position == |r.buffer| ==> r.exhausted)
  }

  /** What was fetched and not yet used is what comes next in an index that does not change. */
  predicate Ahead(rest: seq<Item>, r: Reader) {
    r.position <= |r.buffer| && r.buffer[r.position..] <= rest && (r.position == |r.buffer| ==> rest == [])
  }

  /** The anchor and what has been seen, as far as the log goes. */
  lemma TracksSeen(log: seq<Fetch>, past: seq<Fetch>, f: Fetch, start: Option<Item>, cutoff: int, anchor: Option<Item>,
                   buffer: seq<Item>, position: nat)
    requires log == past + [f] && TracksLast(past, f, start, cutoff, anchor, buffer, position)
    ensures AnchorAfter(log, cutoff, start) == anchor
    ensures SeenAll(log, cutoff, start) == SeenAll(past, cutoff, start) + buffer[..position]
  {
    assert log[..|past|] == past;
  }

  lemma TracksAnchor(log: seq<Fetch>, start: Option<Item>, cutoff: int, anchor: Option<Item>, buffer: seq<Item>,
                     position: nat)
    requires Tracks(log, start, cutoff, anchor, buffer, position)
    ensures AnchorAfter(log, cutoff, start) == anchor
  {
    if log != [] { TracksSeen(log, log[..|log| - 1], log[|log| - 1], start, cutoff, anchor, buffer, position); }
  }

  lemma FetchTracks(log: seq<Fetch>, start: Option<Item>, cutoff: int, anchor: Option<Item>, index: seq<Item>,
                    count: nat)
    requires count >= 1 && AnchorAfter(log, cutoff, start) == anchor
    ensures var log' := log + [Fetch(index, count, 0)];
      && Tracks(log', start, cutoff, anchor, Take(Rest(index, cutoff, anchor), count), 0)
      && SeenAll(log', cutoff, start) == SeenAll(log, cutoff, start)
  {
    var f, buffer := Fetch(index, count, 0), Take(Rest(index, cutoff, anchor), count);
    assert (log + [f])[..|log|] == log;
    TracksSeen(log + [f], log, f, start, cutoff, anchor, buffer, 0);
    assert SeenAll(log, cutoff, start) + [] == SeenAll(log, cutoff, start);
  }

  /** One more item of the last fetch has been visited. */
  function UseOne(log: seq<Fetch>): seq<Fetch>
    requires log != []
  {
    var n := |log| - 1;
    log[..n] + [log[n].(used := log[n].used + 1)]
  }

  lemma UseLast(past: seq<Fetch>, f: Fetch, start: Option<Item>, cutoff: int, anchor: Option<Item>, buffer: seq<Item>,
                position: nat)
    requires TracksLast(past, f, start, cutoff, anchor, buffer, position) && position < |buffer|
    ensures TracksLast(past, f.(used := f.used + 1), start, cutoff, Some(buffer[position]), buffer, position + 1)
    ensures buffer[..position + 1] == buffer[..position] + [buffer[position]]
  {
  }

  lemma UseTracks(log: seq<Fetch>, start: Option<Item>, cutoff: int, anchor: Option<Item>, buffer: seq<Item>,
                  position: nat)
    requires Tracks(log, start, cutoff, anchor, buffer, position) && position < |buffer|
    ensures Tracks(UseOne(log), start, cutoff, Some(buffer[position]), buffer, position + 1)
    ensures SeenAll(UseOne(log), cutoff, start) == SeenAll(log, cutoff, start) + [buffer[position]]
  {
    var past, f := log[..|log| - 1], log[|log| - 1];
    var f' := f.(used := f.used + 1);
    UseLast(past, f, start, cutoff, anchor, buffer, position);
    TracksSeen(log, past, f, start, cutoff, anchor, buffer, position);
    TracksSeen(UseOne(log), past, f', start, cutoff, Some(buffer[position]), buffer, position + 1);
    Assoc(SeenAll(past, cutoff, start), buffer[..position], [buffer[position]]);
    assert UseOne(log)[..|log| - 1] == past;
  }

  /** fill: fetch the next items of one queue when its buffer is used up. */
  method Fill(source: Source, q: nat, tick: nat, cutoff: int, r: Reader, ghost start: Option<Item>,
              ghost log: seq<Fetch>)
    returns (tick': nat, r': Reader, ghost log': seq<Fetch>)
    requires Ordered(source) && Fetched(source, q, log) && Behind(log, start, cutoff, r)
    requires Fixed(source) ==>
      && r.position <= |r.buffer| && r.buffer[r.position..] <= Rest(source(q, 0), cutoff, r.anchor)
      && (r.exhausted ==> Rest(source(q, 0), cutoff, r.anchor) == [])
    ensures ReaderOk(source, q, log', start, cutoff, r') && r'.anchor == r.anchor
    ensures SeenAll(log', cutoff, start) == SeenAll(log, cutoff, start)
    ensures Fixed(source) ==> Ahead(Rest(source(q, 0), cutoff, r.anchor), r')
  {
    if r.position < |r.buffer| || r.exhausted { return tick, r, log; }
    var page := ReadPage(source(q, tick), cutoff, r.anchor, r.size);
    TracksAnchor(log, start, cutoff, r.anchor, r.buffer, r.position);
    FetchTracks(log, start, cutoff, r.anchor, source(q, tick), r.size);
    return tick + 1, Reader(r.anchor, page, 0, page == [], 50), log + [Fetch(source(q, tick), r.size, 0)];
  }

  // ---------- The page loop ----------

  function Rests(indexes: seq<seq<Item>>, cutoff: int, anchors: seq<Option<Item>>): (rests: seq<seq<Item>>)
    requires |anchors| == |indexes|
    ensures |rests| == |indexes|
  {
    seq(|indexes|, i requires 0 <= i < |indexes| => Rest(indexes[i], cutoff, anchors[i]))
  }

  /** The indexes at the first moment. */
  function Indexes(source: Source, n: nat): seq<seq<Item>> {
    seq(n, q requires 0 <= q < n => source(q, 0))
  }

  function AnchorsOf(readers: seq<Reader>): seq<Option<Item>> {
    seq(|readers|, i requires 0 <= i < |readers| => readers[i].anchor)
  }

  /** What of the buffer is not used yet. */
  function Left(r: Reader): seq<Item>
    requires Ready(r)
  {
    r.buffer[r.position..]
  }

  function Tails(readers: seq<Reader>): seq<seq<Item>>
    requires forall r <- readers :: Ready(r)
  {
    seq(|readers|, i requires 0 <= i < |readers| => Left(readers[i]))
  }

  /** The available queue with the largest next item; Python's max keeps the first one on a tie. */
  method PickBest(readers: seq<Reader>) returns (best: int)
    requires forall r <- readers :: Ready(r)
    ensures best == BestOf(Tails(readers), |readers|)
  {
    best := -1;
    ghost var tails := Tails(readers);
    for i := 0 to |readers|
      invariant best == BestOf(tails, i)
    {
      assert Ready(readers[i]);
      if readers[i].position < |readers[i].buffer| {
        assert readers[i].buffer[readers[i].position] == tails[i][0];
        if best < 0 {
          best := i;
        } else {
          assert Ready(readers[best]) && tails[best] == Left(readers[best]);
          var x, y := readers[best].buffer[readers[best].position], readers[i].buffer[readers[i].position];
          assert x == tails[best][0];
          var smaller := IsEligible(x, y.score, Some(y));
          if smaller { best := i; }
        }
      }
    }
  }

  /** Which queue is best depends on the first items only. */
  lemma {:induction false} SameHeads(xs: seq<seq<Item>>, ys: seq<seq<Item>>, n: nat)
    requires n <= |xs| == |ys|
    requires forall i :: 0 <= i < n ==> (xs[i] == [] <==> ys[i] == []) && (xs[i] != [] ==> xs[i][0] == ys[i][0])
    ensures BestOf(xs, n) == BestOf(ys, n)
  {
    if n > 0 { SameHeads(xs, ys, n - 1); }
  }

  function Wanted(visits: seq<Visit>, matches: Visit -> bool): seq<Visit> {
    if visits == [] then []
    else Wanted(visits[..|visits| - 1], matches)
         + (if matches(visits[|visits| - 1]) then [visits[|visits| - 1]] else [])
  }

  /** Taking the best item of the queues is one step of the merge. */
  lemma TakeBest(indexes: seq<seq<Item>>, cutoff: int, anchors: seq<Option<Item>>, b: nat)
    requires |anchors| == |indexes| && forall q :: 0 <= q < |indexes| ==> Descending(indexes[q])
    requires var rests := Rests(indexes, cutoff, anchors); b == BestOf(rests, |rests|)
    ensures var rests := Rests(indexes, cutoff, anchors);
      && rests[b] != []
      && Rests(indexes, cutoff, anchors[b := Some(rests[b][0])]) == rests[b := rests[b][1..]]
      && Merge(rests) == [Visit(b, rests[b][0])] + Merge(rests[b := rests[b][1..]])
  {
    RestAdvances(indexes[b], cutoff, anchors[b]);
  }

  /** Every queue's reader, with its log of fetches. */
  ghost predicate ReadersOk(source: Source, cutoff: int, starts: seq<Option<Item>>, readers: seq<Reader>,
                            logs: seq<seq<Fetch>>) {
    && |starts| == |readers| == |logs|
    && (forall r <- readers :: Ready(r))
    && forall q :: 0 <= q < |readers| ==> ReaderOk(source, q, logs[q], starts[q], cutoff, readers[q])
  }

  predicate AllAhead(rests: seq<seq<Item>>, readers: seq<Reader>) {
    |rests| == |readers| && forall q :: 0 <= q < |rests| ==> Ahead(rests[q], readers[q])
  }

  lemma BestAhead(rests: seq<seq<Item>>, readers: seq<Reader>)
    requires AllAhead(rests, readers) && forall r <- readers :: Ready(r)
    ensures BestOf(Tails(readers), |readers|) == BestOf(rests, |rests|)
  {
    var tails := Tails(readers);
    forall i | 0 <= i < |rests|
      ensures (tails[i] == [] <==> rests[i] == []) && (tails[i] != [] ==> tails[i][0] == rests[i][0])
    {
      assert Ahead(rests[i], readers[i]);
    }
    SameHeads(tails, rests, |rests|);
  }

  /** The items visited in one queue are what its log says was seen. */
  predicate Recorded(visits: seq<Visit>, logs: seq<seq<Fetch>>, cutoff: int, starts: seq<Option<Item>>) {
    |logs| == |starts| && forall q: nat :: q < |logs| ==> ItemsOf(visits, q) == SeenAll(logs[q], cutoff, starts[q])
  }

  lemma {:induction false} ItemsAppend(xs: seq<Visit>, ys: seq<Visit>, q: nat)
    ensures ItemsOf(xs + ys, q) == ItemsOf(xs, q) + ItemsOf(ys, q)
    decreases |xs|
  {
    if xs == [] {
      assert xs + ys == ys;
    } else {
      var v, rest := xs[0], xs[1..];
      ItemsAppend(rest, ys, q);
      ItemsCons(v, rest, q);
      ItemsCons(v, rest + ys, q);
      Assoc(if v.queue == q then [v.item] else [], ItemsOf(rest, q), ItemsOf(ys, q));
      assert xs == [v] + rest && xs + ys == [v] + (rest + ys);
    }
  }

  lemma RecordNext(visits: seq<Visit>, v: Visit, logs: seq<seq<Fetch>>, logs': seq<seq<Fetch>>, cutoff: int,
                   starts: seq<Option<Item>>)
    requires Recorded(visits, logs, cutoff, starts) && |logs'| == |logs|
    requires forall q: nat :: q < |logs| ==>
      SeenAll(logs'[q], cutoff, starts[q]) == SeenAll(logs[q], cutoff, starts[q]) + if q == v.queue then [v.item]
        else []
    ensures Recorded(visits + [v], logs', cutoff, starts)
  {
    forall q: nat | q < |logs'| ensures ItemsOf(visits + [v], q) == SeenAll(logs'[q], cutoff, starts[q]) {
      ItemsAppend(visits, [v], q);
      assert [v][1..] == [];
    }
  }

  lemma AheadTail(rest: seq<Item>, r: Reader)
    requires Ahead(rest, r) && r.position < |r.buffer|
    ensures rest != [] && r.buffer[r.position] == rest[0] && r.buffer[r.position + 1..] <= rest[1..]
  {
    assert r.buffer[r.position..][1..] == r.buffer[r.position + 1..];
  }

  /** The reader after its next item has been visited, before it is refilled. */
  function Visited(r: Reader): Reader
    requires r.position < |r.buffer|
  {
    r.(anchor := Some(r.buffer[r.position]), position := r.position + 1)
  }

  lemma UseBehind(source: Source, q: nat, log: seq<Fetch>, start: Option<Item>, cutoff: int, r: Reader)
    requires ReaderOk(source, q, log, start, cutoff, r) && r.position < |r.buffer|
    ensures Behind(UseOne(log), start, cutoff, Visited(r)) && Fetched(source, q, UseOne(log)) && !r.exhausted
    ensures SeenAll(UseOne(log), cutoff, start) == SeenAll(log, cutoff, start) + [r.buffer[r.position]]
  {
    UseTracks(log, start, cutoff, r.anchor, r.buffer, r.position);
    assert Fetched(source, q, UseOne(log)) by { assert log[|log| - 1] in log; }
  }

  lemma AheadVisited(index: seq<Item>, cutoff: int, r: Reader)
    requires Descending(index) && Ahead(Rest(index, cutoff, r.anchor), r) && r.position < |r.buffer|
    ensures Visited(r).buffer[Visited(r).position..] <= Rest(index, cutoff, Visited(r).anchor)
  {
    AheadTail(Rest(index, cutoff, r.anchor), r);
    RestAdvances(index, cutoff, r.anchor);
  }

  /** One turn for one queue: visit its next item, move its anchor, refill its buffer. */
  method VisitOne(source: Source, q: nat, tick: nat, cutoff: int, r: Reader, ghost start: Option<Item>,
                  ghost log: seq<Fetch>)
    returns (item: Item, tick': nat, r': Reader, ghost log': seq<Fetch>)
    requires Ordered(source) && ReaderOk(source, q, log, start, cutoff, r) && r.position < |r.buffer|
    requires Fixed(source) ==> Ahead(Rest(source(q, 0), cutoff, r.anchor), r)
    ensures item == r.buffer[r.position] && r'.anchor == Some(item) && ReaderOk(source, q, log', start, cutoff, r')
    ensures SeenAll(log', cutoff, start) == SeenAll(log, cutoff, start) + [item]
    ensures Fixed(source) ==> Ahead(Rest(source(q, 0), cutoff, Some(item)), r')
  {
    item := r.buffer[r.position];
    UseBehind(source, q, log, start, cutoff, r);
    if Fixed(source) { AheadVisited(source(q, 0), cutoff, r); }
    tick', r', log' := Fill(source, q, tick, cutoff, Visited(r), start, UseOne(log));
  }

  lemma ReadersPut(source: Source, cutoff: int, starts: seq<Option<Item>>, readers: seq<Reader>, logs: seq<seq<Fetch>>,
                   i: nat, r: Reader, log: seq<Fetch>)
    requires ReadersOk(source, cutoff, starts, readers, logs) && i < |readers|
    requires ReaderOk(source, i, log, starts[i], cutoff, r)
    ensures ReadersOk(source, cutoff, starts, readers[i := r], logs[i := log])
    ensures AnchorsOf(readers[i := r]) == AnchorsOf(readers)[i := r.anchor]
  {
  }

  lemma AheadPut(source: Source, cutoff: int, readers: seq<Reader>, i: nat, r: Reader)
    requires AllAhead(Rests(Indexes(source, |readers|), cutoff, AnchorsOf(readers)), readers) && i < |readers|
    requires Ahead(Rest(source(i, 0), cutoff, r.anchor), r)
    ensures AllAhead(Rests(Indexes(source, |readers|), cutoff, AnchorsOf(readers[i := r])), readers[i := r])
  {
    var indexes := Indexes(source, |readers|);
    var before := Rests(indexes, cutoff, AnchorsOf(readers));
    var after := Rests(indexes, cutoff, AnchorsOf(readers[i := r]));
    forall q | 0 <= q < |readers| ensures Ahead(after[q], readers[i := r][q]) {
      if q != i { assert after[q] == before[q] && Ahead(before[q], readers[q]); }
    }
  }

  /** The body of the page loop on the best queue. */
  method VisitBest(source: Source, tick: nat, cutoff: int, ghost starts: seq<Option<Item>>, readers: seq<Reader>,
                   best: nat, ghost logs: seq<seq<Fetch>>)
    returns (v: Visit, tick': nat, readers': seq<Reader>, ghost logs': seq<seq<Fetch>>)
    requires Ordered(source) && ReadersOk(source, cutoff, starts, readers, logs)
    requires best < |readers| && readers[best].position < |readers[best].buffer|
    requires Fixed(source) ==>
      var rests := Rests(Indexes(source, |readers|), cutoff, AnchorsOf(readers));
      AllAhead(rests, readers) && best == BestOf(rests, |rests|)
    ensures v == Visit(best, readers[best].buffer[readers[best].position]) && |readers'| == |readers| == |logs'|
    ensures ReadersOk(source, cutoff, starts, readers', logs')
    ensures forall q: nat :: q < |logs| ==>
      SeenAll(logs'[q], cutoff, starts[q]) == SeenAll(logs[q], cutoff, starts[q]) + if q == best then [v.item] else []
    ensures Fixed(source) ==>
      var indexes := Indexes(source, |readers|);
      && AllAhead(Rests(indexes, cutoff, AnchorsOf(readers')), readers')
      && Merge(Rests(indexes, cutoff, AnchorsOf(readers))) == [v] + Merge(Rests(indexes, cutoff, AnchorsOf(readers')))
  {
    ghost var indexes, anchors := Indexes(source, |readers|), AnchorsOf(readers);
    assert ReaderOk(source, best, logs[best], starts[best], cutoff, readers[best]);
    if Fixed(source) {
      assert Ahead(Rests(indexes, cutoff, anchors)[best], readers[best]);
      AheadTail(Rests(indexes, cutoff, anchors)[best], readers[best]);
      TakeBest(indexes, cutoff, anchors, best);
    }
    var item, t, r;
    ghost var log;
    item, t, r, log := VisitOne(source, best, tick, cutoff, readers[best], starts[best], logs[best]);
    ReadersPut(source, cutoff, starts, readers, logs, best, r, log);
    if Fixed(source) { AheadPut(source, cutoff, readers, best, r); }
    v, tick', readers', logs' := Visit(best, item), t, readers[best := r], logs[best := log];
  }

  lemma WantedNext(visits: seq<Visit>, v: Visit, matches: Visit -> bool)
    ensures Wanted(visits + [v], matches) == Wanted(visits, matches) + (if matches(v) then [v] else [])
  {
    assert (visits + [v])[..|visits|] == visits;
  }

  lemma ReadersAdd(source: Source, cutoff: int, anchors: seq<Option<Item>>, readers: seq<Reader>, logs: seq<seq<Fetch>>,
                   r: Reader, log: seq<Fetch>)
    requires |readers| < |anchors| && ReadersOk(source, cutoff, anchors[..|readers|], readers, logs)
    requires ReaderOk(source, |readers|, log, anchors[|readers|], cutoff, r)
    ensures ReadersOk(source, cutoff, anchors[..|readers| + 1], readers + [r], logs + [log])
  {
    var n := |readers|;
    forall q | 0 <= q < n + 1
      ensures ReaderOk(source, q, (logs + [log])[q], anchors[..n + 1][q], cutoff, (readers + [r])[q])
    {
      if q < n {
        assert ReaderOk(source, q, logs[q], anchors[..n][q], cutoff, readers[q]);
        assert (logs + [log])[q] == logs[q] && (readers + [r])[q] == readers[q]
          && anchors[..n + 1][q] == anchors[..n][q];
      } else {
        assert (logs + [log])[q] == log && (readers + [r])[q] == r && anchors[..n + 1][q] == anchors[n];
      }
    }
  }

  /** Inside a page: what has been visited, and what the readers stand before. */
  ghost predicate Paging(source: Source, cutoff: int, starts: seq<Option<Item>>, readers: seq<Reader>,
                         logs: seq<seq<Fetch>>, visits: seq<Visit>) {
    && ReadersOk(source, cutoff, starts, readers, logs) && Recorded(visits, logs, cutoff, starts)
    && (Fixed(source) ==>
          var indexes := Indexes(source, |starts|);
          var rests := Rests(indexes, cutoff, AnchorsOf(readers));
          AllAhead(rests, readers) && Merge(Rests(indexes, cutoff, starts)) == visits + Merge(rests))
  }

  /** The queues filled so far. */
  ghost predicate FilledSoFar(source: Source, cutoff: int, anchors: seq<Option<Item>>, readers: seq<Reader>,
                              logs: seq<seq<Fetch>>) {
    && |readers| == |logs| <= |anchors| && ReadersOk(source, cutoff, anchors[..|readers|], readers, logs)
    && forall q: nat :: q < |readers| ==> JustFilled(source, q, cutoff, anchors[q], readers[q], logs[q])
  }

  /** One queue of those filled so far. */
  ghost predicate JustFilled(source: Source, q: nat, cutoff: int, anchor: Option<Item>, r: Reader, log: seq<Fetch>) {
    && r.anchor == anchor && SeenAll(log, cutoff, anchor) == []
    && (Fixed(source) ==> Ahead(Rest(source(q, 0), cutoff, anchor), r))
  }

  lemma FillNext(source: Source, cutoff: int, anchors: seq<Option<Item>>, readers: seq<Reader>, logs: seq<seq<Fetch>>,
                 r: Reader, log: seq<Fetch>)
    requires FilledSoFar(source, cutoff, anchors, readers, logs) && |readers| < |anchors|
    requires ReaderOk(source, |readers|, log, anchors[|readers|], cutoff, r)
    requires JustFilled(source, |readers|, cutoff, anchors[|readers|], r, log)
    ensures FilledSoFar(source, cutoff, anchors, readers + [r], logs + [log])
  {
    ReadersAdd(source, cutoff, anchors, readers, logs, r, log);
    forall q: nat | q < |readers| + 1
      ensures JustFilled(source, q, cutoff, anchors[q], (readers + [r])[q], (logs + [log])[q])
    {
      if q < |readers| {
        assert (readers + [r])[q] == readers[q] && (logs + [log])[q] == logs[q];
      } else {
        assert (readers + [r])[q] == r && (logs + [log])[q] == log;
      }
    }
  }

  lemma AllFilled(source: Source, cutoff: int, anchors: seq<Option<Item>>, readers: seq<Reader>, logs: seq<seq<Fetch>>)
    requires FilledSoFar(source, cutoff, anchors, readers, logs) && |readers| == |anchors|
    ensures Paging(source, cutoff, anchors, readers, logs, [])
  {
    forall q: nat | q < |readers|
      ensures readers[q].anchor == anchors[q] && SeenAll(logs[q], cutoff, anchors[q]) == [] {
      assert JustFilled(source, q, cutoff, anchors[q], readers[q], logs[q]);
    }
    assert anchors[..|anchors|] == anchors && AnchorsOf(readers) == anchors;
    var rests := Rests(Indexes(source, |anchors|), cutoff, anchors);
    if Fixed(source) {
      forall q | 0 <= q < |readers| ensures Ahead(rests[q], readers[q]) {
        assert JustFilled(source, q, cutoff, anchors[q], readers[q], logs[q]);
      }
    }
    assert [] + Merge(rests) == Merge(rests);
  }

  method FillAll(source: Source, tick: nat, cutoff: int, anchors: seq<Option<Item>>)
    returns (tick': nat, readers: seq<Reader>, ghost logs: seq<seq<Fetch>>)
    requires Ordered(source)
    ensures Paging(source, cutoff, anchors, readers, logs, [])
  {
    tick', readers, logs := tick, [], [];
    for i := 0 to |anchors|
      invariant |readers| == i && FilledSoFar(source, cutoff, anchors, readers, logs)
    {
      var r;
      ghost var log;
      tick', r, log := Fill(source, i, tick', cutoff, Reader(anchors[i], [], 0, false, 1), anchors[i], []);
      FillNext(source, cutoff, anchors, readers, logs, r, log);
      readers, logs := readers + [r], logs + [log];
    }
    AllFilled(source, cutoff, anchors, readers, logs);
  }

  lemma VisitNext(all: seq<Visit>, visits: seq<Visit>, v: Visit, rest: seq<Visit>)
    requires all == visits + ([v] + rest)
    ensures all == (visits + [v]) + rest
  {
  }

  /** One turn of the page loop; nothing is left when no reader has an item. */
  method PageStep(source: Source, tick: nat, cutoff: int, ghost starts: seq<Option<Item>>, readers: seq<Reader>,
                  ghost logs: seq<seq<Fetch>>,
                  ghost visits: seq<Visit>)
    returns (v: Option<Visit>, tick': nat, readers': seq<Reader>, ghost logs': seq<seq<Fetch>>)
    requires Ordered(source) && Paging(source, cutoff, starts, readers, logs, visits)
    ensures v.None? ==> BestOf(Tails(readers), |readers|) < 0 && readers' == readers && logs' == logs
    ensures v.Some? ==> Paging(source, cutoff, starts, readers', logs', visits + [v.value])
  {
    var best := PickBest(readers);
    if best < 0 { return None, tick, readers, logs; }
    if Fixed(source) { BestAhead(Rests(Indexes(source, |starts|), cutoff, AnchorsOf(readers)), readers); }
    assert Tails(readers)[best] != [] && Ready(readers[best]);
    var w;
    w, tick', readers', logs' := VisitBest(source, tick, cutoff, starts, readers, best, logs);
    RecordNext(visits, w, logs, logs', cutoff, starts);
    if Fixed(source) {
      ghost var indexes := Indexes(source, |starts|);
      VisitNext(Merge(Rests(indexes, cutoff, starts)), visits, w, Merge(Rests(indexes, cutoff, AnchorsOf(readers'))));
    }
    v := Some(w);
  }

  /** Some fetch found nothing of this queue after the anchor. */
  ghost predicate Ended(source: Source, q: nat, cutoff: int, anchor: Option<Item>) {
    exists t: nat :: Rest(source(q, t), cutoff, anchor) == []
  }

  lemma ReaderEnded(source: Source, q: nat, log: seq<Fetch>, start: Option<Item>, cutoff: int, r: Reader)
    requires ReaderOk(source, q, log, start, cutoff, r) && r.position == |r.buffer|
    ensures Ended(source, q, cutoff, r.anchor)
  {
    assert Rest(log[|log| - 1].index, cutoff, r.anchor) == [] && log[|log| - 1] in log;
  }

  method NothingLeft(readers: seq<Reader>) returns (done: bool)
    requires forall r <- readers :: Ready(r)
    ensures done <==> BestOf(Tails(readers), |readers|) < 0
    ensures done <==> forall r <- readers :: r.position == |r.buffer|
  {
    ghost var tails := Tails(readers);
    for i := 0 to |readers|
      invariant forall j :: 0 <= j < i ==> tails[j] == [] && readers[j].position == |readers[j].buffer|
    {
      assert Ready(readers[i]) && tails[i] == Left(readers[i]);
      if readers[i].position < |readers[i].buffer| || !readers[i].exhausted { return false; }
    }
    return true;
  }

  /** Visits, logs and anchors agree: what was visited in a queue is what its fetches saw, one after another. */
  ghost predicate Followed(source: Source, cutoff: int, starts: seq<Option<Item>>, visits: seq<Visit>,
                           anchors: seq<Option<Item>>, logs: seq<seq<Fetch>>) {
    && |starts| == |anchors| == |logs| && Recorded(visits, logs, cutoff, starts)
    && forall q: nat :: q < |starts| ==>
       Fetched(source, q, logs[q]) && anchors[q] == AnchorAfter(logs[q], cutoff, starts[q])
  }

  /**
   What one page, or a chain of pages, has done: it ends only when every queue's last fetch found
   nothing, and over indexes that do not change it has visited a prefix of the merge.
   */
  ghost predicate Explored(source: Source, cutoff: int, starts: seq<Option<Item>>, visits: seq<Visit>,
                           anchors: seq<Option<Item>>, logs: seq<seq<Fetch>>, done: bool)
  {
    && Followed(source, cutoff, starts, visits, anchors, logs)
    && (done ==> forall q: nat :: q < |starts| ==> Ended(source, q, cutoff, anchors[q]))
    && (Fixed(source) ==>
          var indexes := Indexes(source, |starts|);
          && Merge(Rests(indexes, cutoff, starts)) == visits + Merge(Rests(indexes, cutoff, anchors))
          && (done ==> Merge(Rests(indexes, cutoff, anchors)) == []))
  }

  lemma ReadersFollow(source: Source, cutoff: int, starts: seq<Option<Item>>, readers: seq<Reader>,
                      logs: seq<seq<Fetch>>, visits: seq<Visit>)
    requires ReadersOk(source, cutoff, starts, readers, logs) && Recorded(visits, logs, cutoff, starts)
    ensures Followed(source, cutoff, starts, visits, AnchorsOf(readers), logs)
    ensures (forall r <- readers :: r.position == |r.buffer|) ==>
      forall q: nat :: q < |starts| ==> Ended(source, q, cutoff, AnchorsOf(readers)[q])
  {
    forall q: nat | q < |starts|
      ensures Fetched(source, q, logs[q]) && readers[q].anchor == AnchorAfter(logs[q], cutoff, starts[q])
      ensures readers[q].position == |readers[q].buffer| ==> Ended(source, q, cutoff, readers[q].anchor)
    {
      assert ReaderOk(source, q, logs[q], starts[q], cutoff, readers[q]);
      TracksAnchor(logs[q], starts[q], cutoff, readers[q].anchor, readers[q].buffer, readers[q].position);
      if readers[q].position == |readers[q].buffer| { ReaderEnded(source, q, logs[q], starts[q], cutoff, readers[q]); }
    }
  }

  lemma NoBestNoMerge(rests: seq<seq<Item>>)
    ensures Merge(rests) == [] <==> BestOf(rests, |rests|) < 0
  {
  }

  /**
   search_tasks_page over the history indexes, each fetch reading the index as it then is.  What is
   visited in a queue is what its fetches saw, one after another; it stops only at a limit or when
   every queue's last fetch found nothing.  If the indexes do not change, what it visits and what the
   new anchors leave make up exactly the merge the old anchors left, in order.
   */
  method SearchPage(source: Source, tick: nat, cutoff: int, anchors: seq<Option<Item>>, limit: nat, scanLimit: nat,
                    matches: Visit -> bool)
    returns (rows: seq<Visit>, ghost visits: seq<Visit>, tick': nat, anchors': seq<Option<Item>>, done: bool,
             ghost logs: seq<seq<Fetch>>)
    requires Ordered(source) && 1 <= limit <= scanLimit
    ensures Explored(source, cutoff, anchors, visits, anchors', logs, done)
    ensures Fixed(source) && !done ==> Merge(Rests(Indexes(source, |anchors|), cutoff, anchors')) != []
    ensures rows == Wanted(visits, matches) && |rows| <= limit && |visits| <= scanLimit
    ensures done || |rows| == limit || |visits| == scanLimit
    ensures done || |visits| >= 1
  {
    var readers;
    tick', readers, logs := FillAll(source, tick, cutoff, anchors);
    rows, visits := [], [];
    var scanned := 0;
    while |rows| < limit && scanned < scanLimit
      invariant scanned == |visits| <= scanLimit && |rows| <= limit && |rows| <= |visits|
      invariant Paging(source, cutoff, anchors, readers, logs, visits) && rows == Wanted(visits, matches)
    {
      var v;
      v, tick', readers, logs := PageStep(source, tick', cutoff, anchors, readers, logs, visits);
      if v.None? { break; }
      WantedNext(visits, v.value, matches);
      visits := visits + [v.value];
      scanned := scanned + 1;
      if matches(v.value) { rows := rows + [v.value]; }
    }
    done := NothingLeft(readers);
    anchors' := AnchorsOf(readers);
    PageEnds(source, cutoff, anchors, readers, logs, visits, done);
  }

  lemma PageEnds(source: Source, cutoff: int, starts: seq<Option<Item>>, readers: seq<Reader>, logs: seq<seq<Fetch>>,
                 visits: seq<Visit>, done: bool)
    requires Paging(source, cutoff, starts, readers, logs, visits)
    requires (done <==> BestOf(Tails(readers), |readers|) < 0)
      && (done <==> forall r <- readers :: r.position == |r.buffer|)
    ensures Explored(source, cutoff, starts, visits, AnchorsOf(readers), logs, done)
    ensures Fixed(source) && !done ==> Merge(Rests(Indexes(source, |starts|), cutoff, AnchorsOf(readers))) != []
  {
    ReadersFollow(source, cutoff, starts, readers, logs, visits);
    if Fixed(source) {
      var rests := Rests(Indexes(source, |starts|), cutoff, AnchorsOf(readers));
      BestAhead(rests, readers);
      NoBestNoMerge(rests);
    }
  }

  // ---------- A chain of pages ----------

  datatype PageBudget = PageBudget(limit: nat, scanLimit: nat)

  lemma WantedAppend(xs: seq<Visit>, ys: seq<Visit>, matches: Visit -> bool)
    ensures Wanted(xs + ys, matches) == Wanted(xs, matches) + Wanted(ys, matches)
  {
    if ys == [] {
      assert xs + ys == xs;
    } else {
      var n := |ys| - 1;
      WantedAppend(xs, ys[..n], matches);
      assert (xs + ys)[..|xs| + n] == xs + ys[..n];
    }
  }

  lemma PageNext(visits: seq<Visit>, seen: seq<Visit>, rest: seq<Visit>)
    ensures visits + (seen + rest) == (visits + seen) + rest
  {
  }

  lemma EndOfMerge(indexes: seq<seq<Item>>, cutoff: int, start: seq<seq<Item>>, visits: seq<Visit>)
    requires start == Rests(indexes, cutoff, seq(|indexes|, _ => None)) && Merge(start) == visits + []
    ensures forall q: nat :: q < |indexes| ==> ItemsOf(visits, q) == Rest(indexes[q], cutoff, None)
  {
    assert visits + [] == visits;
    forall q: nat | q < |indexes| ensures ItemsOf(visits, q) == Rest(indexes[q], cutoff, None) {
      MergeKeepsEveryItem(start, q);
    }
  }

  predicate NoneYet(anchors: seq<Option<Item>>) {
    forall q :: 0 <= q < |anchors| ==> anchors[q] == None
  }

  /** Logs of one page after the logs of those before. */
  function Joined(logs: seq<seq<Fetch>>, more: seq<seq<Fetch>>): seq<seq<Fetch>>
    requires |logs| == |more|
  {
    seq(|logs|, q requires 0 <= q < |logs| => logs[q] + more[q])
  }

  lemma FollowNext(source: Source, cutoff: int, starts: seq<Option<Item>>, visits: seq<Visit>,
                   anchors: seq<Option<Item>>, logs: seq<seq<Fetch>>,
                   seen: seq<Visit>, next: seq<Option<Item>>, more: seq<seq<Fetch>>)
    requires Followed(source, cutoff, starts, visits, anchors, logs)
      && Followed(source, cutoff, anchors, seen, next, more)
    ensures Followed(source, cutoff, starts, visits + seen, next, Joined(logs, more))
  {
    forall q: nat | q < |starts|
      ensures ItemsOf(visits + seen, q) == SeenAll(logs[q] + more[q], cutoff, starts[q])
      ensures next[q] == AnchorAfter(logs[q] + more[q], cutoff, starts[q])
    {
      ItemsAppend(visits, seen, q);
      ViewedAppend(logs[q], more[q], ViewUpTo(cutoff), starts[q]);
    }
  }

  ghost predicate AlwaysThere(source: Source, q: nat, e: Item) {
    forall t: nat :: e in source(q, t)
  }

  /** An entry that is always there is visited at most once, and once when its queue has ended. */
  lemma FollowedOnce(source: Source, cutoff: int, starts: seq<Option<Item>>, visits: seq<Visit>,
                     anchors: seq<Option<Item>>, logs: seq<seq<Fetch>>, q: nat, e: Item)
    requires Ordered(source) && Followed(source, cutoff, starts, visits, anchors, logs) && q < |starts|
      && starts[q].None?
    requires AlwaysThere(source, q, e) && e.score <= cutoff
    ensures multiset(ItemsOf(visits, q))[e] <= 1
    ensures (e in ItemsOf(visits, q)) != Eligible(e, cutoff, anchors[q])
    ensures Ended(source, q, cutoff, anchors[q]) ==> multiset(ItemsOf(visits, q))[e] == 1
  {
    forall f <- logs[q] ensures Descending(f.index) && e in f.index {
      var t: nat :| f.index == source(q, t);
    }
    EntryVisitedOnce(logs[q], cutoff, None, e);
    if Ended(source, q, cutoff, anchors[q]) {
      var t: nat :| Rest(source(q, t), cutoff, anchors[q]) == [];
      EndOfChain(logs[q], cutoff, e, source(q, t));
    }
  }

  lemma ExploreNext(source: Source, cutoff: int, starts: seq<Option<Item>>, visits: seq<Visit>,
                    anchors: seq<Option<Item>>, logs: seq<seq<Fetch>>,
                    seen: seq<Visit>, next: seq<Option<Item>>, more: seq<seq<Fetch>>, done: bool)
    requires Explored(source, cutoff, starts, visits, anchors, logs, false)
      && Explored(source, cutoff, anchors, seen, next, more, done)
    ensures Explored(source, cutoff, starts, visits + seen, next, Joined(logs, more), done)
  {
    FollowNext(source, cutoff, starts, visits, anchors, logs, seen, next, more);
    PageNext(visits, seen, Merge(Rests(Indexes(source, |starts|), cutoff, next)));
  }

  lemma ExploreNothing(source: Source, cutoff: int, starts: seq<Option<Item>>, logs: seq<seq<Fetch>>)
    requires |logs| == |starts| && forall q :: 0 <= q < |logs| ==> logs[q] == []
    ensures Explored(source, cutoff, starts, [], starts, logs, false)
  {
    var merge := Merge(Rests(Indexes(source, |starts|), cutoff, starts));
    assert [] + merge == merge;
  }

  lemma ExploredOnce(source: Source, cutoff: int, starts: seq<Option<Item>>, visits: seq<Visit>,
                     anchors: seq<Option<Item>>, logs: seq<seq<Fetch>>, done: bool)
    requires Ordered(source) && Explored(source, cutoff, starts, visits, anchors, logs, done) && NoneYet(starts)
    ensures forall q: nat, e: Item :: q < |starts| && AlwaysThere(source, q, e) && e.score <= cutoff ==>
      VisitedOnce(visits, q, e, cutoff, anchors[q], done)
  {
    forall q: nat, e: Item | q < |starts| && AlwaysThere(source, q, e) && e.score <= cutoff
      ensures VisitedOnce(visits, q, e, cutoff, anchors[q], done)
    {
      FollowedOnce(source, cutoff, starts, visits, anchors, logs, q, e);
    }
  }

  /** At most once so far, either visited or still ahead of the anchor, and exactly once when the chain is done. */
  predicate VisitedOnce(visits: seq<Visit>, q: nat, e: Item, cutoff: int, anchor: Option<Item>, done: bool) {
    && multiset(ItemsOf(visits, q))[e] <= 1
    && (e in ItemsOf(visits, q)) != Eligible(e, cutoff, anchor)
    && (done ==> multiset(ItemsOf(visits, q))[e] == 1)
  }

  /** All there is to visit in indexes that do not change. */
  ghost function WholeMerge(source: Source, queues: nat, cutoff: int): seq<Visit> {
    Merge(Rests(Indexes(source, queues), cutoff, seq(queues, _ => None)))
  }

  /** Over indexes that do not change: the visits are a prefix of the merge, and cover every queue at the end. */
  ghost predicate VisitsOfMerge(source: Source, queues: nat, cutoff: int, visits: seq<Visit>, done: bool) {
    && visits <= WholeMerge(source, queues, cutoff)
    && (done ==> forall q: nat :: q < queues ==> ItemsOf(visits, q) == Rest(source(q, 0), cutoff, None))
  }

  lemma ExploredRows(source: Source, queues: nat, cutoff: int, visits: seq<Visit>, anchors: seq<Option<Item>>,
                     logs: seq<seq<Fetch>>, matches: Visit -> bool, done: bool)
    requires Fixed(source) && Explored(source, cutoff, seq(queues, _ => None), visits, anchors, logs, done)
    ensures VisitsOfMerge(source, queues, cutoff, visits, done)
    ensures Wanted(visits, matches) <= Wanted(WholeMerge(source, queues, cutoff), matches)
    ensures done ==> Wanted(visits, matches) == Wanted(WholeMerge(source, queues, cutoff), matches)
  {
    var indexes := Indexes(source, queues);
    WantedAppend(visits, Merge(Rests(indexes, cutoff, anchors)), matches);
    if done { EndOfMerge(indexes, cutoff, Rests(indexes, cutoff, seq(queues, _ => None)), visits); }
  }

  /**
   A client follows cursors, with any page sizes, while other clients change the indexes.  An entry
   that is there all along is visited at most once, every page that is not the last makes progress,
   and when the chain ends it has been visited exactly once.  If the indexes do not change, the pages
   together are a prefix of the merge, and all of it when the chain ends.
   */
  method Browse(source: Source, queues: nat, cutoff: int, budgets: seq<PageBudget>, matches: Visit -> bool)
    returns (rows: seq<Visit>, ghost visits: seq<Visit>, ghost anchors: seq<Option<Item>>, done: bool)
    requires Ordered(source) && forall b <- budgets :: 1 <= b.limit <= b.scanLimit
    ensures |anchors| == queues && rows == Wanted(visits, matches)
    ensures forall q: nat, e: Item :: q < queues && AlwaysThere(source, q, e) && e.score <= cutoff ==>
      VisitedOnce(visits, q, e, cutoff, anchors[q], done)
    ensures done || |visits| >= |budgets|
    ensures Fixed(source) ==> VisitsOfMerge(source, queues, cutoff, visits, done)
    ensures Fixed(source) ==> rows <= Wanted(WholeMerge(source, queues, cutoff), matches)
    ensures Fixed(source) && done ==> rows == Wanted(WholeMerge(source, queues, cutoff), matches)
  {
    var now: seq<Option<Item>> := seq(queues, _ => None);
    ghost var logs: seq<seq<Fetch>> := seq(queues, _ => []);
    ghost var starts := now;
    rows, visits, done := [], [], false;
    ExploreNothing(source, cutoff, now, logs);
    var tick, i := 0, 0;
    while i < |budgets| && !done
      invariant 0 <= i <= |budgets| && |now| == queues && rows == Wanted(visits, matches)
      invariant Explored(source, cutoff, starts, visits, now, logs, done)
      invariant done || |visits| >= i
    {
      var page, next, end;
      ghost var seen, more;
      page, seen, tick, next, end, more :=
        SearchPage(source, tick, cutoff, now, budgets[i].limit, budgets[i].scanLimit, matches);
      WantedAppend(visits, seen, matches);
      ExploreNext(source, cutoff, starts, visits, now, logs, seen, next, more, end);
      rows, visits, now, done, logs := rows + page, visits + seen, next, end, Joined(logs, more);
      i := i + 1;
    }
    anchors := now;
    ExploredOnce(source, cutoff, starts, visits, anchors, logs, done);
    if Fixed(source) { ExploredRows(source, queues, cutoff, visits, anchors, logs, matches, done); }
  }
}
