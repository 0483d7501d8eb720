/**
 The containers of a queue, as the store really keeps them: lists for ready, dead-letter and
 per-worker processing messages, and a sorted set for delayed ones.  A message is removed by value
 from whatever position it is at.  The lemmas tie these containers to the one slot per task of
 `TaskModel`.
 */
module Containers {
  import opened Prelude
  import opened TaskModel

  datatype Lists = Lists(
    ready: seq<Message>,
    processing: map<Worker, seq<Message>>,
    delay: map<Message, Time>,
    dlq: seq<Message>)

  // ---------- Lists ----------

  /** LREM key 1 m. */
  function RemoveFirst(xs: seq<Message>, m: Message): seq<Message> {
    if xs == [] then []
    else if xs[0] == m then xs[1..]
    else [xs[0]] + RemoveFirst(xs[1..], m)
  }

  predicate NoDup(xs: seq<Message>) {
    forall i, j :: 0 <= i < j < |xs| ==> xs[i] != xs[j]
  }

  lemma {:induction false} RemoveFirstRemoves(xs: seq<Message>, m: Message)
    requires NoDup(xs)
    ensures NoDup(RemoveFirst(xs, m))
    ensures forall x :: x in RemoveFirst(xs, m) <==> x in xs && x != m
    ensures |RemoveFirst(xs, m)| == if m in xs then |xs| - 1 else |xs|
  {
    if xs != [] {
      var first, rest := xs[0], xs[1..];
      assert xs == [first] + rest;
      assert first !in rest;
      RemoveFirstRemoves(rest, m);
      if first != m {
        var r := RemoveFirst(rest, m);
        assert first !in r;
        assert forall i :: 1 <= i < |[first] + r| ==> ([first] + r)[i] == r[i - 1] && r[i - 1] in r;
      }
    }
  }

  /** Popping from the right is the same as removing the last message by value. */
  lemma {:induction false} RemoveLast(xs: seq<Message>)
    requires NoDup(xs) && xs != []
    ensures RemoveFirst(xs, xs[|xs| - 1]) == xs[..|xs| - 1]
  {
    if |xs| > 1 {
      var rest := xs[1..];
      assert NoDup(rest) by { assert forall i :: 0 <= i < |rest| ==> rest[i] == xs[i + 1]; }
      RemoveLast(rest);
      assert rest[|rest| - 1] == xs[|xs| - 1] != xs[0];
      assert [xs[0]] + rest[..|rest| - 1] == xs[..|xs| - 1];
    }
  }

  lemma {:induction false} RemoveMissing(xs: seq<Message>, m: Message)
    requires m !in xs
    ensures RemoveFirst(xs, m) == xs
  {
    if xs != [] { RemoveMissing(xs[1..], m); }
  }

  lemma {:induction false} RemoveMiddle(pre: seq<Message>, m: Message, post: seq<Message>)
    requires m !in pre
    ensures RemoveFirst(pre + ([m] + post), m) == pre + post
  {
    var all := pre + ([m] + post);
    if pre == [] {
      assert all == [m] + post;
    } else {
      RemoveMiddle(pre[1..], m, post);
      assert all[1..] == pre[1..] + ([m] + post);
      assert [pre[0]] + (pre[1..] + post) == pre + post;
    }
  }

  function WorkerList(l: Lists, w: Worker): seq<Message> {
    if w in l.processing then l.processing[w] else []
  }

  // ---------- Containers against slots ----------

  predicate InSlot(tasks: map<TaskId, Task>, place: Place, m: Message) {
    m.id in tasks && tasks[m.id].slot == Some(Slot(place, m))
  }

  /** The list holds exactly the messages whose slot it is, each once. */
  ghost predicate ListMirrors(xs: seq<Message>, tasks: map<TaskId, Task>, place: Place) {
    NoDup(xs) && forall m :: m in xs <==> InSlot(tasks, place, m)
  }

  ghost predicate DelayMirrors(delay: map<Message, Time>, tasks: map<TaskId, Task>) {
    forall m, t :: (m in delay && delay[m] == t) <==> InSlot(tasks, Delay(t), m)
  }

  ghost predicate ListsMirror(l: Lists, tasks: map<TaskId, Task>) {
    && ListMirrors(l.ready, tasks, Ready)
    && ListMirrors(l.dlq, tasks, Dlq)
    && (forall w :: ListMirrors(WorkerList(l, w), tasks, Processing(w)))
    && DelayMirrors(l.delay, tasks)
  }

  /** ZREM finds a message exactly when it is delayed, at whatever score. */
  lemma DelayedIff(delay: map<Message, Time>, tasks: map<TaskId, Task>, m: Message)
    requires DelayMirrors(delay, tasks)
    ensures m in delay <==> (m.id in tasks && tasks[m.id].slot.Some? && tasks[m.id].slot.value.place.Delay?
                             && tasks[m.id].slot.value.msg == m)
    ensures m in delay ==> InSlot(tasks, Delay(delay[m]), m)
  {
    if m in delay { assert InSlot(tasks, Delay(delay[m]), m); }
    if m.id in tasks && tasks[m.id].slot.Some? && tasks[m.id].slot.value.place.Delay?
      && tasks[m.id].slot.value.msg == m {
      assert InSlot(tasks, Delay(tasks[m.id].slot.value.place.score), m);
    }
  }

  /** LREM or ZREM. */
  function RemoveFrom(l: Lists, place: Place, m: Message): Lists {
    match place
    case Ready => l.(ready := RemoveFirst(l.ready, m))
    case Dlq => l.(dlq := RemoveFirst(l.dlq, m))
    case Processing(w) => l.(processing := l.processing[w := RemoveFirst(WorkerList(l, w), m)])
    case Delay(_) => l.(delay := l.delay - {m})
  }

  /** LPUSH or ZADD. */
  function PushTo(l: Lists, place: Place, m: Message): Lists {
    match place
    case Ready => l.(ready := [m] + l.ready)
    case Dlq => l.(dlq := [m] + l.dlq)
    case Processing(w) => l.(processing := l.processing[w := [m] + WorkerList(l, w)])
    case Delay(t) => l.(delay := l.delay[m := t])
  }

  /** RPUSH on the ready list: the next message to be popped. */
  function RequeueFirst(l: Lists, m: Message): Lists {
    l.(ready := l.ready + [m])
  }

  /** Two task maps put the same messages in that place. */
  ghost predicate SamePlace(tasks: map<TaskId, Task>, tasks': map<TaskId, Task>, place: Place) {
    forall m :: InSlot(tasks, place, m) <==> InSlot(tasks', place, m)
  }

  lemma ListSame(xs: seq<Message>, tasks: map<TaskId, Task>, tasks': map<TaskId, Task>, place: Place)
    requires ListMirrors(xs, tasks, place) && SamePlace(tasks, tasks', place)
    ensures ListMirrors(xs, tasks', place)
  {
    forall m ensures m in xs <==> InSlot(tasks', place, m) {}
  }

  lemma DelaySame(delay: map<Message, Time>, tasks: map<TaskId, Task>, tasks': map<TaskId, Task>)
    requires DelayMirrors(delay, tasks) && forall t :: SamePlace(tasks, tasks', Delay(t))
    ensures DelayMirrors(delay, tasks')
  {
    forall m, t ensures (m in delay && delay[m] == t) <==> InSlot(tasks', Delay(t), m) {
      assert SamePlace(tasks, tasks', Delay(t));
    }
  }

  /** The containers other than `place` stay in step when only `place` gains or loses a message. */
  lemma OthersMirror(l: Lists, l': Lists, tasks: map<TaskId, Task>, tasks': map<TaskId, Task>, place: Place)
    requires ListsMirror(l, tasks)
    requires forall p | p != place :: SamePlace(tasks, tasks', p)
    requires !place.Ready? ==> l'.ready == l.ready
    requires !place.Dlq? ==> l'.dlq == l.dlq
    requires forall w :: Processing(w) != place ==> WorkerList(l', w) == WorkerList(l, w)
    ensures !place.Ready? ==> ListMirrors(l'.ready, tasks', Ready)
    ensures !place.Dlq? ==> ListMirrors(l'.dlq, tasks', Dlq)
    ensures forall w :: Processing(w) != place ==> ListMirrors(WorkerList(l', w), tasks', Processing(w))
  {
    if !place.Ready? { ListSame(l.ready, tasks, tasks', Ready); }
    if !place.Dlq? { ListSame(l.dlq, tasks, tasks', Dlq); }
    forall w | Processing(w) != place ensures ListMirrors(WorkerList(l', w), tasks', Processing(w)) {
      ListSame(WorkerList(l, w), tasks, tasks', Processing(w));
    }
  }

  lemma SameSlotsMirror(l: Lists, tasks: map<TaskId, Task>, tasks': map<TaskId, Task>)
    requires ListsMirror(l, tasks) && forall p :: SamePlace(tasks, tasks', p)
    ensures ListsMirror(l, tasks')
  {
    OthersMirror(l, l, tasks, tasks', Delay(0));
    DelaySame(l.delay, tasks, tasks');
  }

  lemma SlotKeptMirrors(l: Lists, tasks: map<TaskId, Task>, id: TaskId, t': Task)
    requires ListsMirror(l, tasks) && id in tasks && t'.slot == tasks[id].slot
    ensures ListsMirror(l, tasks[id := t'])
  {
    SameSlotsMirror(l, tasks, tasks[id := t']);
  }

  lemma SlotsKeptMirror(l: Lists, tasks: map<TaskId, Task>, tasks': map<TaskId, Task>)
    requires ListsMirror(l, tasks) && tasks'.Keys == tasks.Keys && forall id <- tasks ::
      tasks'[id].slot == tasks[id].slot
    ensures ListsMirror(l, tasks')
  {
    SameSlotsMirror(l, tasks, tasks');
  }

  lemma ListRemove(xs: seq<Message>, tasks: map<TaskId, Task>, place: Place, m: Message, t': Task)
    requires ListMirrors(xs, tasks, place) && InSlot(tasks, place, m) && t'.slot.None?
    ensures ListMirrors(RemoveFirst(xs, m), tasks[m.id := t'], place)
  {
    RemoveFirstRemoves(xs, m);
    forall x ensures x in RemoveFirst(xs, m) <==> InSlot(tasks[m.id := t'], place, x) {
      assert x in xs <==> InSlot(tasks, place, x);
    }
  }

  /** Removing a held message empties the task's slot and touches no other. */
  lemma RemoveMirrors(l: Lists, tasks: map<TaskId, Task>, place: Place, m: Message, t': Task)
    requires ListsMirror(l, tasks) && InSlot(tasks, place, m) && t'.slot.None?
    ensures ListsMirror(RemoveFrom(l, place, m), tasks[m.id := t'])
  {
    var l', tasks' := RemoveFrom(l, place, m), tasks[m.id := t'];
    forall p | p != place ensures SamePlace(tasks, tasks', p) {}
    OthersMirror(l, l', tasks, tasks', place);
    match place
    case Ready => ListRemove(l.ready, tasks, place, m, t'); DelaySame(l.delay, tasks, tasks');
    case Dlq => ListRemove(l.dlq, tasks, place, m, t'); DelaySame(l.delay, tasks, tasks');
    case Processing(w) => ListRemove(WorkerList(l, w), tasks, place, m, t'); DelaySame(l.delay, tasks, tasks');
    case Delay(score) =>
      forall x, t ensures (x in l'.delay && l'.delay[x] == t) <==> InSlot(tasks', Delay(t), x) {
        assert (x in l.delay && l.delay[x] == t) <==> InSlot(tasks, Delay(t), x);
      }
  }

  lemma ListPush(xs: seq<Message>, tasks: map<TaskId, Task>, place: Place, m: Message, t': Task)
    requires ListMirrors(xs, tasks, place) && (m.id in tasks ==> tasks[m.id].slot.None?)
    requires t'.slot == Some(Slot(place, m))
    ensures ListMirrors([m] + xs, tasks[m.id := t'], place)
    ensures ListMirrors(xs + [m], tasks[m.id := t'], place)
  {
    assert m !in xs by { assert !InSlot(tasks, place, m); }
    forall x ensures (x in xs || x == m) <==> InSlot(tasks[m.id := t'], place, x) {
      assert x in xs <==> InSlot(tasks, place, x);
    }
    assert NoDup([m] + xs) by { assert forall i :: 0 <= i < |xs| ==> ([m] + xs)[i + 1] == xs[i]; }
  }

  /** A message added for a task without a slot becomes that task's slot. */
  lemma PushMirrors(l: Lists, tasks: map<TaskId, Task>, place: Place, m: Message, t': Task)
    requires ListsMirror(l, tasks) && (m.id in tasks ==> tasks[m.id].slot.None?)
    requires t'.slot == Some(Slot(place, m))
    ensures ListsMirror(PushTo(l, place, m), tasks[m.id := t'])
    ensures place == Ready ==> ListsMirror(RequeueFirst(l, m), tasks[m.id := t'])
  {
    var l', tasks' := PushTo(l, place, m), tasks[m.id := t'];
    forall p | p != place ensures SamePlace(tasks, tasks', p) {}
    OthersMirror(l, l', tasks, tasks', place);
    match place
    case Ready =>
      ListPush(l.ready, tasks, place, m, t');
      DelaySame(l.delay, tasks, tasks');
    case Dlq => ListPush(l.dlq, tasks, place, m, t'); DelaySame(l.delay, tasks, tasks');
    case Processing(w) => ListPush(WorkerList(l, w), tasks, place, m, t'); DelaySame(l.delay, tasks, tasks');
    case Delay(score) =>
      forall x, t ensures (x in l'.delay && l'.delay[x] == t) <==> InSlot(tasks', Delay(t), x) {
        assert (x in l.delay && l.delay[x] == t) <==> InSlot(tasks, Delay(t), x);
      }
  }

  /** Take a message out of one container and put its successor into another. */
  lemma MoveMirrors(l: Lists, tasks: map<TaskId, Task>, from: Place, m: Message, to: Place, next: Message, t': Task)
    requires ListsMirror(l, tasks) && InSlot(tasks, from, m) && next.id == m.id
    requires t'.slot == Some(Slot(to, next))
    ensures ListsMirror(PushTo(RemoveFrom(l, from, m), to, next), tasks[m.id := t'])
    ensures to == Ready ==> ListsMirror(RequeueFirst(RemoveFrom(l, from, m), next), tasks[m.id := t'])
  {
    var none := Task(None, None, None);
    RemoveMirrors(l, tasks, from, m, none);
    PushMirrors(RemoveFrom(l, from, m), tasks[m.id := none], to, next, t');
    assert tasks[m.id := none][m.id := t'] == tasks[m.id := t'];
  }
}
