/** The retry queue of CacheService: failed cache invalidations are kept and replayed until they
    succeed or grow too old, and a queue that is full falls back to one purge of the whole cache.

    The queue is a JavaScript Map, so it is iterated in insertion order. That order carries the main
    result: the flush loop takes one snapshot and one clock reading, then suspends at every replayed
    operation, and it is only because entries are ordered by age that it never discards an entry
    which was renewed while the loop was suspended. */
module RetryQueue {

  const RETRY_MAX_AGE_MS := 1_200_000
  const RETRY_QUEUE_MAX := 10_000

  /** The ids under which operations are queued: "entity:<kind>:<id>" and all the others. */
  datatype Key = Entity(id: string) | Other(name: string)

  datatype Item = Item(key: Key, firstAt: nat)

  /** The locals of a suspended flushRetryQueue: its clock reading and the rest of its snapshot,
      whose head is the operation being awaited. At the end it may await a purge. */
  datatype Flush = Idle | Running(now: nat, todo: seq<Item>) | Purging

  datatype Queue = Queue(pending: seq<Item>, needsPurge: bool, timer: bool, flush: Flush)

  const EMPTY := Queue([], false, false, Idle)

  ghost predicate Queued(pending: seq<Item>, key: Key) {
    exists i :: 0 <= i < |pending| && pending[i].key == key
  }

  function Find(pending: seq<Item>, key: Key): (i: nat)
    ensures i <= |pending|
    ensures i < |pending| ==> pending[i].key == key
    ensures i == |pending| <==> !Queued(pending, key)
  {
    if pending == [] then 0
    else if pending[0].key == key then assert Queued(pending, key); 0
    else
      var j := Find(pending[1..], key);
      assert forall i :: 0 < i < |pending| ==> pending[i] == pending[1..][i - 1];
      assert j + 1 < |pending| ==> pending[j + 1].key == key;
      j + 1
  }

  function Remove(pending: seq<Item>, key: Key): (rest: seq<Item>)
    ensures |rest| <= |pending|
    ensures forall it :: it in rest <==> it in pending && it.key != key
  {
    if pending == [] then []
    else
      assert pending == [pending[0]] + pending[1..];
      if pending[0].key == key then Remove(pending[1..], key)
      else [pending[0]] + Remove(pending[1..], key)
  }

  predicate Aged(it: Item, now: nat) {
    now - it.firstAt > RETRY_MAX_AGE_MS
  }

  /** enqueue: an id already queued keeps its place and its first failure time. */
  function Enqueue(q: Queue, key: Key, now: nat): Queue {
    if Find(q.pending, key) < |q.pending| then
      q.(timer := true)
    else if |q.pending| >= RETRY_QUEUE_MAX then
      q.(needsPurge := true, timer := true)
    else
      q.(pending := q.pending + [Item(key, now)], timer := true)
  }

  /** guarded: the awaited operation has just succeeded or failed. */
  function Guarded(q: Queue, key: Key, ok: bool, now: nat): Queue {
    if ok then q.(pending := Remove(q.pending, key)) else Enqueue(q, key, now)
  }

  /** The part of the flush loop that runs without suspending: entries that are too old are deleted
      from the queue until one is reached whose operation has to be awaited. */
  function Advance(pending: seq<Item>, todo: seq<Item>, now: nat): (seq<Item>, seq<Item>)
    decreases |todo|
  {
    if todo != [] && Aged(todo[0], now) then
      Advance(Remove(pending, todo[0].key), todo[1..], now)
    else (pending, todo)
  }

  function FlushBegin(q: Queue, now: nat): Queue {
    if !q.flush.Idle? then q
    else
      var (pending, todo) := Advance(q.pending, q.pending, now);
      q.(pending := pending, flush := Running(now, todo))
  }

  predicate Awaiting(q: Queue) {
    q.flush.Running? && q.flush.todo != []
  }

  /** The awaited operation of the flush loop has settled; a failure while disconnected ends the loop. */
  function FlushResume(q: Queue, ok: bool, connected: bool): Queue
    requires Awaiting(q)
  {
    if !ok && !connected then
      q.(flush := q.flush.(todo := []))
    else
      var kept := if ok then Remove(q.pending, q.flush.todo[0].key) else q.pending;
      var (pending, todo) := Advance(kept, q.flush.todo[1..], q.flush.now);
      q.(pending := pending, flush := q.flush.(todo := todo))
  }

  predicate Finishing(q: Queue) {
    q.flush.Running? && q.flush.todo == []
  }

  function Finish(q: Queue): Queue {
    q.(timer := q.timer && (q.pending != [] || q.needsPurge), flush := Idle)
  }

  /** The tail of the flush: a purge that is due is awaited if Redis is connected. */
  function FlushEnd(q: Queue, connected: bool): Queue
    requires Finishing(q)
  {
    if q.needsPurge && connected then q.(flush := Purging) else Finish(q)
  }

  /** The purge has settled. Success settles every purge that is due, one that fell due meanwhile included. */
  function PurgeEnd(q: Queue, purged: bool): Queue
    requires q.flush.Purging?
  {
    Finish(q.(needsPurge := q.needsPurge && !purged))
  }

  // ---------------------------------------------------------------- runs

  /** Two history variables. `owed`: the ids whose last operation failed and neither succeeded since, nor grew
      too old, nor was covered by a completed purge. `late`: those of them whose operation failed while a purge
      was awaited, which that purge does not cover. */
  datatype State = State(q: Queue, owed: set<Key>, late: set<Key>, now: nat)

  datatype Event =
    | Tick(dt: nat)
    | Attempt(key: Key, ok: bool)
    | Begin
    | Resume(ok: bool, connected: bool)
    | End(connected: bool)
    | Purged(ok: bool)

  predicate Enabled(s: State, e: Event) {
    match e
    case Resume(_, _) => Awaiting(s.q)
    case End(_) => Finishing(s.q)
    case Purged(_) => s.q.flush.Purging?
    case _ => true
  }

  function Keys(pending: seq<Item>): (keys: set<Key>)
    ensures forall k :: k in keys <==> Queued(pending, k)
  {
    set i | 0 <= i < |pending| :: pending[i].key
  }

  function AgedKeys(pending: seq<Item>, now: nat): (keys: set<Key>)
    ensures forall k :: k in keys <==> exists i :: 0 <= i < |pending| && pending[i].key == k && Aged(pending[i], now)
  {
    set i | 0 <= i < |pending| && Aged(pending[i], now) :: pending[i].key
  }

  function Apply(s: State, e: Event): State
    requires Enabled(s, e)
  {
    match e
    case Tick(dt) => s.(now := s.now + dt)
    case Attempt(key, ok) =>
      s.(q := Guarded(s.q, key, ok, s.now),
         owed := if ok then s.owed - {key} else s.owed + {key},
         late := if ok then s.late - {key} else if s.q.flush.Purging? then s.late + {key} else s.late)
    case Begin =>
      s.(q := FlushBegin(s.q, s.now),
         owed := if s.q.flush.Idle? then s.owed - AgedKeys(s.q.pending, s.now) else s.owed)
    case Resume(ok, connected) =>
      s.(q := FlushResume(s.q, ok, connected),
         owed := if ok then s.owed - {s.q.flush.todo[0].key} else s.owed)
    case End(connected) => s.(q := FlushEnd(s.q, connected))
    case Purged(ok) =>
      s.(q := PurgeEnd(s.q, ok),
         owed := if ok then s.owed * (Keys(s.q.pending) + s.late) else s.owed,
         late := {})
  }

  ghost predicate IsRun(tr: seq<State>, ev: seq<Event>) {
    && |tr| == |ev| + 1
    && tr[0] == State(EMPTY, {}, {}, tr[0].now)
    && forall i :: 0 <= i < |ev| ==> Enabled(tr[i], ev[i]) && tr[i + 1] == Apply(tr[i], ev[i])
  }

  // ---------------------------------------------------------------- invariants

  /** Keys are distinct and first-failure times never decrease along the queue. */
  ghost predicate Ordered(pending: seq<Item>) {
    forall i, j :: 0 <= i < j < |pending| ==>
      pending[i].key != pending[j].key && pending[i].firstAt <= pending[j].firstAt
  }

  predicate NoneAged(todo: seq<Item>, now: nat) {
    forall i :: 0 <= i < |todo| ==> !Aged(todo[i], now)
  }

  ghost predicate QueueInv(q: Queue, now: nat) {
    && Ordered(q.pending)
    && |q.pending| <= RETRY_QUEUE_MAX
    && (forall i :: 0 <= i < |q.pending| ==> q.pending[i].firstAt <= now)
    && (q.pending != [] || q.needsPurge ==> q.timer)
    && (q.flush.Running? ==>
          && q.flush.now <= now
          && NoneAged(q.flush.todo, q.flush.now))
    && (q.flush.Purging? ==> q.needsPurge)
  }

  /** Whatever is queued is owed, and whatever failed during a purge that is still awaited. */
  ghost predicate OwedInv(s: State) {
    && (forall k :: Queued(s.q.pending, k) ==> k in s.owed)
    && (forall k :: k in s.late ==> k in s.owed && s.q.flush.Purging?)
  }

  /** Whatever is owed is queued, unless a purge is due. */
  ghost predicate Tracked(s: State) {
    forall k :: k in s.owed ==> Queued(s.q.pending, k) || s.q.needsPurge
  }

  predicate ComesBefore(head: Item, it: Item) {
    head.key != it.key && head.firstAt <= it.firstAt
  }

  lemma OrderedTail(pending: seq<Item>)
    requires Ordered(pending) && pending != []
    ensures Ordered(pending[1..])
    ensures forall it :: it in pending[1..] ==> ComesBefore(pending[0], it)
  {
  }

  lemma OrderedCons(head: Item, rest: seq<Item>)
    requires Ordered(rest) && forall it :: it in rest ==> ComesBefore(head, it)
    ensures Ordered([head] + rest)
  {
    forall j | 0 <= j < |rest| ensures ComesBefore(head, rest[j]) {
      assert rest[j] in rest;
    }
  }

  lemma {:induction false} RemoveOrdered(pending: seq<Item>, key: Key)
    requires Ordered(pending)
    ensures Ordered(Remove(pending, key))
  {
    if pending != [] {
      OrderedTail(pending);
      RemoveOrdered(pending[1..], key);
      OrderedCons(pending[0], Remove(pending[1..], key));
    }
  }

  lemma RemoveQueued(pending: seq<Item>, key: Key, k: Key)
    ensures Queued(Remove(pending, key), k) <==> Queued(pending, k) && k != key
  {
    var rest := Remove(pending, key);
    if Queued(rest, k) {
      var i :| 0 <= i < |rest| && rest[i].key == k;
      assert rest[i] in rest && rest[i] in pending;
    }
    if Queued(pending, k) && k != key {
      var i :| 0 <= i < |pending| && pending[i].key == k;
      assert pending[i] in pending && pending[i] in rest;
    }
  }

  /** Deleting the head of an ordered queue is dropping its first entry. */
  lemma RemoveHead(pending: seq<Item>)
    requires Ordered(pending) && pending != []
    ensures Remove(pending, pending[0].key) == pending[1..]
  {
    RemoveAbsent(pending[1..], pending[0].key);
  }

  lemma NotQueuedBehind(pending: seq<Item>, key: Key)
    requires pending != []
    ensures Queued(pending[1..], key) ==> Queued(pending, key)
  {
    if Queued(pending[1..], key) {
      var i :| 0 <= i < |pending| - 1 && pending[1..][i].key == key;
      assert pending[i + 1].key == key;
    }
  }

  lemma {:induction false} RemoveAbsent(pending: seq<Item>, key: Key)
    requires !Queued(pending, key)
    ensures Remove(pending, key) == pending
  {
    if pending != [] {
      var rest := pending[1..];
      assert pending[0].key != key;
      NotQueuedBehind(pending, key);
      RemoveAbsent(rest, key);
      assert pending == [pending[0]] + rest;
    }
  }

  /** The queue is an aged prefix followed by `todo`, none of which is aged. */
  predicate AgedPrefix(pending: seq<Item>, todo: seq<Item>, now: nat) {
    && |todo| <= |pending|
    && todo == pending[|pending| - |todo|..]
    && NoneAged(todo, now)
    && (forall i :: 0 <= i < |pending| - |todo| ==> Aged(pending[i], now))
  }

  lemma AgedPrefixGrows(pending: seq<Item>, todo: seq<Item>, now: nat)
    requires pending != [] && Aged(pending[0], now) && AgedPrefix(pending[1..], todo, now)
    ensures AgedPrefix(pending, todo, now)
  {
    forall i | 0 <= i < |pending| - |todo| ensures Aged(pending[i], now) {
      if i > 0 { assert Aged(pending[1..][i - 1], now); }
    }
  }

  /** Because entries are ordered by age, the snapshot's synchronous prefix removes every entry that is
      too old, and nothing else. */
  lemma {:induction false} AdvanceSnapshot(pending: seq<Item>, now: nat)
    requires Ordered(pending)
    ensures var (rest, todo) := Advance(pending, pending, now);
      && rest == todo && AgedPrefix(pending, todo, now)
    decreases |pending|
  {
    if pending != [] && Aged(pending[0], now) {
      var rest := pending[1..];
      RemoveHead(pending);
      OrderedTail(pending);
      AdvanceSnapshot(rest, now);
      AgedPrefixGrows(pending, Advance(rest, rest, now).1, now);
    } else if pending != [] {
      assert forall i :: 0 < i < |pending| ==> pending[0].firstAt <= pending[i].firstAt;
    }
  }

  lemma BeginKeys(pending: seq<Item>, now: nat)
    requires Ordered(pending)
    ensures var rest := Advance(pending, pending, now).0;
      && Ordered(rest)
      && |rest| <= |pending|
      && (forall i :: 0 <= i < |rest| ==> rest[i] in pending)
      && (forall k :: Queued(rest, k) <==> Queued(pending, k) && k !in AgedKeys(pending, now))
  {
    AdvanceSnapshot(pending, now);
    var rest := Advance(pending, pending, now).0;
    forall k
      ensures Queued(rest, k) <==> Queued(pending, k) && k !in AgedKeys(pending, now)
    {
      PrefixKeys(pending, rest, now, k);
    }
  }

  lemma PrefixKeys(pending: seq<Item>, rest: seq<Item>, now: nat, k: Key)
    requires Ordered(pending) && AgedPrefix(pending, rest, now)
    ensures Queued(rest, k) <==> Queued(pending, k) && k !in AgedKeys(pending, now)
  {
    var n := |pending| - |rest|;
    if Queued(rest, k) {
      var i :| 0 <= i < |rest| && rest[i].key == k;
      assert pending[n + i] == rest[i];
    }
    if Queued(pending, k) && k !in AgedKeys(pending, now) {
      var i :| 0 <= i < |pending| && pending[i].key == k;
      assert n <= i;
      assert rest[i - n] == pending[i];
    }
  }

  lemma EnqueueKeepsInv(q: Queue, key: Key, now: nat)
    requires QueueInv(q, now)
    ensures QueueInv(Enqueue(q, key, now), now)
    ensures forall k :: Queued(Enqueue(q, key, now).pending, k) ==> Queued(q.pending, k) || k == key
    ensures forall k :: Queued(q.pending, k) ==> Queued(Enqueue(q, key, now).pending, k)
    ensures Queued(Enqueue(q, key, now).pending, key) || Enqueue(q, key, now).needsPurge
  {
    var q' := Enqueue(q, key, now);
    if q'.pending != q.pending {
      assert forall i :: 0 <= i < |q.pending| ==> q'.pending[i] == q.pending[i];
      assert q'.pending[|q.pending|].key == key;
    }
  }

  lemma RemoveKeepsInv(q: Queue, key: Key, now: nat)
    requires QueueInv(q, now)
    ensures QueueInv(q.(pending := Remove(q.pending, key)), now)
  {
    RemoveOrdered(q.pending, key);
    var rest := Remove(q.pending, key);
    forall i | 0 <= i < |rest|
      ensures rest[i].firstAt <= now
    {
      assert rest[i] in rest && rest[i] in q.pending;
    }
    if q.pending == [] {
      assert rest == [];
    }
  }

  lemma BeginKeepsInv(q: Queue, now: nat)
    requires QueueInv(q, now)
    ensures QueueInv(FlushBegin(q, now), now)
  {
    AdvanceSnapshot(q.pending, now);
    BeginKeys(q.pending, now);
  }

  /** After the first suspension the loop deletes nothing on grounds of age. */
  lemma ResumeKeepsInv(q: Queue, ok: bool, connected: bool, now: nat)
    requires QueueInv(q, now) && Awaiting(q)
    ensures QueueInv(FlushResume(q, ok, connected), now)
    ensures FlushResume(q, ok, connected).pending ==
            if ok then Remove(q.pending, q.flush.todo[0].key) else q.pending
  {
    if ok {
      RemoveKeepsInv(q, q.flush.todo[0].key, now);
    }
    assert NoneAged(q.flush.todo[1..], q.flush.now);
  }

  lemma QueueStep(s: State, e: Event)
    requires QueueInv(s.q, s.now) && Enabled(s, e)
    ensures QueueInv(Apply(s, e).q, Apply(s, e).now)
  {
    match e
    case Attempt(key, ok) =>
      if ok {
        RemoveKeepsInv(s.q, key, s.now);
      } else {
        EnqueueKeepsInv(s.q, key, s.now);
      }
    case Begin => BeginKeepsInv(s.q, s.now);
    case Resume(ok, connected) => ResumeKeepsInv(s.q, ok, connected, s.now);
    case _ =>
  }

  /** What a step does to the queued ids. */
  lemma QueuedStep(s: State, e: Event, k: Key)
    requires QueueInv(s.q, s.now) && Enabled(s, e)
    ensures var before, after := Queued(s.q.pending, k), Queued(Apply(s, e).q.pending, k);
      match e
      case Attempt(key, ok) =>
        if key != k then after == before
        else if ok then !after
        else (before ==> after) && (after || Apply(s, e).q.needsPurge)
      case Begin => after <==> before && !(s.q.flush.Idle? && k in AgedKeys(s.q.pending, s.now))
      case Resume(ok, _) => after <==> before && !(ok && s.q.flush.todo[0].key == k)
      case _ => after == before
  {
    match e
    case Attempt(key, ok) =>
      if ok {
        RemoveQueued(s.q.pending, key, k);
      } else {
        EnqueueKeepsInv(s.q, key, s.now);
      }
    case Begin => BeginKeys(s.q.pending, s.now);
    case Resume(ok, connected) =>
      ResumeKeepsInv(s.q, ok, connected, s.now);
      RemoveQueued(s.q.pending, s.q.flush.todo[0].key, k);
    case _ =>
  }

  lemma OwedStep(s: State, e: Event)
    requires QueueInv(s.q, s.now) && OwedInv(s) && Enabled(s, e)
    ensures OwedInv(Apply(s, e))
  {
    forall k ensures Queued(Apply(s, e).q.pending, k) ==> k in Apply(s, e).owed {
      QueuedStep(s, e, k);
    }
  }

  /** The purge succeeds although an id could not be queued while it was awaited. */
  ghost predicate Loses(s: State, e: Event) {
    e == Purged(true) && exists k :: k in s.late && !Queued(s.q.pending, k)
  }

  lemma TrackedStep(s: State, e: Event)
    requires QueueInv(s.q, s.now) && OwedInv(s) && Tracked(s) && Enabled(s, e)
    ensures Tracked(Apply(s, e)) <==> !Loses(s, e)
  {
    var t := Apply(s, e);
    if !Loses(s, e) {
      forall k | k in t.owed ensures Queued(t.q.pending, k) || t.q.needsPurge {
        QueuedStep(s, e, k);
      }
    } else {
      var k :| k in s.late && !Queued(s.q.pending, k);
      assert k in t.owed && !Queued(t.q.pending, k) && !t.q.needsPurge;
    }
  }

  lemma {:induction false} RunInv(tr: seq<State>, ev: seq<Event>, i: nat)
    requires IsRun(tr, ev) && i < |tr|
    ensures QueueInv(tr[i].q, tr[i].now) && OwedInv(tr[i])
  {
    if i > 0 {
      RunInv(tr, ev, i - 1);
      QueueStep(tr[i - 1], ev[i - 1]);
      OwedStep(tr[i - 1], ev[i - 1]);
    }
  }

  /** In every run the queue stays within its bound and sorted by age, the timer is armed whenever work
      remains, and only ids that are still owed an invalidation are queued. */
  lemma QueueStaysInOrder(tr: seq<State>, ev: seq<Event>, i: nat)
    requires IsRun(tr, ev) && i < |tr|
    ensures QueueInv(tr[i].q, tr[i].now) && Keys(tr[i].q.pending) <= tr[i].owed
  {
    RunInv(tr, ev, i);
  }

  /** Main result. A run keeps track of every failed invalidation - each id that is still owed one is queued, or
      a purge is due - if and only if no purge succeeds after an id overflowed while it was awaited. */
  lemma RunKeepsTrackOfFailures(tr: seq<State>, ev: seq<Event>, m: nat)
    requires IsRun(tr, ev) && m < |tr|
    ensures (forall i :: 0 <= i <= m ==> Tracked(tr[i])) <==> (forall i :: 0 <= i < m ==> !Loses(tr[i], ev[i]))
  {
    if forall i :: 0 <= i < m ==> !Loses(tr[i], ev[i]) {
      forall i | 0 <= i <= m ensures Tracked(tr[i]) {
        TrackedRun(tr, ev, i);
      }
    }
    if forall i :: 0 <= i <= m ==> Tracked(tr[i]) {
      forall i | 0 <= i < m ensures !Loses(tr[i], ev[i]) {
        RunInv(tr, ev, i);
        assert Tracked(tr[i]) && Tracked(tr[i + 1]);
        TrackedStep(tr[i], ev[i]);
      }
    }
  }

  lemma {:induction false} TrackedRun(tr: seq<State>, ev: seq<Event>, i: nat)
    requires IsRun(tr, ev) && i < |tr| && forall j :: 0 <= j < i ==> !Loses(tr[j], ev[j])
    ensures Tracked(tr[i])
  {
    if i > 0 {
      TrackedRun(tr, ev, i - 1);
      RunInv(tr, ev, i - 1);
      TrackedStep(tr[i - 1], ev[i - 1]);
    }
  }

  // The exception happens.

  lemma Extend(tr: seq<State>, ev: seq<Event>, e: Event) returns (tr': seq<State>, ev': seq<Event>)
    requires IsRun(tr, ev) && Enabled(tr[|ev|], e)
    ensures |ev'| == |ev| + 1 && IsRun(tr', ev') && ev'[|ev|] == e
    ensures tr'[|ev|] == tr[|ev|] && tr'[|ev'|] == Apply(tr[|ev|], e)
  {
    tr', ev' := tr + [Apply(tr[|ev|], e)], ev + [e];
  }

  function Numbered(n: nat): Key {
    Other(seq(n, _ => 'x'))
  }

  lemma NumberedDiffer(m: nat, n: nat)
    requires m != n
    ensures Numbered(m) != Numbered(n)
  {
    assert |Numbered(m).name| == m && |Numbered(n).name| == n;
  }

  /** The queue after `n` different operations failed at time 0. */
  function Filled(n: nat): seq<Item> {
    seq(n, i requires 0 <= i < n => Item(Numbered(i), 0))
  }

  lemma NotFilled(m: nat, n: nat)
    requires m <= n
    ensures !Queued(Filled(m), Numbered(n))
  {
    forall i | 0 <= i < m ensures Filled(m)[i].key != Numbered(n) {
      NumberedDiffer(i, n);
    }
  }

  lemma {:induction false} FillQueue(n: nat) returns (tr: seq<State>, ev: seq<Event>)
    requires n <= RETRY_QUEUE_MAX
    ensures IsRun(tr, ev) && tr[|ev|].now == 0 && tr[|ev|].late == {}
    ensures tr[|ev|].q == Queue(Filled(n), false, n > 0, Idle)
  {
    if n == 0 {
      tr, ev := [State(EMPTY, {}, {}, 0)], [];
      assert Filled(0) == [];
    } else {
      tr, ev := FillQueue(n - 1);
      NotFilled(n - 1, n - 1);
      tr, ev := Extend(tr, ev, Attempt(Numbered(n - 1), false));
      assert Filled(n) == Filled(n - 1) + [Item(Numbered(n - 1), 0)];
    }
  }

  /** The queue is full, a purge is due, and the flush is awaiting it. */
  lemma PurgeAwaited() returns (tr: seq<State>, ev: seq<Event>)
    ensures IsRun(tr, ev) && tr[|ev|].q == Queue(Filled(RETRY_QUEUE_MAX), true, true, Purging)
  {
    var full := Filled(RETRY_QUEUE_MAX);
    tr, ev := FillQueue(RETRY_QUEUE_MAX);
    NotFilled(RETRY_QUEUE_MAX, RETRY_QUEUE_MAX);
    tr, ev := Extend(tr, ev, Attempt(Numbered(RETRY_QUEUE_MAX), false));
    assert tr[|ev|].q == Queue(full, true, true, Idle);
    assert !Aged(full[0], 0);
    tr, ev := Extend(tr, ev, Begin);
    assert tr[|ev|].q == Queue(full, true, true, Running(0, full));
    tr, ev := Extend(tr, ev, Resume(false, false));
    tr, ev := Extend(tr, ev, End(true));
  }

  /** One more id overflows while the purge is awaited, and is forgotten when the purge succeeds. */
  lemma LateOverflowIsForgotten() returns (tr: seq<State>, ev: seq<Event>)
    ensures IsRun(tr, ev) && |ev| > 0 && Loses(tr[|ev| - 1], ev[|ev| - 1])
    ensures var s := tr[|ev|]; Numbered(RETRY_QUEUE_MAX + 1) in s.owed && !Queued(s.q.pending, Numbered(RETRY_QUEUE_MAX + 1))
    ensures !tr[|ev|].q.needsPurge
  {
    var key := Numbered(RETRY_QUEUE_MAX + 1);
    tr, ev := PurgeAwaited();
    NotFilled(RETRY_QUEUE_MAX, RETRY_QUEUE_MAX + 1);
    tr, ev := Extend(tr, ev, Attempt(key, false));
    assert key in tr[|ev|].late && key in tr[|ev|].owed && !Queued(tr[|ev|].q.pending, key);
    tr, ev := Extend(tr, ev, Purged(true));
  }

  /** A queued id keeps its first failure time until it leaves the queue. */
  lemma FirstFailureTimeIsKept(s: State, e: Event, a: Item, b: Item)
    requires QueueInv(s.q, s.now) && Enabled(s, e)
    requires a in s.q.pending && b in Apply(s, e).q.pending && a.key == b.key
    ensures a.firstAt == b.firstAt
  {
    QueueStep(s, e);
    match e
    case Begin =>
      BeginKeys(s.q.pending, s.now);
      SameKeySameItem(s.q.pending, a, b);
    case Resume(ok, connected) =>
      ResumeKeepsInv(s.q, ok, connected, s.now);
      SameKeySameItem(s.q.pending, a, b);
    case _ =>
      var i :| 0 <= i < |s.q.pending| && s.q.pending[i] == a;
      assert Queued(s.q.pending, a.key);
      SameKeySameItem(s.q.pending, a, b);
  }

  lemma SameKeySameItem(pending: seq<Item>, a: Item, b: Item)
    requires Ordered(pending) && a in pending && b in pending && a.key == b.key
    ensures a == b
  {
  }

  /** An id leaves the queue only because an operation on it succeeded or because its own entry was
      too old when a flush began: a renewed entry is never discarded for the age of an older one. */
  lemma LeavesOnlyOnSuccessOrAge(s: State, e: Event, a: Item)
    requires QueueInv(s.q, s.now) && Enabled(s, e)
    requires a in s.q.pending && !Queued(Apply(s, e).q.pending, a.key)
    ensures || e == Attempt(a.key, true)
            || (e.Resume? && e.ok && s.q.flush.todo[0].key == a.key)
            || (e == Begin && s.q.flush.Idle? && Aged(a, s.now))
  {
    var i :| 0 <= i < |s.q.pending| && s.q.pending[i] == a;
    assert Queued(s.q.pending, a.key);
    QueuedStep(s, e, a.key);
    if e == Begin {
      var j :| 0 <= j < |s.q.pending| && s.q.pending[j].key == a.key && Aged(s.q.pending[j], s.now);
      assert i == j;
    }
  }

  // ---------------------------------------------------------------- a flush by itself

  /** Every operation in what is left of the flush's snapshot succeeds. */
  function AllSucceed(n: nat): seq<Event> {
    seq(n, _ => Resume(true, true))
  }

  ghost predicate IsPath(tr: seq<State>, ev: seq<Event>) {
    |tr| == |ev| + 1 && forall i :: 0 <= i < |ev| ==> Enabled(tr[i], ev[i]) && tr[i + 1] == Apply(tr[i], ev[i])
  }

  /** The flush has reached its queue's own entries: what it has still to try is what is queued. */
  predicate InStep(s: State) {
    s.q.flush.Running? && s.q.flush.todo == s.q.pending && NoneAged(s.q.pending, s.q.flush.now)
  }

  lemma SucceedOnce(s: State)
    requires InStep(s) && Ordered(s.q.pending) && s.q.pending != []
    ensures Enabled(s, Resume(true, true))
    ensures var t := Apply(s, Resume(true, true));
      && InStep(t) && t.q.pending == s.q.pending[1..] && Ordered(t.q.pending)
      && t.owed == s.owed - {s.q.pending[0].key}
      && t.q.needsPurge == s.q.needsPurge && t.q.timer == s.q.timer && t.late == s.late && t.now == s.now
  {
    RemoveHead(s.q.pending);
    OrderedTail(s.q.pending);
    var rest := s.q.pending[1..];
    assert NoneAged(rest, s.q.flush.now);
  }

  lemma {:induction false} SucceedAll(s: State) returns (tr: seq<State>)
    requires InStep(s) && Ordered(s.q.pending)
    ensures IsPath(tr, AllSucceed(|s.q.pending|)) && tr[0] == s
    ensures var t := tr[|tr| - 1];
      && t.q.pending == [] && t.q.flush.Running? && t.q.flush.todo == []
      && t.owed == s.owed - Keys(s.q.pending) && t.q.needsPurge == s.q.needsPurge && t.q.timer == s.q.timer
    decreases |s.q.pending|
  {
    tr := [s];
    if s.q.pending != [] {
      SucceedOnce(s);
      var e := Resume(true, true);
      var rest := SucceedAll(Apply(s, e));
      tr := [s] + rest;
      assert AllSucceed(|s.q.pending|) == [e] + AllSucceed(|s.q.pending| - 1);
      KeysTail(s.q.pending);
    } else {
      assert Keys(s.q.pending) == {};
    }
  }

  lemma KeysTail(pending: seq<Item>)
    requires pending != []
    ensures Keys(pending) == {pending[0].key} + Keys(pending[1..])
  {
    forall k ensures k in Keys(pending) <==> k == pending[0].key || k in Keys(pending[1..]) {
      NotQueuedBehind(pending, k);
      assert Queued(pending, pending[0].key);
      if Queued(pending, k) && k != pending[0].key {
        var i :| 0 <= i < |pending| && pending[i].key == k;
        assert pending[1..][i - 1].key == k;
      }
    }
  }

  /** Main result on progress. A flush whose operations all succeed tries every entry that is not too old and leaves
      an empty queue; if no purge is due it disarms the timer and nothing is owed any more to what was queued. */
  lemma FlushEmptiesQueue(s: State) returns (tr: seq<State>, ev: seq<Event>)
    requires QueueInv(s.q, s.now) && s.q.flush.Idle? && NoneAged(s.q.pending, s.now)
    ensures IsPath(tr, ev) && tr[0] == s && ev == [Begin] + AllSucceed(|s.q.pending|) + [End(false)]
    ensures var t := tr[|ev|];
      && t.q.pending == [] && t.q.flush == Idle && t.owed == s.owed - Keys(s.q.pending)
      && t.q.needsPurge == s.q.needsPurge && (t.q.timer <==> s.q.timer && s.q.needsPurge)
  {
    BeginKeepsInv(s.q, s.now);
    NothingAged(s.q.pending, s.now);
    var s1 := Apply(s, Begin);
    var middle := SucceedAll(s1);
    var n := |s.q.pending|;
    var last := middle[|middle| - 1];
    tr := [s] + middle + [Apply(last, End(false))];
    ev := [Begin] + AllSucceed(n) + [End(false)];
    forall i | 0 <= i < |ev| ensures Enabled(tr[i], ev[i]) && tr[i + 1] == Apply(tr[i], ev[i]) {
      if 0 < i <= n {
        assert tr[i] == middle[i - 1] && tr[i + 1] == middle[i] && ev[i] == AllSucceed(n)[i - 1];
      }
    }
  }

  lemma NothingAged(pending: seq<Item>, now: nat)
    requires Ordered(pending) && NoneAged(pending, now)
    ensures Advance(pending, pending, now) == (pending, pending) && AgedKeys(pending, now) == {}
  {
    assert forall k :: k !in AgedKeys(pending, now);
  }

  /** While Redis is connected a failure does not stop the flush: the next entry is tried, and the failed one stays. */
  lemma FailureGoesOn(s: State)
    requires Awaiting(s.q) && NoneAged(s.q.flush.todo, s.q.flush.now)
    ensures var t := Apply(s, Resume(false, true));
      t.q.pending == s.q.pending && t.q.flush.Running? && t.q.flush.todo == s.q.flush.todo[1..]
    ensures var t := Apply(s, Resume(false, false));
      t.q.pending == s.q.pending && t.q.flush.Running? && t.q.flush.todo == []
  {
    var rest := s.q.flush.todo[1..];
    assert NoneAged(rest, s.q.flush.now);
  }

  /** A due purge that succeeds clears the mark; one that fails keeps it, and the timer with it. */
  lemma PurgeSettles(s: State)
    requires Finishing(s.q) && s.q.needsPurge
    ensures var t := Apply(s, End(true));
      && t.q.flush.Purging? && t.q.needsPurge
      && !Apply(t, Purged(true)).q.needsPurge && Apply(t, Purged(true)).q.flush == Idle
      && (Apply(t, Purged(true)).q.timer <==> s.q.timer && s.q.pending != [])
      && Apply(t, Purged(false)).q.needsPurge && Apply(t, Purged(false)).q.timer == s.q.timer
      && Apply(t, Purged(false)).q.flush == Idle
  {
  }

  // ---------------------------------------------------------------- the service's own fields

  /** The retry fields of CacheService and the locals of its suspended flush, updated in place. */
  class Retries {
    var retryQueue: seq<Item>
    var needsPurge: bool
    var retryTimer: bool
    var flush: Flush

    ghost function View(): Queue
      reads this
    {
      Queue(retryQueue, needsPurge, retryTimer, flush)
    }

    constructor ()
      ensures View() == EMPTY
    {
      retryQueue, needsPurge, retryTimer, flush := [], false, false, Idle;
    }

    method Delete(key: Key)
      modifies this`retryQueue
      ensures retryQueue == Remove(old(retryQueue), key)
    {
      retryQueue := Remove(retryQueue, key);
    }

    method EnqueueFailed(key: Key, now: nat)
      modifies this
      ensures View() == Enqueue(old(View()), key, now)
    {
      var existing := Find(retryQueue, key) < |retryQueue|;
      if !existing && |retryQueue| >= RETRY_QUEUE_MAX {
        needsPurge := true;
      } else if !existing {
        retryQueue := retryQueue + [Item(key, now)];
      }
      if !retryTimer {
        retryTimer := true;
      }
    }

    method Settle(key: Key, ok: bool, now: nat)
      modifies this
      ensures View() == Guarded(old(View()), key, ok, now)
    {
      if ok {
        Delete(key);
        return;
      }
      EnqueueFailed(key, now);
    }

    /** The loop of flushRetryQueue from one suspension to the next. */
    method DropAged(todo: seq<Item>, now: nat) returns (rest: seq<Item>)
      modifies this`retryQueue
      ensures (retryQueue, rest) == Advance(old(retryQueue), todo, now)
    {
      rest := todo;
      while rest != [] && Aged(rest[0], now)
        invariant Advance(retryQueue, rest, now) == Advance(old(retryQueue), todo, now)
        decreases |rest|
      {
        Delete(rest[0].key);
        rest := rest[1..];
      }
    }

    method BeginFlush(now: nat)
      modifies this
      ensures View() == FlushBegin(old(View()), now)
    {
      if !flush.Idle? {
        return;
      }
      var rest := DropAged(retryQueue, now);
      flush := Running(now, rest);
    }

    method ResumeFlush(ok: bool, connected: bool)
      requires Awaiting(View())
      modifies this
      ensures View() == FlushResume(old(View()), ok, connected)
    {
      if ok {
        Delete(flush.todo[0].key);
      } else if !connected {
        flush := flush.(todo := []);
        return;
      }
      var rest := DropAged(flush.todo[1..], flush.now);
      flush := flush.(todo := rest);
    }

    method FinishFlush()
      modifies this
      ensures View() == Finish(old(View()))
    {
      flush := Idle;
      if retryQueue == [] && !needsPurge && retryTimer {
        retryTimer := false;
      }
    }

    method EndFlush(connected: bool)
      requires Finishing(View())
      modifies this
      ensures View() == FlushEnd(old(View()), connected)
    {
      if needsPurge && connected {
        flush := Purging;
      } else {
        FinishFlush();
      }
    }

    method PurgeSettled(purged: bool)
      requires flush.Purging?
      modifies this
      ensures View() == PurgeEnd(old(View()), purged)
    {
      if purged {
        needsPurge := false;
      }
      FinishFlush();
    }
  }
}
