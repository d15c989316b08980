/** The shared rate limiter: a counter key and a block key in Redis for one client and route, with the
    three Redis calls of a request interleaved with those of every other request. */
module Throttler {
  import opened Options

  /** The counter key. `exp` is None while the key has no time to live; `start` is a history variable:
      when the key was created. */
  datatype Counter = Counter(hits: nat, exp: Option<nat>, start: nat)

  datatype Stage = Counting | Blocking | Answered(admitted: bool)

  /** One run of INCR_SCRIPT: when, in which life of the counter key, and the count it returned. */
  datatype Increment = Increment(time: nat, start: nat, hits: nat)

  datatype State = State(
    ttl: nat, limit: nat, now: nat,
    counter: Option<Counter>, blockedUntil: nat,
    requests: map<nat, Stage>, log: seq<Increment>)

  datatype Event =
    | Tick(dt: nat)
    | CheckBlock(request: nat)
    | Eval(request: nat, blockDuration: nat)
    | SetBlock(request: nat, blockDuration: nat)

  predicate Enabled(s: State, e: Event) {
    match e
    case Tick(_) => true
    case CheckBlock(q) => q !in s.requests
    case Eval(q, _) => q in s.requests && s.requests[q].Counting?
    case SetBlock(q, d) => q in s.requests && s.requests[q].Blocking? && d > 0
  }

  /** The counter as Redis sees it now: an expired key does not exist. */
  function Existing(s: State): Option<Counter> {
    if s.counter.Some? && (s.counter.value.exp.None? || s.now < s.counter.value.exp.value) then s.counter else None
  }

  /** INCR, PTTL, and PEXPIRE on the first hit or on a key without a time to live. */
  function IncrScript(s: State): Counter {
    var c := match Existing(s) { case Some(c) => c.(hits := c.hits + 1) case None => Counter(1, None, s.now) };
    if c.hits == 1 || c.exp.None? then c.(exp := Some(s.now + s.ttl)) else c
  }

  function EvalStep(s: State, q: nat, blockDuration: nat): State {
    var c := IncrScript(s);
    var isBlocked := c.hits > s.limit;
    s.(counter := Some(c),
       requests := s.requests[q := if isBlocked && blockDuration > 0 then Blocking else Answered(!isBlocked)],
       log := s.log + [Increment(s.now, c.start, c.hits)])
  }

  function Apply(s: State, e: Event): State
    requires Enabled(s, e)
  {
    match e
    case Tick(dt) => s.(now := s.now + dt)
    case CheckBlock(q) =>
      s.(requests := s.requests[q := if s.now < s.blockedUntil then Answered(false) else Counting])
    case Eval(q, d) => EvalStep(s, q, d)
    case SetBlock(q, d) => s.(blockedUntil := s.now + d, requests := s.requests[q := Answered(false)])
  }

  ghost predicate IsRun(tr: seq<State>, ev: seq<Event>) {
    && |tr| == |ev| + 1
    && tr[0].counter == None && tr[0].requests == map[] && tr[0].log == [] && tr[0].ttl > 0
    && forall i :: 0 <= i < |ev| ==> Enabled(tr[i], ev[i]) && tr[i + 1] == Apply(tr[i], ev[i])
  }

  // ---------------------------------------------------------------- invariant

  /** How many of the first `n` increments fell in the window that opened at `start`. */
  function CountIn(log: seq<Increment>, start: nat, n: nat): nat
    requires n <= |log|
  {
    if n == 0 then 0 else CountIn(log, start, n - 1) + if log[n - 1].start == start then 1 else 0
  }

  predicate IncrementOk(s: State, i: nat)
    requires i < |s.log|
  {
    var inc := s.log[i];
    && inc.start <= inc.time < inc.start + s.ttl
    && inc.time <= s.now
    && inc.hits == CountIn(s.log, inc.start, i) + 1
    && (inc.hits == 1 ==> inc.time == inc.start)
  }

  predicate Apart(s: State, i: nat, j: nat)
    requires i < |s.log| && j < |s.log|
  {
    i < j ==>
      || (s.log[i].start == s.log[j].start && s.log[i].hits < s.log[j].hits)
      || s.log[i].start + s.ttl <= s.log[j].start
  }

  ghost predicate Inv(s: State) {
    && s.ttl > 0
    && (forall i: nat :: i < |s.log| ==> IncrementOk(s, i))
    && (forall i: nat, j: nat :: i < |s.log| && j < |s.log| ==> Apart(s, i, j))
    && (s.counter.Some? ==>
          var c := s.counter.value;
          && c.start <= s.now && c.exp == Some(c.start + s.ttl) && c.hits > 0
          && c.hits == CountIn(s.log, c.start, |s.log|)
          && (forall i: nat :: i < |s.log| ==> BeforeCounter(s, c, i)))
    && (s.counter.None? ==> s.log == [])
  }

  predicate BeforeCounter(s: State, c: Counter, i: nat)
    requires i < |s.log|
  {
    (s.log[i].start == c.start && s.log[i].hits <= c.hits) || s.log[i].start + s.ttl <= c.start
  }

  lemma {:induction false} CountInPrefix(a: seq<Increment>, b: seq<Increment>, start: nat, n: nat)
    requires n <= |a| && n <= |b| && a[..n] == b[..n]
    ensures CountIn(a, start, n) == CountIn(b, start, n)
  {
    if n > 0 {
      assert a[n - 1] == a[..n][n - 1] == b[..n][n - 1] == b[n - 1];
      assert a[..n - 1] == a[..n][..n - 1] == b[..n][..n - 1] == b[..n - 1];
      CountInPrefix(a, b, start, n - 1);
    }
  }

  lemma {:induction false} CountInNone(log: seq<Increment>, start: nat, n: nat)
    requires n <= |log| && forall i :: 0 <= i < n ==> log[i].start != start
    ensures CountIn(log, start, n) == 0
  {
    if n > 0 {
      CountInNone(log, start, n - 1);
    }
  }

  lemma InvEval(s: State, q: nat, d: nat)
    requires Inv(s)
    ensures Inv(EvalStep(s, q, d))
  {
    var t := EvalStep(s, q, d);
    var c, n := IncrScript(s), |s.log|;
    assert t.log[..n] == s.log;
    if Existing(s).None? {
      forall i: nat | i < n
        ensures s.log[i].start + s.ttl <= s.now
      {
        assert BeforeCounter(s, s.counter.value, i);
      }
      CountInNone(s.log, s.now, n);
    }
    CountInPrefix(s.log, t.log, c.start, n);
    forall i: nat | i < |t.log|
      ensures IncrementOk(t, i) && BeforeCounter(t, c, i)
    {
      if i < n {
        assert IncrementOk(s, i) && BeforeCounter(s, s.counter.value, i);
        CountInPrefix(s.log, t.log, t.log[i].start, i);
      }
    }
    forall i: nat, j: nat | i < |t.log| && j < |t.log|
      ensures Apart(t, i, j)
    {
      if i < n && j < n {
        assert Apart(s, i, j);
      } else if i < n {
        assert BeforeCounter(s, s.counter.value, i);
      }
    }
  }

  lemma InvFrame(s: State, t: State)
    requires Inv(s) && t.ttl == s.ttl && t.now >= s.now && t.counter == s.counter && t.log == s.log
    ensures Inv(t)
  {
    forall i: nat | i < |t.log|
      ensures IncrementOk(t, i) && (t.counter.Some? ==> BeforeCounter(t, t.counter.value, i))
    {
      assert IncrementOk(s, i);
      if s.counter.Some? { assert BeforeCounter(s, s.counter.value, i); }
    }
    forall i: nat, j: nat | i < |t.log| && j < |t.log|
      ensures Apart(t, i, j)
    {
      assert Apart(s, i, j);
    }
  }

  lemma {:induction false} InvRun(tr: seq<State>, ev: seq<Event>, m: nat)
    requires IsRun(tr, ev) && m < |tr|
    ensures Inv(tr[m]) && tr[m].ttl == tr[0].ttl && tr[m].limit == tr[0].limit
  {
    if m > 0 {
      InvRun(tr, ev, m - 1);
      match ev[m - 1] {
        case Eval(q, d) => InvEval(tr[m - 1], q, d);
        case _ => InvFrame(tr[m - 1], tr[m]);
      }
    }
  }

  // ---------------------------------------------------------------- main results

  predicate Admitted(s: State, i: nat)
    requires i < |s.log|
  {
    s.log[i].hits <= s.limit
  }

  /** A request is admitted exactly when its increment is among the first `limit` of its window. */
  lemma WindowAdmitsItsFirst(tr: seq<State>, ev: seq<Event>, m: nat, q: nat, d: nat)
    requires IsRun(tr, ev) && m < |ev| && ev[m] == Eval(q, d)
    ensures var s := tr[m + 1];
      && |s.log| == |tr[m].log| + 1
      && q in s.requests && s.requests[q] != Counting
      && (s.requests[q] == Answered(true) <==>
            CountIn(s.log, s.log[|s.log| - 1].start, |s.log| - 1) < s.limit)
      && Admitted(s, |s.log| - 1) == (s.requests[q] == Answered(true))
  {
    InvRun(tr, ev, m + 1);
    assert IncrementOk(tr[m + 1], |tr[m].log|);
  }

  /** A request that saw the block key, or set it, is refused; only an increment admits one. */
  lemma OnlyIncrementsAdmit(s: State, e: Event, q: nat)
    requires Enabled(s, e) && q in Apply(s, e).requests && Apply(s, e).requests[q] == Answered(true)
    ensures (q in s.requests && s.requests[q] == Answered(true)) || (e.Eval? && e.request == q && IncrScript(s).hits <= s.limit)
  {
  }

  /** The admitted increments with a time in [from, to]. */
  function AdmittedBetween(s: State, from: int, to: int): set<nat> {
    set i: nat | i < |s.log| && Admitted(s, i) && from <= s.log[i].time <= to
  }

  /** Indices whose counts are distinct and between `lo` and `hi` are no more than that range. */
  lemma {:induction false} DistinctCounts(s: State, ids: set<nat>, lo: nat, hi: int)
    requires forall i :: i in ids ==> i < |s.log| && lo <= s.log[i].hits <= hi
    requires forall i, j :: i in ids && j in ids && s.log[i].hits == s.log[j].hits ==> i == j
    ensures |ids| <= if hi < lo then 0 else hi - lo + 1
    decreases if hi < lo then 0 else hi - lo + 1
  {
    if ids != {} {
      var i :| i in ids;
      if exists k :: k in ids && s.log[k].hits == hi {
        var k :| k in ids && s.log[k].hits == hi;
        DistinctCounts(s, ids - {k}, lo, hi - 1);
        assert ids == (ids - {k}) + {k};
      } else {
        DistinctCounts(s, ids, lo, hi - 1);
      }
    }
  }

  /** Increments of windows that open within less than `ttl` of each other belong to one window. */
  lemma OneWindow(s: State, ids: set<nat>, lo: nat, from: int)
    requires Inv(s)
    requires forall i :: i in ids ==> i < |s.log| && lo <= s.log[i].hits <= s.limit && from < s.log[i].start <= from + s.ttl
    ensures |ids| <= if s.limit < lo then 0 else s.limit - lo + 1
  {
    forall i, j | i in ids && j in ids && s.log[i].hits == s.log[j].hits
      ensures i == j
    {
      assert Apart(s, i, j) && Apart(s, j, i);
    }
    DistinctCounts(s, ids, lo, s.limit);
  }

  /** Main result: in any closed interval of length `ttl`, at most twice `limit` requests are admitted. */
  lemma AtMostTwiceLimit(tr: seq<State>, ev: seq<Event>, m: nat, from: nat)
    requires IsRun(tr, ev) && m < |tr|
    ensures |AdmittedBetween(tr[m], from, from + tr[0].ttl)| <= 2 * tr[0].limit
  {
    InvRun(tr, ev, m);
    var s := tr[m];
    var all := AdmittedBetween(s, from, from + s.ttl);
    var early := set i | i in all && s.log[i].start <= from;
    var late := all - early;
    forall i | i in all
      ensures s.log[i].hits >= 1 && from - s.ttl < s.log[i].start <= from + s.ttl
    {
      assert IncrementOk(s, i);
    }
    OneWindow(s, early, 1, from - s.ttl);
    OneWindow(s, late, 1, from);
    assert all == early + late;
  }

  lemma NotTheFirst(s: State, i: nat, j: nat, from: nat)
    requires Inv(s) && i < |s.log| && j < |s.log|
    requires s.log[i].start <= from < s.log[j].start < from + s.ttl && from <= s.log[i].time
    ensures s.log[i].hits >= 2
  {
    assert Apart(s, i, j) && Apart(s, j, i) && IncrementOk(s, i) && IncrementOk(s, j);
  }

  /** In a half-open interval the bound is one less: if two windows meet in it, the first hit of the
      earlier one, which opened that window, lies before the interval. */
  lemma BelowTwiceLimit(tr: seq<State>, ev: seq<Event>, m: nat, from: nat)
    requires IsRun(tr, ev) && m < |tr| && tr[0].limit >= 1
    ensures |AdmittedBetween(tr[m], from, from + tr[0].ttl - 1)| <= 2 * tr[0].limit - 1
  {
    InvRun(tr, ev, m);
    BelowTwice(tr[m], from);
  }

  lemma BelowTwice(s: State, from: nat)
    requires Inv(s) && s.limit >= 1
    ensures |AdmittedBetween(s, from, from + s.ttl - 1)| <= 2 * s.limit - 1
  {
    var all := AdmittedBetween(s, from, from + s.ttl - 1);
    var early := set i | i in all && s.log[i].start <= from;
    var late := all - early;
    forall i | i in all
      ensures s.log[i].hits >= 1 && from - s.ttl < s.log[i].start < from + s.ttl
    {
      assert IncrementOk(s, i);
    }
    assert all == early + late;
    OneWindow(s, late, 1, from);
    if late == {} {
      OneWindow(s, early, 1, from - s.ttl);
    } else {
      var j :| j in late;
      EarlyAreNotFirst(s, early, j, from);
      OneWindow(s, early, 2, from - s.ttl);
    }
  }

  lemma EarlyAreNotFirst(s: State, early: set<nat>, j: nat, from: nat)
    requires Inv(s) && j < |s.log| && from < s.log[j].start < from + s.ttl
    requires forall i :: i in early ==> i < |s.log| && s.log[i].start <= from <= s.log[i].time
    ensures forall i :: i in early ==> s.log[i].hits >= 2
  {
    forall i | i in early
      ensures s.log[i].hits >= 2
    {
      NotTheFirst(s, i, j, from);
    }
  }

  /** Once the block key is set, requests are refused for the whole block duration: other requests that
      exceed the limit can only prolong it. */
  lemma {:induction false} BlockHolds(tr: seq<State>, ev: seq<Event>, i: nat, k: nat, d: nat)
    requires IsRun(tr, ev) && i < k <= |ev| && ev[i].SetBlock?
    requires forall j :: 0 <= j < |ev| && ev[j].SetBlock? ==> ev[j].blockDuration == d
    ensures tr[k].blockedUntil >= tr[i].now + d && tr[k].now >= tr[i].now
    ensures k < |ev| && ev[k].CheckBlock? && tr[k].now < tr[i].now + d ==>
      tr[k + 1].requests[ev[k].request] == Answered(false)
  {
    if k > i + 1 {
      BlockHolds(tr, ev, i, k - 1, d);
    }
  }

  // ---------------------------------------------------------------- a request by itself

  /** How often the key has been counted up with this request, in the life the key has now. */
  function HitsNow(s: State): nat {
    if s.counter.Some? && (s.counter.value.exp.None? || s.now < s.counter.value.exp.value) then s.counter.value.hits + 1 else 1
  }

  /** A request that no block refuses is admitted exactly if it is within the limit; if not, and a block duration is
      set, it blocks the client for that long. */
  lemma RequestAlone(s: State, q: nat, d: nat)
    requires q !in s.requests && s.blockedUntil <= s.now
    ensures var s1 := Apply(s, CheckBlock(q));
      && Enabled(s1, Eval(q, d))
      && var s2 := Apply(s1, Eval(q, d));
         && s2.counter.Some? && s2.counter.value.hits == HitsNow(s)
         && (HitsNow(s) <= s.limit ==> s2.requests[q] == Answered(true) && s2.blockedUntil == s.blockedUntil)
         && (HitsNow(s) > s.limit && d == 0 ==> s2.requests[q] == Answered(false) && s2.blockedUntil == s.blockedUntil)
         && (HitsNow(s) > s.limit && d > 0 ==>
               && Enabled(s2, SetBlock(q, d))
               && var t := Apply(s2, SetBlock(q, d));
                  t.requests[q] == Answered(false) && t.blockedUntil == s.now + d && t.counter == s2.counter)
  {
  }

  /** A counter that is counted up keeps its end; a new one lives for the ttl. */
  lemma WindowKeepsItsEnd(s: State, q: nat, d: nat)
    requires Enabled(s, Eval(q, d))
    ensures Apply(s, Eval(q, d)).counter.value.exp ==
            if s.counter.Some? && s.counter.value.exp.Some? && s.now < s.counter.value.exp.value && s.counter.value.hits > 0
            then s.counter.value.exp else Some(s.now + s.ttl)
  {
  }

  /** The step blocks the client until this time. */
  predicate Blocks(s: State, e: Event, until: nat) {
    Enabled(s, e) && e.SetBlock? && s.now + e.blockDuration == until
  }

  /** Nobody is blocked without cause: a block in force was set by a request. */
  lemma {:induction false} BlockHasCause(tr: seq<State>, ev: seq<Event>, m: nat) returns (j: nat)
    requires IsRun(tr, ev) && m < |tr| && tr[0].blockedUntil < tr[m].blockedUntil
    ensures j < m && Blocks(tr[j], ev[j], tr[m].blockedUntil)
  {
    if ev[m - 1].SetBlock? {
      j := m - 1;
    } else {
      j := BlockHasCause(tr, ev, m - 1);
    }
  }

  /** The increment of this request was over the limit. */
  predicate CountsOver(s: State, e: Event, q: nat) {
    Enabled(s, e) && e.Eval? && e.request == q && HitsNow(s) > s.limit
  }

  lemma BlockingStep(s: State, e: Event, q: nat)
    requires Enabled(s, e) && q in Apply(s, e).requests && Apply(s, e).requests[q].Blocking?
    ensures (q in s.requests && s.requests[q].Blocking?) || CountsOver(s, e, q)
  {
  }

  /** And the request that set it was over the limit. */
  lemma {:induction false} BlockerWasOver(tr: seq<State>, ev: seq<Event>, m: nat, q: nat) returns (i: nat)
    requires IsRun(tr, ev) && m < |tr| && q in tr[m].requests && tr[m].requests[q].Blocking?
    ensures i < m && CountsOver(tr[i], ev[i], q)
  {
    BlockingStep(tr[m - 1], ev[m - 1], q);
    if q in tr[m - 1].requests && tr[m - 1].requests[q].Blocking? {
      i := BlockerWasOver(tr, ev, m - 1, q);
    } else {
      i := m - 1;
    }
  }

  /** The request was refused by a block in force, or counted over the limit. */
  predicate Refuses(s: State, e: Event, q: nat) {
    (e == CheckBlock(q) && s.now < s.blockedUntil) || CountsOver(s, e, q)
  }

  predicate IsRefused(s: State, q: nat) {
    q in s.requests && (s.requests[q] == Answered(false) || s.requests[q].Blocking?)
  }

  lemma RefusedStep(s: State, e: Event, q: nat)
    requires Enabled(s, e) && IsRefused(Apply(s, e), q)
    ensures IsRefused(s, q) || Refuses(s, e, q)
  {
  }

  /** Main result on refusals. In every run a request is refused only because a block was in force when it came, or
      because its own increment was over the limit. */
  lemma {:induction false} RefusalHasCause(tr: seq<State>, ev: seq<Event>, m: nat, q: nat) returns (j: nat)
    requires IsRun(tr, ev) && m < |tr| && IsRefused(tr[m], q)
    ensures j < m && Refuses(tr[j], ev[j], q)
  {
    RefusedStep(tr[m - 1], ev[m - 1], q);
    if IsRefused(tr[m - 1], q) {
      j := RefusalHasCause(tr, ev, m - 1, q);
    } else {
      j := m - 1;
    }
  }

  // ---------------------------------------------------------------- the code, step by step

  /** The two keys in Redis and the requests between their calls. */
  class Storage {
    const ttl: nat
    const limit: nat
    var now: nat
    var counter: Option<Counter>
    var blockedUntil: nat
    var requests: map<nat, Stage>
    ghost var log: seq<Increment>

    ghost function View(): State
      reads this
    {
      State(ttl, limit, now, counter, blockedUntil, requests, log)
    }

    constructor (ttl: nat, limit: nat)
      ensures View() == State(ttl, limit, 0, None, 0, map[], [])
    {
      this.ttl, this.limit, now := ttl, limit, 0;
      counter, blockedUntil, requests, log := None, 0, map[], [];
    }

    method CheckBlockKey(q: nat)
      requires Enabled(View(), CheckBlock(q))
      modifies this`requests
      ensures View() == Apply(old(View()), CheckBlock(q))
    {
      if now < blockedUntil {
        requests := requests[q := Answered(false)];
      } else {
        requests := requests[q := Counting];
      }
    }

    /** The script, in Redis. */
    method EvalIncr() returns (hits: nat)
      modifies this`counter
      ensures counter == Some(IncrScript(old(View()))) && hits == counter.value.hits
    {
      var c := Counter(1, None, now);
      if counter.Some? && (counter.value.exp.None? || now < counter.value.exp.value) {
        c := counter.value.(hits := counter.value.hits + 1);
      }
      if c.hits == 1 || c.exp.None? {
        c := c.(exp := Some(now + ttl));
      }
      counter := Some(c);
      hits := c.hits;
    }

    method CountRequest(q: nat, blockDuration: nat)
      requires Enabled(View(), Eval(q, blockDuration))
      modifies this
      ensures View() == Apply(old(View()), Eval(q, blockDuration))
    {
      var totalHits := EvalIncr();
      var isBlocked := totalHits > limit;
      if isBlocked && blockDuration > 0 {
        requests := requests[q := Blocking];
      } else {
        requests := requests[q := Answered(!isBlocked)];
      }
      log := log + [Increment(now, counter.value.start, totalHits)];
    }

    method SetBlockKey(q: nat, blockDuration: nat)
      requires Enabled(View(), SetBlock(q, blockDuration))
      modifies this`blockedUntil, this`requests
      ensures View() == Apply(old(View()), SetBlock(q, blockDuration))
    {
      blockedUntil := now + blockDuration;
      requests := requests[q := Answered(false)];
    }
  }
}
