/** runExclusive: one Redis key per job, set by whoever comes first, kept until its time to live is over, and
    given up early only by a run whose job failed. */
module CronLock {
  import opened Options

  /** The token is unique to a run and is identified with it. */
  datatype Lock = Lock(token: nat, exp: int)

  /** `locked` is false for a run that started because Redis could not be reached. */
  datatype Stage =
    | Running(start: int, locked: bool)
    | Releasing(start: int)
    | Ended
    | Skipped

  datatype State = State(ttl: nat, now: int, key: Option<Lock>, runs: map<nat, Stage>)

  datatype Event =
    | Tick(dt: nat)
    | Acquire(run: nat, reachable: bool)
    | JobEnds(run: nat, ok: bool)
    | Release(run: nat, reachable: bool)

  /** The key as Redis sees it now. */
  function Held(s: State): Option<Lock> {
    if s.key.Some? && s.now < s.key.value.exp then s.key else None
  }

  predicate Enabled(s: State, e: Event) {
    match e
    case Tick(_) => true
    case Acquire(r, _) => r !in s.runs
    case JobEnds(r, _) => r in s.runs && s.runs[r].Running?
    case Release(r, _) => r in s.runs && s.runs[r].Releasing?
  }

  function Go(s: State, r: nat, stage: Stage): State {
    s.(runs := s.runs[r := stage])
  }

  /** `SET key token PX ttl NX`. */
  function AcquireStep(s: State, r: nat, reachable: bool): State {
    if !reachable then Go(s, r, Running(s.now, false))
    else if Held(s).Some? then Go(s, r, Skipped)
    else Go(s, r, Running(s.now, true)).(key := Some(Lock(r, s.now + s.ttl)))
  }

  function JobEndsStep(s: State, r: nat, ok: bool): State
    requires r in s.runs && s.runs[r].Running?
  {
    Go(s, r, if !ok && s.runs[r].locked then Releasing(s.runs[r].start) else Ended)
  }

  /** RELEASE_SCRIPT: delete the key if it still holds the run's token. */
  function ReleaseStep(s: State, r: nat, reachable: bool): State {
    var t := Go(s, r, Ended);
    if reachable && Held(s).Some? && Held(s).value.token == r then t.(key := None) else t
  }

  function Apply(s: State, e: Event): State
    requires Enabled(s, e)
  {
    match e
    case Tick(dt) => s.(now := s.now + dt)
    case Acquire(r, reachable) => AcquireStep(s, r, reachable)
    case JobEnds(r, ok) => JobEndsStep(s, r, ok)
    case Release(r, reachable) => ReleaseStep(s, r, reachable)
  }

  ghost predicate IsRun(tr: seq<State>, ev: seq<Event>) {
    && |tr| == |ev| + 1
    && tr[0].key == None && tr[0].runs == map[]
    && forall i :: 0 <= i < |ev| ==> Enabled(tr[i], ev[i]) && tr[i + 1] == Apply(tr[i], ev[i])
  }

  /** The run takes the lock and starts its job. */
  predicate Acquires(s: State, e: Event) {
    e.Acquire? && Enabled(s, e) && e.reachable && Held(s).None?
  }

  // ---------------------------------------------------------------- main results

  /** A lock in force changes in one way only: its own run's release deletes it. In particular the release of
      a run whose job outlived its lock leaves the next run's lock alone. */
  lemma OnlyOwnReleaseUnlocks(s: State, e: Event)
    requires Enabled(s, e) && !e.Tick? && Held(s).Some? && Held(Apply(s, e)) != Held(s)
    ensures e == Release(Held(s).value.token, true) && Held(Apply(s, e)).None?
  {
  }

  lemma {:induction false} LockStays(tr: seq<State>, ev: seq<Event>, i: nat, k: nat)
    requires IsRun(tr, ev) && i < k <= |ev| && Acquires(tr[i], ev[i])
    requires forall j :: i < j < k ==> ev[j] != JobEnds(ev[i].run, false)
    requires tr[k].now < tr[i].now + tr[i].ttl
    ensures tr[k].key == Some(Lock(ev[i].run, tr[i].now + tr[i].ttl))
    ensures ev[i].run in tr[k].runs && !tr[k].runs[ev[i].run].Releasing?
  {
    if k > i + 1 {
      LockStays(tr, ev, i, k - 1);
    }
  }

  /** Two runs of one job that both take the lock start at least its time to live apart, unless the earlier
      one failed in between. */
  lemma RunsAreSpaced(tr: seq<State>, ev: seq<Event>, i: nat, k: nat)
    requires IsRun(tr, ev) && i < k < |ev| && Acquires(tr[i], ev[i]) && Acquires(tr[k], ev[k])
    requires forall j :: i < j < k ==> ev[j] != JobEnds(ev[i].run, false)
    ensures tr[k].now >= tr[i].now + tr[i].ttl
  {
    if tr[k].now < tr[i].now + tr[i].ttl {
      LockStays(tr, ev, i, k);
    }
  }

  /** An attempt made while a run's lock is in force is skipped: the job runs once per period. */
  lemma {:induction false} SecondComerSkips(tr: seq<State>, ev: seq<Event>, i: nat, k: nat)
    requires IsRun(tr, ev) && i < k < |ev| && Acquires(tr[i], ev[i])
    requires forall j :: i < j < k ==> ev[j] != JobEnds(ev[i].run, false)
    requires tr[k].now < tr[i].now + tr[i].ttl && ev[k].Acquire? && ev[k].reachable
    ensures tr[k + 1] == Go(tr[k], ev[k].run, Skipped)
  {
    LockStays(tr, ev, i, k);
  }

  // Jobs that end within the time to live never overlap.

  predicate RunsLocked(s: State, r: nat) {
    r in s.runs && s.runs[r].Running? && s.runs[r].locked
  }

  ghost predicate InTime(s: State, r: nat) {
    RunsLocked(s, r) ==> s.now < s.runs[r].start + s.ttl
  }

  ghost predicate HoldsKey(s: State, r: nat) {
    RunsLocked(s, r) ==> s.key == Some(Lock(r, s.runs[r].start + s.ttl))
  }

  lemma {:induction false} RunnersHoldTheKey(tr: seq<State>, ev: seq<Event>, m: nat, r: nat)
    requires IsRun(tr, ev) && m < |tr|
    requires forall i, q :: 0 <= i < |tr| && i <= m ==> InTime(tr[i], q)
    ensures HoldsKey(tr[m], r)
  {
    if m > 0 {
      RunnersHoldTheKey(tr, ev, m - 1, r);
      assert InTime(tr[m - 1], r);
      if ev[m - 1].Acquire? && RunsLocked(tr[m - 1], r) {
        assert Held(tr[m - 1]).Some?;
      }
    }
  }

  /** If no job outlives its lock, at most one run that took the lock is executing its job at any time. */
  lemma AtMostOneRuns(tr: seq<State>, ev: seq<Event>, m: nat, a: nat, b: nat)
    requires IsRun(tr, ev) && m < |tr|
    requires forall i, q :: 0 <= i < |tr| && i <= m ==> InTime(tr[i], q)
    requires RunsLocked(tr[m], a) && RunsLocked(tr[m], b)
    ensures a == b
  {
    RunnersHoldTheKey(tr, ev, m, a);
    RunnersHoldTheKey(tr, ev, m, b);
  }

  // ---------------------------------------------------------------- a job does run

  /** An attempt starts the job if no lock is in force, and also if Redis cannot be reached; only a lock in force
      makes it skip. */
  lemma StartsIff(s: State, r: nat, reachable: bool)
    requires r !in s.runs
    ensures var t := Apply(s, Acquire(r, reachable));
      if !reachable then t.runs[r] == Running(s.now, false) && t.key == s.key
      else if s.key.Some? && s.now < s.key.value.exp then t.runs[r] == Skipped && t.key == s.key
      else t.runs[r] == Running(s.now, true) && t.key == Some(Lock(r, s.now + s.ttl))
  {
  }

  /** Every lock was taken by the run whose token it holds, its time to live ago at most. */
  lemma {:induction false} LockHasCause(tr: seq<State>, ev: seq<Event>, m: nat) returns (j: nat)
    requires IsRun(tr, ev) && m < |tr| && tr[m].key.Some?
    ensures j < m && Acquires(tr[j], ev[j])
    ensures tr[m].key == Some(Lock(ev[j].run, tr[j].now + tr[j].ttl))
  {
    if tr[m - 1].key == tr[m].key {
      j := LockHasCause(tr, ev, m - 1);
    } else {
      j := m - 1;
    }
  }

  /** A job that failed gives its lock up at once, so that the next attempt runs; one that succeeded keeps it. */
  lemma FailureFreesLock(s: State, r: nat, start: int)
    requires r in s.runs && s.runs[r] == Running(start, true) && s.key.Some? && s.key.value.token == r && s.now < s.key.value.exp
    ensures var s1 := Apply(s, JobEnds(r, false));
      Enabled(s1, Release(r, true)) && Apply(s1, Release(r, true)).key == None && Apply(s1, Release(r, true)).runs[r] == Ended
    ensures Apply(s, JobEnds(r, true)).key == s.key && Apply(s, JobEnds(r, true)).runs[r] == Ended
  {
  }

  // ---------------------------------------------------------------- the code, step by step

  class JobLock {
    const ttl: nat
    var now: int
    var key: Option<Lock>
    var runs: map<nat, Stage>

    ghost function View(): State
      reads this
    {
      State(ttl, now, key, runs)
    }

    constructor (ttl: nat)
      ensures View() == State(ttl, 0, None, map[])
    {
      this.ttl, now, key, runs := ttl, 0, None, map[];
    }

    method TryStart(r: nat, reachable: bool) returns (started: bool)
      requires Enabled(View(), Acquire(r, reachable))
      modifies this`key, this`runs
      ensures View() == Apply(old(View()), Acquire(r, reachable))
      ensures started <==> runs[r].Running?
    {
      if !reachable {
        runs := runs[r := Running(now, false)];
        return true;
      }
      var acquired := key.None? || key.value.exp <= now;
      if !acquired {
        runs := runs[r := Skipped];
        return false;
      }
      key := Some(Lock(r, now + ttl));
      runs := runs[r := Running(now, true)];
      return true;
    }

    method JobEnded(r: nat, ok: bool)
      requires Enabled(View(), JobEnds(r, ok))
      modifies this`runs
      ensures View() == Apply(old(View()), JobEnds(r, ok))
    {
      var run := runs[r];
      if ok || !run.locked {
        runs := runs[r := Ended];
      } else {
        runs := runs[r := Releasing(run.start)];
      }
    }

    method ReleaseLock(r: nat, reachable: bool)
      requires Enabled(View(), Release(r, reachable))
      modifies this`key, this`runs
      ensures View() == Apply(old(View()), Release(r, reachable))
    {
      runs := runs[r := Ended];
      if reachable && key.Some? && now < key.value.exp && key.value.token == r {
        key := None;
      }
    }
  }
}
