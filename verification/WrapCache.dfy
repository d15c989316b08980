/** wrap, refresh and singleFlight: a cached value is served until its soft expiry, then served stale
    once per reader while a single background run of the factory refreshes it, until its hard expiry.

    A value is identified by the factory run that produced it. */
module WrapCache {
  import CacheTtl

  datatype Entry = Entry(run: nat, soft: nat, hard: nat)

  /** A factory run. `Writing` is the await of redis.set, with the jittered ttl and the soft expiry
      already chosen; a private run bypasses the cache. */
  datatype Phase = Loading | Writing(t: nat, soft: nat) | Ended(at: nat) | Threw

  datatype Run<K> = Run(proc: nat, key: K, private: bool, begun: nat, phase: Phase)

  datatype Stage = Asking | Waiting(run: nat) | Returned(run: nat, at: nat) | Failed

  datatype Call<K> = Call(proc: nat, key: K, stage: Stage)

  /** `bound` is the longest a factory run may take, including the write of its result. */
  datatype State<K> = State(
    ttl: nat, bound: nat, now: nat,
    entries: map<K, Entry>, inflight: map<(nat, K), nat>,
    runs: map<nat, Run<K>>, calls: map<nat, Call<K>>)

  datatype Event<K> =
    | Tick(dt: nat)
    | Drop(key: K)
    | Ask(call: nat, proc: nat, key: K)
    | Bypass(call: nat, proc: nat, key: K, started: nat)
    | Get(call: nat, ok: bool, started: nat)
    | Load(run: nat, cacheable: bool, random: real)
    | LoadFail(run: nat)
    | Store(run: nat, ok: bool)
    | Return(call: nat)

  /** The longest an entry written by this ttl can live, in milliseconds. */
  function LifeMs(ttl: nat): nat {
    CacheTtl.Life(ttl, CacheTtl.MaxJitter(ttl)) * 1000
  }

  predicate Busy<K>(s: State<K>, r: nat) {
    r in s.runs && (s.runs[r].phase.Loading? || s.runs[r].phase.Writing?)
  }

  ghost predicate Enabled<K>(s: State<K>, e: Event<K>) {
    match e
    case Tick(dt) => forall r :: Busy(s, r) ==> s.now + dt <= s.runs[r].begun + s.bound
    case Drop(_) => true
    case Ask(c, _, _) => c !in s.calls
    case Bypass(c, _, _, started) => c !in s.calls && started !in s.runs
    case Get(c, _, started) => c in s.calls && s.calls[c].stage.Asking? && started !in s.runs
    case Load(r, _, random) => r in s.runs && s.runs[r].phase.Loading? && 0.0 <= random < 1.0
    case LoadFail(r) => r in s.runs && s.runs[r].phase.Loading?
    case Store(r, _) => r in s.runs && s.runs[r].phase.Writing?
    case Return(c) => c in s.calls && s.calls[c].stage.Waiting? && s.calls[c].stage.run in s.runs &&
                      !Busy(s, s.calls[c].stage.run)
  }

  function SetStage<K>(s: State<K>, c: nat, stage: Stage): State<K>
    requires c in s.calls
  {
    s.(calls := s.calls[c := s.calls[c].(stage := stage)])
  }

  /** singleFlight: the running factory of this key in this process, started now if there is none. */
  function Flight<K>(s: State<K>, proc: nat, key: K, started: nat): (State<K>, nat) {
    if (proc, key) in s.inflight then (s, s.inflight[(proc, key)])
    else
      (s.(inflight := s.inflight[(proc, key) := started],
          runs := s.runs[started := Run(proc, key, false, s.now, Loading)]), started)
  }

  function GetCall<K>(s: State<K>, c: nat, ok: bool, started: nat): State<K>
    requires c in s.calls
  {
    var call := s.calls[c];
    if ok && call.key in s.entries && s.now < s.entries[call.key].hard then
      var entry := s.entries[call.key];
      var t := if s.now < entry.soft then s else Flight(s, call.proc, call.key, started).0;
      SetStage(t, c, Returned(entry.run, s.now))
    else
      var (t, r) := Flight(s, call.proc, call.key, started);
      SetStage(t, c, Waiting(r))
  }

  /** A settled run leaves the in-flight map. */
  function Settle<K>(s: State<K>, r: nat, phase: Phase): State<K>
    requires r in s.runs
  {
    var run := s.runs[r];
    s.(runs := s.runs[r := run.(phase := phase)],
       inflight := if run.private then s.inflight else s.inflight - {(run.proc, run.key)})
  }

  function LoadRun<K>(s: State<K>, r: nat, cacheable: bool, random: real): State<K>
    requires r in s.runs && 0.0 <= random < 1.0
  {
    var run := s.runs[r];
    if run.private || !cacheable then Settle(s, r, Ended(s.now))
    else
      var t := CacheTtl.Jitter(s.ttl, random);
      s.(runs := s.runs[r := run.(phase := Writing(t, s.now + t * 1000))])
  }

  /** redis.set swallows its errors, so the run ends well either way. */
  function StoreRun<K>(s: State<K>, r: nat, ok: bool): State<K>
    requires r in s.runs && s.runs[r].phase.Writing?
  {
    var run := s.runs[r];
    var entry := Entry(r, run.phase.soft, s.now + CacheTtl.Life(s.ttl, run.phase.t) * 1000);
    var t := if ok then s.(entries := s.entries[run.key := entry]) else s;
    Settle(t, r, Ended(s.now))
  }

  function ReturnCall<K>(s: State<K>, c: nat): State<K>
    requires c in s.calls && s.calls[c].stage.Waiting? && s.calls[c].stage.run in s.runs
  {
    var r := s.calls[c].stage.run;
    match s.runs[r].phase
    case Ended(at) => SetStage(s, c, Returned(r, at))
    case _ => SetStage(s, c, Failed)
  }

  function Apply<K>(s: State<K>, e: Event<K>): State<K>
    requires Enabled(s, e)
  {
    match e
    case Tick(dt) => s.(now := s.now + dt)
    case Drop(key) => s.(entries := s.entries - {key})
    case Ask(c, p, key) => s.(calls := s.calls[c := Call(p, key, Asking)])
    case Bypass(c, p, key, started) =>
      s.(runs := s.runs[started := Run(p, key, true, s.now, Loading)],
         calls := s.calls[c := Call(p, key, Waiting(started))])
    case Get(c, ok, started) => GetCall(s, c, ok, started)
    case Load(r, cacheable, random) => LoadRun(s, r, cacheable, random)
    case LoadFail(r) => Settle(s, r, Threw)
    case Store(r, ok) => StoreRun(s, r, ok)
    case Return(c) => ReturnCall(s, c)
  }

  ghost predicate Init<K>(s: State<K>) {
    s.entries == map[] && s.inflight == map[] && s.runs == map[] && s.calls == map[]
  }

  // ---------------------------------------------------------------- invariant

  ghost predicate RunOk<K>(s: State<K>, r: nat)
    requires r in s.runs
  {
    var run := s.runs[r];
    && run.begun <= s.now
    && (Busy(s, r) ==> s.now <= run.begun + s.bound)
    && (run.phase.Writing? ==> !run.private && run.phase.t <= CacheTtl.MaxJitter(s.ttl))
    && (run.phase.Ended? ==> run.phase.at <= run.begun + s.bound)
  }

  ghost predicate EntryOk<K>(s: State<K>, key: K)
    requires key in s.entries
  {
    var entry := s.entries[key];
    && entry.run in s.runs && s.runs[entry.run].key == key
    && entry.hard <= s.runs[entry.run].begun + s.bound + LifeMs(s.ttl)
  }

  ghost predicate CallOk<K>(s: State<K>, c: nat)
    requires c in s.calls
  {
    var call := s.calls[c];
    match call.stage
    case Waiting(r) => r in s.runs && s.runs[r].key == call.key
    case Returned(r, at) => r in s.runs && s.runs[r].key == call.key && at < s.runs[r].begun + s.bound + LifeMs(s.ttl)
    case _ => true
  }

  /** An in-flight slot is the slot of its own run. */
  ghost predicate SlotOfRun<K>(s: State<K>, slot: (nat, K)) {
    slot in s.inflight && s.inflight[slot] in s.runs &&
    var run := s.runs[s.inflight[slot]];
    !run.private && slot == (run.proc, run.key)
  }

  ghost predicate Inv<K(!new)>(s: State<K>) {
    && (forall r :: r in s.runs ==> RunOk(s, r))
    && (forall key :: key in s.entries ==> EntryOk(s, key))
    && (forall c :: c in s.calls ==> CallOk(s, c))
    && (forall slot :: slot in s.inflight ==> Busy(s, s.inflight[slot]) && SlotOfRun(s, slot))
  }

  lemma InvStage<K(!new)>(s: State<K>, c: nat, stage: Stage)
    requires Inv(s) && c in s.calls && CallOk(SetStage(s, c, stage), c)
    ensures Inv(SetStage(s, c, stage))
  {
    var t := SetStage(s, c, stage);
    assert forall r :: r in s.runs ==> RunOk(s, r) && RunOk(t, r);
    assert forall key :: key in s.entries ==> EntryOk(s, key) && EntryOk(t, key);
    assert forall k :: k in s.calls ==> CallOk(s, k) && (k != c ==> CallOk(t, k));
  }

  lemma InvFlight<K(!new)>(s: State<K>, proc: nat, key: K, started: nat)
    requires Inv(s) && started !in s.runs
    ensures var (t, r) := Flight(s, proc, key, started);
      Inv(t) && Busy(t, r) && t.runs[r].key == key && t.calls == s.calls
  {
    if (proc, key) !in s.inflight {
      var t := Flight(s, proc, key, started).0;
      assert forall r :: r in s.runs ==> RunOk(s, r) && RunOk(t, r);
      assert forall k :: k in s.entries ==> EntryOk(s, k) && EntryOk(t, k);
      assert forall c :: c in s.calls ==> CallOk(s, c) && CallOk(t, c);
    }
  }

  lemma InvGet<K(!new)>(s: State<K>, c: nat, ok: bool, started: nat)
    requires Inv(s) && Enabled(s, Get(c, ok, started))
    ensures Inv(GetCall(s, c, ok, started))
  {
    var call := s.calls[c];
    InvFlight(s, call.proc, call.key, started);
    var (t, r) := Flight(s, call.proc, call.key, started);
    if ok && call.key in s.entries && s.now < s.entries[call.key].hard {
      var entry := s.entries[call.key];
      assert EntryOk(s, call.key);
      InvStage(if s.now < entry.soft then s else t, c, Returned(entry.run, s.now));
    } else {
      InvStage(t, c, Waiting(r));
    }
  }

  lemma InvSettle<K(!new)>(s: State<K>, r: nat, phase: Phase)
    requires Inv(s) && Busy(s, r) && (phase == Ended(s.now) || phase.Threw?)
    ensures Inv(Settle(s, r, phase))
  {
    var t := Settle(s, r, phase);
    assert forall k :: k in s.runs ==> RunOk(s, k) && RunOk(t, k);
    assert forall key :: key in s.entries ==> EntryOk(s, key) && EntryOk(t, key);
    assert forall c :: c in s.calls ==> CallOk(s, c) && CallOk(t, c);
    forall slot | slot in t.inflight
      ensures Busy(t, t.inflight[slot]) && SlotOfRun(t, slot)
    {
      assert SlotOfRun(s, slot);
    }
  }

  lemma InvWriting<K(!new)>(s: State<K>, r: nat, phase: Phase)
    requires Inv(s) && Busy(s, r) && !s.runs[r].private && phase.Writing? && phase.t <= CacheTtl.MaxJitter(s.ttl)
    ensures Inv(s.(runs := s.runs[r := s.runs[r].(phase := phase)]))
  {
    var t := s.(runs := s.runs[r := s.runs[r].(phase := phase)]);
    assert forall k :: k in s.runs ==> RunOk(s, k) && RunOk(t, k);
    assert forall key :: key in s.entries ==> EntryOk(s, key) && EntryOk(t, key);
    assert forall c :: c in s.calls ==> CallOk(s, c) && CallOk(t, c);
    assert forall slot :: slot in t.inflight ==> SlotOfRun(s, slot) && SlotOfRun(t, slot);
  }

  lemma InvLoad<K(!new)>(s: State<K>, r: nat, cacheable: bool, random: real)
    requires Inv(s) && Enabled(s, Load(r, cacheable, random))
    ensures Inv(LoadRun(s, r, cacheable, random))
  {
    CacheTtl.JitterAtMost(s.ttl, random);
    if s.runs[r].private || !cacheable {
      InvSettle(s, r, Ended(s.now));
    } else {
      var t := CacheTtl.Jitter(s.ttl, random);
      InvWriting(s, r, Writing(t, s.now + t * 1000));
    }
  }

  lemma InvEntry<K(!new)>(s: State<K>, key: K, entry: Entry)
    requires Inv(s) && EntryOk(s.(entries := s.entries[key := entry]), key)
    ensures Inv(s.(entries := s.entries[key := entry]))
  {
    var t := s.(entries := s.entries[key := entry]);
    assert forall k :: k in s.runs ==> RunOk(s, k) && RunOk(t, k);
    assert forall k :: k in t.entries && k != key ==> EntryOk(s, k) && EntryOk(t, k);
    assert forall c :: c in s.calls ==> CallOk(s, c) && CallOk(t, c);
    assert forall slot :: slot in t.inflight ==> SlotOfRun(s, slot) && SlotOfRun(t, slot);
  }

  /** What a run stores does not outlive the longest entry life, counted from the end of its bound. */
  lemma StoredLife<K(!new)>(s: State<K>, r: nat)
    requires Inv(s) && r in s.runs && s.runs[r].phase.Writing?
    ensures s.now + CacheTtl.Life(s.ttl, s.runs[r].phase.t) * 1000 <= s.runs[r].begun + s.bound + LifeMs(s.ttl)
    ensures s.now <= s.runs[r].begun + s.bound
  {
    assert RunOk(s, r);
  }

  lemma InvStore<K(!new)>(s: State<K>, r: nat, ok: bool)
    requires Inv(s) && Enabled(s, Store(r, ok))
    ensures Inv(StoreRun(s, r, ok))
  {
    var run := s.runs[r];
    var entry := Entry(r, run.phase.soft, s.now + CacheTtl.Life(s.ttl, run.phase.t) * 1000);
    StoredLife(s, r);
    if ok {
      InvEntry(s, run.key, entry);
      InvSettle(s.(entries := s.entries[run.key := entry]), r, Ended(s.now));
    } else {
      InvSettle(s, r, Ended(s.now));
    }
  }

  lemma InvBypass<K(!new)>(s: State<K>, c: nat, p: nat, key: K, started: nat)
    requires Inv(s) && Enabled(s, Bypass(c, p, key, started))
    ensures Inv(Apply(s, Bypass(c, p, key, started)))
  {
    var t := Apply(s, Bypass(c, p, key, started));
    assert forall k :: k in s.runs ==> RunOk(s, k) && RunOk(t, k);
    assert forall k :: k in s.entries ==> EntryOk(s, k) && EntryOk(t, k);
    assert forall k :: k in s.calls ==> CallOk(s, k) && CallOk(t, k);
    assert forall slot :: slot in s.inflight ==> SlotOfRun(s, slot) && SlotOfRun(t, slot);
  }

  lemma InvTick<K(!new)>(s: State<K>, dt: nat)
    requires Inv(s) && Enabled(s, Tick(dt))
    ensures Inv(Apply(s, Tick(dt)))
  {
    var t := Apply(s, Tick(dt));
    assert forall k :: k in s.runs ==> RunOk(s, k) && RunOk(t, k);
    assert forall k :: k in s.entries ==> EntryOk(s, k) && EntryOk(t, k);
    assert forall k :: k in s.calls ==> CallOk(s, k) && CallOk(t, k);
    assert forall slot :: slot in s.inflight ==> SlotOfRun(s, slot) && SlotOfRun(t, slot);
  }

  lemma InvStep<K(!new)>(s: State<K>, e: Event<K>)
    requires Inv(s) && Enabled(s, e)
    ensures Inv(Apply(s, e))
  {
    match e
    case Tick(dt) => InvTick(s, dt);
    case Drop(key) =>
      var t := Apply(s, e);
      assert forall k :: k in t.entries ==> EntryOk(s, k) && EntryOk(t, k);
    case Ask(c, p, key) =>
      var t := Apply(s, e);
      assert forall k :: k in s.calls ==> CallOk(s, k) && CallOk(t, k);
    case Bypass(c, p, key, started) => InvBypass(s, c, p, key, started);
    case Get(c, ok, started) => InvGet(s, c, ok, started);
    case Load(r, cacheable, random) => InvLoad(s, r, cacheable, random);
    case LoadFail(r) => InvSettle(s, r, Threw);
    case Store(r, ok) => InvStore(s, r, ok);
    case Return(c) =>
      var r := s.calls[c].stage.run;
      assert RunOk(s, r) && CallOk(s, c);
      assert LifeMs(s.ttl) > 0;
      if s.runs[r].phase.Ended? {
        InvStage(s, c, Returned(r, s.runs[r].phase.at));
      } else {
        InvStage(s, c, Failed);
      }
  }

  /** Runs are never forgotten, and a new one begins now. */
  lemma RunsStep<K(!new)>(s: State<K>, e: Event<K>, r: nat)
    requires Enabled(s, e) && r in Apply(s, e).runs
    ensures r in s.runs ==> Apply(s, e).runs[r].begun == s.runs[r].begun && Apply(s, e).runs[r].key == s.runs[r].key
    ensures r !in s.runs ==> Apply(s, e).runs[r].begun == s.now
  {
  }

  lemma RunsStay<K(!new)>(s: State<K>, e: Event<K>)
    requires Enabled(s, e)
    ensures s.runs.Keys <= Apply(s, e).runs.Keys
    ensures Apply(s, e).ttl == s.ttl && Apply(s, e).bound == s.bound && Apply(s, e).now >= s.now
  {
  }

  /** A call moves on only by its own Get and Return. */
  lemma CallStep<K(!new)>(s: State<K>, e: Event<K>, c: nat)
    requires Enabled(s, e) && !(e.Get? && e.call == c) && !e.Ask? && !e.Bypass?
    ensures c in Apply(s, e).calls <==> c in s.calls
    ensures c in s.calls ==> Apply(s, e).calls[c].key == s.calls[c].key
    ensures c in s.calls && !(e.Return? && e.call == c) ==> Apply(s, e).calls[c] == s.calls[c]
    ensures e.Return? && e.call == c ==>
      Apply(s, e).calls[c].stage.Failed? ||
      (Apply(s, e).calls[c].stage.Returned? && Apply(s, e).calls[c].stage.run == s.calls[c].stage.run)
  {
    match e
    case Get(_, ok, started) =>
    case Load(r, cacheable, random) =>
    case Store(r, ok) =>
    case Return(_) =>
    case _ =>
  }

  /** A call returns at `at` only a value whose factory run began less than `bound` plus the longest entry
      life before. Every entry satisfies the same limit, however many stale serves came between. */
  lemma ReturnedIsRecent<K(!new)>(s: State<K>, c: nat, r: nat, at: nat)
    requires Inv(s) && c in s.calls && s.calls[c].stage == Returned(r, at)
    ensures r in s.runs && s.runs[r].key == s.calls[c].key
    ensures at < s.runs[r].begun + s.bound + LifeMs(s.ttl)
  {
    assert CallOk(s, c);
  }

  // ---------------------------------------------------------------- single flight

  /** A running factory that serves the cache is found under its process and key. */
  ghost predicate Registered<K>(s: State<K>, r: nat) {
    Busy(s, r) && !s.runs[r].private ==>
      (s.runs[r].proc, s.runs[r].key) in s.inflight && s.inflight[(s.runs[r].proc, s.runs[r].key)] == r
  }

  lemma RegisteredStep<K(!new)>(s: State<K>, e: Event<K>, r: nat)
    requires Enabled(s, e) && Registered(s, r) && (forall q :: q != r ==> Registered(s, q))
    ensures Registered(Apply(s, e), r)
  {
    match e
    case Get(c, ok, started) =>
    case Store(q, ok) => assert Registered(s, q);
    case Load(q, cacheable, random) => assert Registered(s, q);
    case LoadFail(q) => assert Registered(s, q);
    case _ =>
  }

  ghost predicate IsRun<K>(tr: seq<State<K>>, ev: seq<Event<K>>) {
    && |tr| == |ev| + 1 && Init(tr[0])
    && forall i :: 0 <= i < |ev| ==> Enabled(tr[i], ev[i]) && tr[i + 1] == Apply(tr[i], ev[i])
  }

  lemma {:induction false} AllRegistered<K(!new)>(tr: seq<State<K>>, ev: seq<Event<K>>, m: nat)
    requires IsRun(tr, ev) && m < |tr|
    ensures forall r :: Registered(tr[m], r)
  {
    if m > 0 {
      AllRegistered(tr, ev, m - 1);
      forall r ensures Registered(tr[m], r) {
        RegisteredStep(tr[m - 1], ev[m - 1], r);
      }
    }
  }

  /** One factory call per key and process at a time: concurrent callers share it. */
  lemma OneFactoryPerKey<K(!new)>(tr: seq<State<K>>, ev: seq<Event<K>>, m: nat, q: nat, r: nat)
    requires IsRun(tr, ev) && m < |tr| && Busy(tr[m], q) && Busy(tr[m], r)
    requires !tr[m].runs[q].private && !tr[m].runs[r].private
    requires tr[m].runs[q].proc == tr[m].runs[r].proc && tr[m].runs[q].key == tr[m].runs[r].key
    ensures q == r
  {
    AllRegistered(tr, ev, m);
    assert Registered(tr[m], q) && Registered(tr[m], r);
  }

  /** Whoever is served a value past its soft expiry leaves a factory running for its key. */
  lemma StaleIsRefreshed<K(!new)>(tr: seq<State<K>>, ev: seq<Event<K>>, m: nat, c: nat, started: nat)
    requires IsRun(tr, ev) && m < |ev| && ev[m] == Get(c, true, started)
    requires var key := tr[m].calls[c].key; key in tr[m].entries && tr[m].entries[key].soft <= tr[m].now < tr[m].entries[key].hard
    ensures var key, proc := tr[m].calls[c].key, tr[m].calls[c].proc;
      && tr[m + 1].calls[c].stage == Returned(tr[m].entries[key].run, tr[m].now)
      && (proc, key) in tr[m + 1].inflight && tr[m + 1].inflight[(proc, key)] in tr[m + 1].runs
      && Busy(tr[m + 1], tr[m + 1].inflight[(proc, key)])
  {
    InvRun(tr, ev, m);
    var slot := (tr[m].calls[c].proc, tr[m].calls[c].key);
    assert slot in tr[m].inflight ==> Busy(tr[m], tr[m].inflight[slot]);
  }

  lemma {:induction false} InvRun<K(!new)>(tr: seq<State<K>>, ev: seq<Event<K>>, m: nat)
    requires IsRun(tr, ev) && m < |tr|
    ensures Inv(tr[m])
  {
    if m > 0 {
      InvRun(tr, ev, m - 1);
      InvStep(tr[m - 1], ev[m - 1]);
    }
  }

  // ---------------------------------------------------------------- where a value comes from

  /** The factory has given its result. */
  predicate Loaded<K>(s: State<K>, r: nat) {
    r in s.runs && (s.runs[r].phase.Writing? || s.runs[r].phase.Ended?)
  }

  lemma LoadedStep<K(!new)>(s: State<K>, e: Event<K>, r: nat)
    requires Enabled(s, e)
    ensures Loaded(s, r) ==> Loaded(Apply(s, e), r)
    ensures Loaded(Apply(s, e), r) && !Loaded(s, r) ==> e.Load? && e.run == r
  {
    match e
    case Get(c, ok, started) =>
    case Load(q, cacheable, random) =>
    case Store(q, ok) =>
    case _ =>
  }

  /** Only results of the factory are stored. */
  lemma {:induction false} EntriesAreLoaded<K(!new)>(tr: seq<State<K>>, ev: seq<Event<K>>, m: nat, key: K)
    requires IsRun(tr, ev) && m < |tr| && key in tr[m].entries
    ensures Loaded(tr[m], tr[m].entries[key].run)
  {
    var s, e := tr[m - 1], ev[m - 1];
    if key in s.entries && s.entries[key] == tr[m].entries[key] {
      EntriesAreLoaded(tr, ev, m - 1, key);
      LoadedStep(s, e, s.entries[key].run);
    } else {
      assert e.Store? && tr[m].entries[key].run == e.run;
    }
  }

  /** The event that started a run. */
  lemma {:induction false} BeginOrigin<K(!new)>(tr: seq<State<K>>, ev: seq<Event<K>>, m: nat, r: nat) returns (b: nat)
    requires IsRun(tr, ev) && m < |tr| && r in tr[m].runs
    ensures b < m && Begins(tr, b, r)
    ensures tr[b + 1].runs[r].key == tr[m].runs[r].key && tr[b].now == tr[m].runs[r].begun
  {
    RunsStep(tr[m - 1], ev[m - 1], r);
    if r in tr[m - 1].runs {
      b := BeginOrigin(tr, ev, m - 1, r);
    } else {
      b := m - 1;
    }
  }

  predicate Begins<K>(tr: seq<State<K>>, b: nat, r: nat) {
    b + 1 < |tr| && r !in tr[b].runs && r in tr[b + 1].runs
  }

  lemma {:induction false} LoadOrigin<K(!new)>(tr: seq<State<K>>, ev: seq<Event<K>>, m: nat, r: nat) returns (l: nat)
    requires IsRun(tr, ev) && m < |tr| && Loaded(tr[m], r)
    ensures l < m && ev[l].Load? && ev[l].run == r && r in tr[l].runs
    ensures tr[l].runs[r].begun == tr[m].runs[r].begun && tr[l].runs[r].key == tr[m].runs[r].key
  {
    LoadedStep(tr[m - 1], ev[m - 1], r);
    RunsStep(tr[m - 1], ev[m - 1], r);
    if Loaded(tr[m - 1], r) {
      l := LoadOrigin(tr, ev, m - 1, r);
    } else {
      l := m - 1;
    }
  }

  /** The event that fixed the value of a call at time `at`: the call's own look at the entry, or the end of the
      run that it waits for. */
  predicate Fixes<K>(s: State<K>, e: Event<K>, c: nat, r: nat, at: nat) {
    s.now == at && ((e.Get? && e.call == c) || ((e.Load? || e.Store?) && e.run == r))
  }

  lemma EndedStep<K(!new)>(s: State<K>, e: Event<K>, c: nat, r: nat, at: nat)
    requires Enabled(s, e) && r in Apply(s, e).runs && Apply(s, e).runs[r].phase == Ended(at)
    requires !(r in s.runs && s.runs[r].phase == Ended(at))
    ensures Fixes(s, e, c, r, at)
  {
    match e
    case Get(_, ok, started) =>
    case Load(q, cacheable, random) =>
    case Store(q, ok) =>
    case _ =>
  }

  lemma {:induction false} EndOrigin<K(!new)>(tr: seq<State<K>>, ev: seq<Event<K>>, m: nat, c: nat, r: nat, at: nat)
    returns (e: nat)
    requires IsRun(tr, ev) && m < |tr| && r in tr[m].runs && tr[m].runs[r].phase == Ended(at)
    ensures e < m && Fixes(tr[e], ev[e], c, r, at) && Loaded(tr[e + 1], r)
  {
    if r in tr[m - 1].runs && tr[m - 1].runs[r].phase == Ended(at) {
      e := EndOrigin(tr, ev, m - 1, c, r, at);
    } else {
      e := m - 1;
      EndedStep(tr[e], ev[e], c, r, at);
    }
  }

  lemma ReturnedStep<K(!new)>(s: State<K>, e: Event<K>, c: nat, r: nat, at: nat)
    requires Enabled(s, e) && HasReturned(Apply(s, e), c, r, at) && !HasReturned(s, c, r, at)
    ensures (e.Get? && Fixes(s, e, c, r, at) && c in s.calls
             && s.calls[c].key in s.entries && s.entries[s.calls[c].key].run == r)
            || (e == Return(c) && r in s.runs && s.runs[r].phase == Ended(at))
  {
    match e
    case Get(_, ok, started) =>
    case Load(q, cacheable, random) =>
    case Store(q, ok) =>
    case Return(_) =>
    case _ =>
  }

  lemma GotLoaded<K(!new)>(tr: seq<State<K>>, ev: seq<Event<K>>, e: nat, key: K)
    requires IsRun(tr, ev) && e < |ev| && key in tr[e].entries
    ensures Loaded(tr[e + 1], tr[e].entries[key].run)
  {
    EntriesAreLoaded(tr, ev, e, key);
    LoadedStep(tr[e], ev[e], tr[e].entries[key].run);
  }

  predicate HasReturned<K>(s: State<K>, c: nat, r: nat, at: nat) {
    c in s.calls && s.calls[c].stage == Returned(r, at)
  }

  /** The step at which a call has its value. */
  lemma {:induction false} ReturnStep<K(!new)>(tr: seq<State<K>>, m: nat, c: nat, r: nat, at: nat) returns (k: nat)
    requires m < |tr| && tr[0].calls == map[] && HasReturned(tr[m], c, r, at)
    ensures k < m && !HasReturned(tr[k], c, r, at) && HasReturned(tr[k + 1], c, r, at)
  {
    if HasReturned(tr[m - 1], c, r, at) {
      k := ReturnStep(tr, m - 1, c, r, at);
    } else {
      k := m - 1;
    }
  }

  lemma ValueOrigin<K(!new)>(tr: seq<State<K>>, ev: seq<Event<K>>, m: nat, c: nat, r: nat, at: nat) returns (e: nat)
    requires IsRun(tr, ev) && m < |tr| && HasReturned(tr[m], c, r, at)
    ensures e < m && Fixes(tr[e], ev[e], c, r, at) && Loaded(tr[e + 1], r)
  {
    var k := ReturnStep(tr, m, c, r, at);
    ReturnedStep(tr[k], ev[k], c, r, at);
    if ev[k].Get? {
      e := k;
      GotLoaded(tr, ev, k, tr[k].calls[c].key);
    } else {
      e := EndOrigin(tr, ev, k, c, r, at);
    }
  }

  lemma {:induction false} Constants<K(!new)>(tr: seq<State<K>>, ev: seq<Event<K>>, m: nat)
    requires IsRun(tr, ev) && m < |tr|
    ensures tr[m].ttl == tr[0].ttl && tr[m].bound == tr[0].bound
  {
    if m > 0 {
      Constants(tr, ev, m - 1);
      RunsStay(tr[m - 1], ev[m - 1]);
    }
  }

  /** Main result. Whatever a call returns was computed by a run of the factory for the call's own key: the run
      began (`b`), gave its result (`l`), and only then was the call's value fixed (`e`), less than `bound` plus
      the longest entry life after the beginning, however many stale serves came between. */
  lemma ValuesAreRecent<K(!new)>(tr: seq<State<K>>, ev: seq<Event<K>>, m: nat, c: nat, r: nat, at: nat)
    returns (b: nat, l: nat, e: nat)
    requires IsRun(tr, ev) && m < |tr| && c in tr[m].calls && tr[m].calls[c].stage == Returned(r, at)
    ensures b < l <= e < m
    ensures Begins(tr, b, r) && tr[b + 1].runs[r].key == tr[m].calls[c].key
    ensures ev[l].Load? && ev[l].run == r
    ensures Fixes(tr[e], ev[e], c, r, at)
    ensures tr[e].now < tr[b].now + tr[0].bound + LifeMs(tr[0].ttl)
  {
    InvRun(tr, ev, m);
    ReturnedIsRecent(tr[m], c, r, at);
    Constants(tr, ev, m);
    e := ValueOrigin(tr, ev, m, c, r, at);
    l := LoadOrigin(tr, ev, e + 1, r);
    b := BeginOrigin(tr, ev, l, r);
    RunsKept(tr, ev, l, m, r);
  }

  lemma {:induction false} RunsKept<K(!new)>(tr: seq<State<K>>, ev: seq<Event<K>>, i: nat, m: nat, r: nat)
    requires IsRun(tr, ev) && i <= m < |tr| && r in tr[i].runs
    ensures r in tr[m].runs && tr[m].runs[r].begun == tr[i].runs[r].begun && tr[m].runs[r].key == tr[i].runs[r].key
  {
    if i < m {
      RunsKept(tr, ev, i, m - 1, r);
      RunsStay(tr[m - 1], ev[m - 1]);
      RunsStep(tr[m - 1], ev[m - 1], r);
    }
  }

  // ---------------------------------------------------------------- the cache serves what it stores

  /** The step may end or replace the entry: an eviction, or another store under the key. */
  predicate Disturbs<K>(s: State<K>, e: Event<K>, key: K) {
    e == Drop(key) || (e.Store? && e.run in s.runs && s.runs[e.run].key == key)
  }

  predicate HasEntry<K>(s: State<K>, key: K, entry: Entry) {
    key in s.entries && s.entries[key] == entry
  }

  lemma EntryStays<K(!new)>(s: State<K>, e: Event<K>, key: K, entry: Entry)
    requires Enabled(s, e) && HasEntry(s, key, entry) && !Disturbs(s, e, key)
    ensures HasEntry(Apply(s, e), key, entry)
  {
    match e
    case Get(_, _, _) =>
    case Load(_, _, _) =>
    case Store(_, _) =>
    case _ =>
  }

  lemma {:induction false} EntryStaysRun<K(!new)>(tr: seq<State<K>>, ev: seq<Event<K>>, i: nat, m: nat, key: K, entry: Entry)
    requires IsRun(tr, ev) && i <= m < |tr| && HasEntry(tr[i], key, entry)
    requires forall k :: i <= k < m ==> !Disturbs(tr[k], ev[k], key)
    ensures HasEntry(tr[m], key, entry)
  {
    if i < m {
      EntryStaysRun(tr, ev, i, m - 1, key, entry);
      EntryStays(tr[m - 1], ev[m - 1], key, entry);
    }
  }

  /** A result that can be cached is written with its jittered lifetime `t`: it is fresh for that long after the
      factory gave it, and stale for at most half a minute more. A private result is never written. */
  lemma ResultIsWritten<K(!new)>(s: State<K>, r: nat, random: real)
    requires Enabled(s, Load(r, true, random)) && !s.runs[r].private
    ensures var t, s1 := CacheTtl.Jitter(s.ttl, random), Apply(s, Load(r, true, random));
      && s1.runs[r].phase == Writing(t, s.now + t * 1000) && s1.entries == s.entries
      && Enabled(s1, Store(r, true))
      && HasEntry(Apply(s1, Store(r, true)), s.runs[r].key,
                  Entry(r, s.now + t * 1000, s.now + (t + if s.ttl < 30 then s.ttl else 30) * 1000))
      && Apply(s1, Store(r, true)).runs[r].phase == Ended(s.now)
  {
  }

  lemma PrivateIsNotWritten<K(!new)>(s: State<K>, r: nat, cacheable: bool, random: real)
    requires Enabled(s, Load(r, cacheable, random)) && (s.runs[r].private || !cacheable)
    ensures Apply(s, Load(r, cacheable, random)).runs[r].phase == Ended(s.now)
    ensures Apply(s, Load(r, cacheable, random)).entries == s.entries
  {
  }

  /** Main result on hits. What was stored is served to every call for its key that reaches Redis in time, until it
      is evicted or stored again: while it is fresh no factory is started, and past its time the call must wait. */
  lemma StoredIsServed<K(!new)>(tr: seq<State<K>>, ev: seq<Event<K>>, i: nat, m: nat, c: nat, started: nat)
    requires IsRun(tr, ev) && i < m < |ev| && ev[i].Store? && ev[i].ok
    requires forall k :: i < k < m ==> !Disturbs(tr[k], ev[k], tr[i].runs[ev[i].run].key)
    requires ev[m] == Get(c, true, started) && tr[m].calls[c].key == tr[i].runs[ev[i].run].key
    ensures var r, phase := ev[i].run, tr[i].runs[ev[i].run].phase;
      var hard := tr[i].now + (phase.t + if tr[i].ttl < 30 then tr[i].ttl else 30) * 1000;
      && (tr[m].now < hard ==> tr[m + 1].calls[c].stage == Returned(r, tr[m].now))
      && (tr[m].now < hard && tr[m].now < phase.soft ==> tr[m + 1].runs == tr[m].runs && tr[m + 1].inflight == tr[m].inflight)
      && (tr[m].now >= hard ==> tr[m + 1].calls[c].stage.Waiting?)
  {
    var r := ev[i].run;
    EntryStaysRun(tr, ev, i + 1, m, tr[i].runs[r].key, tr[i + 1].entries[tr[i].runs[r].key]);
  }

  /** A call that finds nothing and that nothing interrupts is given the result of a factory run of its own, and
      leaves it in the cache. */
  lemma MissRunsFactory<K(!new)>(s: State<K>, c: nat, r: nat, random: real)
    requires Enabled(s, Get(c, true, r)) && 0.0 <= random < 1.0
    requires !(s.calls[c].key in s.entries && s.now < s.entries[s.calls[c].key].hard)
    requires (s.calls[c].proc, s.calls[c].key) !in s.inflight
    ensures var s1 := Apply(s, Get(c, true, r));
      && Enabled(s1, Load(r, true, random)) && Enabled(Apply(s1, Load(r, true, random)), Store(r, true))
      && var s3 := Apply(Apply(s1, Load(r, true, random)), Store(r, true));
         && s.calls[c].key in s3.entries && s3.entries[s.calls[c].key].run == r
         && Enabled(s3, Return(c)) && Apply(s3, Return(c)).calls == s.calls[c := s.calls[c].(stage := Returned(r, s.now))]
  {
    MissStarts(s, c, r);
    ResultIsWritten(Apply(s, Get(c, true, r)), r, random);
  }

  lemma MissStarts<K(!new)>(s: State<K>, c: nat, r: nat)
    requires Enabled(s, Get(c, true, r))
    requires !(s.calls[c].key in s.entries && s.now < s.entries[s.calls[c].key].hard)
    requires (s.calls[c].proc, s.calls[c].key) !in s.inflight
    ensures var s1 := Apply(s, Get(c, true, r));
      && s1.calls == s.calls[c := s.calls[c].(stage := Waiting(r))] && s1.now == s.now
      && s1.runs == s.runs[r := Run(s.calls[c].proc, s.calls[c].key, false, s.now, Loading)]
  {
  }

  /** A factory that throws makes the calls that wait for it fail, and stores nothing. */
  lemma FailedRunFailsCalls<K(!new)>(s: State<K>, r: nat, c: nat)
    requires Enabled(s, LoadFail(r)) && c in s.calls && s.calls[c].stage == Waiting(r)
    ensures var s1 := Apply(s, LoadFail(r));
      s1.entries == s.entries && Enabled(s1, Return(c)) && Apply(s1, Return(c)).calls[c].stage == Failed
  {
  }

  // ---------------------------------------------------------------- the code, step by step

  /** The in-flight map of each process and the shared envelopes in Redis. */
  class Envelopes<K(==)> {
    const ttl: nat
    const bound: nat
    var now: nat
    var entries: map<K, Entry>
    var inflight: map<(nat, K), nat>
    var runs: map<nat, Run<K>>
    var calls: map<nat, Call<K>>

    ghost function View(): State<K>
      reads this
    {
      State(ttl, bound, now, entries, inflight, runs, calls)
    }

    constructor (ttl: nat, bound: nat)
      ensures Init(View()) && View().ttl == ttl && View().bound == bound
    {
      this.ttl, this.bound, now := ttl, bound, 0;
      entries, inflight, runs, calls := map[], map[], map[], map[];
    }

    method SingleFlight(proc: nat, key: K, started: nat) returns (r: nat)
      modifies this`inflight, this`runs
      ensures (View(), r) == Flight(old(View()), proc, key, started)
    {
      if (proc, key) in inflight {
        return inflight[(proc, key)];
      }
      runs := runs[started := Run(proc, key, false, now, Loading)];
      inflight := inflight[(proc, key) := started];
      return started;
    }

    /** The part of wrap that follows the answer to redis.get. */
    method GotEntry(c: nat, ok: bool, started: nat)
      requires c in calls
      modifies this`inflight, this`runs, this`calls
      ensures View() == GetCall(old(View()), c, ok, started)
    {
      var call := calls[c];
      if ok && call.key in entries && now < entries[call.key].hard {
        var entry := entries[call.key];
        if now >= entry.soft {
          var _ := SingleFlight(call.proc, call.key, started);
        }
        calls := calls[c := call.(stage := Returned(entry.run, now))];
        return;
      }
      var r := SingleFlight(call.proc, call.key, started);
      calls := calls[c := call.(stage := Waiting(r))];
    }

    method SettleRun(r: nat, phase: Phase)
      requires r in runs
      modifies this`inflight, this`runs
      ensures View() == Settle(old(View()), r, phase)
    {
      var run := runs[r];
      runs := runs[r := run.(phase := phase)];
      if !run.private {
        inflight := inflight - {(run.proc, run.key)};
      }
    }

    /** The factory has resolved: choose the jittered ttl and start writing the envelope. */
    method FactoryResolved(r: nat, cacheable: bool, random: real)
      requires r in runs && 0.0 <= random < 1.0
      modifies this`inflight, this`runs
      ensures View() == LoadRun(old(View()), r, cacheable, random)
    {
      var run := runs[r];
      if run.private || !cacheable {
        SettleRun(r, Ended(now));
      } else {
        var t := CacheTtl.Jitter(ttl, random);
        runs := runs[r := run.(phase := Writing(t, now + t * 1000))];
      }
    }

    method EnvelopeWritten(r: nat, ok: bool)
      requires r in runs && runs[r].phase.Writing?
      modifies this`entries, this`inflight, this`runs
      ensures View() == StoreRun(old(View()), r, ok)
    {
      var run := runs[r];
      if ok {
        var hard := now + CacheTtl.Life(ttl, run.phase.t) * 1000;
        entries := entries[run.key := Entry(r, run.phase.soft, hard)];
      }
      SettleRun(r, Ended(now));
    }
  }
}
