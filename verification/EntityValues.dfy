/** Where the values of wrapEntity come from, and that the cache does serve what it stores: every value that is
    returned or cached was read from the database for that very entity, a stored value is served until something
    ends it, and one factory runs per entity, generation and process. */
module EntityValues {
  import opened Options
  import opened EntityCache
  import CacheTtl
  import RQ = RetryQueue

  /** The value a flight has read. */
  function ValueOf(s: State, f: nat): Option<nat> {
    if f !in s.flights then None
    else match s.flights[f].status
      case Running(read) => read
      case Done(tag) => Some(tag)
      case Failed => None
  }

  /** The factory of a flight for `id` reads the database, which then holds write number `tag`. */
  predicate FactoryReads(s: State, e: Event, id: string, tag: nat) {
    e.FactoryRead? && e.flight in s.flights && s.flights[e.flight].slot.id == id && s.db == tag
  }

  /** The call reads the database itself. */
  predicate CallReads(s: State, e: Event, c: nat, id: string, tag: nat) {
    e == Bypass(c, true) && c in s.calls && s.calls[c].id == id && s.db == tag
  }

  // ---------------------------------------------------------------- flights and entries

  lemma FlightValueStep(s: State, e: Event, f: nat, tag: nat)
    requires Enabled(s, e) && ValueOf(Apply(s, e), f) == Some(tag)
    ensures f in s.flights && Apply(s, e).flights[f].slot == s.flights[f].slot
    ensures ValueOf(s, f) == Some(tag) || FactoryReads(s, e, s.flights[f].slot.id, tag)
  {
    match e
    case ReadGen(_, _, _) =>
    case FactoryRead(_) =>
    case FactoryFail(_) =>
    case Store(g, cacheable, applied, ok, random) => StoreLands(s, g, cacheable, applied, ok, random);
    case _ => FlightsUntouched(s, e);
  }

  /** The end of a flight keeps its value, or forgets it if the script failed. */
  lemma StoreLands(s: State, g: nat, cacheable: bool, applied: bool, ok: bool, random: real)
    requires Enabled(s, Store(g, cacheable, applied, ok, random))
    ensures var t := StoreFlight(s, g, cacheable, applied, ok, random);
      && t.flights == s.flights[g := s.flights[g].(status := if cacheable && !ok then Failed else Done(ValueOf(s, g).value))]
      && t.inflight == s.inflight - {s.flights[g].slot}
  {
  }

  predicate ReadsForFlight(s: State, e: Event, f: nat, tag: nat) {
    f in s.flights && FactoryReads(s, e, s.flights[f].slot.id, tag)
  }

  ghost predicate FlightOriginAt(tr: seq<State>, ev: seq<Event>, k: nat, f: nat, tag: nat) {
    k < |ev| && k + 1 < |tr| && ValueOf(tr[k + 1], f) == Some(tag) ==>
      && f in tr[k].flights && f in tr[k + 1].flights && tr[k + 1].flights[f].slot == tr[k].flights[f].slot
      && (ValueOf(tr[k], f) == Some(tag) || ReadsForFlight(tr[k], ev[k], f, tag))
  }

  lemma {:induction false} FlightOriginChain(tr: seq<State>, ev: seq<Event>, m: nat, f: nat, tag: nat) returns (k: nat)
    requires |tr| == |ev| + 1 && tr[0].flights == map[] && m < |tr| && ValueOf(tr[m], f) == Some(tag)
    requires forall k: nat :: FlightOriginAt(tr, ev, k, f, tag)
    ensures k < m && f in tr[m].flights && FactoryReads(tr[k], ev[k], tr[m].flights[f].slot.id, tag)
  {
    assert FlightOriginAt(tr, ev, m - 1, f, tag);
    if ValueOf(tr[m - 1], f) == Some(tag) {
      k := FlightOriginChain(tr, ev, m - 1, f, tag);
    } else {
      k := m - 1;
    }
  }

  lemma FlightOrigin(tr: seq<State>, ev: seq<Event>, m: nat, f: nat, tag: nat) returns (k: nat)
    requires IsRun(tr, ev) && m < |tr| && ValueOf(tr[m], f) == Some(tag)
    ensures k < m && FactoryReads(tr[k], ev[k], tr[m].flights[f].slot.id, tag)
  {
    forall k: nat ensures FlightOriginAt(tr, ev, k, f, tag) {
      if k < |ev| && ValueOf(tr[k + 1], f) == Some(tag) {
        FlightValueStep(tr[k], ev[k], f, tag);
      }
    }
    k := FlightOriginChain(tr, ev, m, f, tag);
  }

  predicate HasEntry(s: State, id: string, cell: EntryCell) {
    id in s.entry && s.entry[id] == cell
  }

  /** The guarded script of a flight for this id writes the value that the flight has read. */
  predicate StoresValue(s: State, e: Event, id: string, tag: nat) {
    && e.Store? && e.applied && e.flight in s.flights && s.flights[e.flight].slot.id == id
    && ValueOf(s, e.flight) == Some(tag)
  }

  lemma EntryStep(s: State, e: Event, id: string, cell: EntryCell)
    requires Enabled(s, e) && HasEntry(Apply(s, e), id, cell) && !HasEntry(s, id, cell)
    ensures StoresValue(s, e, id, cell.tag)
  {
    match e
    case Store(_, _, _, _, _) =>
    case Invalidate(_, _, _, _) =>
    case FlushResume(_, _, _, _) =>
    case _ =>
  }

  ghost predicate EntryOriginAt(tr: seq<State>, ev: seq<Event>, k: nat, id: string, cell: EntryCell) {
    k < |ev| && k + 1 < |tr| && HasEntry(tr[k + 1], id, cell) ==>
      HasEntry(tr[k], id, cell) || StoresValue(tr[k], ev[k], id, cell.tag)
  }

  lemma {:induction false} EntryOriginChain(tr: seq<State>, ev: seq<Event>, m: nat, id: string, cell: EntryCell) returns (k: nat)
    requires |tr| == |ev| + 1 && tr[0].entry == map[] && m < |tr| && HasEntry(tr[m], id, cell)
    requires forall k: nat :: EntryOriginAt(tr, ev, k, id, cell)
    ensures k < m && StoresValue(tr[k], ev[k], id, cell.tag)
  {
    assert EntryOriginAt(tr, ev, m - 1, id, cell);
    if HasEntry(tr[m - 1], id, cell) {
      k := EntryOriginChain(tr, ev, m - 1, id, cell);
    } else {
      k := m - 1;
    }
  }

  /** Every entry in Redis holds what a factory for its id read from the database. */
  lemma EntryOrigin(tr: seq<State>, ev: seq<Event>, m: nat, id: string, cell: EntryCell) returns (k: nat)
    requires IsRun(tr, ev) && m < |tr| && HasEntry(tr[m], id, cell)
    ensures k < m && FactoryReads(tr[k], ev[k], id, cell.tag)
  {
    forall k: nat ensures EntryOriginAt(tr, ev, k, id, cell) {
      if k < |ev| && HasEntry(tr[k + 1], id, cell) && !HasEntry(tr[k], id, cell) {
        EntryStep(tr[k], ev[k], id, cell);
      }
    }
    var j := EntryOriginChain(tr, ev, m, id, cell);
    k := FlightOrigin(tr, ev, j, ev[j].flight, cell.tag);
  }

  // ---------------------------------------------------------------- calls

  lemma ValueStep(s: State, e: Event, c: nat, tag: nat)
    requires Base(s) && Enabled(s, e) && InStage(Apply(s, e), c, Returned(tag)) && !InStage(s, c, Returned(tag))
    ensures c in s.calls && Apply(s, e).calls[c].id == s.calls[c].id
    ensures GetsValue(s, e, c, tag)
  {
    if Actor(e) == Some(c) {
      if c in s.calls { assert CallOk(s, c); }
      OwnValueStep(s, e, c, tag);
    } else {
      CallStep(s, e, c);
    }
  }

  lemma OwnValueStep(s: State, e: Event, c: nat, tag: nat)
    requires Enabled(s, e) && Actor(e) == Some(c) && InStage(Apply(s, e), c, Returned(tag))
    ensures c in s.calls && Apply(s, e).calls[c].id == s.calls[c].id
    ensures var id := s.calls[c].id;
      || CallReads(s, e, c, id, tag)
      || (e == ReadEntry(c, true) && id in s.entry && s.entry[id].tag == tag && s.now < s.entry[id].exp)
      || (e == Return(c) && s.calls[c].stage.Waiting? && s.calls[c].stage.flight in s.flights
          && ValueOf(s, s.calls[c].stage.flight) == Some(tag))
  {
    match e
    case Begin(_, _, _) =>
    case Check(_, _) =>
    case ReadEntry(_, _) =>
    case ReadGen(_, _, _) =>
    case Bypass(_, _) =>
    case Return(_) =>
  }

  lemma IdStays(s: State, e: Event, c: nat)
    requires Enabled(s, e) && c in s.calls && c in Apply(s, e).calls
    ensures Apply(s, e).calls[c].id == s.calls[c].id
  {
    if Actor(e) != Some(c) {
      CallStep(s, e, c);
    } else {
      ActorStep(s, e, c);
    }
  }

  ghost predicate CallOriginAt(tr: seq<State>, ev: seq<Event>, k: nat, c: nat, tag: nat) {
    k < |ev| && k + 1 < |tr| && InStage(tr[k + 1], c, Returned(tag)) ==>
      && c in tr[k].calls && tr[k + 1].calls[c].id == tr[k].calls[c].id
      && (InStage(tr[k], c, Returned(tag)) || GetsValue(tr[k], ev[k], c, tag))
  }

  /** The three ways a call gets its value. */
  predicate GetsValue(s: State, e: Event, c: nat, tag: nat)
    requires c in s.calls
  {
    var id := s.calls[c].id;
    || CallReads(s, e, c, id, tag)
    || (e == ReadEntry(c, true) && id in s.entry && s.entry[id].tag == tag && s.now < s.entry[id].exp)
    || (e == Return(c) && s.calls[c].stage.Waiting? && s.calls[c].stage.flight in s.flights
        && s.flights[s.calls[c].stage.flight].slot.id == id && ValueOf(s, s.calls[c].stage.flight) == Some(tag))
  }

  lemma {:induction false} CallOriginChain(tr: seq<State>, ev: seq<Event>, m: nat, c: nat, tag: nat) returns (k: nat)
    requires |tr| == |ev| + 1 && tr[0].calls == map[] && m < |tr| && InStage(tr[m], c, Returned(tag))
    requires forall k: nat :: CallOriginAt(tr, ev, k, c, tag)
    ensures k < m && c in tr[k].calls && tr[k].calls[c].id == tr[m].calls[c].id && GetsValue(tr[k], ev[k], c, tag)
  {
    assert CallOriginAt(tr, ev, m - 1, c, tag);
    if InStage(tr[m - 1], c, Returned(tag)) {
      k := CallOriginChain(tr, ev, m - 1, c, tag);
    } else {
      k := m - 1;
    }
  }

  /** Main result. Every value that wrapEntity returns was read from the database for that entity, earlier in the
      run: by the call itself, or by the factory of a flight for the entity's id. */
  lemma ValuesWereRead(tr: seq<State>, ev: seq<Event>, m: nat, c: nat, tag: nat) returns (k: nat)
    requires IsRun(tr, ev) && m < |tr| && InStage(tr[m], c, Returned(tag))
    ensures k < m
    ensures CallReads(tr[k], ev[k], c, tr[m].calls[c].id, tag) || FactoryReads(tr[k], ev[k], tr[m].calls[c].id, tag)
  {
    forall k: nat ensures CallOriginAt(tr, ev, k, c, tag) {
      if k < |ev| && InStage(tr[k + 1], c, Returned(tag)) {
        CallValueAt(tr, ev, k, c, tag);
      }
    }
    var j := CallOriginChain(tr, ev, m, c, tag);
    var s, e := tr[j], ev[j];
    if e.ReadEntry? {
      k := EntryOrigin(tr, ev, j, s.calls[c].id, s.entry[s.calls[c].id]);
    } else if e.Return? {
      k := FlightOrigin(tr, ev, j, s.calls[c].stage.flight, tag);
    } else {
      k := j;
    }
  }

  lemma CallValueAt(tr: seq<State>, ev: seq<Event>, k: nat, c: nat, tag: nat)
    requires IsRun(tr, ev) && k < |ev| && InStage(tr[k + 1], c, Returned(tag))
    ensures CallOriginAt(tr, ev, k, c, tag)
  {
    if InStage(tr[k], c, Returned(tag)) {
      IdStays(tr[k], ev[k], c);
    } else {
      BaseRun(tr, ev, k);
      ValueStep(tr[k], ev[k], c, tag);
    }
  }

  // ---------------------------------------------------------------- the cache serves what it stores

  /** The step may end or replace the entry of `id`: an eviction, an invalidation, or another store. */
  ghost predicate Disturbs(s: State, e: Event, id: string) {
    || e == Evict(id)
    || (Enabled(s, e) && Invalidates(s, e, id))
    || (e.Store? && e.flight in s.flights && s.flights[e.flight].slot.id == id)
  }

  lemma EntryStays(s: State, e: Event, id: string, cell: EntryCell)
    requires Enabled(s, e) && HasEntry(s, id, cell) && !Disturbs(s, e, id)
    ensures HasEntry(Apply(s, e), id, cell)
  {
    match e
    case Store(_, _, _, _, _) =>
    case Invalidate(_, _, _, _) =>
    case FlushResume(_, _, _, _) =>
    case _ =>
  }

  lemma {:induction false} EntryStaysRun(tr: seq<State>, ev: seq<Event>, i: nat, m: nat, id: string, cell: EntryCell)
    requires IsRun(tr, ev) && i <= m < |tr| && HasEntry(tr[i], id, cell)
    requires forall k :: i <= k < m ==> !Disturbs(tr[k], ev[k], id)
    ensures HasEntry(tr[m], id, cell)
  {
    if i < m {
      EntryStaysRun(tr, ev, i, m - 1, id, cell);
      EntryStays(tr[m - 1], ev[m - 1], id, cell);
    }
  }

  /** The guarded write goes through exactly if the generation is still the one the flight was started under, and
      the entry then holds the flight's value for its jittered ttl. */
  lemma StoreWritesIff(s: State, f: nat, ok: bool, random: real)
    requires Enabled(s, Store(f, true, true, ok, random))
    ensures var slot, t := s.flights[f].slot, Apply(s, Store(f, true, true, ok, random));
      && (slot.tok == CurrentGen(s, slot.id) ==>
            HasEntry(t, slot.id, EntryCell(ValueOf(s, f).value, s.now + CacheTtl.Jitter(CacheTtl.ENTITY_TTL, random) * 1000)))
      && (slot.tok != CurrentGen(s, slot.id) ==> t.entry == s.entry)
  {
  }

  /** Main result. What is stored under the current generation is served: every call for the entity that then
      reaches Redis before the entry's time is up is given that value, until the entity is invalidated, evicted or
      stored again. */
  lemma StoredIsServed(tr: seq<State>, ev: seq<Event>, i: nat, m: nat, f: nat, ok: bool, random: real, c: nat)
    requires IsRun(tr, ev) && i < m < |ev| && ev[i] == Store(f, true, true, ok, random)
    requires tr[i].flights[f].slot.tok == CurrentGen(tr[i], tr[i].flights[f].slot.id)
    requires forall k :: i < k < m ==> !Disturbs(tr[k], ev[k], tr[i].flights[f].slot.id)
    requires ev[m] == ReadEntry(c, true) && tr[m].calls[c].id == tr[i].flights[f].slot.id
    requires tr[m].now < tr[i].now + CacheTtl.Jitter(CacheTtl.ENTITY_TTL, random) * 1000
    ensures InStage(tr[m + 1], c, Returned(ValueOf(tr[i], f).value))
  {
    var slot := tr[i].flights[f].slot;
    var cell := EntryCell(ValueOf(tr[i], f).value, tr[i].now + CacheTtl.Jitter(CacheTtl.ENTITY_TTL, random) * 1000);
    StoreWritesIff(tr[i], f, ok, random);
    EntryStaysRun(tr, ev, i + 1, m, slot.id, cell);
  }

  // ---------------------------------------------------------------- one factory at a time

  /** A running flight is found under its slot. */
  ghost predicate Registered(s: State, f: nat) {
    RunningFlight(s, f) ==> s.flights[f].slot in s.inflight && s.inflight[s.flights[f].slot] == f
  }

  lemma InflightUntouched(s: State, e: Event)
    requires Enabled(s, e) && !e.ReadGen? && !e.FactoryFail? && !e.Store?
    ensures Apply(s, e).inflight == s.inflight
  {
    match e
    case Invalidate(_, _, _, _) =>
    case FlushResume(_, _, _, _) =>
    case _ =>
  }

  lemma LandKeepsRegistered(s: State, t: State, g: nat, status: Status, f: nat)
    requires Registered(s, f) && RunningFlight(s, g) && Registered(s, g) && !status.Running?
    requires t.flights == s.flights[g := s.flights[g].(status := status)] && t.inflight == s.inflight - {s.flights[g].slot}
    ensures Registered(t, f)
  {
  }

  lemma RegisteredStep(s: State, e: Event, f: nat)
    requires Enabled(s, e) && forall g :: Registered(s, g)
    ensures Registered(Apply(s, e), f)
  {
    assert Registered(s, f);
    if e.Store? {
      StoreLands(s, e.flight, e.cacheable, e.applied, e.ok, e.random);
      LandKeepsRegistered(s, Apply(s, e), e.flight, Apply(s, e).flights[e.flight].status, f);
    } else if e.FactoryFail? {
      LandKeepsRegistered(s, Apply(s, e), e.flight, Failed, f);
    } else if !e.ReadGen? {
      InflightUntouched(s, e);
      if !e.FactoryRead? {
        FlightsUntouched(s, e);
      }
    }
  }

  lemma {:induction false} AllRegistered(tr: seq<State>, ev: seq<Event>, m: nat)
    requires IsRun(tr, ev) && m < |tr|
    ensures forall f :: Registered(tr[m], f)
  {
    if m > 0 {
      AllRegistered(tr, ev, m - 1);
      forall f ensures Registered(tr[m], f) {
        RegisteredStep(tr[m - 1], ev[m - 1], f);
      }
    }
  }

  /** One factory per entity, generation and process: concurrent misses share its run. */
  lemma OneFlightPerSlot(tr: seq<State>, ev: seq<Event>, m: nat, f: nat, g: nat)
    requires IsRun(tr, ev) && m < |tr| && RunningFlight(tr[m], f) && RunningFlight(tr[m], g)
    requires tr[m].flights[f].slot == tr[m].flights[g].slot
    ensures f == g
  {
    AllRegistered(tr, ev, m);
    assert Registered(tr[m], f) && Registered(tr[m], g);
  }

  // ---------------------------------------------------------------- a call by itself

  /** The flight of a miss has read what the database holds. */
  lemma MissStarts(s: State, c: nat, f: nat)
    requires InStage(s, c, Missed) && f !in s.flights
    requires Slot(s.calls[c].proc, s.calls[c].id, CurrentGen(s, s.calls[c].id)) !in s.inflight
    ensures var s1, slot := Apply(s, ReadGen(c, true, f)), Slot(s.calls[c].proc, s.calls[c].id, CurrentGen(s, s.calls[c].id));
      && Enabled(s1, FactoryRead(f))
      && var s2 := Apply(s1, FactoryRead(f));
         && RunningFlight(s2, f) && ValueOf(s2, f) == Some(s.db) && s2.flights[f].slot == slot
         && s2.calls == s.calls[c := s.calls[c].(stage := Waiting(f))] && s2.gen == s.gen && s2.now == s.now
  {
  }

  /** The end of the flight that a call waits for gives the call the flight's value. */
  lemma StoreReturns(s: State, c: nat, f: nat, random: real)
    requires Enabled(s, Store(f, true, true, true, random)) && InStage(s, c, Waiting(f))
    requires s.flights[f].slot.tok == CurrentGen(s, s.flights[f].slot.id)
    ensures var t := Apply(s, Store(f, true, true, true, random));
      && Enabled(t, Return(c)) && InStage(Apply(t, Return(c)), c, Returned(ValueOf(s, f).value))
      && HasEntry(t, s.flights[f].slot.id,
                  EntryCell(ValueOf(s, f).value, s.now + CacheTtl.Jitter(CacheTtl.ENTITY_TTL, random) * 1000))
  {
    StoreLands(s, f, true, true, true, random);
    StoreWritesIff(s, f, true, random);
    StoreLeavesCalls(s, f, true, true, true, random);
  }

  /** A call that misses and that nothing interrupts starts a flight, is given what the database holds, and leaves
      that in the cache. */
  lemma MissReadsDatabase(s: State, c: nat, f: nat, random: real)
    requires InStage(s, c, Missed) && f !in s.flights && 0.0 <= random < 1.0
    requires Slot(s.calls[c].proc, s.calls[c].id, CurrentGen(s, s.calls[c].id)) !in s.inflight
    ensures var s1 := Apply(s, ReadGen(c, true, f));
      && Enabled(s1, FactoryRead(f)) && Enabled(Apply(s1, FactoryRead(f)), Store(f, true, true, true, random))
      && var s3 := Apply(Apply(s1, FactoryRead(f)), Store(f, true, true, true, random));
         && Enabled(s3, Return(c)) && InStage(Apply(s3, Return(c)), c, Returned(s.db))
         && HasEntry(s3, s.calls[c].id, EntryCell(s.db, s.now + CacheTtl.Jitter(CacheTtl.ENTITY_TTL, random) * 1000))
  {
    MissStarts(s, c, f);
    var s2 := Apply(Apply(s, ReadGen(c, true, f)), FactoryRead(f));
    StoreReturns(s2, c, f, random);
  }

  /** A call whose id is queued for invalidation, or that cannot use Redis, reads the database; any other call that
      finds a live entry is given its value. */
  lemma CheckThenRead(s: State, c: nat, usable: bool)
    requires Enabled(s, Check(c, usable))
    ensures var t := Apply(s, Check(c, usable));
      if usable && !QueuedFor(s, c)
      then InStage(t, c, Checked) && Enabled(t, ReadEntry(c, true))
           && var id := s.calls[c].id;
              (id in s.entry && s.now < s.entry[id].exp ==>
                 InStage(Apply(t, ReadEntry(c, true)), c, Returned(s.entry[id].tag)))
              && (!(id in s.entry && s.now < s.entry[id].exp) ==> InStage(Apply(t, ReadEntry(c, true)), c, Missed))
      else InStage(t, c, Bypassing) && Enabled(t, Bypass(c, true))
           && InStage(Apply(t, Bypass(c, true)), c, Returned(s.db))
  {
  }

  /** A call that misses while a flight for its entity and generation runs waits for it and starts none. */
  lemma MissJoins(s: State, c: nat, started: nat)
    requires Enabled(s, ReadGen(c, true, started))
    requires Slot(s.calls[c].proc, s.calls[c].id, CurrentGen(s, s.calls[c].id)) in s.inflight
    ensures var t := Apply(s, ReadGen(c, true, started));
      && InStage(t, c, Waiting(s.inflight[Slot(s.calls[c].proc, s.calls[c].id, CurrentGen(s, s.calls[c].id))]))
      && t.flights == s.flights && t.inflight == s.inflight
  {
  }

  /** Where the generation cannot be read the call reads the database and caches nothing. */
  lemma UnreadableGenerationBypasses(s: State, c: nat, started: nat)
    requires Enabled(s, ReadGen(c, false, started))
    ensures var t := Apply(s, ReadGen(c, false, started));
      && Enabled(t, Bypass(c, true)) && InStage(Apply(t, Bypass(c, true)), c, Returned(s.db))
      && Apply(t, Bypass(c, true)).entry == s.entry && t.flights == s.flights
  {
  }
}
