/** The read-through cache for single entities: any number of processes running wrapEntity and
    invalidateEntity over one Redis and one database, with Redis calls failing at will.

    The state machine has one event for every stretch of code between two awaits. A database value is
    tagged with the number of writes committed when it was read, so "at least as new as write w" is
    "tag >= w". */
module EntityCache {
  import opened Options
  import CacheTtl
  import RQ = RetryQueue

  const GEN_TTL_MS := CacheTtl.ENTITY_GEN * 1000
  const ENTRY_MAX_MS := 330_000

  /** Generation token, absolute expiry. Tokens are numbered in the order newToken yields them; 0 is
      the '0' that stands for a missing key. */
  datatype GenCell = GenCell(tok: nat, exp: nat)
  datatype EntryCell = EntryCell(tag: nat, exp: nat)

  /** The in-process single-flight key "<entity key>#<generation>". */
  datatype Slot = Slot(proc: nat, id: string, tok: nat)

  datatype Status = Running(read: Option<nat>) | Done(tag: nat) | Failed

  /** `begun` is when the owning call passed the queue check; `mark` and `born` record the next token
      and the write counter at the moment the flight was created. All three are history variables. */
  datatype Flight = Flight(slot: Slot, begun: nat, mark: nat, born: nat, status: Status)

  datatype Stage = Begun | Checked | Missed | Bypassing | Waiting(flight: nat) | Returned(tag: nat) | Threw

  datatype Call = Call(proc: nat, id: string, checkedAt: nat, stage: Stage)

  /** `bound` is the longest a call may take from its queue check to the end of a flight it owns. */
  datatype State = State(
    bound: nat, now: nat, db: nat, nextTok: nat,
    gen: map<string, GenCell>, entry: map<string, EntryCell>,
    queues: map<nat, RQ.Queue>, inflight: map<Slot, nat>,
    flights: map<nat, Flight>, calls: map<nat, Call>)

  datatype Event =
    | Tick(dt: nat)
    | Write
    | Evict(id: string)
    | Begin(call: nat, proc: nat, id: string)
    | Check(call: nat, usable: bool)
    | ReadEntry(call: nat, ok: bool)
    | ReadGen(call: nat, ok: bool, started: nat)
    | Bypass(call: nat, ok: bool)
    | FactoryRead(flight: nat)
    | FactoryFail(flight: nat)
    | Store(flight: nat, cacheable: bool, applied: bool, ok: bool, random: real)
    | Return(call: nat)
    | Invalidate(proc: nat, id: string, applied: bool, ok: bool)
    | OtherOp(proc: nat, name: string, ok: bool)
    | FlushBegin(proc: nat)
    | FlushResume(proc: nat, applied: bool, ok: bool, connected: bool)
    | FlushEnd(proc: nat, connected: bool)
    | PurgeEnd(proc: nat, purged: bool)

  // ---------------------------------------------------------------- the Lua scripts

  function CurrentGen(s: State, id: string): nat {
    if id in s.gen && s.now < s.gen[id].exp then s.gen[id].tok else 0
  }

  /** INVALIDATE: a new generation token with its own lifetime, and the entry is deleted. */
  function InvalidateScript(s: State, id: string): State {
    s.(gen := s.gen[id := GenCell(s.nextTok, s.now + GEN_TTL_MS)], entry := s.entry - {id}, nextTok := s.nextTok + 1)
  }

  /** SET_IF_VERSION: written only if the generation is still the one the reader saw. */
  function SetIfVersionScript(s: State, slot: Slot, tag: nat, ttl: nat): State {
    if CurrentGen(s, slot.id) == slot.tok then
      s.(entry := s.entry[slot.id := EntryCell(tag, s.now + ttl * 1000)])
    else s
  }

  // ---------------------------------------------------------------- steps

  predicate InStage(s: State, c: nat, stage: Stage) {
    c in s.calls && s.calls[c].stage == stage
  }

  predicate RunningFlight(s: State, f: nat) {
    f in s.flights && s.flights[f].status.Running?
  }

  ghost predicate Enabled(s: State, e: Event) {
    match e
    case Tick(dt) =>
      && (forall f :: RunningFlight(s, f) ==> s.now + dt <= s.flights[f].begun + s.bound)
      && (forall c :: InStage(s, c, Checked) || InStage(s, c, Missed) ==> s.now + dt <= s.calls[c].checkedAt + s.bound)
    case Write => true
    case Evict(_) => true
    case Begin(c, p, _) => c !in s.calls && p in s.queues
    case Check(c, _) => InStage(s, c, Begun) && s.calls[c].proc in s.queues
    case ReadEntry(c, _) => InStage(s, c, Checked)
    case ReadGen(c, _, started) => InStage(s, c, Missed) && started !in s.flights
    case Bypass(c, _) => InStage(s, c, Bypassing)
    case FactoryRead(f) => RunningFlight(s, f) && s.flights[f].status.read.None?
    case FactoryFail(f) => RunningFlight(s, f) && s.flights[f].status.read.None?
    case Store(f, _, applied, ok, random) =>
      RunningFlight(s, f) && s.flights[f].status.read.Some? && (ok ==> applied) && 0.0 <= random < 1.0
    case Return(c) => c in s.calls && s.calls[c].stage.Waiting? && s.calls[c].stage.flight in s.flights &&
                      !RunningFlight(s, s.calls[c].stage.flight)
    case Invalidate(p, _, applied, ok) => p in s.queues && (ok ==> applied)
    case OtherOp(p, _, _) => p in s.queues
    case FlushBegin(p) => p in s.queues
    case FlushResume(p, applied, ok, _) => p in s.queues && RQ.Awaiting(s.queues[p]) && (ok ==> applied)
    case FlushEnd(p, _) => p in s.queues && RQ.Finishing(s.queues[p])
    case PurgeEnd(p, _) => p in s.queues && s.queues[p].flush.Purging?
  }

  function SetStage(s: State, c: nat, stage: Stage): State
    requires c in s.calls
  {
    s.(calls := s.calls[c := s.calls[c].(stage := stage)])
  }

  function SetStatus(s: State, f: nat, status: Status): State
    requires f in s.flights
  {
    s.(flights := s.flights[f := s.flights[f].(status := status)])
  }

  /** The single-flight entry is removed when its promise settles. */
  function Land(s: State, f: nat, status: Status): State
    requires f in s.flights
  {
    var t := SetStatus(s, f, status);
    t.(inflight := s.inflight - {s.flights[f].slot})
  }

  function CheckCall(s: State, c: nat, usable: bool): State
    requires c in s.calls && s.calls[c].proc in s.queues
  {
    var call := s.calls[c];
    var pending := s.queues[call.proc].pending;
    var queued := RQ.Find(pending, RQ.Entity(call.id)) < |pending|;
    s.(calls := s.calls[c := call.(checkedAt := s.now, stage := if usable && !queued then Checked else Bypassing)])
  }

  function ReadEntryCall(s: State, c: nat, ok: bool): State
    requires c in s.calls
  {
    var id := s.calls[c].id;
    if ok && id in s.entry && s.now < s.entry[id].exp then SetStage(s, c, Returned(s.entry[id].tag))
    else SetStage(s, c, Missed)
  }

  /** After the generation is read, singleFlight joins a running flight or starts one, in the same turn. */
  function ReadGenCall(s: State, c: nat, ok: bool, started: nat): State
    requires c in s.calls
  {
    var call := s.calls[c];
    if !ok then SetStage(s, c, Bypassing)
    else
      var slot := Slot(call.proc, call.id, CurrentGen(s, call.id));
      if slot in s.inflight then SetStage(s, c, Waiting(s.inflight[slot]))
      else
        var t := SetStage(s, c, Waiting(started));
        t.(inflight := s.inflight[slot := started],
           flights := s.flights[started := Flight(slot, call.checkedAt, s.nextTok, s.db, Running(None))])
  }

  function StoreFlight(s: State, f: nat, cacheable: bool, applied: bool, ok: bool, random: real): State
    requires f in s.flights && s.flights[f].status.Running? && s.flights[f].status.read.Some? && 0.0 <= random < 1.0
  {
    var flight := s.flights[f];
    var tag := flight.status.read.value;
    if !cacheable then Land(s, f, Done(tag))
    else
      var stored := if applied
                    then SetIfVersionScript(s, flight.slot, tag, CacheTtl.Jitter(CacheTtl.ENTITY_TTL, random))
                    else s;
      Land(stored, f, if ok then Done(tag) else Failed)
  }

  function ReturnCall(s: State, c: nat): State
    requires c in s.calls && s.calls[c].stage.Waiting? && s.calls[c].stage.flight in s.flights
  {
    match s.flights[s.calls[c].stage.flight].status
    case Done(tag) => SetStage(s, c, Returned(tag))
    case _ => SetStage(s, c, Threw)
  }

  function InvalidateEntity(s: State, p: nat, id: string, applied: bool, ok: bool): State
    requires p in s.queues
  {
    var t := if applied then InvalidateScript(s, id) else s;
    t.(queues := s.queues[p := RQ.Guarded(s.queues[p], RQ.Entity(id), ok, s.now)])
  }

  function ResumeFlush(s: State, p: nat, applied: bool, ok: bool, connected: bool): State
    requires p in s.queues && RQ.Awaiting(s.queues[p])
  {
    var key := s.queues[p].flush.todo[0].key;
    var t := if applied && key.Entity? then InvalidateScript(s, key.id) else s;
    t.(queues := s.queues[p := RQ.FlushResume(s.queues[p], ok, connected)])
  }

  /** Only the queue of a process changes. What a purge deletes while it is awaited, it deletes entry by entry,
      as `Evict` does; generations are kept. */
  function SetQueue(s: State, p: nat, q: RQ.Queue): State {
    s.(queues := s.queues[p := q])
  }

  /** The steps that work on a retry queue. */
  predicate OfQueue(e: Event) {
    e.Invalidate? || e.OtherOp? || e.FlushBegin? || e.FlushResume? || e.FlushEnd? || e.PurgeEnd?
  }

  /** The steps of one call. */
  predicate OfCall(e: Event) {
    e.Begin? || e.Check? || e.ReadEntry? || e.ReadGen? || e.Bypass? || e.Return?
  }

  function Apply(s: State, e: Event): State
    requires Enabled(s, e)
  {
    match e
    case Tick(dt) => s.(now := s.now + dt)
    case Write => s.(db := s.db + 1)
    case Evict(id) => s.(entry := s.entry - {id})
    case Begin(c, p, id) => s.(calls := s.calls[c := Call(p, id, s.now, Begun)])
    case Check(c, usable) => CheckCall(s, c, usable)
    case ReadEntry(c, ok) => ReadEntryCall(s, c, ok)
    case ReadGen(c, ok, started) => ReadGenCall(s, c, ok, started)
    case Bypass(c, ok) => SetStage(s, c, if ok then Returned(s.db) else Threw)
    case FactoryRead(f) => SetStatus(s, f, Running(Some(s.db)))
    case FactoryFail(f) => Land(s, f, Failed)
    case Store(f, cacheable, applied, ok, random) => StoreFlight(s, f, cacheable, applied, ok, random)
    case Return(c) => ReturnCall(s, c)
    case Invalidate(p, id, applied, ok) => InvalidateEntity(s, p, id, applied, ok)
    case OtherOp(p, name, ok) => SetQueue(s, p, RQ.Guarded(s.queues[p], RQ.Other(name), ok, s.now))
    case FlushBegin(p) => SetQueue(s, p, RQ.FlushBegin(s.queues[p], s.now))
    case FlushResume(p, applied, ok, connected) => ResumeFlush(s, p, applied, ok, connected)
    case FlushEnd(p, connected) => SetQueue(s, p, RQ.FlushEnd(s.queues[p], connected))
    case PurgeEnd(p, purged) => SetQueue(s, p, RQ.PurgeEnd(s.queues[p], purged))
  }

  /** Nothing cached, nothing running, and every process starts with an empty retry queue. */
  ghost predicate Init(s: State) {
    && s.gen == map[] && s.entry == map[] && s.inflight == map[] && s.flights == map[] && s.calls == map[]
    && s.nextTok > 0
    && forall p :: p in s.queues ==> s.queues[p] == RQ.EMPTY
  }

  ghost predicate IsRun(tr: seq<State>, ev: seq<Event>) {
    && |tr| == |ev| + 1
    && Init(tr[0])
    && forall i :: 0 <= i < |ev| ==> Enabled(tr[i], ev[i]) && tr[i + 1] == Apply(tr[i], ev[i])
  }

  // ---------------------------------------------------------------- what always holds

  ghost predicate FlightOk(s: State, f: nat)
    requires f in s.flights
  {
    var flight := s.flights[f];
    match flight.status
    case Running(read) =>
      && flight.slot.tok < flight.mark <= s.nextTok
      && flight.born <= s.db
      && flight.begun <= s.now <= flight.begun + s.bound
      && (read.Some? ==> flight.born <= read.value <= s.db)
    case Done(tag) => flight.born <= tag
    case Failed => true
  }

  ghost predicate CallOk(s: State, c: nat)
    requires c in s.calls
  {
    var call := s.calls[c];
    && call.checkedAt <= s.now
    && (call.stage.Checked? || call.stage.Missed? ==> s.now <= call.checkedAt + s.bound)
    && (call.stage.Waiting? ==> call.stage.flight in s.flights && s.flights[call.stage.flight].slot.id == call.id)
  }

  ghost predicate Base(s: State) {
    && (forall f :: f in s.flights ==> FlightOk(s, f))
    && (forall c :: c in s.calls ==> CallOk(s, c))
    && (forall slot :: slot in s.inflight ==> RunningFlight(s, s.inflight[slot]) && s.flights[s.inflight[slot]].slot == slot)
    && (forall id :: id in s.gen ==> 0 < s.gen[id].tok < s.nextTok)
    && (forall id :: id in s.entry ==> s.entry[id].exp <= s.now + ENTRY_MAX_MS)
    && (forall p :: p in s.queues ==> RQ.QueueInv(s.queues[p], s.now))
    && 0 < s.nextTok
  }

  /** An invalidation of the flight's entity has happened since it read the generation: its guarded
      write can no longer go through, and no new caller can join it. */
  ghost predicate Doomed(s: State, f: nat)
    requires f in s.flights
  {
    var flight := s.flights[f];
    flight.slot.id in s.gen &&
    var cell := s.gen[flight.slot.id];
    cell.tok >= flight.mark && cell.exp >= flight.begun + GEN_TTL_MS
  }

  /** From here on, no reader of `id` can be given a value older than write `w`. */
  ghost predicate Clean(s: State, id: string, w: nat) {
    && w <= s.db
    && (id in s.entry && s.now < s.entry[id].exp ==> s.entry[id].tag >= w)
    && (forall f :: RunningFlight(s, f) && s.flights[f].slot.id == id ==> Doomed(s, f) || s.flights[f].born >= w)
  }

  // One lemma for each kind of change a step makes.

  lemma BaseTick(s: State, dt: nat)
    requires Base(s) && Enabled(s, Tick(dt))
    ensures Base(Apply(s, Tick(dt)))
  {
  }

  lemma BaseStage(s: State, c: nat, stage: Stage)
    requires Base(s) && c in s.calls
    requires stage.Checked? || stage.Missed? ==> s.calls[c].stage.Checked? || s.calls[c].stage.Missed?
    requires stage.Waiting? ==> stage.flight in s.flights && s.flights[stage.flight].slot.id == s.calls[c].id
    ensures Base(SetStage(s, c, stage))
  {
  }

  lemma BaseCheck(s: State, c: nat, usable: bool)
    requires Base(s) && Enabled(s, Check(c, usable))
    ensures Base(CheckCall(s, c, usable))
  {
  }

  lemma BaseBegin(s: State, c: nat, p: nat, id: string)
    requires Base(s) && Enabled(s, Begin(c, p, id))
    ensures Base(Apply(s, Begin(c, p, id)))
  {
  }

  lemma BaseFlight(s: State, started: nat, flight: Flight)
    requires Base(s) && started !in s.flights && flight.status == Running(None)
    requires flight.slot.tok < flight.mark <= s.nextTok && flight.born <= s.db
    requires flight.begun <= s.now <= flight.begun + s.bound
    ensures Base(s.(inflight := s.inflight[flight.slot := started], flights := s.flights[started := flight]))
  {
    var t := s.(inflight := s.inflight[flight.slot := started], flights := s.flights[started := flight]);
    assert FlightOk(t, started);
    assert forall f :: f in s.flights ==> FlightOk(s, f) && t.flights[f] == s.flights[f];
    assert forall k :: k in s.calls ==> CallOk(s, k) && CallOk(t, k);
  }

  lemma BaseLaunch(s: State, c: nat, started: nat)
    requires Base(s) && Enabled(s, ReadGen(c, true, started))
    ensures Base(ReadGenCall(s, c, true, started))
  {
    var call := s.calls[c];
    var slot := Slot(call.proc, call.id, CurrentGen(s, call.id));
    if slot in s.inflight {
      BaseStage(s, c, Waiting(s.inflight[slot]));
    } else {
      var flight := Flight(slot, call.checkedAt, s.nextTok, s.db, Running(None));
      var t := s.(inflight := s.inflight[slot := started], flights := s.flights[started := flight]);
      assert CallOk(s, c);
      BaseFlight(s, started, flight);
      BaseStage(t, c, Waiting(started));
    }
  }

  lemma BaseRead(s: State, f: nat)
    requires Base(s) && Enabled(s, FactoryRead(f))
    ensures Base(Apply(s, FactoryRead(f)))
  {
    assert FlightOk(s, f);
  }

  lemma BaseLand(s: State, f: nat, status: Status)
    requires Base(s) && RunningFlight(s, f)
    requires status.Failed? || (status.Done? && s.flights[f].born <= status.tag)
    ensures Base(Land(s, f, status))
  {
  }

  lemma BaseSetIf(s: State, slot: Slot, tag: nat, random: real)
    requires Base(s) && 0.0 <= random < 1.0
    ensures Base(SetIfVersionScript(s, slot, tag, CacheTtl.Jitter(CacheTtl.ENTITY_TTL, random)))
  {
    CacheTtl.JitterAtMost(CacheTtl.ENTITY_TTL, random);
  }

  lemma BaseStore(s: State, f: nat, cacheable: bool, applied: bool, ok: bool, random: real)
    requires Base(s) && Enabled(s, Store(f, cacheable, applied, ok, random))
    ensures Base(StoreFlight(s, f, cacheable, applied, ok, random))
  {
    var flight := s.flights[f];
    var tag := flight.status.read.value;
    assert FlightOk(s, f);
    BaseSetIf(s, flight.slot, tag, random);
    var stored := if cacheable && applied
                  then SetIfVersionScript(s, flight.slot, tag, CacheTtl.Jitter(CacheTtl.ENTITY_TTL, random))
                  else s;
    BaseLand(stored, f, if !cacheable || ok then Done(tag) else Failed);
  }

  lemma BaseInvalidate(s: State, id: string)
    requires Base(s)
    ensures Base(InvalidateScript(s, id))
  {
  }

  lemma BaseQueue(s: State, p: nat, q: RQ.Queue)
    requires Base(s) && RQ.QueueInv(q, s.now)
    ensures Base(s.(queues := s.queues[p := q]))
  {
  }

  lemma GuardedKeepsInv(q: RQ.Queue, key: RQ.Key, ok: bool, now: nat)
    requires RQ.QueueInv(q, now)
    ensures RQ.QueueInv(RQ.Guarded(q, key, ok, now), now)
  {
    if ok {
      RQ.RemoveKeepsInv(q, key, now);
    } else {
      RQ.EnqueueKeepsInv(q, key, now);
    }
  }

  lemma BaseCallStep(s: State, e: Event)
    requires Base(s) && Enabled(s, e)
    requires e.ReadEntry? || e.ReadGen? || e.Bypass? || e.Return?
    ensures Base(Apply(s, e))
  {
    match e
    case ReadEntry(c, ok) =>
      var id := s.calls[c].id;
      BaseStage(s, c, Missed);
      if id in s.entry { BaseStage(s, c, Returned(s.entry[id].tag)); }
    case ReadGen(c, ok, started) =>
      if ok { BaseLaunch(s, c, started); } else { BaseStage(s, c, Bypassing); }
    case Bypass(c, ok) => BaseStage(s, c, if ok then Returned(s.db) else Threw);
    case Return(c) =>
      match s.flights[s.calls[c].stage.flight].status {
        case Done(tag) => BaseStage(s, c, Returned(tag));
        case _ => BaseStage(s, c, Threw);
      }
  }

  lemma BaseGuardedStep(s: State, e: Event)
    requires Base(s) && Enabled(s, e)
    requires e.Invalidate? || e.OtherOp?
    ensures Base(Apply(s, e))
  {
    match e
    case Invalidate(p, id, applied, ok) =>
      GuardedKeepsInv(s.queues[p], RQ.Entity(id), ok, s.now);
      BaseInvalidate(s, id);
      BaseQueue(if applied then InvalidateScript(s, id) else s, p, RQ.Guarded(s.queues[p], RQ.Entity(id), ok, s.now));
    case OtherOp(p, name, ok) =>
      GuardedKeepsInv(s.queues[p], RQ.Other(name), ok, s.now);
      BaseQueue(s, p, RQ.Guarded(s.queues[p], RQ.Other(name), ok, s.now));
  }

  lemma BaseFlushBegin(s: State, p: nat)
    requires Base(s) && p in s.queues
    ensures Base(Apply(s, FlushBegin(p)))
  {
    RQ.BeginKeepsInv(s.queues[p], s.now);
    BaseQueue(s, p, RQ.FlushBegin(s.queues[p], s.now));
  }

  lemma BaseFlushResume(s: State, p: nat, applied: bool, ok: bool, connected: bool)
    requires Base(s) && Enabled(s, FlushResume(p, applied, ok, connected))
    ensures Base(ResumeFlush(s, p, applied, ok, connected))
  {
    var key := s.queues[p].flush.todo[0].key;
    var t := s;
    if applied && key.Entity? {
      BaseInvalidate(s, key.id);
      t := InvalidateScript(s, key.id);
    }
    RQ.ResumeKeepsInv(s.queues[p], ok, connected, s.now);
    BaseQueue(t, p, RQ.FlushResume(s.queues[p], ok, connected));
  }

  lemma BaseQueueStep(s: State, e: Event)
    requires Base(s) && Enabled(s, e) && OfQueue(e)
    ensures Base(Apply(s, e))
  {
    match e
    case Invalidate(_, _, _, _) => BaseGuardedStep(s, e);
    case OtherOp(_, _, _) => BaseGuardedStep(s, e);
    case FlushBegin(p) => BaseFlushBegin(s, p);
    case FlushResume(p, applied, ok, connected) => BaseFlushResume(s, p, applied, ok, connected);
    case FlushEnd(p, connected) => BaseQueue(s, p, RQ.FlushEnd(s.queues[p], connected));
    case PurgeEnd(p, purged) => BaseQueue(s, p, RQ.PurgeEnd(s.queues[p], purged));
  }

  lemma BaseActorStep(s: State, e: Event)
    requires Base(s) && Enabled(s, e) && OfCall(e)
    ensures Base(Apply(s, e))
  {
    match e
    case Begin(c, p, id) => BaseBegin(s, c, p, id);
    case Check(c, usable) => BaseCheck(s, c, usable);
    case _ => BaseCallStep(s, e);
  }

  lemma BaseOtherStep(s: State, e: Event)
    requires Base(s) && Enabled(s, e) && !OfQueue(e) && !OfCall(e)
    ensures Base(Apply(s, e))
  {
    match e
    case Tick(dt) => BaseTick(s, dt);
    case Write =>
    case Evict(_) =>
    case FactoryRead(f) => BaseRead(s, f);
    case FactoryFail(f) => BaseLand(s, f, Failed);
    case Store(f, cacheable, applied, ok, random) => BaseStore(s, f, cacheable, applied, ok, random);
  }

  lemma BaseStep(s: State, e: Event)
    requires Base(s) && Enabled(s, e)
    ensures Base(Apply(s, e))
  {
    if OfQueue(e) {
      BaseQueueStep(s, e);
    } else if OfCall(e) {
      BaseActorStep(s, e);
    } else {
      BaseOtherStep(s, e);
    }
  }

  lemma CleanLaunch(s: State, c: nat, started: nat, id: string, w: nat)
    requires Base(s) && Enabled(s, ReadGen(c, true, started)) && Clean(s, id, w)
    ensures Clean(ReadGenCall(s, c, true, started), id, w)
  {
    var t := ReadGenCall(s, c, true, started);
    forall f | RunningFlight(t, f) && t.flights[f].slot.id == id
      ensures Doomed(t, f) || t.flights[f].born >= w
    {
      if f in s.flights {
        assert RunningFlight(s, f);
      }
    }
  }

  /** The guarded write: a doomed flight is refused, any other one carries a value that is new enough. */
  lemma CleanStore(s: State, f: nat, cacheable: bool, applied: bool, ok: bool, random: real, id: string, w: nat)
    requires Base(s) && Enabled(s, Store(f, cacheable, applied, ok, random)) && Clean(s, id, w) && s.bound < GEN_TTL_MS
    ensures Clean(StoreFlight(s, f, cacheable, applied, ok, random), id, w)
  {
    var flight := s.flights[f];
    assert FlightOk(s, f);
    if Doomed(s, f) {
      DoomedIsStale(s, f);
    }
    var t := StoreFlight(s, f, cacheable, applied, ok, random);
    forall g | RunningFlight(t, g) && t.flights[g].slot.id == id
      ensures Doomed(t, g) || t.flights[g].born >= w
    {
      assert RunningFlight(s, g);
    }
  }

  lemma DoomedIsStale(s: State, f: nat)
    requires Base(s) && RunningFlight(s, f) && Doomed(s, f) && s.bound < GEN_TTL_MS
    ensures CurrentGen(s, s.flights[f].slot.id) != s.flights[f].slot.tok
  {
    assert FlightOk(s, f);
  }

  lemma CleanStatus(s: State, f: nat, status: Status, id: string, w: nat)
    requires Clean(s, id, w) && RunningFlight(s, f)
    ensures Clean(SetStatus(s, f, status), id, w) && Clean(Land(s, f, status), id, w)
  {
    var t, l := SetStatus(s, f, status), Land(s, f, status);
    forall g | RunningFlight(t, g) && t.flights[g].slot.id == id
      ensures Doomed(t, g) || t.flights[g].born >= w
    {
      assert RunningFlight(s, g);
    }
    forall g | RunningFlight(l, g) && l.flights[g].slot.id == id
      ensures Doomed(l, g) || l.flights[g].born >= w
    {
      assert RunningFlight(s, g);
    }
  }

  lemma CleanInvalidate(s: State, other: string, id: string, w: nat)
    requires Base(s) && Clean(s, id, w)
    ensures Clean(InvalidateScript(s, other), id, w)
  {
    if other == id {
      InvalidateCleans(s, id, w);
    } else {
      var t := InvalidateScript(s, other);
      forall g | RunningFlight(t, g) && t.flights[g].slot.id == id
        ensures Doomed(t, g) || t.flights[g].born >= w
      {
        assert RunningFlight(s, g);
      }
    }
  }

  /** Clean depends only on these parts of the state. */
  lemma CleanFrame(s: State, t: State, id: string, w: nat)
    requires Clean(s, id, w)
    requires t.flights == s.flights && t.gen == s.gen && t.now >= s.now && t.db >= s.db
    requires id in t.entry ==> id in s.entry && t.entry[id] == s.entry[id]
    ensures Clean(t, id, w)
  {
    forall g | RunningFlight(t, g) && t.flights[g].slot.id == id
      ensures Doomed(t, g) || t.flights[g].born >= w
    {
      assert RunningFlight(s, g);
    }
  }

  lemma CleanQueueStep(s: State, e: Event, id: string, w: nat)
    requires Base(s) && Enabled(s, e) && Clean(s, id, w) && OfQueue(e)
    ensures Clean(Apply(s, e), id, w)
  {
    var t := Apply(s, e);
    match e
    case Invalidate(p, other, applied, ok) =>
      CleanInvalidate(s, other, id, w);
      CleanFrame(if applied then InvalidateScript(s, other) else s, t, id, w);
    case FlushResume(p, applied, ok, connected) =>
      var key := s.queues[p].flush.todo[0].key;
      if applied && key.Entity? {
        CleanInvalidate(s, key.id, id, w);
        CleanFrame(InvalidateScript(s, key.id), t, id, w);
      } else {
        CleanFrame(s, t, id, w);
      }
    case _ => CleanFrame(s, t, id, w);
  }

  lemma CleanActorStep(s: State, e: Event, id: string, w: nat)
    requires Base(s) && Enabled(s, e) && Clean(s, id, w) && OfCall(e)
    ensures Clean(Apply(s, e), id, w)
  {
    var t := Apply(s, e);
    if e.ReadGen? && e.ok {
      CleanLaunch(s, e.call, e.started, id, w);
    } else {
      CleanFrame(s, t, id, w);
    }
  }

  lemma CleanOtherStep(s: State, e: Event, id: string, w: nat)
    requires Base(s) && Enabled(s, e) && Clean(s, id, w) && s.bound < GEN_TTL_MS && !OfQueue(e) && !OfCall(e)
    ensures Clean(Apply(s, e), id, w)
  {
    var t := Apply(s, e);
    match e
    case FactoryRead(f) => CleanStatus(s, f, Running(Some(s.db)), id, w);
    case FactoryFail(f) => CleanStatus(s, f, Failed, id, w);
    case Store(f, cacheable, applied, ok, random) => CleanStore(s, f, cacheable, applied, ok, random, id, w);
    case Tick(_) => CleanFrame(s, t, id, w);
    case Write => CleanFrame(s, t, id, w);
    case Evict(_) => CleanFrame(s, t, id, w);
  }

  /** Once clean, an entity stays clean through every step of every process. */
  lemma CleanStep(s: State, e: Event, id: string, w: nat)
    requires Base(s) && Enabled(s, e) && Clean(s, id, w) && s.bound < GEN_TTL_MS
    ensures Clean(Apply(s, e), id, w)
  {
    if OfQueue(e) {
      CleanQueueStep(s, e, id, w);
    } else if OfCall(e) {
      CleanActorStep(s, e, id, w);
    } else {
      CleanOtherStep(s, e, id, w);
    }
  }

  /** An INVALIDATE that reached Redis makes its entity clean for every write committed so far. */
  lemma InvalidateCleans(s: State, id: string, w: nat)
    requires Base(s) && w <= s.db
    ensures Clean(InvalidateScript(s, id), id, w)
  {
  }

  // What a step leaves alone.

  predicate SameConstants(s: State, t: State) {
    t.bound == s.bound && t.now >= s.now && t.db >= s.db && t.queues.Keys == s.queues.Keys
  }

  lemma ConstantsQueueStep(s: State, e: Event)
    requires Enabled(s, e) && OfQueue(e)
    ensures SameConstants(s, Apply(s, e))
  {
  }

  lemma ConstantsActorStep(s: State, e: Event)
    requires Enabled(s, e) && OfCall(e)
    ensures SameConstants(s, Apply(s, e))
  {
  }

  lemma ConstantsOtherStep(s: State, e: Event)
    requires Enabled(s, e) && !OfQueue(e) && !OfCall(e)
    ensures SameConstants(s, Apply(s, e))
  {
  }

  lemma ConstantsStep(s: State, e: Event)
    requires Enabled(s, e)
    ensures SameConstants(s, Apply(s, e))
  {
    if OfQueue(e) {
      ConstantsQueueStep(s, e);
    } else if OfCall(e) {
      ConstantsActorStep(s, e);
    } else {
      ConstantsOtherStep(s, e);
    }
  }

  lemma FlightsUntouched(s: State, e: Event)
    requires Enabled(s, e) && !e.ReadGen? && !e.FactoryRead? && !e.FactoryFail? && !e.Store?
    ensures Apply(s, e).flights == s.flights
  {
    match e
    case Invalidate(_, _, _, _) =>
    case FlushResume(_, _, _, _) =>
    case FlushEnd(_, _) =>
    case PurgeEnd(_, _) =>
    case _ =>
  }

  ghost predicate SameFlight(s: State, t: State, f: nat) {
    && f in s.flights && f in t.flights
    && t.flights[f].slot == s.flights[f].slot && t.flights[f].begun == s.flights[f].begun
    && (RunningFlight(t, f) ==> RunningFlight(s, f))
  }

  lemma LaunchKeepsFlights(s: State, c: nat, ok: bool, started: nat, f: nat)
    requires c in s.calls && f in ReadGenCall(s, c, ok, started).flights && f != started
    ensures SameFlight(s, ReadGenCall(s, c, ok, started), f)
  {
  }

  lemma StoreKeepsFlights(s: State, g: nat, cacheable: bool, applied: bool, ok: bool, random: real, f: nat)
    requires Enabled(s, Store(g, cacheable, applied, ok, random))
    requires f in StoreFlight(s, g, cacheable, applied, ok, random).flights
    ensures SameFlight(s, StoreFlight(s, g, cacheable, applied, ok, random), f)
  {
  }

  /** Only ReadGen creates a flight; a flight's origin never changes and only a running flight runs on. */
  lemma FlightStep(s: State, e: Event, f: nat)
    requires Enabled(s, e) && f in Apply(s, e).flights && !(e.ReadGen? && f == e.started)
    ensures SameFlight(s, Apply(s, e), f)
  {
    match e
    case ReadGen(c, ok, started) => LaunchKeepsFlights(s, c, ok, started, f);
    case FactoryRead(g) =>
    case FactoryFail(g) =>
    case Store(g, cacheable, applied, ok, random) => StoreKeepsFlights(s, g, cacheable, applied, ok, random, f);
    case _ => FlightsUntouched(s, e);
  }

  lemma FlightStays(s: State, e: Event, f: nat)
    requires Enabled(s, e) && f in s.flights
    ensures f in Apply(s, e).flights && Apply(s, e).flights[f].born == s.flights[f].born
  {
    match e
    case ReadGen(c, ok, started) =>
    case FactoryRead(g) =>
    case FactoryFail(g) =>
    case Store(g, cacheable, applied, ok, random) => StoreKeepsBirth(s, g, cacheable, applied, ok, random, f);
    case _ => FlightsUntouched(s, e);
  }

  lemma StoreKeepsBirth(s: State, g: nat, cacheable: bool, applied: bool, ok: bool, random: real, f: nat)
    requires Enabled(s, Store(g, cacheable, applied, ok, random)) && f in s.flights
    ensures var t := StoreFlight(s, g, cacheable, applied, ok, random);
      f in t.flights && t.flights[f].born == s.flights[f].born
  {
  }

  /** The call that takes this step. */
  function Actor(e: Event): Option<nat> {
    match e
    case Begin(c, _, _) => Some(c)
    case Check(c, _) => Some(c)
    case ReadEntry(c, _) => Some(c)
    case ReadGen(c, _, _) => Some(c)
    case Bypass(c, _) => Some(c)
    case Return(c) => Some(c)
    case _ => None
  }

  lemma QueueStepsLeaveCalls(s: State, e: Event)
    requires Enabled(s, e) && OfQueue(e)
    ensures Apply(s, e).calls == s.calls
  {
    match e
    case Invalidate(_, _, _, _) =>
    case OtherOp(_, _, _) =>
    case FlushBegin(_) =>
    case FlushResume(_, _, _, _) =>
    case FlushEnd(_, _) =>
    case PurgeEnd(_, _) =>
  }

  lemma StoreLeavesCalls(s: State, f: nat, cacheable: bool, applied: bool, ok: bool, random: real)
    requires Enabled(s, Store(f, cacheable, applied, ok, random))
    ensures StoreFlight(s, f, cacheable, applied, ok, random).calls == s.calls
    ensures StoreFlight(s, f, cacheable, applied, ok, random).queues == s.queues
  {
  }

  lemma OtherStepsLeaveCalls(s: State, e: Event)
    requires Enabled(s, e) && !OfCall(e) && !OfQueue(e)
    ensures Apply(s, e).calls == s.calls && Apply(s, e).queues == s.queues
  {
    if e.Store? {
      StoreLeavesCalls(s, e.flight, e.cacheable, e.applied, e.ok, e.random);
    }
  }

  lemma CallStep(s: State, e: Event, c: nat)
    requires Enabled(s, e) && Actor(e) != Some(c)
    ensures c in Apply(s, e).calls <==> c in s.calls
    ensures c in s.calls ==> Apply(s, e).calls[c] == s.calls[c]
  {
    if OfQueue(e) {
      QueueStepsLeaveCalls(s, e);
    } else if !OfCall(e) {
      OtherStepsLeaveCalls(s, e);
    }
  }

  lemma ActorStep(s: State, e: Event, c: nat)
    requires Enabled(s, e) && Actor(e) == Some(c)
    ensures c in Apply(s, e).calls
    ensures !e.Begin? ==> c in s.calls && Apply(s, e).calls[c].proc == s.calls[c].proc && Apply(s, e).calls[c].id == s.calls[c].id
    ensures e.Begin? ==> Apply(s, e).calls[c].proc == e.proc && e.proc in s.queues
    ensures InStage(Apply(s, e), c, Checked) || InStage(Apply(s, e), c, Missed) ==>
      || (e.ReadEntry? && s.calls[c].stage == Checked && Apply(s, e).calls[c].checkedAt == s.calls[c].checkedAt)
      || (e.Check? && !QueuedFor(s, c) && Apply(s, e).calls[c].checkedAt == s.now)
  {
    match e
    case Begin(_, _, _) =>
    case Check(_, usable) =>
    case ReadEntry(_, ok) =>
    case ReadGen(_, ok, _) =>
    case Bypass(_, ok) =>
    case Return(_) =>
  }

  /** The queue check of wrapEntity finds the call's id queued in its own process. */
  ghost predicate QueuedFor(s: State, c: nat) {
    c in s.calls && s.calls[c].proc in s.queues &&
    RQ.Queued(s.queues[s.calls[c].proc].pending, RQ.Entity(s.calls[c].id))
  }

  // ---------------------------------------------------------------- freshness over every run

  lemma {:induction false} BaseRun(tr: seq<State>, ev: seq<Event>, m: nat)
    requires IsRun(tr, ev) && m < |tr|
    ensures Base(tr[m]) && tr[m].bound == tr[0].bound && tr[m].queues.Keys == tr[0].queues.Keys
  {
    if m == 0 {
      assert forall p :: p in tr[0].queues ==> RQ.QueueInv(tr[0].queues[p], tr[0].now);
    } else {
      BaseRun(tr, ev, m - 1);
      BaseStep(tr[m - 1], ev[m - 1]);
      ConstantsStep(tr[m - 1], ev[m - 1]);
    }
  }

  /** What a call for `id` has been given, or is waiting for, is at least as new as write `w`. */
  ghost predicate CallFresh(s: State, c: nat, id: string, w: nat) {
    c in s.calls && s.calls[c].id == id &&
    match s.calls[c].stage
    case Waiting(f) => f in s.flights && s.flights[f].born >= w
    case Returned(tag) => tag >= w
    case _ => true
  }

  lemma JoinIsFresh(s: State, slot: Slot, w: nat)
    requires Base(s) && Clean(s, slot.id, w) && s.bound < GEN_TTL_MS
    requires slot in s.inflight && slot.tok == CurrentGen(s, slot.id)
    ensures s.flights[s.inflight[slot]].born >= w
  {
    var f := s.inflight[slot];
    if Doomed(s, f) {
      DoomedIsStale(s, f);
    }
  }

  lemma OtherStepKeepsFresh(s: State, e: Event, c: nat, id: string, w: nat)
    requires Enabled(s, e) && Actor(e) != Some(c) && CallFresh(s, c, id, w)
    ensures CallFresh(Apply(s, e), c, id, w)
  {
    CallStep(s, e, c);
    if s.calls[c].stage.Waiting? {
      FlightStays(s, e, s.calls[c].stage.flight);
    }
  }

  lemma OwnStepIsFresh(s: State, e: Event, c: nat, id: string, w: nat)
    requires Base(s) && Enabled(s, e) && s.bound < GEN_TTL_MS && w <= s.db && Actor(e) == Some(c)
    requires CallFresh(s, c, id, w)
    requires InStage(s, c, Checked) || InStage(s, c, Missed) ==> Clean(s, id, w)
    ensures CallFresh(Apply(s, e), c, id, w)
  {
    if e.ReadGen? {
      var slot := Slot(s.calls[c].proc, id, CurrentGen(s, id));
      if e.ok && slot in s.inflight {
        JoinIsFresh(s, slot, w);
      }
    } else if e.Return? {
      assert FlightOk(s, s.calls[c].stage.flight);
    }
  }

  /** Hit, own flight, joined flight or bypass: a call on a clean entity gets a value that is new enough. */
  lemma CallFreshStep(s: State, e: Event, c: nat, id: string, w: nat)
    requires Base(s) && Enabled(s, e) && s.bound < GEN_TTL_MS && w <= s.db
    requires CallFresh(s, c, id, w)
    requires InStage(s, c, Checked) || InStage(s, c, Missed) ==> Clean(s, id, w)
    ensures CallFresh(Apply(s, e), c, id, w)
  {
    if Actor(e) == Some(c) {
      OwnStepIsFresh(s, e, c, id, w);
    } else {
      OtherStepKeepsFresh(s, e, c, id, w);
    }
  }

  /** The event carries out INVALIDATE for `id` in Redis: directly, or replayed by a flush. */
  ghost predicate Invalidates(s: State, e: Event, id: string)
    requires Enabled(s, e)
  {
    || (e.Invalidate? && e.id == id && e.applied)
    || (e.FlushResume? && e.applied && s.queues[e.proc].flush.todo[0].key == RQ.Entity(id))
  }

  lemma CleanBegins(s: State, e: Event, id: string)
    requires Base(s) && Enabled(s, e) && Invalidates(s, e, id)
    ensures Clean(Apply(s, e), id, s.db)
  {
    var cleaned := InvalidateScript(s, id);
    InvalidateCleans(s, id, s.db);
    CleanFrame(cleaned, Apply(s, e), id, s.db);
  }

  lemma {:induction false} CleanRun(tr: seq<State>, ev: seq<Event>, i: nat, m: nat, id: string)
    requires IsRun(tr, ev) && tr[0].bound < GEN_TTL_MS
    requires i < |ev| && Invalidates(tr[i], ev[i], id)
    requires i < m < |tr|
    ensures Clean(tr[m], id, tr[i].db)
  {
    BaseRun(tr, ev, m - 1);
    if m == i + 1 {
      CleanBegins(tr[i], ev[i], id);
    } else {
      CleanRun(tr, ev, i, m - 1, id);
      CleanStep(tr[m - 1], ev[m - 1], id, tr[i].db);
    }
  }

  lemma BeginIsFresh(s: State, e: Event, w: nat)
    requires Enabled(s, e) && e.Begin?
    ensures CallFresh(Apply(s, e), e.call, e.id, w)
    ensures !InStage(Apply(s, e), e.call, Checked) && !InStage(Apply(s, e), e.call, Missed)
  {
  }

  lemma {:induction false} CallFreshRun(tr: seq<State>, ev: seq<Event>, i: nat, j: nat, k: nat, id: string)
    requires IsRun(tr, ev) && tr[0].bound < GEN_TTL_MS
    requires i < |ev| && Invalidates(tr[i], ev[i], id)
    requires i < j < |ev| && ev[j].Begin? && ev[j].id == id
    requires j < k < |tr|
    ensures CallFresh(tr[k], ev[j].call, id, tr[i].db)
  {
    if k > j + 1 {
      CleanRun(tr, ev, i, k - 1, id);
      BaseRun(tr, ev, k - 1);
      CallFreshRun(tr, ev, i, j, k - 1, id);
      CallFreshStep(tr[k - 1], ev[k - 1], ev[j].call, id, tr[i].db);
    } else {
      BeginIsFresh(tr[j], ev[j], tr[i].db);
    }
  }

  /** Main result, any number of processes. Once an invalidation has reached Redis, whether its
      acknowledgement came back or not, every wrapEntity call that starts later in any process returns a
      value at least as new as every write committed before it, whether by hit, by its own flight, by a
      joined flight or by bypass; provided no flight outlives the generation key. */
  lemma FreshAfterInvalidation(tr: seq<State>, ev: seq<Event>, i: nat, j: nat, k: nat, id: string, tag: nat)
    requires IsRun(tr, ev) && tr[0].bound < GEN_TTL_MS
    requires i < j < |ev| && j < k < |tr|
    requires Invalidates(tr[i], ev[i], id)
    requires ev[j].Begin? && ev[j].id == id
    requires InStage(tr[k], ev[j].call, Returned(tag))
    ensures tag >= tr[i].db
  {
    CallFreshRun(tr, ev, i, j, k, id);
  }

  // ---------------------------------------------------------------- one process, failing Redis

  ghost predicate Solo(s: State, p: nat) {
    s.queues.Keys == {p} && forall c :: c in s.calls ==> s.calls[c].proc == p
  }

  /** Everything that could still serve `id` from the cache began by time `since`. */
  ghost predicate InWindow(s: State, id: string, since: nat) {
    && (forall f :: RunningFlight(s, f) && s.flights[f].slot.id == id ==> s.flights[f].begun <= since)
    && (forall c :: (InStage(s, c, Checked) || InStage(s, c, Missed)) && s.calls[c].id == id ==> s.calls[c].checkedAt <= since)
    && (id in s.entry ==> s.entry[id].exp <= since + s.bound + ENTRY_MAX_MS)
  }

  ghost predicate Windows(s: State, p: nat)
    requires p in s.queues
  {
    forall it :: it in s.queues[p].pending && it.key.Entity? ==> InWindow(s, it.key.id, it.firstAt)
  }

  /** While an id is queued it is bypassed, so its window does not move. */
  lemma WindowFlights(s: State, e: Event, p: nat, id: string, since: nat, f: nat)
    requires Base(s) && Enabled(s, e) && InWindow(s, id, since)
    requires RunningFlight(Apply(s, e), f) && Apply(s, e).flights[f].slot.id == id
    ensures Apply(s, e).flights[f].begun <= since
  {
    if !(e.ReadGen? && f == e.started) {
      FlightStep(s, e, f);
      assert RunningFlight(s, f);
    }
  }

  lemma WindowCalls(s: State, e: Event, p: nat, id: string, since: nat, c: nat)
    requires Base(s) && Enabled(s, e) && Solo(s, p) && InWindow(s, id, since)
    requires RQ.Queued(s.queues[p].pending, RQ.Entity(id))
    requires InStage(Apply(s, e), c, Checked) || InStage(Apply(s, e), c, Missed)
    requires Apply(s, e).calls[c].id == id
    ensures Apply(s, e).calls[c].checkedAt <= since
  {
    if Actor(e) != Some(c) {
      CallStep(s, e, c);
    } else {
      ActorStep(s, e, c);
    }
  }

  lemma EntryQueueStep(s: State, e: Event, id: string)
    requires Enabled(s, e) && id in Apply(s, e).entry && OfQueue(e)
    ensures id in s.entry && Apply(s, e).entry[id] == s.entry[id]
  {
  }

  lemma CallsLeaveTheRest(s: State, e: Event)
    requires Enabled(s, e) && OfCall(e)
    ensures Apply(s, e).entry == s.entry && Apply(s, e).queues == s.queues
  {
    match e
    case Begin(_, _, _) =>
    case Check(_, _) =>
    case ReadEntry(_, _) =>
    case ReadGen(_, _, _) =>
    case Bypass(_, _) =>
    case Return(_) =>
  }

  /** Only the guarded write creates an entry. */
  lemma EntryStep(s: State, e: Event, id: string)
    requires Enabled(s, e) && id in Apply(s, e).entry && !e.Store?
    ensures id in s.entry && Apply(s, e).entry[id] == s.entry[id]
  {
    if OfQueue(e) {
      EntryQueueStep(s, e, id);
    } else if OfCall(e) {
      CallsLeaveTheRest(s, e);
    }
  }

  lemma StoredEntry(s: State, f: nat, cacheable: bool, applied: bool, ok: bool, random: real, id: string)
    requires Enabled(s, Store(f, cacheable, applied, ok, random))
    requires id in StoreFlight(s, f, cacheable, applied, ok, random).entry
    ensures var entry := StoreFlight(s, f, cacheable, applied, ok, random).entry[id];
      || (id in s.entry && entry == s.entry[id])
      || (s.flights[f].slot.id == id && entry.exp <= s.now + ENTRY_MAX_MS)
  {
    CacheTtl.JitterAtMost(CacheTtl.ENTITY_TTL, random);
  }

  lemma WindowEntry(s: State, e: Event, id: string, since: nat)
    requires Base(s) && Enabled(s, e) && InWindow(s, id, since) && id in Apply(s, e).entry
    ensures Apply(s, e).entry[id].exp <= since + s.bound + ENTRY_MAX_MS
  {
    if e.Store? {
      StoredEntry(s, e.flight, e.cacheable, e.applied, e.ok, e.random, id);
      RunningIsRecent(s, e.flight);
    } else {
      EntryStep(s, e, id);
    }
  }

  /** While an id is queued it is bypassed, so its window does not move. */
  lemma WindowStep(s: State, e: Event, p: nat, id: string, since: nat)
    requires Base(s) && Enabled(s, e) && Solo(s, p)
    requires RQ.Queued(s.queues[p].pending, RQ.Entity(id)) && InWindow(s, id, since)
    ensures InWindow(Apply(s, e), id, since)
  {
    var t := Apply(s, e);
    ConstantsStep(s, e);
    forall f | RunningFlight(t, f) && t.flights[f].slot.id == id
      ensures t.flights[f].begun <= since
    {
      WindowFlights(s, e, p, id, since, f);
    }
    forall c | (InStage(t, c, Checked) || InStage(t, c, Missed)) && t.calls[c].id == id
      ensures t.calls[c].checkedAt <= since
    {
      WindowCalls(s, e, p, id, since, c);
    }
    if id in t.entry {
      WindowEntry(s, e, id, since);
    }
  }

  lemma NewWindow(s: State, id: string)
    requires Base(s)
    ensures InWindow(s, id, s.now)
  {
    forall f | RunningFlight(s, f)
      ensures s.flights[f].begun <= s.now
    {
      assert FlightOk(s, f);
    }
    forall c | c in s.calls
      ensures s.calls[c].checkedAt <= s.now
    {
      assert CallOk(s, c);
    }
  }

  lemma QueuesUntouched(s: State, e: Event)
    requires Enabled(s, e) && !OfQueue(e)
    ensures Apply(s, e).queues == s.queues
  {
    if OfCall(e) {
      CallsLeaveTheRest(s, e);
    } else {
      OtherStepsLeaveCalls(s, e);
    }
  }

  lemma QueueStep(s: State, e: Event, p: nat)
    requires Enabled(s, e) && p in s.queues && s.queues.Keys == {p}
    ensures Apply(s, e).queues[p] ==
      match e
      case Invalidate(_, id, _, ok) => RQ.Guarded(s.queues[p], RQ.Entity(id), ok, s.now)
      case OtherOp(_, name, ok) => RQ.Guarded(s.queues[p], RQ.Other(name), ok, s.now)
      case FlushBegin(_) => RQ.FlushBegin(s.queues[p], s.now)
      case FlushResume(_, _, ok, connected) => RQ.FlushResume(s.queues[p], ok, connected)
      case FlushEnd(_, connected) => RQ.FlushEnd(s.queues[p], connected)
      case PurgeEnd(_, purged) => RQ.PurgeEnd(s.queues[p], purged)
      case _ => s.queues[p]
  {
    if !OfQueue(e) {
      QueuesUntouched(s, e);
    }
  }

  lemma PendingGuarded(q: RQ.Queue, key: RQ.Key, ok: bool, now: nat, it: RQ.Item)
    requires it in RQ.Guarded(q, key, ok, now).pending
    ensures it in q.pending || (!ok && it == RQ.Item(key, now))
  {
  }

  /** An entry of the queue after a step was there before it, or was queued just now. */
  lemma PendingStep(s: State, e: Event, p: nat, it: RQ.Item)
    requires Base(s) && Enabled(s, e) && Solo(s, p) && it in Apply(s, e).queues[p].pending
    ensures it in s.queues[p].pending || (e.Invalidate? && !e.ok && it == RQ.Item(RQ.Entity(e.id), s.now)) || it.key.Other?
  {
    var q := s.queues[p];
    QueueStep(s, e, p);
    if e.Invalidate? {
      PendingGuarded(q, RQ.Entity(e.id), e.ok, s.now, it);
    } else if e.OtherOp? {
      PendingGuarded(q, RQ.Other(e.name), e.ok, s.now, it);
    } else if e.FlushBegin? {
      RQ.BeginKeys(q.pending, s.now);
    } else if e.FlushResume? {
      RQ.ResumeKeepsInv(q, e.ok, e.connected, s.now);
    }
  }

  lemma SoloStep(s: State, e: Event, p: nat)
    requires Enabled(s, e) && Solo(s, p)
    ensures Solo(Apply(s, e), p)
  {
    var t := Apply(s, e);
    ConstantsStep(s, e);
    forall c | c in t.calls
      ensures t.calls[c].proc == p
    {
      if Actor(e) != Some(c) {
        CallStep(s, e, c);
      } else {
        ActorStep(s, e, c);
      }
    }
  }

  lemma WindowsStep(s: State, e: Event, p: nat)
    requires Base(s) && Enabled(s, e) && Solo(s, p) && Windows(s, p)
    ensures Solo(Apply(s, e), p) && Windows(Apply(s, e), p)
  {
    var t := Apply(s, e);
    BaseStep(s, e);
    SoloStep(s, e, p);
    forall it | it in t.queues[p].pending && it.key.Entity?
      ensures InWindow(t, it.key.id, it.firstAt)
    {
      PendingStep(s, e, p, it);
      if it in s.queues[p].pending {
        var i :| 0 <= i < |s.queues[p].pending| && s.queues[p].pending[i] == it;
        assert RQ.Queued(s.queues[p].pending, it.key);
        WindowStep(s, e, p, it.key.id, it.firstAt);
      } else {
        NewWindow(t, it.key.id);
      }
    }
  }

  lemma RunningIsRecent(s: State, f: nat)
    requires Base(s) && RunningFlight(s, f)
    ensures s.flights[f].begun <= s.now <= s.flights[f].begun + s.bound
  {
    assert FlightOk(s, f);
  }

  /** By the time an entry is dropped for its age, everything it protected against has expired. */
  lemma AgedIsClean(s: State, id: string, since: nat, w: nat)
    requires Base(s) && InWindow(s, id, since) && w <= s.db
    requires s.now > since + RQ.RETRY_MAX_AGE_MS && s.bound + ENTRY_MAX_MS <= RQ.RETRY_MAX_AGE_MS
    ensures Clean(s, id, w)
  {
    forall f | RunningFlight(s, f) && s.flights[f].slot.id == id
      ensures false
    {
      RunningIsRecent(s, f);
    }
  }

  /** Either reads of `id` are bypassed, or the cache cannot serve anything older than `w`. */
  ghost predicate Protected(s: State, p: nat, id: string, w: nat)
    requires p in s.queues
  {
    w <= s.db && (RQ.Queued(s.queues[p].pending, RQ.Entity(id)) || Clean(s, id, w))
  }

  lemma DequeuedBySuccess(s: State, p: nat, other: string, applied: bool, ok: bool, id: string, w: nat)
    requires Base(s) && Enabled(s, Invalidate(p, other, applied, ok)) && w <= s.db
    requires RQ.Queued(s.queues[p].pending, RQ.Entity(id))
    requires !RQ.Queued(InvalidateEntity(s, p, other, applied, ok).queues[p].pending, RQ.Entity(id))
    ensures Clean(InvalidateEntity(s, p, other, applied, ok), id, w)
  {
    var q := s.queues[p];
    if ok {
      RQ.RemoveQueued(q.pending, RQ.Entity(other), RQ.Entity(id));
      InvalidateCleans(s, other, w);
      CleanFrame(InvalidateScript(s, other), InvalidateEntity(s, p, other, applied, ok), id, w);
    } else {
      RQ.EnqueueKeepsInv(q, RQ.Entity(other), s.now);
    }
  }

  lemma DequeuedByAge(s: State, p: nat, id: string, w: nat)
    requires Base(s) && p in s.queues && Windows(s, p) && w <= s.db
    requires s.bound + ENTRY_MAX_MS <= RQ.RETRY_MAX_AGE_MS
    requires RQ.Queued(s.queues[p].pending, RQ.Entity(id))
    requires !RQ.Queued(RQ.FlushBegin(s.queues[p], s.now).pending, RQ.Entity(id))
    ensures Clean(s, id, w)
  {
    var pending := s.queues[p].pending;
    RQ.BeginKeys(pending, s.now);
    var n :| 0 <= n < |pending| && pending[n].key == RQ.Entity(id) && RQ.Aged(pending[n], s.now);
    assert pending[n] in pending;
    AgedIsClean(s, id, pending[n].firstAt, w);
  }

  lemma DequeuedByFlush(s: State, p: nat, applied: bool, ok: bool, connected: bool, id: string, w: nat)
    requires Base(s) && Enabled(s, FlushResume(p, applied, ok, connected)) && w <= s.db
    requires RQ.Queued(s.queues[p].pending, RQ.Entity(id))
    requires !RQ.Queued(RQ.FlushResume(s.queues[p], ok, connected).pending, RQ.Entity(id))
    ensures Clean(ResumeFlush(s, p, applied, ok, connected), id, w)
  {
    var q := s.queues[p];
    RQ.ResumeKeepsInv(q, ok, connected, s.now);
    RQ.RemoveQueued(q.pending, q.flush.todo[0].key, RQ.Entity(id));
    InvalidateCleans(s, id, w);
    CleanFrame(InvalidateScript(s, id), ResumeFlush(s, p, applied, ok, connected), id, w);
  }

  /** An id that leaves the queue is clean by then. */
  lemma DequeuedIsClean(s: State, e: Event, p: nat, id: string, w: nat)
    requires Base(s) && Enabled(s, e) && Solo(s, p) && Windows(s, p) && w <= s.db
    requires s.bound + ENTRY_MAX_MS <= RQ.RETRY_MAX_AGE_MS
    requires RQ.Queued(s.queues[p].pending, RQ.Entity(id))
    requires p in Apply(s, e).queues && !RQ.Queued(Apply(s, e).queues[p].pending, RQ.Entity(id))
    ensures Clean(Apply(s, e), id, w)
  {
    QueueStep(s, e, p);
    if e.Invalidate? {
      DequeuedBySuccess(s, p, e.id, e.applied, e.ok, id, w);
    } else if e.OtherOp? {
      RQ.RemoveQueued(s.queues[p].pending, RQ.Other(e.name), RQ.Entity(id));
      RQ.EnqueueKeepsInv(s.queues[p], RQ.Other(e.name), s.now);
    } else if e.FlushBegin? {
      DequeuedByAge(s, p, id, w);
      CleanFrame(s, Apply(s, e), id, w);
    } else if e.FlushResume? {
      DequeuedByFlush(s, p, e.applied, e.ok, e.connected, id, w);
    }
  }

  lemma ProtectedStep(s: State, e: Event, p: nat, id: string, w: nat)
    requires Base(s) && Enabled(s, e) && Solo(s, p) && Windows(s, p) && Protected(s, p, id, w)
    requires s.bound + ENTRY_MAX_MS <= RQ.RETRY_MAX_AGE_MS
    ensures p in Apply(s, e).queues && Protected(Apply(s, e), p, id, w)
  {
    ConstantsStep(s, e);
    if Clean(s, id, w) {
      CleanStep(s, e, id, w);
    } else if !RQ.Queued(Apply(s, e).queues[p].pending, RQ.Entity(id)) {
      DequeuedIsClean(s, e, p, id, w);
    }
  }

  /** The state of everything that matters to calls for `id` that start after the write. */
  ghost predicate SoloInv(s: State, p: nat, id: string, w: nat) {
    Base(s) && Solo(s, p) && Windows(s, p) && Protected(s, p, id, w)
  }

  lemma SoloInvStep(s: State, e: Event, p: nat, id: string, w: nat)
    requires SoloInv(s, p, id, w) && Enabled(s, e) && s.bound + ENTRY_MAX_MS <= RQ.RETRY_MAX_AGE_MS
    ensures SoloInv(Apply(s, e), p, id, w) && Apply(s, e).bound == s.bound
  {
    BaseStep(s, e);
    WindowsStep(s, e, p);
    ProtectedStep(s, e, p, id, w);
    ConstantsStep(s, e);
  }

  ghost predicate CallSafe(s: State, c: nat, id: string, w: nat) {
    CallFresh(s, c, id, w) && (InStage(s, c, Checked) || InStage(s, c, Missed) ==> Clean(s, id, w))
  }

  /** A call starts to read the cache only while its entity is clean: a queued id is bypassed. */
  lemma ReadersAreClean(s: State, e: Event, p: nat, c: nat, id: string, w: nat)
    requires SoloInv(s, p, id, w) && Enabled(s, e) && CallSafe(s, c, id, w)
    requires InStage(Apply(s, e), c, Checked) || InStage(Apply(s, e), c, Missed)
    ensures Clean(s, id, w)
  {
    if Actor(e) != Some(c) {
      CallStep(s, e, c);
    } else {
      ActorStep(s, e, c);
    }
  }

  lemma CallSafeStep(s: State, e: Event, p: nat, c: nat, id: string, w: nat)
    requires SoloInv(s, p, id, w) && Enabled(s, e) && s.bound + ENTRY_MAX_MS <= RQ.RETRY_MAX_AGE_MS
    requires CallSafe(s, c, id, w)
    ensures CallSafe(Apply(s, e), c, id, w)
  {
    var t := Apply(s, e);
    CallFreshStep(s, e, c, id, w);
    if InStage(t, c, Checked) || InStage(t, c, Missed) {
      ReadersAreClean(s, e, p, c, id, w);
      CleanStep(s, e, id, w);
    }
  }

  lemma {:induction false} WindowsRun(tr: seq<State>, ev: seq<Event>, p: nat, m: nat)
    requires IsRun(tr, ev) && tr[0].queues.Keys == {p} && m < |tr|
    ensures Solo(tr[m], p) && Windows(tr[m], p)
  {
    if m > 0 {
      WindowsRun(tr, ev, p, m - 1);
      BaseRun(tr, ev, m - 1);
      WindowsStep(tr[m - 1], ev[m - 1], p);
    }
  }

  /** The failed invalidation found the queue full and its id not in it. */
  ghost predicate Overflows(q: RQ.Queue, id: string) {
    !RQ.Queued(q.pending, RQ.Entity(id)) && |q.pending| >= RQ.RETRY_QUEUE_MAX
  }

  /** The failed invalidation is queued, unless the queue overflows. */
  lemma FailureIsQueued(s: State, e: Event, p: nat)
    requires Base(s) && Enabled(s, e) && e.Invalidate? && !e.ok && p in s.queues && s.queues.Keys == {p}
    requires !Overflows(s.queues[p], e.id)
    ensures p in Apply(s, e).queues && RQ.Queued(Apply(s, e).queues[p].pending, RQ.Entity(e.id))
  {
    var q, key := s.queues[p], RQ.Entity(e.id);
    QueueStep(s, e, p);
    RQ.EnqueueKeepsInv(q, key, s.now);
    if !RQ.Queued(q.pending, key) {
      var added := RQ.Enqueue(q, key, s.now).pending;
      assert added[|added| - 1].key == key;
    }
  }

  lemma SoloInvBegins(tr: seq<State>, ev: seq<Event>, p: nat, id: string, i: nat)
    requires IsRun(tr, ev) && tr[0].queues.Keys == {p} && tr[0].bound + ENTRY_MAX_MS <= RQ.RETRY_MAX_AGE_MS
    requires i < |ev| && ev[i].Invalidate? && ev[i].id == id
    requires p in tr[i].queues && (ev[i].ok || !Overflows(tr[i].queues[p], id))
    ensures SoloInv(tr[i + 1], p, id, tr[i].db)
  {
    BaseRun(tr, ev, i);
    BaseRun(tr, ev, i + 1);
    WindowsRun(tr, ev, p, i + 1);
    ConstantsStep(tr[i], ev[i]);
    if ev[i].ok {
      CleanRun(tr, ev, i, i + 1, id);
    } else {
      FailureIsQueued(tr[i], ev[i], p);
    }
  }

  ghost predicate SoloInvAt(tr: seq<State>, k: nat, p: nat, id: string, w: nat) {
    k + 1 < |tr| && SoloInv(tr[k], p, id, w) ==> SoloInv(tr[k + 1], p, id, w)
  }

  lemma {:induction false} SoloInvChain(tr: seq<State>, i: nat, m: nat, p: nat, id: string, w: nat)
    requires i <= m < |tr| && SoloInv(tr[i], p, id, w) && forall k: nat :: SoloInvAt(tr, k, p, id, w)
    ensures SoloInv(tr[m], p, id, w)
  {
    if i < m {
      SoloInvChain(tr, i, m - 1, p, id, w);
      assert SoloInvAt(tr, m - 1, p, id, w);
    }
  }

  lemma SoloInvRun(tr: seq<State>, ev: seq<Event>, p: nat, id: string, i: nat, m: nat)
    requires IsRun(tr, ev) && tr[0].queues.Keys == {p} && tr[0].bound + ENTRY_MAX_MS <= RQ.RETRY_MAX_AGE_MS
    requires i < |ev| && ev[i].Invalidate? && ev[i].id == id
    requires p in tr[i].queues && (ev[i].ok || !Overflows(tr[i].queues[p], id))
    requires i < m < |tr|
    ensures SoloInv(tr[m], p, id, tr[i].db)
  {
    var w := tr[i].db;
    SoloInvBegins(tr, ev, p, id, i);
    forall k: nat ensures SoloInvAt(tr, k, p, id, w) {
      if k + 1 < |tr| && SoloInv(tr[k], p, id, w) {
        BaseRun(tr, ev, k);
        SoloInvStep(tr[k], ev[k], p, id, w);
      }
    }
    SoloInvChain(tr, i + 1, m, p, id, w);
  }

  ghost predicate CallSafeAt(tr: seq<State>, k: nat, c: nat, id: string, w: nat) {
    k + 1 < |tr| && CallSafe(tr[k], c, id, w) ==> CallSafe(tr[k + 1], c, id, w)
  }

  lemma {:induction false} CallSafeChain(tr: seq<State>, j: nat, m: nat, c: nat, id: string, w: nat)
    requires j <= m < |tr| && CallSafe(tr[j], c, id, w) && forall k: nat :: j <= k ==> CallSafeAt(tr, k, c, id, w)
    ensures CallSafe(tr[m], c, id, w)
  {
    if j < m {
      CallSafeChain(tr, j, m - 1, c, id, w);
      assert CallSafeAt(tr, m - 1, c, id, w);
    }
  }

  lemma CallSafeRun(tr: seq<State>, ev: seq<Event>, p: nat, id: string, i: nat, j: nat, k: nat)
    requires IsRun(tr, ev) && tr[0].queues.Keys == {p} && tr[0].bound + ENTRY_MAX_MS <= RQ.RETRY_MAX_AGE_MS
    requires i < j < |ev| && ev[i].Invalidate? && ev[i].id == id
    requires p in tr[i].queues && (ev[i].ok || !Overflows(tr[i].queues[p], id))
    requires ev[j].Begin? && ev[j].id == id
    requires j < k < |tr|
    ensures CallSafe(tr[k], ev[j].call, id, tr[i].db)
  {
    var c, w := ev[j].call, tr[i].db;
    BeginIsFresh(tr[j], ev[j], w);
    forall n: nat | j + 1 <= n ensures CallSafeAt(tr, n, c, id, w) {
      if n + 1 < |tr| && CallSafe(tr[n], c, id, w) {
        SoloInvRun(tr, ev, p, id, i, n);
        BaseRun(tr, ev, n);
        CallSafeStep(tr[n], ev[n], p, c, id, w);
      }
    }
    CallSafeChain(tr, j + 1, k, c, id, w);
  }

  /** Main result, one process. Once invalidateEntity has resolved, even though every Redis call may fail
      from then on, later wrapEntity calls never return a value older than the writes before it, unless
      the failure found the retry queue full. This covers the time after the entry is dropped for its
      age, because a call plus the longest-lived entry together last at most RETRY_MAX_AGE_MS. */
  lemma FreshThroughRedisFailure(tr: seq<State>, ev: seq<Event>, p: nat, i: nat, j: nat, k: nat, id: string, tag: nat)
    requires IsRun(tr, ev) && tr[0].queues.Keys == {p} && tr[0].bound + ENTRY_MAX_MS <= RQ.RETRY_MAX_AGE_MS
    requires i < j < |ev| && j < k < |tr|
    requires ev[i].Invalidate? && ev[i].id == id
    requires p in tr[i].queues && (ev[i].ok || !Overflows(tr[i].queues[p], id))
    requires ev[j].Begin? && ev[j].id == id
    requires InStage(tr[k], ev[j].call, Returned(tag))
    ensures tag >= tr[i].db
  {
    CallSafeRun(tr, ev, p, id, i, j, k);
  }

  // ---------------------------------------------------------------- the code, step by step

  /** The processes' CacheService objects and the Redis keys they share. Each method is the code between
      two awaits; wrapEntity is CheckQueue, ReadCached, ReadGeneration (then singleFlight), FinishFlight. */
  class Cluster {
    const bound: nat
    var now: nat
    var db: nat
    var nextTok: nat
    var gen: map<string, GenCell>
    var entry: map<string, EntryCell>
    var queues: map<nat, RQ.Queue>
    var inflight: map<Slot, nat>
    var flights: map<nat, Flight>
    var calls: map<nat, Call>

    ghost function View(): State
      reads this
    {
      State(bound, now, db, nextTok, gen, entry, queues, inflight, flights, calls)
    }

    constructor (bound: nat, procs: set<nat>)
      ensures Init(View()) && queues.Keys == procs && View().bound == bound
    {
      this.bound, now, db, nextTok := bound, 0, 0, 1;
      gen, entry, inflight, flights, calls := map[], map[], map[], map[], map[];
      queues := map p | p in procs :: RQ.EMPTY;
    }

    method EvalInvalidate(id: string)
      modifies this`gen, this`entry, this`nextTok
      ensures View() == InvalidateScript(old(View()), id)
    {
      gen := gen[id := GenCell(nextTok, now + GEN_TTL_MS)];
      entry := entry - {id};
      nextTok := nextTok + 1;
    }

    method EvalSetIfVersion(slot: Slot, tag: nat, ttl: nat) returns (written: bool)
      modifies this`entry
      ensures View() == SetIfVersionScript(old(View()), slot, tag, ttl)
      ensures written == (CurrentGen(old(View()), slot.id) == slot.tok)
    {
      var cur := if slot.id in gen && now < gen[slot.id].exp then gen[slot.id].tok else 0;
      if cur != slot.tok {
        return false;
      }
      entry := entry[slot.id := EntryCell(tag, now + ttl * 1000)];
      return true;
    }

    method BeginCall(c: nat, p: nat, id: string)
      requires Enabled(View(), Begin(c, p, id))
      modifies this`calls
      ensures View() == Apply(old(View()), Begin(c, p, id))
    {
      calls := calls[c := Call(p, id, now, Begun)];
    }

    method CheckQueue(c: nat, usable: bool)
      requires Enabled(View(), Check(c, usable))
      modifies this`calls
      ensures View() == CheckCall(old(View()), c, usable)
    {
      var call := calls[c].(checkedAt := now, stage := Bypassing);
      if usable {
        var pending := queues[call.proc].pending;
        if RQ.Find(pending, RQ.Entity(call.id)) == |pending| {
          call := call.(stage := Checked);
        }
      }
      calls := calls[c := call];
    }

    method ReadCached(c: nat, ok: bool)
      requires Enabled(View(), ReadEntry(c, ok))
      modifies this`calls
      ensures View() == ReadEntryCall(old(View()), c, ok)
    {
      var call := calls[c].(stage := Missed);
      if ok && call.id in entry && now < entry[call.id].exp {
        call := call.(stage := Returned(entry[call.id].tag));
      }
      calls := calls[c := call];
    }

    method ReadGeneration(c: nat, ok: bool, started: nat)
      requires Enabled(View(), ReadGen(c, ok, started))
      modifies this`calls, this`inflight, this`flights
      ensures View() == ReadGenCall(old(View()), c, ok, started)
    {
      var call := calls[c];
      if !ok {
        calls := calls[c := call.(stage := Bypassing)];
        return;
      }
      var cur := if call.id in gen && now < gen[call.id].exp then gen[call.id].tok else 0;
      var slot := Slot(call.proc, call.id, cur);
      if slot in inflight {
        calls := calls[c := call.(stage := Waiting(inflight[slot]))];
      } else {
        calls := calls[c := call.(stage := Waiting(started))];
        flights := flights[started := Flight(slot, call.checkedAt, nextTok, db, Running(None))];
        inflight := inflight[slot := started];
      }
    }

    method FinishFlight(f: nat, cacheable: bool, applied: bool, ok: bool, random: real)
      requires Enabled(View(), Store(f, cacheable, applied, ok, random))
      modifies this`entry, this`inflight, this`flights
      ensures View() == StoreFlight(old(View()), f, cacheable, applied, ok, random)
    {
      var flight := flights[f];
      var status := Done(flight.status.read.value);
      if cacheable {
        if applied {
          var _ := EvalSetIfVersion(flight.slot, flight.status.read.value,
                                    CacheTtl.Jitter(CacheTtl.ENTITY_TTL, random));
        }
        if !ok {
          status := Failed;
        }
      }
      flights := flights[f := flight.(status := status)];
      inflight := inflight - {flight.slot};
    }

    method InvalidateGuarded(p: nat, id: string, applied: bool, ok: bool)
      requires Enabled(View(), Invalidate(p, id, applied, ok))
      modifies this`gen, this`entry, this`nextTok, this`queues
      ensures View() == InvalidateEntity(old(View()), p, id, applied, ok)
    {
      if applied {
        EvalInvalidate(id);
      }
      queues := queues[p := RQ.Guarded(queues[p], RQ.Entity(id), ok, now)];
    }

    method ReplayQueued(p: nat, applied: bool, ok: bool, connected: bool)
      requires Enabled(View(), FlushResume(p, applied, ok, connected))
      modifies this`gen, this`entry, this`nextTok, this`queues
      ensures View() == ResumeFlush(old(View()), p, applied, ok, connected)
    {
      var key := queues[p].flush.todo[0].key;
      if applied && key.Entity? {
        EvalInvalidate(key.id);
      }
      queues := queues[p := RQ.FlushResume(queues[p], ok, connected)];
    }
  }
}
