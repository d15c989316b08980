/** wrapScoped and bumpScope: list entries carry their scope's version token in the key, so a bump makes
    every older entry unreachable without deleting it. The version key itself expires after a day, and
    then reads as '0' again. */
module ListCache {
  import CacheTtl
  import W = WrapCache

  const VERSION_TTL_MS := CacheTtl.ENTITY_GEN * 1000

  datatype Key = Key(scope: string, tok: nat, hash: string)

  datatype Cell = Cell(tok: nat, exp: nat)

  datatype ListCall = ListCall(proc: nat, scope: string, hash: string)

  /** `lists` holds the calls that have not read their scope's version yet. Tokens are numbered in the
      order newToken yields them; 0 is the '0' that stands for a missing key. */
  datatype State = State(w: W.State<Key>, ver: map<string, Cell>, nextTok: nat, lists: map<nat, ListCall>)

  datatype Event =
    | Bump(scope: string, applied: bool)
    | BeginList(call: nat, proc: nat, scope: string, hash: string)
    | Skip(call: nat, started: nat)
    | ReadVersion(call: nat)
    | Inner(e: W.Event<Key>)

  /** Skip covers every reason to bypass the cache: it is off, a bump of the scope is queued for retry in
      this process, or the version could not be read. */
  ghost predicate Enabled(s: State, e: Event) {
    match e
    case Bump(_, _) => true
    case BeginList(c, _, _, _) => c !in s.lists && c !in s.w.calls
    case Skip(c, started) => c in s.lists && c !in s.w.calls && started !in s.w.runs
    case ReadVersion(c) => c in s.lists && c !in s.w.calls
    case Inner(inner) => !inner.Ask? && !inner.Bypass? && W.Enabled(s.w, inner)
  }

  function CurrentVersion(ver: map<string, Cell>, now: nat, scope: string): nat {
    if scope in ver && now < ver[scope].exp then ver[scope].tok else 0
  }

  function BumpKeys(ver: map<string, Cell>, nextTok: nat, now: nat, scope: string, applied: bool): (map<string, Cell>, nat) {
    if applied then (ver[scope := Cell(nextTok, now + VERSION_TTL_MS)], nextTok + 1) else (ver, nextTok)
  }

  function Version(s: State, scope: string): nat {
    CurrentVersion(s.ver, s.w.now, scope)
  }

  function BumpScope(s: State, scope: string, applied: bool): State {
    var (ver, nextTok) := BumpKeys(s.ver, s.nextTok, s.w.now, scope, applied);
    s.(ver := ver, nextTok := nextTok)
  }

  function Apply(s: State, e: Event): State
    requires Enabled(s, e)
  {
    match e
    case Bump(scope, applied) => BumpScope(s, scope, applied)
    case BeginList(c, p, scope, hash) => s.(lists := s.lists[c := ListCall(p, scope, hash)])
    case Skip(c, started) =>
      var call := s.lists[c];
      s.(w := W.Apply(s.w, W.Bypass(c, call.proc, Key(call.scope, 0, call.hash), started)), lists := s.lists - {c})
    case ReadVersion(c) =>
      var call := s.lists[c];
      s.(w := W.Apply(s.w, W.Ask(c, call.proc, Key(call.scope, Version(s, call.scope), call.hash))), lists := s.lists - {c})
    case Inner(inner) => s.(w := W.Apply(s.w, inner))
  }

  ghost predicate IsRun(tr: seq<State>, ev: seq<Event>) {
    && |tr| == |ev| + 1
    && W.Init(tr[0].w) && tr[0].ver == map[] && tr[0].nextTok > 0 && tr[0].lists == map[]
    && forall i :: 0 <= i < |ev| ==> Enabled(tr[i], ev[i]) && tr[i + 1] == Apply(tr[i], ev[i])
  }

  // ---------------------------------------------------------------- invariants

  /** Tokens in use have been issued. */
  ghost predicate Issued(s: State) {
    && 0 < s.nextTok
    && (forall r :: r in s.w.runs ==> s.w.runs[r].key.tok < s.nextTok)
    && (forall c :: c in s.w.calls ==> s.w.calls[c].key.tok < s.nextTok)
    && (forall scope :: scope in s.ver ==> s.ver[scope].tok < s.nextTok)
  }

  lemma RunsIssued(s: State, e: W.Event<Key>)
    requires Issued(s) && Enabled(s, Inner(e))
    ensures forall r :: r in W.Apply(s.w, e).runs ==> W.Apply(s.w, e).runs[r].key.tok < s.nextTok
  {
    match e
    case Get(c, ok, started) =>
    case Load(r, cacheable, random) =>
    case _ =>
  }

  lemma CallsIssued(s: State, e: W.Event<Key>)
    requires Issued(s) && Enabled(s, Inner(e))
    ensures forall c :: c in W.Apply(s.w, e).calls ==> W.Apply(s.w, e).calls[c].key.tok < s.nextTok
  {
    match e
    case Get(c, ok, started) =>
    case _ =>
  }

  lemma InnerIssued(s: State, e: W.Event<Key>)
    requires Issued(s) && Enabled(s, Inner(e))
    ensures Issued(Apply(s, Inner(e)))
  {
    RunsIssued(s, e);
    CallsIssued(s, e);
  }

  lemma BaseStep(s: State, e: Event)
    requires Issued(s) && W.Inv(s.w) && Enabled(s, e)
    ensures Issued(Apply(s, e)) && W.Inv(Apply(s, e).w)
    ensures Apply(s, e).w.bound == s.w.bound && Apply(s, e).w.ttl == s.w.ttl && Apply(s, e).w.now >= s.w.now
  {
    match e
    case Inner(inner) =>
      InnerIssued(s, inner);
      W.InvStep(s.w, inner);
      W.RunsStay(s.w, inner);
    case Skip(c, started) =>
      var call := s.lists[c];
      W.InvStep(s.w, W.Bypass(c, call.proc, Key(call.scope, 0, call.hash), started));
    case ReadVersion(c) =>
      var call := s.lists[c];
      W.InvStep(s.w, W.Ask(c, call.proc, Key(call.scope, Version(s, call.scope), call.hash)));
    case _ =>
  }

  lemma {:induction false} BaseRun(tr: seq<State>, ev: seq<Event>, m: nat)
    requires IsRun(tr, ev) && m < |tr|
    ensures Issued(tr[m]) && W.Inv(tr[m].w) && tr[m].w.bound == tr[0].w.bound && tr[m].w.ttl == tr[0].w.ttl
  {
    if m > 0 {
      BaseRun(tr, ev, m - 1);
      BaseStep(tr[m - 1], ev[m - 1]);
    }
  }

  /** After a bump at time `at` that issued `tok`: the runs that began `before` it stay
      under older versions, and the scope reads at least `tok` until a day has passed. */
  ghost predicate Bumped(s: State, scope: string, tok: nat, at: nat, before: set<nat>) {
    && (forall r :: r in before ==> r in s.w.runs && s.w.runs[r].begun <= at && s.w.runs[r].key.tok < tok)
    && scope in s.ver && s.ver[scope].tok >= tok && s.ver[scope].exp >= at + VERSION_TTL_MS
    && 0 < tok < s.nextTok
  }

  lemma BumpedStep(s: State, e: Event, scope: string, tok: nat, at: nat, before: set<nat>)
    requires W.Inv(s.w) && Enabled(s, e) && Bumped(s, scope, tok, at, before) && at <= s.w.now
    ensures Bumped(Apply(s, e), scope, tok, at, before)
  {
    match e
    case Inner(inner) =>
      W.RunsStay(s.w, inner);
      forall r | r in before
        ensures r in Apply(s, e).w.runs && Apply(s, e).w.runs[r].begun <= at && Apply(s, e).w.runs[r].key.tok < tok
      {
        assert r in Apply(s, e).w.runs;
        W.RunsStep(s.w, inner, r);
      }
    case _ =>
  }

  /** A call that reads the list after the bump: the key it asks for is out of reach of the older runs. */
  ghost predicate Unreachable(s: State, key: Key, tok: nat, at: nat) {
    key.tok >= tok || (key.tok == 0 && s.w.now >= at + VERSION_TTL_MS)
  }

  ghost predicate CallSafe(s: State, c: nat, scope: string, tok: nat, at: nat, before: set<nat>) {
    || (c in s.lists && c !in s.w.calls && s.lists[c].scope == scope)
    || (c !in s.lists && c in s.w.calls &&
        match s.w.calls[c].stage
        case Asking => Unreachable(s, s.w.calls[c].key, tok, at)
        case Waiting(r) => r !in before
        case Returned(r, _) => r !in before
        case Failed => true)
  }

  /** No entry and no running factory under an unreachable key comes from an older run: either its version
      is newer, or it is '0' again and everything older has expired. */
  lemma OldRunsAreGone(s: State, key: Key, tok: nat, at: nat, before: set<nat>)
    requires W.Inv(s.w) && Unreachable(s, key, tok, at)
    requires forall r :: r in before ==> r in s.w.runs && s.w.runs[r].begun <= at && s.w.runs[r].key.tok < tok
    requires s.w.bound + W.LifeMs(s.w.ttl) <= VERSION_TTL_MS
    ensures key in s.w.entries && s.w.now < s.w.entries[key].hard ==> s.w.entries[key].run !in before
    ensures forall p: nat :: (p, key) in s.w.inflight ==> s.w.inflight[(p, key)] !in before
  {
    assert W.LifeMs(s.w.ttl) > 0;
    if key in s.w.entries {
      assert W.EntryOk(s.w, key);
    }
    forall p: nat | (p, key) in s.w.inflight
      ensures s.w.inflight[(p, key)] !in before
    {
      assert W.SlotOfRun(s.w, (p, key));
      assert W.RunOk(s.w, s.w.inflight[(p, key)]);
    }
  }

  lemma GetSafe(s: State, c: nat, ok: bool, started: nat, scope: string, tok: nat, at: nat, before: set<nat>)
    requires W.Inv(s.w) && Enabled(s, Inner(W.Get(c, ok, started))) && Bumped(s, scope, tok, at, before)
    requires CallSafe(s, c, scope, tok, at, before) && s.w.bound + W.LifeMs(s.w.ttl) <= VERSION_TTL_MS
    ensures CallSafe(Apply(s, Inner(W.Get(c, ok, started))), c, scope, tok, at, before)
  {
    OldRunsAreGone(s, s.w.calls[c].key, tok, at, before);
    assert started !in before;
  }

  lemma InnerSafe(s: State, e: W.Event<Key>, c: nat, scope: string, tok: nat, at: nat, before: set<nat>)
    requires W.Inv(s.w) && Enabled(s, Inner(e)) && Bumped(s, scope, tok, at, before) && !(e.Get? && e.call == c)
    requires CallSafe(s, c, scope, tok, at, before)
    ensures CallSafe(Apply(s, Inner(e)), c, scope, tok, at, before)
  {
    W.CallStep(s.w, e, c);
    W.RunsStay(s.w, e);
  }

  lemma CallSafeStep(s: State, e: Event, c: nat, scope: string, tok: nat, at: nat, before: set<nat>)
    requires W.Inv(s.w) && Enabled(s, e) && Bumped(s, scope, tok, at, before) && CallSafe(s, c, scope, tok, at, before)
    requires s.w.bound + W.LifeMs(s.w.ttl) <= VERSION_TTL_MS
    ensures CallSafe(Apply(s, e), c, scope, tok, at, before)
  {
    match e
    case Inner(inner) =>
      if inner.Get? && inner.call == c {
        GetSafe(s, c, inner.ok, inner.started, scope, tok, at, before);
      } else {
        InnerSafe(s, inner, c, scope, tok, at, before);
      }
    case Skip(b, started) =>
    case ReadVersion(b) =>
    case _ =>
  }

  lemma {:induction false} BumpedRun(tr: seq<State>, ev: seq<Event>, i: nat, m: nat, scope: string)
    requires IsRun(tr, ev) && i < |ev| && ev[i] == Bump(scope, true) && i < m < |tr|
    ensures Bumped(tr[m], scope, tr[i].nextTok, tr[i].w.now, tr[i].w.runs.Keys) && tr[i].w.now <= tr[m].w.now
  {
    BaseRun(tr, ev, m - 1);
    BaseStep(tr[m - 1], ev[m - 1]);
    if m == i + 1 {
      assert forall r :: r in tr[i].w.runs ==> W.RunOk(tr[i].w, r);
    } else {
      BumpedRun(tr, ev, i, m - 1, scope);
      BumpedStep(tr[m - 1], ev[m - 1], scope, tr[i].nextTok, tr[i].w.now, tr[i].w.runs.Keys);
    }
  }

  lemma {:induction false} CallSafeRun(tr: seq<State>, ev: seq<Event>, i: nat, j: nat, k: nat, scope: string)
    requires IsRun(tr, ev) && tr[0].w.bound + W.LifeMs(tr[0].w.ttl) <= VERSION_TTL_MS
    requires i < j < |ev| && j < k < |tr| && ev[i] == Bump(scope, true)
    requires ev[j].BeginList? && ev[j].scope == scope
    ensures CallSafe(tr[k], ev[j].call, scope, tr[i].nextTok, tr[i].w.now, tr[i].w.runs.Keys)
  {
    if k > j + 1 {
      CallSafeRun(tr, ev, i, j, k - 1, scope);
      BaseRun(tr, ev, k - 1);
      BumpedRun(tr, ev, i, k - 1, scope);
      CallSafeStep(tr[k - 1], ev[k - 1], ev[j].call, scope, tr[i].nextTok, tr[i].w.now, tr[i].w.runs.Keys);
    }
  }

  /** Main result. A wrapScoped call that starts after a successful bumpScope returns the result of a
      factory run that began after the bump, in every interleaving and in every process; the version key's
      expiry back to '0' revives nothing as long as a run plus the longest entry life fits within a day. */
  lemma ListIsFreshAfterBump(tr: seq<State>, ev: seq<Event>, i: nat, j: nat, k: nat, scope: string, r: nat, at: nat)
    requires IsRun(tr, ev) && tr[0].w.bound + W.LifeMs(tr[0].w.ttl) <= VERSION_TTL_MS
    requires i < j < |ev| && j < k < |tr|
    requires ev[i] == Bump(scope, true)
    requires ev[j].BeginList? && ev[j].scope == scope
    requires ev[j].call in tr[k].w.calls && tr[k].w.calls[ev[j].call].stage == W.Returned(r, at)
    ensures r in tr[k].w.runs && r !in tr[i].w.runs
  {
    CallSafeRun(tr, ev, i, j, k, scope);
    BaseRun(tr, ev, k);
    W.ReturnedIsRecent(tr[k].w, ev[j].call, r, at);
  }

  // ---------------------------------------------------------------- lists are shared, and their own

  /** The call asks for this list. */
  predicate AsksFor(s: State, c: nat, scope: string, hash: string) {
    || (c in s.lists && c !in s.w.calls && s.lists[c].scope == scope && s.lists[c].hash == hash)
    || (c !in s.lists && c in s.w.calls && s.w.calls[c].key.scope == scope && s.w.calls[c].key.hash == hash)
  }

  lemma InnerKeepsKey(s: W.State<Key>, e: W.Event<Key>, c: nat)
    requires W.Enabled(s, e) && !e.Ask? && !e.Bypass?
    ensures c in W.Apply(s, e).calls <==> c in s.calls
    ensures c in s.calls ==> W.Apply(s, e).calls[c].key == s.calls[c].key
  {
    if e.Get? && e.call == c {
    } else {
      W.CallStep(s, e, c);
    }
  }

  lemma AsksForStep(s: State, e: Event, c: nat, scope: string, hash: string)
    requires Enabled(s, e) && AsksFor(s, c, scope, hash)
    ensures AsksFor(Apply(s, e), c, scope, hash)
  {
    match e
    case Inner(inner) => InnerKeepsKey(s.w, inner, c);
    case _ =>
  }

  lemma {:induction false} AsksForRun(tr: seq<State>, ev: seq<Event>, j: nat, m: nat, scope: string, hash: string)
    requires IsRun(tr, ev) && j < |ev| && j < m < |tr|
    requires ev[j].BeginList? && ev[j].scope == scope && ev[j].hash == hash
    ensures AsksFor(tr[m], ev[j].call, scope, hash)
  {
    if m > j + 1 {
      AsksForRun(tr, ev, j, m - 1, scope, hash);
      AsksForStep(tr[m - 1], ev[m - 1], ev[j].call, scope, hash);
    }
  }

  /** A call is only ever given its own list: a run of the factory for its scope and its query. */
  lemma ListIsItsOwn(tr: seq<State>, ev: seq<Event>, j: nat, k: nat, r: nat, at: nat)
    requires IsRun(tr, ev) && j < |ev| && j < k < |tr| && ev[j].BeginList?
    requires ev[j].call in tr[k].w.calls && tr[k].w.calls[ev[j].call].stage == W.Returned(r, at)
    ensures r in tr[k].w.runs && tr[k].w.runs[r].key.scope == ev[j].scope && tr[k].w.runs[r].key.hash == ev[j].hash
  {
    AsksForRun(tr, ev, j, k, ev[j].scope, ev[j].hash);
    BaseRun(tr, ev, k);
    W.ReturnedIsRecent(tr[k].w, ev[j].call, r, at);
  }

  predicate SameVersion(s: State, scope: string, cell: Cell) {
    scope in s.ver && s.ver[scope] == cell
  }

  lemma {:induction false} VersionStays(tr: seq<State>, ev: seq<Event>, i: nat, m: nat, scope: string, cell: Cell)
    requires IsRun(tr, ev) && i <= m < |tr| && SameVersion(tr[i], scope, cell)
    requires forall k :: i <= k < m ==> ev[k] != Bump(scope, true)
    ensures SameVersion(tr[m], scope, cell)
  {
    if i < m {
      VersionStays(tr, ev, i, m - 1, scope, cell);
    }
  }

  /** A list stays shared until its scope is bumped: for a day after a bump, all calls for one scope and query ask
      under the same key, whatever was bumped elsewhere. */
  lemma SameListSameKey(tr: seq<State>, ev: seq<Event>, i: nat, j: nat, m: nat, scope: string)
    requires IsRun(tr, ev) && i < j <= m < |ev| && ev[i] == Bump(scope, true)
    requires forall k :: i < k < m ==> ev[k] != Bump(scope, true)
    requires ev[j].ReadVersion? && tr[j].lists[ev[j].call].scope == scope
    requires ev[m].ReadVersion? && tr[m].lists[ev[m].call].scope == scope
    requires tr[j].lists[ev[j].call].hash == tr[m].lists[ev[m].call].hash
    requires tr[j].w.now <= tr[m].w.now < tr[i].w.now + VERSION_TTL_MS
    ensures tr[j + 1].w.calls[ev[j].call].key == tr[m + 1].w.calls[ev[m].call].key
    ensures tr[m + 1].w.calls[ev[m].call].key == Key(scope, tr[i].nextTok, tr[m].lists[ev[m].call].hash)
  {
    var cell := Cell(tr[i].nextTok, tr[i].w.now + VERSION_TTL_MS);
    VersionStays(tr, ev, i + 1, j, scope, cell);
    VersionStays(tr, ev, i + 1, m, scope, cell);
  }

  /** Nothing but an eviction or a store under its own key disturbs a stored list; a bump of any scope does not. */
  lemma StoredListStays(s: State, e: Event, key: Key, entry: W.Entry)
    requires Enabled(s, e) && W.HasEntry(s.w, key, entry)
    requires !(e.Inner? && W.Disturbs(s.w, e.e, key))
    ensures W.HasEntry(Apply(s, e).w, key, entry)
  {
    match e
    case Inner(inner) => W.EntryStays(s.w, inner, key, entry);
    case _ =>
  }

  /** Main result on hits. A stored list is served to every call that asks under its key in time. */
  lemma {:induction false} StoredListIsServed(tr: seq<State>, ev: seq<Event>, i: nat, m: nat, key: Key, entry: W.Entry)
    requires IsRun(tr, ev) && i <= m < |tr| && W.HasEntry(tr[i].w, key, entry)
    requires forall k :: i <= k < m ==> !(ev[k].Inner? && W.Disturbs(tr[k].w, ev[k].e, key))
    ensures W.HasEntry(tr[m].w, key, entry)
    ensures m < |ev| && ev[m].Inner? && ev[m].e.Get? && ev[m].e.ok && tr[m].w.now < entry.hard
            && tr[m].w.calls[ev[m].e.call].key == key ==>
              tr[m + 1].w.calls[ev[m].e.call].stage == W.Returned(entry.run, tr[m].w.now)
  {
    if i < m {
      StoredListIsServed(tr, ev, i, m - 1, key, entry);
      StoredListStays(tr[m - 1], ev[m - 1], key, entry);
    }
  }

  // ---------------------------------------------------------------- the version keys, updated in place

  class Scopes {
    var now: nat
    var ver: map<string, Cell>
    var nextTok: nat

    /** Every token in use was drawn before the next one; 0 stays for the missing key. */
    ghost predicate Valid()
      reads this
    {
      0 < nextTok && forall scope :: scope in ver ==> 0 < ver[scope].tok < nextTok
    }

    constructor ()
      ensures ver == map[] && nextTok == 1 && now == 0 && Valid()
    {
      now, ver, nextTok := 0, map[], 1;
    }

    /** INVALIDATE on a scope's version key, when it reaches Redis. The token is above every one drawn before,
        those of keys that have expired included, since `nextTok` only grows. */
    method EvalBump(scope: string, applied: bool)
      requires Valid()
      modifies this`ver, this`nextTok
      ensures Valid() && (ver, nextTok) == BumpKeys(old(ver), old(nextTok), now, scope, applied)
      ensures applied ==> scope in ver && old(nextTok) <= ver[scope].tok < nextTok
      ensures applied ==> forall other :: other in old(ver) ==> old(ver)[other].tok < ver[scope].tok
    {
      if applied {
        ver := ver[scope := Cell(nextTok, now + VERSION_TTL_MS)];
        nextTok := nextTok + 1;
      }
    }

    method GetVersion(scope: string) returns (tok: nat)
      ensures tok == CurrentVersion(ver, now, scope)
    {
      if scope in ver && now < ver[scope].exp {
        return ver[scope].tok;
      }
      return 0;
    }
  }
}
