/** JwtStrategy.validate: the session check of every request goes through wrapSessionAuth, a wrap()
    with a 30 second ttl, so a revocation takes effect late. This module bounds how late, without
    relying on any purge reaching Redis. */
module SessionAuth {
  import CacheTtl
  import W = WrapCache

  const STALENESS_MS := 63_000

  datatype Key = Key(user: string, sid: string)

  /** `live` becomes false when the row is revoked or deleted; session ids are never reused. */
  datatype Row = Row(user: string, live: bool, expiresAt: nat)

  /** loadSessionAuth between its two queries, and its result. */
  datatype Answer = SessionFound | Alive(alive: bool)

  datatype State = State(w: W.State<Key>, rows: map<string, Row>, active: set<string>, answers: map<nat, Answer>)

  datatype Event =
    | SignIn(sid: string, user: string, expiresAt: nat)
    | Revoke(sid: string)
    | SetActive(user: string, on: bool)
    | LookupSession(run: nat)
    | LookupUser(run: nat)
    | Inner(e: W.Event<Key>)

  /** The query of loadSessionAuth finds the row: same user, not revoked, not expired. */
  predicate SessionGood(s: State, key: Key) {
    key.sid in s.rows &&
    var row := s.rows[key.sid];
    row.user == key.user && row.live && row.expiresAt > s.w.now
  }

  ghost predicate Enabled(s: State, e: Event) {
    match e
    case SignIn(sid, _, _) => sid !in s.rows
    case Revoke(sid) => sid in s.rows
    case SetActive(_, _) => true
    case LookupSession(r) => r in s.w.runs && s.w.runs[r].phase.Loading? && r !in s.answers
    case LookupUser(r) => r in s.w.runs && s.w.runs[r].phase.Loading? && r in s.answers && s.answers[r].SessionFound?
    case Inner(inner) =>
      W.Enabled(s.w, inner) &&
      (inner.Load? ==> inner.cacheable && inner.run in s.answers && s.answers[inner.run].Alive?)
  }

  function Apply(s: State, e: Event): State
    requires Enabled(s, e)
  {
    match e
    case SignIn(sid, user, expiresAt) => s.(rows := s.rows[sid := Row(user, true, expiresAt)])
    case Revoke(sid) => s.(rows := s.rows[sid := s.rows[sid].(live := false)])
    case SetActive(user, on) => s.(active := if on then s.active + {user} else s.active - {user})
    case LookupSession(r) =>
      s.(answers := s.answers[r := if SessionGood(s, s.w.runs[r].key) then SessionFound else Alive(false)])
    case LookupUser(r) => s.(answers := s.answers[r := Alive(s.w.runs[r].key.user in s.active)])
    case Inner(inner) => s.(w := W.Apply(s.w, inner))
  }

  ghost predicate IsRun(tr: seq<State>, ev: seq<Event>) {
    && |tr| == |ev| + 1
    && W.Init(tr[0].w) && tr[0].w.ttl == CacheTtl.SESSION_AUTH && tr[0].answers == map[]
    && forall i :: 0 <= i < |ev| ==> Enabled(tr[i], ev[i]) && tr[i + 1] == Apply(tr[i], ev[i])
  }

  /** validate for `key` has resolved without throwing, at time `at`, on the result of factory run `r`. */
  ghost predicate Accepts(s: State, c: nat, key: Key, r: nat, at: nat) {
    && c in s.w.calls && s.w.calls[c].key == key && s.w.calls[c].stage == W.Returned(r, at)
    && r in s.answers && s.answers[r] == Alive(true)
  }

  lemma Step(s: State, e: Event)
    requires W.Inv(s.w) && Enabled(s, e)
    ensures W.Inv(Apply(s, e).w)
    ensures Apply(s, e).w.ttl == s.w.ttl && Apply(s, e).w.bound == s.w.bound && Apply(s, e).w.now >= s.w.now
    ensures forall sid :: sid in s.rows ==> sid in Apply(s, e).rows
    ensures forall sid :: sid in s.rows ==> Apply(s, e).rows[sid].expiresAt == s.rows[sid].expiresAt
    ensures forall sid :: sid in s.rows && Apply(s, e).rows[sid].live ==> s.rows[sid].live
  {
    if e.Inner? {
      W.InvStep(s.w, e.e);
      W.RunsStay(s.w, e.e);
    }
  }

  lemma {:induction false} BaseRun(tr: seq<State>, ev: seq<Event>, m: nat)
    requires IsRun(tr, ev) && m < |tr|
    ensures W.Inv(tr[m].w) && tr[m].w.ttl == tr[0].w.ttl && tr[m].w.bound == tr[0].w.bound
  {
    if m > 0 {
      BaseRun(tr, ev, m - 1);
      Step(tr[m - 1], ev[m - 1]);
    }
  }

  /** A row keeps its user and expiry, and a revoked row stays revoked. */
  lemma {:induction false} RowsRun(tr: seq<State>, ev: seq<Event>, i: nat, m: nat, sid: string)
    requires IsRun(tr, ev) && i <= m < |tr| && sid in tr[i].rows
    ensures sid in tr[m].rows && tr[m].rows[sid].expiresAt == tr[i].rows[sid].expiresAt
    ensures tr[m].rows[sid].live ==> tr[i].rows[sid].live
    ensures tr[i].w.now <= tr[m].w.now
  {
    if i < m {
      RowsRun(tr, ev, i, m - 1, sid);
      BaseRun(tr, ev, m - 1);
      Step(tr[m - 1], ev[m - 1]);
    }
  }

  ghost predicate RunKeptAt(tr: seq<State>, k: nat, r: nat) {
    k + 1 < |tr| && r in tr[k].w.runs ==>
      && r in tr[k + 1].w.runs
      && tr[k + 1].w.runs[r].begun == tr[k].w.runs[r].begun && tr[k + 1].w.runs[r].key == tr[k].w.runs[r].key
  }

  lemma {:induction false} RunKeptChain(tr: seq<State>, i: nat, m: nat, r: nat)
    requires i <= m < |tr| && r in tr[i].w.runs && forall k: nat :: RunKeptAt(tr, k, r)
    ensures r in tr[m].w.runs && tr[m].w.runs[r].begun == tr[i].w.runs[r].begun && tr[m].w.runs[r].key == tr[i].w.runs[r].key
  {
    if i < m {
      RunKeptChain(tr, i, m - 1, r);
      assert RunKeptAt(tr, m - 1, r);
    }
  }

  lemma RunKept(tr: seq<State>, ev: seq<Event>, i: nat, m: nat, r: nat)
    requires IsRun(tr, ev) && i <= m < |tr| && r in tr[i].w.runs
    ensures r in tr[m].w.runs && tr[m].w.runs[r].begun == tr[i].w.runs[r].begun && tr[m].w.runs[r].key == tr[i].w.runs[r].key
  {
    forall k: nat ensures RunKeptAt(tr, k, r) {
      if k + 1 < |tr| && r in tr[k].w.runs {
        RunKeptStep(tr[k], ev[k], r);
      }
    }
    RunKeptChain(tr, i, m, r);
  }

  lemma RunKeptStep(s: State, e: Event, r: nat)
    requires Enabled(s, e) && r in s.w.runs
    ensures r in Apply(s, e).w.runs
    ensures Apply(s, e).w.runs[r].begun == s.w.runs[r].begun && Apply(s, e).w.runs[r].key == s.w.runs[r].key
  {
    if e.Inner? {
      W.RunsStay(s.w, e.e);
      W.RunsStep(s.w, e.e, r);
    }
  }

  /** Where an answer came from. */
  lemma {:induction false} AnswerOrigin(tr: seq<State>, ev: seq<Event>, k: nat, r: nat) returns (m: nat)
    requires IsRun(tr, ev) && k < |tr| && r in tr[k].answers && tr[k].answers[r] != Alive(false)
    ensures m < k && ev[m] == LookupSession(r) && r in tr[m].w.runs && SessionGood(tr[m], tr[m].w.runs[r].key)
  {
    if ev[k - 1] == LookupSession(r) {
      m := k - 1;
    } else {
      m := AnswerOrigin(tr, ev, k - 1, r);
    }
  }

  lemma {:induction false} UserOrigin(tr: seq<State>, ev: seq<Event>, k: nat, r: nat) returns (n: nat)
    requires IsRun(tr, ev) && k < |tr| && r in tr[k].answers && tr[k].answers[r] == Alive(true)
    ensures n < k && ev[n] == LookupUser(r) && r in tr[n].w.runs && tr[n].w.runs[r].key.user in tr[n].active
  {
    if ev[k - 1] == LookupUser(r) {
      n := k - 1;
    } else {
      n := UserOrigin(tr, ev, k - 1, r);
    }
  }

  /** Main result. If validate accepts at time `at`, then a loadSessionAuth run for this very session that
      began less than `bound` plus 63 seconds before found the session unrevoked and unexpired, and then
      found its user active. Purges play no part: they are only ever extra deletions. */
  lemma AcceptsOnRecentEvidence(tr: seq<State>, ev: seq<Event>, k: nat, c: nat, key: Key, r: nat, at: nat)
    returns (m: nat, n: nat)
    requires IsRun(tr, ev) && k < |tr| && Accepts(tr[k], c, key, r, at)
    ensures m < k && ev[m] == LookupSession(r) && SessionGood(tr[m], key)
    ensures n < k && ev[n] == LookupUser(r) && key.user in tr[n].active
    ensures r in tr[k].w.runs && at < tr[k].w.runs[r].begun + tr[0].w.bound + STALENESS_MS
    ensures tr[k].w.runs[r].begun <= tr[m].w.now
  {
    m := AnswerOrigin(tr, ev, k, r);
    n := UserOrigin(tr, ev, k, r);
    BaseRun(tr, ev, k);
    W.ReturnedIsRecent(tr[k].w, c, r, at);
    CacheTtl.JitterAtMost(CacheTtl.SESSION_AUTH, 0.0);
    RunKept(tr, ev, m, k, r);
    RunKept(tr, ev, n, k, r);
    BaseRun(tr, ev, m);
    assert W.RunOk(tr[m].w, r);
  }

  /** Revocation takes effect: no request is accepted on a revoked or deleted session once `bound` plus 63
      seconds have passed since, even if every purge of the cache failed. */
  lemma RevocationTakesEffect(tr: seq<State>, ev: seq<Event>, i: nat, k: nat, c: nat, key: Key, r: nat, at: nat)
    requires IsRun(tr, ev) && i < |ev| && ev[i] == Revoke(key.sid)
    requires k < |tr| && Accepts(tr[k], c, key, r, at)
    ensures at < tr[i].w.now + tr[0].w.bound + STALENESS_MS
  {
    var m, _ := AcceptsOnRecentEvidence(tr, ev, k, c, key, r, at);
    if i + 1 <= m {
      RowsRun(tr, ev, i + 1, m, key.sid);
    } else {
      NowRun(tr, ev, m, i);
    }
  }

  lemma {:induction false} NowRun(tr: seq<State>, ev: seq<Event>, i: nat, m: nat)
    requires IsRun(tr, ev) && i <= m < |tr|
    ensures tr[i].w.now <= tr[m].w.now
  {
    if i < m {
      NowRun(tr, ev, i, m - 1);
      BaseRun(tr, ev, m - 1);
      Step(tr[m - 1], ev[m - 1]);
    }
  }

  /** Expiry takes effect within the same delay. */
  lemma ExpiryTakesEffect(tr: seq<State>, ev: seq<Event>, k: nat, c: nat, key: Key, r: nat, at: nat)
    requires IsRun(tr, ev) && k < |tr| && Accepts(tr[k], c, key, r, at)
    ensures key.sid in tr[k].rows && at < tr[k].rows[key.sid].expiresAt + tr[0].w.bound + STALENESS_MS
  {
    var m, _ := AcceptsOnRecentEvidence(tr, ev, k, c, key, r, at);
    RowsRun(tr, ev, m, k, key.sid);
  }

  // ---------------------------------------------------------------- a request by itself

  /** The session is looked up, and then, if it is good, the user. */
  function AfterLookups(s: State, c: nat, r: nat): State
    requires Enabled(s, Inner(W.Get(c, true, r))) && r !in s.answers
    requires !(s.w.calls[c].key in s.w.entries && s.w.now < s.w.entries[s.w.calls[c].key].hard)
    requires (s.w.calls[c].proc, s.w.calls[c].key) !in s.w.inflight
  {
    W.MissStarts(s.w, c, r);
    var s2 := Apply(Apply(s, Inner(W.Get(c, true, r))), LookupSession(r));
    if s2.answers[r].SessionFound? then Apply(s2, LookupUser(r)) else s2
  }

  lemma LookupsDecide(s: State, c: nat, r: nat)
    requires Enabled(s, Inner(W.Get(c, true, r))) && r !in s.answers
    requires !(s.w.calls[c].key in s.w.entries && s.w.now < s.w.entries[s.w.calls[c].key].hard)
    requires (s.w.calls[c].proc, s.w.calls[c].key) !in s.w.inflight
    ensures var t, key := AfterLookups(s, c, r), s.w.calls[c].key;
      && t.w == W.Apply(s.w, W.Get(c, true, r)) && r in t.answers
      && t.answers[r] == Alive(key.sid in s.rows && s.rows[key.sid].user == key.user && s.rows[key.sid].live
                               && s.rows[key.sid].expiresAt > s.w.now && key.user in s.active)
  {
    W.MissStarts(s.w, c, r);
  }

  lemma InnerStep(s: State, e: W.Event<Key>)
    requires Enabled(s, Inner(e))
    ensures Apply(s, Inner(e)).answers == s.answers && Apply(s, Inner(e)).w == W.Apply(s.w, e)
  {
  }

  /** A request whose session check is not cached and that nothing interrupts is accepted exactly if its session
      belongs to its user, is not revoked and not expired, and the user is active. */
  lemma ValidateAlone(s: State, c: nat, r: nat, random: real)
    requires Enabled(s, Inner(W.Get(c, true, r))) && r !in s.answers && 0.0 <= random < 1.0
    requires !(s.w.calls[c].key in s.w.entries && s.w.now < s.w.entries[s.w.calls[c].key].hard)
    requires (s.w.calls[c].proc, s.w.calls[c].key) !in s.w.inflight
    ensures var t := AfterLookups(s, c, r);
      && Enabled(t, Inner(W.Load(r, true, random))) && Enabled(Apply(t, Inner(W.Load(r, true, random))), Inner(W.Store(r, true)))
      && var u := Apply(Apply(t, Inner(W.Load(r, true, random))), Inner(W.Store(r, true)));
         && Enabled(u, Inner(W.Return(c)))
         && var key := s.w.calls[c].key;
            Accepts(Apply(u, Inner(W.Return(c))), c, key, r, s.w.now)
            <==> && key.sid in s.rows && s.rows[key.sid].user == key.user && s.rows[key.sid].live
                 && s.rows[key.sid].expiresAt > s.w.now && key.user in s.active
  {
    LookupsDecide(s, c, r);
    W.MissRunsFactory(s.w, c, r, random);
    var t := AfterLookups(s, c, r);
    InnerStep(t, W.Load(r, true, random));
    var t1 := Apply(t, Inner(W.Load(r, true, random)));
    InnerStep(t1, W.Store(r, true));
    InnerStep(Apply(t1, Inner(W.Store(r, true))), W.Return(c));
  }
}
