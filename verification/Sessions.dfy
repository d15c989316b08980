/** Refresh-token rotation: refresh, logoutAll and the session half of resetPassword, with requests
    interleaved between every two statements.

    A refresh token is identified with the session row it was issued for. Each statement and each
    transaction is one atomic step. */
module Sessions {
  import opened Options

  datatype Row = Row(user: nat, revoked: bool, expiresAt: nat)

  /** History of a row: the login it descends from, and the row it was rotated from. */
  datatype Birth = Birth(user: nat, login: nat, parent: Option<nat>, depth: nat)

  datatype Stage =
    | Wiping(user: nat)
    | LoadingUser(sid: nat)
    | Rotating(sid: nat)
    | Issued(sid: nat)
    | Denied

  /** `births` and `rotated` are history variables: rows ever created, and rows whose token was exchanged. */
  datatype State = State(
    now: nat, rows: map<nat, Row>, requests: map<nat, Stage>,
    births: map<nat, Birth>, rotated: set<nat>)

  datatype Event =
    | Tick(dt: nat)
    | Login(user: nat, sid: nat, expiresAt: nat)
    | Lookup(request: nat, sid: nat)
    | Wipe(request: nat)
    | LoadUser(request: nat, active: bool)
    | Rotate(request: nat, child: nat, expiresAt: nat)
    | DeleteAll(user: nat)
    | DeleteOne(sid: nat)

  predicate Live(rows: map<nat, Row>, sid: nat) {
    sid in rows && !rows[sid].revoked
  }

  /** `updateMany` over a user's un-revoked rows. */
  function RevokeUser(rows: map<nat, Row>, user: nat): (out: map<nat, Row>)
    ensures out.Keys == rows.Keys
  {
    map sid | sid in rows :: if rows[sid].user == user then rows[sid].(revoked := true) else rows[sid]
  }

  /** `deleteMany` over a user's rows. */
  function DeleteUser(rows: map<nat, Row>, user: nat): map<nat, Row> {
    map sid | sid in rows && rows[sid].user != user :: rows[sid]
  }

  predicate Enabled(s: State, e: Event) {
    match e
    case Tick(_) => true
    case Login(_, sid, _) => sid !in s.births
    case Lookup(q, _) => q !in s.requests
    case Wipe(q) => q in s.requests && s.requests[q].Wiping?
    case LoadUser(q, _) => q in s.requests && s.requests[q].LoadingUser?
    case Rotate(q, child, _) => q in s.requests && s.requests[q].Rotating? && child !in s.births
    case DeleteAll(_) => true
    case DeleteOne(_) => true
  }

  function LoginRow(s: State, user: nat, sid: nat, expiresAt: nat): State {
    s.(rows := s.rows[sid := Row(user, false, expiresAt)],
       births := s.births[sid := Birth(user, sid, None, 0)])
  }

  function LookupToken(s: State, q: nat, sid: nat): State {
    s.(requests := s.requests[q :=
         if sid !in s.rows then Denied
         else if s.rows[sid].revoked then Wiping(s.rows[sid].user)
         else if s.rows[sid].expiresAt < s.now then Denied
         else LoadingUser(sid)])
  }

  function WipeSessions(s: State, q: nat): State
    requires q in s.requests && s.requests[q].Wiping?
  {
    s.(rows := RevokeUser(s.rows, s.requests[q].user), requests := s.requests[q := Denied])
  }

  function LoadActive(s: State, q: nat, active: bool): State
    requires q in s.requests && s.requests[q].LoadingUser?
  {
    s.(requests := s.requests[q := if active then Rotating(s.requests[q].sid) else Denied])
  }

  /** The rotation transaction: claim the old row while it is un-revoked, then create its successor. */
  function RotateSession(s: State, q: nat, child: nat, expiresAt: nat): State
    requires q in s.requests && s.requests[q].Rotating?
  {
    var sid := s.requests[q].sid;
    if !Live(s.rows, sid) then s.(requests := s.requests[q := Denied])
    else
      var row := s.rows[sid];
      var birth := if sid in s.births then s.births[sid] else Birth(row.user, sid, None, 0);
      s.(rows := s.rows[sid := row.(revoked := true)][child := Row(row.user, false, expiresAt)],
         requests := s.requests[q := Issued(child)],
         births := s.births[child := Birth(row.user, birth.login, Some(sid), birth.depth + 1)],
         rotated := s.rotated + {sid})
  }

  function Apply(s: State, e: Event): State
    requires Enabled(s, e)
  {
    match e
    case Tick(dt) => s.(now := s.now + dt)
    case Login(user, sid, expiresAt) => LoginRow(s, user, sid, expiresAt)
    case Lookup(q, sid) => LookupToken(s, q, sid)
    case Wipe(q) => WipeSessions(s, q)
    case LoadUser(q, active) => LoadActive(s, q, active)
    case Rotate(q, child, expiresAt) => RotateSession(s, q, child, expiresAt)
    case DeleteAll(user) => s.(rows := DeleteUser(s.rows, user))
    case DeleteOne(sid) => s.(rows := s.rows - {sid})
  }

  ghost predicate IsRun(tr: seq<State>, ev: seq<Event>) {
    && |tr| == |ev| + 1
    && tr[0] == State(tr[0].now, map[], map[], map[], {})
    && forall i :: 0 <= i < |ev| ==> Enabled(tr[i], ev[i]) && tr[i + 1] == Apply(tr[i], ev[i])
  }

  // ---------------------------------------------------------------- invariant

  ghost predicate RowOk(s: State, a: nat) {
    && (a in s.rows ==> a in s.births && s.births[a].user == s.rows[a].user)
    && (Live(s.rows, a) ==> a !in s.rotated)
    && (a in s.rotated ==> a in s.births)
  }

  ghost predicate BirthOk(s: State, a: nat) {
    a in s.births ==>
      && s.births[a].login in s.births
      && (s.births[a].parent.Some? ==>
            var p := s.births[a].parent.value;
            && p in s.rotated && p in s.births
            && s.births[p].login == s.births[a].login && s.births[a].depth == s.births[p].depth + 1)
  }

  ghost predicate PathOk(s: State, a: nat, b: nat) {
    a in s.births && b in s.births && s.births[a].login == s.births[b].login ==>
      && (s.births[a].depth == s.births[b].depth ==> a == b)
      && (s.births[a].depth < s.births[b].depth ==> a in s.rotated)
  }

  /** The rows descending from one login form a path: depths are distinct, every row above the deepest one
      has been exchanged, and an exchanged row is never un-revoked. */
  ghost predicate Inv(s: State) {
    && (forall a :: RowOk(s, a))
    && (forall a :: BirthOk(s, a))
    && (forall a, b :: PathOk(s, a, b))
  }

  lemma InvRows(s: State, rows: map<nat, Row>)
    requires Inv(s)
    requires forall a :: a in rows ==> a in s.rows && rows[a].user == s.rows[a].user && (!rows[a].revoked ==> !s.rows[a].revoked)
    ensures Inv(s.(rows := rows))
  {
    var t := s.(rows := rows);
    forall a ensures RowOk(t, a) && BirthOk(t, a) {
      assert RowOk(s, a) && BirthOk(s, a);
    }
    forall a, b ensures PathOk(t, a, b) {
      assert PathOk(s, a, b);
    }
  }

  lemma InvLogin(s: State, user: nat, sid: nat, expiresAt: nat)
    requires Inv(s) && sid !in s.births
    ensures Inv(LoginRow(s, user, sid, expiresAt))
  {
    var t := LoginRow(s, user, sid, expiresAt);
    assert RowOk(s, sid);
    forall a ensures RowOk(t, a) && BirthOk(t, a) {
      assert RowOk(s, a) && BirthOk(s, a);
    }
    forall a, b ensures PathOk(t, a, b) {
      assert PathOk(s, a, b) && BirthOk(s, a) && BirthOk(s, b);
    }
  }

  lemma InvRotate(s: State, q: nat, child: nat, expiresAt: nat)
    requires Inv(s) && Enabled(s, Rotate(q, child, expiresAt)) && Live(s.rows, s.requests[q].sid)
    ensures Inv(RotateSession(s, q, child, expiresAt))
  {
    var t := RotateSession(s, q, child, expiresAt);
    var sid := s.requests[q].sid;
    assert RowOk(s, sid) && RowOk(s, child) && BirthOk(s, sid);
    assert t.births[child] == Birth(s.births[sid].user, s.births[sid].login, Some(sid), s.births[sid].depth + 1);
    forall a ensures RowOk(t, a) && BirthOk(t, a) {
      assert RowOk(s, a) && BirthOk(s, a);
    }
    forall a, b ensures PathOk(t, a, b) {
      assert PathOk(s, a, b) && PathOk(s, sid, a) && PathOk(s, sid, b) && PathOk(s, a, sid) && PathOk(s, b, sid);
    }
  }

  lemma InvStep(s: State, e: Event)
    requires Inv(s) && Enabled(s, e)
    ensures Inv(Apply(s, e))
  {
    match e
    case Login(user, sid, expiresAt) => InvLogin(s, user, sid, expiresAt);
    case Wipe(q) => InvRows(s, RevokeUser(s.rows, s.requests[q].user)); InvRequests(Apply(s, e).(requests := s.requests), Apply(s, e).requests, s.now);
    case DeleteAll(user) => InvRows(s, DeleteUser(s.rows, user));
    case DeleteOne(sid) => InvRows(s, s.rows - {sid});
    case Rotate(q, child, expiresAt) =>
      if Live(s.rows, s.requests[q].sid) {
        InvRotate(s, q, child, expiresAt);
      } else {
        InvRequests(s, Apply(s, e).requests, s.now);
      }
    case _ => InvRequests(s, Apply(s, e).requests, Apply(s, e).now);
  }

  /** The invariant does not depend on the clock or on the requests in progress. */
  lemma InvRequests(s: State, requests: map<nat, Stage>, now: nat)
    requires Inv(s)
    ensures Inv(s.(requests := requests, now := now))
  {
    var t := s.(requests := requests, now := now);
    forall a ensures RowOk(t, a) && BirthOk(t, a) {
      assert RowOk(s, a) && BirthOk(s, a);
    }
    forall a, b ensures PathOk(t, a, b) {
      assert PathOk(s, a, b);
    }
  }

  lemma {:induction false} InvRun(tr: seq<State>, ev: seq<Event>, m: nat)
    requires IsRun(tr, ev) && m < |tr|
    ensures Inv(tr[m])
  {
    if m == 0 {
      assert forall a :: RowOk(tr[0], a) && BirthOk(tr[0], a);
      assert forall a, b :: PathOk(tr[0], a, b);
    } else {
      InvRun(tr, ev, m - 1);
      InvStep(tr[m - 1], ev[m - 1]);
    }
  }

  // ---------------------------------------------------------------- main results

  /** Each refresh token is exchanged for at most one session, however many requests present it. */
  lemma OneSuccessorPerToken(tr: seq<State>, ev: seq<Event>, m: nat, a: nat, b: nat)
    requires IsRun(tr, ev) && m < |tr|
    requires a in tr[m].births && b in tr[m].births
    requires tr[m].births[a].parent.Some? && tr[m].births[a].parent == tr[m].births[b].parent
    ensures a == b
  {
    InvRun(tr, ev, m);
    assert BirthOk(tr[m], a) && BirthOk(tr[m], b) && PathOk(tr[m], a, b);
  }

  /** Each login has at most one un-revoked session descending from it. */
  lemma OneLiveSessionPerLogin(tr: seq<State>, ev: seq<Event>, m: nat, a: nat, b: nat)
    requires IsRun(tr, ev) && m < |tr|
    requires Live(tr[m].rows, a) && Live(tr[m].rows, b)
    requires a in tr[m].births && b in tr[m].births && tr[m].births[a].login == tr[m].births[b].login
    ensures a == b
  {
    InvRun(tr, ev, m);
    assert RowOk(tr[m], a) && RowOk(tr[m], b) && PathOk(tr[m], a, b) && PathOk(tr[m], b, a);
  }

  /** The event ends every session of `user`: a detected reuse, logout everywhere, or a password reset. */
  ghost predicate EndsSessions(s: State, e: Event, user: nat) {
    || (e.Wipe? && e.request in s.requests && s.requests[e.request] == Wiping(user))
    || e == DeleteAll(user)
  }

  /** Where an un-revoked row comes from: it was there, or a login created it, or a rotation of an
      un-revoked row of the same user and login did. */
  lemma LiveOrigin(s: State, e: Event, a: nat)
    requires Inv(s) && Enabled(s, e) && Live(Apply(s, e).rows, a)
    ensures || (Live(s.rows, a) && Apply(s, e).rows[a].user == s.rows[a].user)
            || (e.Login? && e.sid == a)
            || (e.Rotate? && e.child == a && var p := s.requests[e.request].sid;
                Live(s.rows, p) && p in s.births && s.rows[p].user == Apply(s, e).rows[a].user &&
                Apply(s, e).births[a].login == s.births[p].login)
  {
    match e
    case Rotate(q, child, _) => assert RowOk(s, s.requests[q].sid);
    case _ =>
  }

  lemma {:induction false} EndedStaysEnded(tr: seq<State>, ev: seq<Event>, i: nat, m: nat, user: nat, a: nat)
    requires IsRun(tr, ev) && i < |ev| && EndsSessions(tr[i], ev[i], user) && i < m < |tr|
    requires Live(tr[m].rows, a) && tr[m].rows[a].user == user
    ensures a in tr[m].births && tr[m].births[a].login !in tr[i].births
    decreases m
  {
    InvRun(tr, ev, m);
    assert RowOk(tr[m], a);
    var s, e := tr[m - 1], ev[m - 1];
    InvRun(tr, ev, m - 1);
    BirthsRun(tr, ev, i, m - 1);
    LiveOrigin(s, e, a);
    assert RowOk(s, a);
    if m > i + 1 {
      if Live(s.rows, a) {
        EndedStaysEnded(tr, ev, i, m - 1, user, a);
        BirthsRun(tr, ev, m - 1, m);
      } else if e.Rotate? {
        EndedStaysEnded(tr, ev, i, m - 1, user, s.requests[e.request].sid);
      }
    }
  }

  lemma {:induction false} BirthsRun(tr: seq<State>, ev: seq<Event>, i: nat, m: nat)
    requires IsRun(tr, ev) && i <= m < |tr|
    ensures forall a :: a in tr[i].births ==> a in tr[m].births && tr[m].births[a] == tr[i].births[a]
  {
    if i < m {
      BirthsRun(tr, ev, i, m - 1);
    }
  }

  /** Once a reuse wipe, a logout everywhere or a password reset has run for a user, no session descending
      from an earlier login is ever un-revoked again, even if its refresh was already in flight. */
  lemma EarlierLoginsStayEnded(tr: seq<State>, ev: seq<Event>, i: nat, m: nat, user: nat, a: nat)
    requires IsRun(tr, ev) && i < |ev| && EndsSessions(tr[i], ev[i], user) && i < m < |tr|
    requires a in tr[m].births && tr[m].births[a].user == user && tr[m].births[a].login in tr[i].births
    ensures !Live(tr[m].rows, a)
  {
    InvRun(tr, ev, m);
    assert RowOk(tr[m], a);
    if Live(tr[m].rows, a) {
      EndedStaysEnded(tr, ev, i, m, user, a);
    }
  }

  /** A refresh presented for an already exchanged or otherwise revoked token never issues a session. */
  lemma {:induction false} ReuseNeverIssues(tr: seq<State>, ev: seq<Event>, i: nat, m: nat)
    requires IsRun(tr, ev) && i < |ev| && i < m < |tr|
    requires ev[i].Lookup? && ev[i].sid in tr[i].rows && tr[i].rows[ev[i].sid].revoked
    ensures ev[i].request in tr[m].requests
    ensures tr[m].requests[ev[i].request] in {Wiping(tr[i].rows[ev[i].sid].user), Denied}
  {
    if m > i + 1 {
      ReuseNeverIssues(tr, ev, i, m - 1);
    }
  }

  /** The refresh looked its token up and found the session un-revoked and unexpired. */
  predicate LooksUpLive(s: State, e: Event, q: nat, sid: nat) {
    e == Lookup(q, sid) && Live(s.rows, sid) && s.now <= s.rows[sid].expiresAt
  }

  /** A rotation is only ever attempted for a session that was un-revoked and unexpired when it was looked
      up, and whose user was active after that. */
  lemma {:induction false} RotationsAreChecked(tr: seq<State>, ev: seq<Event>, m: nat, q: nat) returns (i: nat, j: nat)
    requires IsRun(tr, ev) && m < |tr| && q in tr[m].requests && tr[m].requests[q].Rotating?
    ensures i < j < m && LooksUpLive(tr[i], ev[i], q, tr[m].requests[q].sid) && ev[j] == LoadUser(q, true)
  {
    if ev[m - 1] == LoadUser(q, true) {
      j := m - 1;
      i := LoadsAreLookedUp(tr, ev, m - 1, q);
    } else {
      i, j := RotationsAreChecked(tr, ev, m - 1, q);
    }
  }

  lemma {:induction false} LoadsAreLookedUp(tr: seq<State>, ev: seq<Event>, m: nat, q: nat) returns (i: nat)
    requires IsRun(tr, ev) && m < |tr| && q in tr[m].requests && tr[m].requests[q].LoadingUser?
    ensures i < m && LooksUpLive(tr[i], ev[i], q, tr[m].requests[q].sid)
  {
    if ev[m - 1].Lookup? && ev[m - 1].request == q {
      i := m - 1;
    } else {
      i := LoadsAreLookedUp(tr, ev, m - 1, q);
    }
  }

  // ---------------------------------------------------------------- nothing else ends a session

  /** The token of the session is exchanged, or the session is ended alone or with all of its user's. */
  ghost predicate Ends(s: State, e: Event, sid: nat, user: nat) {
    || (e.Rotate? && e.request in s.requests && s.requests[e.request] == Rotating(sid))
    || EndsSessions(s, e, user)
    || e == DeleteOne(sid)
  }

  lemma LiveStep(s: State, e: Event, sid: nat)
    requires Enabled(s, e) && Inv(s) && Live(s.rows, sid) && !Ends(s, e, sid, s.rows[sid].user)
    ensures sid in Apply(s, e).rows && Apply(s, e).rows[sid] == s.rows[sid]
  {
    assert RowOk(s, sid);
    match e
    case Rotate(_, _, _) =>
    case _ =>
  }

  /** An un-revoked session stays as it is until its token is exchanged or it is ended. */
  lemma {:induction false} LiveStays(tr: seq<State>, ev: seq<Event>, i: nat, m: nat, sid: nat)
    requires IsRun(tr, ev) && i <= m < |tr| && Live(tr[i].rows, sid)
    requires forall k :: i <= k < m ==> !Ends(tr[k], ev[k], sid, tr[i].rows[sid].user)
    ensures sid in tr[m].rows && tr[m].rows[sid] == tr[i].rows[sid]
  {
    if i < m {
      LiveStays(tr, ev, i, m - 1, sid);
      InvRun(tr, ev, m - 1);
      LiveStep(tr[m - 1], ev[m - 1], sid);
    }
  }

  /** Main result. The session that a refresh issues belongs to the user of the exchanged one, has the expiry it
      was given, and stays usable until its own token is exchanged or it is ended. */
  lemma IssuedSessionStaysUsable(tr: seq<State>, ev: seq<Event>, i: nat, m: nat, q: nat, child: nat, expiresAt: nat)
    requires IsRun(tr, ev) && i < m < |tr| && ev[i] == Rotate(q, child, expiresAt) && tr[i + 1].requests[q] == Issued(child)
    requires var user := tr[i].rows[tr[i].requests[q].sid].user;
      forall k :: i < k < m ==> !Ends(tr[k], ev[k], child, user)
    ensures child in tr[m].rows && tr[m].rows[child] == Row(tr[i].rows[tr[i].requests[q].sid].user, false, expiresAt)
  {
    LiveStays(tr, ev, i + 1, m, child);
  }

  /** The same for the session that a login creates. */
  lemma LoginSessionStaysUsable(tr: seq<State>, ev: seq<Event>, i: nat, m: nat, user: nat, sid: nat, expiresAt: nat)
    requires IsRun(tr, ev) && i < m < |tr| && ev[i] == Login(user, sid, expiresAt)
    requires forall k :: i < k < m ==> !Ends(tr[k], ev[k], sid, user)
    ensures sid in tr[m].rows && tr[m].rows[sid] == Row(user, false, expiresAt)
  {
    LiveStays(tr, ev, i + 1, m, sid);
  }

  predicate Revoked(s: State, sid: nat) {
    sid in s.rows && s.rows[sid].revoked
  }

  lemma RevokedStep(s: State, e: Event, sid: nat)
    requires Enabled(s, e) && Revoked(Apply(s, e), sid) && !Revoked(s, sid)
    ensures sid in s.rows && s.rows[sid].user == Apply(s, e).rows[sid].user
    ensures sid in Apply(s, e).rotated || EndsSessions(s, e, s.rows[sid].user)
  {
    match e
    case Rotate(_, _, _) =>
    case _ =>
  }

  lemma RowsKeepUser(s: State, e: Event, sid: nat)
    requires Enabled(s, e) && Inv(s) && sid in s.rows && sid in Apply(s, e).rows
    ensures Apply(s, e).rows[sid].user == s.rows[sid].user && s.rotated <= Apply(s, e).rotated
  {
    assert RowOk(s, sid);
  }

  /** A revoked session was exchanged, or ended with all sessions of its user after it had been created. */
  lemma {:induction false} RevokedOrigin(tr: seq<State>, ev: seq<Event>, m: nat, sid: nat) returns (j: nat)
    requires IsRun(tr, ev) && m < |tr| && Revoked(tr[m], sid)
    ensures sid in tr[m].rotated
            || (j < m && sid in tr[j].rows && EndsSessions(tr[j], ev[j], tr[m].rows[sid].user))
  {
    var s, e := tr[m - 1], ev[m - 1];
    InvRun(tr, ev, m - 1);
    j := m - 1;
    if Revoked(s, sid) {
      RowsKeepUser(s, e, sid);
      j := RevokedOrigin(tr, ev, m - 1, sid);
    } else {
      RevokedStep(s, e, sid);
    }
  }

  /** Reuse is detected only where there is reuse: a refresh sets out to wipe a user's sessions only if the token
      it presents was exchanged before, or its session was ended together with all of that user's. */
  lemma ReuseIsReal(tr: seq<State>, ev: seq<Event>, m: nat, q: nat, sid: nat) returns (j: nat)
    requires IsRun(tr, ev) && m < |ev| && ev[m] == Lookup(q, sid) && tr[m + 1].requests[q].Wiping?
    ensures sid in tr[m].rows && tr[m + 1].requests[q] == Wiping(tr[m].rows[sid].user)
    ensures sid in tr[m].rotated
            || (j < m && sid in tr[j].rows && EndsSessions(tr[j], ev[j], tr[m].rows[sid].user))
  {
    j := RevokedOrigin(tr, ev, m, sid);
  }

  /** `rotated` is what it says: the token of such a session was exchanged for another session. */
  lemma {:induction false} RotatedWasExchanged(tr: seq<State>, ev: seq<Event>, m: nat, sid: nat) returns (j: nat)
    requires IsRun(tr, ev) && m < |tr| && sid in tr[m].rotated
    ensures j < m && ev[j].Rotate? && tr[j].requests[ev[j].request] == Rotating(sid)
    ensures tr[j + 1].requests[ev[j].request] == Issued(ev[j].child)
  {
    if sid in tr[m - 1].rotated {
      j := RotatedWasExchanged(tr, ev, m - 1, sid);
    } else {
      j := m - 1;
    }
  }

  // ---------------------------------------------------------------- a refresh by itself

  /** A refresh that nothing interrupts exchanges its token for a new session of the same user if the session it
      finds is un-revoked and unexpired and the user is active. */
  lemma RefreshIssues(s: State, q: nat, sid: nat, child: nat, expiresAt: nat)
    requires q !in s.requests && child !in s.births
    requires sid in s.rows && !s.rows[sid].revoked && s.now <= s.rows[sid].expiresAt
    ensures var s1 := Apply(s, Lookup(q, sid));
      && Enabled(s1, LoadUser(q, true)) && Enabled(Apply(s1, LoadUser(q, true)), Rotate(q, child, expiresAt))
      && var t := Apply(Apply(s1, LoadUser(q, true)), Rotate(q, child, expiresAt));
         && t.requests[q] == Issued(child)
         && t.rows == s.rows[sid := s.rows[sid].(revoked := true)][child := Row(s.rows[sid].user, false, expiresAt)]
  {
  }

  /** A refresh with the token of a revoked session revokes the sessions of its user, and no others. */
  lemma RefreshWipes(s: State, q: nat, sid: nat)
    requires q !in s.requests && Revoked(s, sid)
    ensures var s1 := Apply(s, Lookup(q, sid));
      && Enabled(s1, Wipe(q))
      && var t := Apply(s1, Wipe(q));
         && t.requests[q] == Denied && t.rows.Keys == s.rows.Keys
         && forall a :: a in s.rows ==>
              t.rows[a] == if s.rows[a].user == s.rows[sid].user then s.rows[a].(revoked := true) else s.rows[a]
  {
  }

  /** A refresh is refused at once, and changes nothing, if its session is gone or has expired. */
  lemma RefreshRefusesIff(s: State, q: nat, sid: nat)
    requires q !in s.requests
    ensures Apply(s, Lookup(q, sid)).requests[q] == Denied
            <==> sid !in s.rows || (!s.rows[sid].revoked && s.rows[sid].expiresAt < s.now)
    ensures Apply(s, Lookup(q, sid)).rows == s.rows
  {
  }

  /** Ending one session, or all of a user's, deletes those rows and no others. */
  lemma EndingDeletes(s: State, sid: nat, user: nat)
    ensures Apply(s, DeleteOne(sid)).rows == s.rows - {sid}
    ensures var t := Apply(s, DeleteAll(user));
      forall a :: (a in t.rows <==> a in s.rows && s.rows[a].user != user) && (a in t.rows ==> t.rows[a] == s.rows[a])
  {
  }

  // ---------------------------------------------------------------- the code, step by step

  /** The session table and the refresh handlers in progress. */
  class SessionTable {
    var now: nat
    var rows: map<nat, Row>
    var requests: map<nat, Stage>
    ghost var births: map<nat, Birth>
    ghost var rotated: set<nat>

    ghost function View(): State
      reads this
    {
      State(now, rows, requests, births, rotated)
    }

    constructor (now: nat)
      ensures View() == State(now, map[], map[], map[], {})
    {
      this.now, rows, requests := now, map[], map[];
      births, rotated := map[], {};
    }

    /** issueTokens after a login. */
    method CreateAtLogin(user: nat, sid: nat, expiresAt: nat)
      requires Enabled(View(), Login(user, sid, expiresAt))
      modifies this`rows, this`births
      ensures View() == LoginRow(old(View()), user, sid, expiresAt)
    {
      rows := rows[sid := Row(user, false, expiresAt)];
      births := births[sid := Birth(user, sid, None, 0)];
    }

    method RefreshLookup(q: nat, sid: nat)
      requires Enabled(View(), Lookup(q, sid))
      modifies this`requests
      ensures View() == LookupToken(old(View()), q, sid)
    {
      if sid !in rows {
        requests := requests[q := Denied];
        return;
      }
      var session := rows[sid];
      if session.revoked {
        requests := requests[q := Wiping(session.user)];
      } else if session.expiresAt < now {
        requests := requests[q := Denied];
      } else {
        requests := requests[q := LoadingUser(sid)];
      }
    }

    method RefreshWipe(q: nat)
      requires Enabled(View(), Wipe(q))
      modifies this`rows, this`requests
      ensures View() == WipeSessions(old(View()), q)
    {
      rows := RevokeUser(rows, requests[q].user);
      requests := requests[q := Denied];
    }

    method RefreshLoadUser(q: nat, active: bool)
      requires Enabled(View(), LoadUser(q, active))
      modifies this`requests
      ensures View() == LoadActive(old(View()), q, active)
    {
      requests := requests[q := if active then Rotating(requests[q].sid) else Denied];
    }

    method RefreshRotate(q: nat, child: nat, expiresAt: nat)
      requires Enabled(View(), Rotate(q, child, expiresAt))
      modifies this
      ensures View() == RotateSession(old(View()), q, child, expiresAt)
    {
      var sid := requests[q].sid;
      if sid !in rows || rows[sid].revoked {
        requests := requests[q := Denied];
        return;
      }
      var row := rows[sid];
      rows := rows[sid := row.(revoked := true)];
      rows := rows[child := Row(row.user, false, expiresAt)];
      requests := requests[q := Issued(child)];
      ghost var birth := if sid in births then births[sid] else Birth(row.user, sid, None, 0);
      births := births[child := Birth(row.user, birth.login, Some(sid), birth.depth + 1)];
      rotated := rotated + {sid};
    }

    /** logoutAll, and the deletion inside the password-reset transaction. */
    method DeleteAllOf(user: nat)
      modifies this`rows
      ensures View() == Apply(old(View()), DeleteAll(user))
    {
      rows := DeleteUser(rows, user);
    }
  }
}
