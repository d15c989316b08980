/** Roles held for a limited time: assignToUser, assignTemporarily, removeFromUser and the expiry job, with
    handlers interleaved between every two awaits. A transaction is one step. */
module TemporaryGrants {
  import opened Options

  datatype Status = ACTIVE | REVOKED | EXPIRED

  datatype Grant = Grant(user: nat, role: nat, status: Status, expiresAt: int)

  /** `until` is None for a role assigned without an end; `due` are the rows an expiry job has still to do. */
  datatype Stage =
    | Assigning(user: nat, role: nat, until: Option<int>)
    | Removing(user: nat, role: nat)
    | Expiring(due: seq<nat>)
    | Finished

  /** `held` are the rows of userRole: (user, role). */
  datatype State = State(now: int, rows: seq<Grant>, held: set<(nat, nat)>, handlers: map<nat, Stage>)

  /** Change stands for the writers of userRole elsewhere: a repeated invitation, the revocation of an
      administrator's role, registration. They leave the grants alone. */
  datatype Event =
    | Tick(dt: nat)
    | Change(user: nat, role: nat, add: bool)
    | BeginAssign(handler: nat, user: nat, role: nat, until: Option<int>)
    | Assign(handler: nat)
    | BeginRemove(handler: nat, user: nat, role: nat)
    | Remove(handler: nat)
    | BeginExpiry(handler: nat, due: seq<nat>)
    | ExpireNext(handler: nat, ok: bool)

  /** Whom a row is about, as a key of `held`. */
  function Pair(r: Grant): (nat, nat) {
    (r.user, r.role)
  }

  /** What findMany may return: due rows, each once (at most 200 of them, in no particular order). */
  predicate IsDue(s: State, due: seq<nat>) {
    && (forall k :: 0 <= k < |due| ==>
          due[k] < |s.rows| && s.rows[due[k]].status == ACTIVE && s.rows[due[k]].expiresAt <= s.now)
    && (forall k, l :: 0 <= k < l < |due| ==> due[k] != due[l])
  }

  predicate HasOther(s: State, user: nat, role: nat) {
    exists p :: p in s.held && p.0 == user && p.1 != role
  }

  predicate Enabled(s: State, e: Event) {
    match e
    case Tick(_) => true
    case Change(_, _, _) => true
    case BeginAssign(h, _, _, _) => h !in s.handlers
    case Assign(h) => h in s.handlers && s.handlers[h].Assigning?
    case BeginRemove(h, _, _) => h !in s.handlers
    case Remove(h) => h in s.handlers && s.handlers[h].Removing?
    case BeginExpiry(h, due) => h !in s.handlers && IsDue(s, due)
    case ExpireNext(h, _) =>
      h in s.handlers && s.handlers[h].Expiring? && s.handlers[h].due != [] && s.handlers[h].due[0] < |s.rows|
  }

  function Go(s: State, h: nat, stage: Stage): State {
    s.(handlers := s.handlers[h := stage])
  }

  /** The insert fails, and the transaction with it, if the user holds the role by now. */
  function AssignStep(s: State, h: nat, user: nat, role: nat, until: Option<int>): State {
    var t := Go(s, h, Finished);
    if (user, role) in s.held then t
    else
      var u := t.(held := s.held + {(user, role)});
      if until.Some? then u.(rows := s.rows + [Grant(user, role, ACTIVE, until.value)]) else u
  }

  function RevokeRow(r: Grant, pair: (nat, nat)): Grant {
    if Pair(r) == pair && r.status == ACTIVE then r.(status := REVOKED) else r
  }

  function RevokeAll(rows: seq<Grant>, pair: (nat, nat)): (out: seq<Grant>)
    ensures |out| == |rows|
    ensures forall i :: 0 <= i < |rows| ==> out[i] == RevokeRow(rows[i], pair)
  {
    if rows == [] then []
    else RevokeAll(rows[..|rows| - 1], pair) + [RevokeRow(rows[|rows| - 1], pair)]
  }

  /** The delete fails, and the transaction with it, if the user no longer holds the role. */
  function RemoveStep(s: State, h: nat, user: nat, role: nat): State {
    var t := Go(s, h, Finished);
    if (user, role) !in s.held then t
    else t.(held := s.held - {(user, role)}, rows := RevokeAll(s.rows, (user, role)))
  }

  /** One transaction of the expiry job: whatever the row's status has become, the role goes. */
  function ExpireRow(s: State, id: nat): State
    requires id < |s.rows|
  {
    s.(held := s.held - {Pair(s.rows[id])}, rows := s.rows[id := s.rows[id].(status := EXPIRED)])
  }

  function Apply(s: State, e: Event): State
    requires Enabled(s, e)
  {
    match e
    case Tick(dt) => s.(now := s.now + dt)
    case Change(user, role, add) => s.(held := if add then s.held + {(user, role)} else s.held - {(user, role)})
    case BeginAssign(h, user, role, until) =>
      var refused := (until.Some? && until.value <= s.now) || (user, role) in s.held;
      Go(s, h, if refused then Finished else Assigning(user, role, until))
    case Assign(h) => AssignStep(s, h, s.handlers[h].user, s.handlers[h].role, s.handlers[h].until)
    case BeginRemove(h, user, role) =>
      Go(s, h, if (user, role) in s.held && HasOther(s, user, role) then Removing(user, role) else Finished)
    case Remove(h) => RemoveStep(s, h, s.handlers[h].user, s.handlers[h].role)
    case BeginExpiry(h, due) => Go(s, h, Expiring(due))
    case ExpireNext(h, ok) =>
      var due := s.handlers[h].due;
      Go(if ok then ExpireRow(s, due[0]) else s, h, Expiring(due[1..]))
  }

  ghost predicate IsRun(tr: seq<State>, ev: seq<Event>) {
    && |tr| == |ev| + 1
    && tr[0].rows == [] && tr[0].handlers == map[]
    && forall i :: 0 <= i < |ev| ==> Enabled(tr[i], ev[i]) && tr[i + 1] == Apply(tr[i], ev[i])
  }

  // ---------------------------------------------------------------- invariant

  predicate IsActive(s: State, i: nat) {
    i < |s.rows| && s.rows[i].status == ACTIVE
  }

  ghost predicate ActiveHeld(s: State, i: nat) {
    IsActive(s, i) ==> Pair(s.rows[i]) in s.held
  }

  ghost predicate OneActive(s: State, i: nat, j: nat) {
    IsActive(s, i) && IsActive(s, j) && Pair(s.rows[i]) == Pair(s.rows[j]) ==> i == j
  }

  /** An active row means that its user holds its role, and there is one such row at most. */
  ghost predicate Inv(s: State) {
    (forall i: nat :: ActiveHeld(s, i)) && (forall i: nat, j: nat :: OneActive(s, i, j))
  }

  /** Another row than `id` is active for the same user and role. */
  predicate OtherActive(s: State, id: nat, j: nat) {
    id < |s.rows| && j != id && IsActive(s, j) && Pair(s.rows[j]) == Pair(s.rows[id])
  }

  lemma InvAssign(s: State, h: nat, user: nat, role: nat, until: Option<int>)
    requires Inv(s)
    ensures Inv(AssignStep(s, h, user, role, until))
  {
    var t := AssignStep(s, h, user, role, until);
    forall i: nat ensures ActiveHeld(t, i) {
      assert ActiveHeld(s, i);
    }
    forall i: nat, j: nat ensures OneActive(t, i, j) {
      assert OneActive(s, i, j) && ActiveHeld(s, i) && ActiveHeld(s, j);
    }
  }

  lemma InvRemove(s: State, h: nat, user: nat, role: nat)
    requires Inv(s)
    ensures Inv(RemoveStep(s, h, user, role))
  {
    var t := RemoveStep(s, h, user, role);
    forall i: nat ensures ActiveHeld(t, i) {
      assert ActiveHeld(s, i);
    }
    forall i: nat, j: nat ensures OneActive(t, i, j) {
      assert OneActive(s, i, j);
    }
  }

  /** The expiry of one row keeps the invariant exactly if no other row of its user and role is active: its
      transaction takes the role away without asking whose grant it is. */
  lemma ExpiryKeepsIffSoleGrant(s: State, id: nat)
    requires Inv(s) && id < |s.rows|
    ensures Inv(ExpireRow(s, id)) <==> !(exists j :: OtherActive(s, id, j))
  {
    var t := ExpireRow(s, id);
    forall i: nat, j: nat ensures OneActive(t, i, j) {
      assert OneActive(s, i, j);
    }
    if exists j :: OtherActive(s, id, j) {
      var j :| OtherActive(s, id, j);
      assert !ActiveHeld(t, j);
    } else {
      forall i: nat ensures ActiveHeld(t, i) {
        assert ActiveHeld(s, i) && !OtherActive(s, id, i);
      }
    }
  }

  lemma InvFrame(s: State, t: State)
    requires Inv(s) && t.rows == s.rows && t.held == s.held
    ensures Inv(t)
  {
    forall i: nat ensures ActiveHeld(t, i) {
      assert ActiveHeld(s, i);
    }
    forall i: nat, j: nat ensures OneActive(t, i, j) {
      assert OneActive(s, i, j);
    }
  }

  /** The expiry job ends a grant that somebody ended already, while a newer one is active. */
  ghost predicate EndsTwice(s: State, e: Event) {
    && Enabled(s, e) && e.ExpireNext? && e.ok
    && exists j :: OtherActive(s, s.handlers[e.handler].due[0], j)
  }

  /** Another service takes a role away that is held by an active grant. */
  ghost predicate TakesGranted(s: State, e: Event) {
    e.Change? && !e.add && exists i: nat :: IsActive(s, i) && Pair(s.rows[i]) == (e.user, e.role)
  }

  lemma InvChange(s: State, user: nat, role: nat, add: bool)
    requires Inv(s)
    ensures Inv(Apply(s, Change(user, role, add))) <==> !TakesGranted(s, Change(user, role, add))
  {
    var e := Change(user, role, add);
    var t := Apply(s, e);
    forall i: nat, j: nat ensures OneActive(t, i, j) {
      assert OneActive(s, i, j);
    }
    if TakesGranted(s, e) {
      var i: nat :| IsActive(s, i) && Pair(s.rows[i]) == (user, role);
      assert !ActiveHeld(t, i);
    } else {
      forall i: nat ensures ActiveHeld(t, i) {
        assert ActiveHeld(s, i);
        assert IsActive(s, i) == IsActive(t, i);
      }
    }
  }

  lemma InvStep(s: State, e: Event)
    requires Inv(s) && Enabled(s, e)
    ensures Inv(Apply(s, e)) <==> !EndsTwice(s, e) && !TakesGranted(s, e)
  {
    match e
    case Change(user, role, add) => InvChange(s, user, role, add);
    case Assign(h) => InvAssign(s, h, s.handlers[h].user, s.handlers[h].role, s.handlers[h].until);
    case Remove(h) => InvRemove(s, h, s.handlers[h].user, s.handlers[h].role);
    case ExpireNext(h, ok) =>
      if ok {
        var t := ExpireRow(s, s.handlers[h].due[0]);
        ExpiryKeepsIffSoleGrant(s, s.handlers[h].due[0]);
        if Inv(t) { InvFrame(t, Apply(s, e)); }
        if Inv(Apply(s, e)) { InvFrame(Apply(s, e), t); }
      } else {
        InvFrame(s, Apply(s, e));
      }
    case _ => InvFrame(s, Apply(s, e));
  }

  // ---------------------------------------------------------------- main results

  /** In every run an active row implies a held role, and there is at most one per user and role, for as long
      as the expiry job ends no grant twice and no other service takes a granted role; the first time either
      happens, this is lost. */
  lemma {:induction false} GrantsMatchRoles(tr: seq<State>, ev: seq<Event>, m: nat)
    requires IsRun(tr, ev) && m < |tr|
    requires forall i :: 0 <= i < m - 1 ==> !EndsTwice(tr[i], ev[i]) && !TakesGranted(tr[i], ev[i])
    ensures Inv(tr[m]) <==> (m == 0 || (!EndsTwice(tr[m - 1], ev[m - 1]) && !TakesGranted(tr[m - 1], ev[m - 1])))
  {
    if m > 0 {
      GrantsMatchRoles(tr, ev, m - 1);
      InvStep(tr[m - 1], ev[m - 1]);
    }
  }

  /** The transaction of removeFromUser leaves the user without a role exactly if the removed one is the last
      by then. */
  lemma RemovalLeavesRoleIff(s: State, h: nat)
    requires Enabled(s, Remove(h)) && (s.handlers[h].user, s.handlers[h].role) in s.held
    ensures var user, role := s.handlers[h].user, s.handlers[h].role;
      (exists r :: (user, r) in Apply(s, Remove(h)).held) <==> HasOther(s, user, role)
  {
    var user, role := s.handlers[h].user, s.handlers[h].role;
    var t := Apply(s, Remove(h));
    if HasOther(s, user, role) {
      var p :| p in s.held && p.0 == user && p.1 != role;
      assert p == (user, p.1);
      assert (user, p.1) in t.held;
    }
    if exists r :: (user, r) in t.held {
      var r :| (user, r) in t.held;
      var p := (user, r);
      assert p in s.held && p.0 == user && p.1 != role;
    }
  }

  /** Run as a whole, removeFromUser never takes a user's last role. */
  lemma WholeRemovalKeepsARole(s: State, h: nat, user: nat, role: nat)
    requires Enabled(s, BeginRemove(h, user, role))
    requires Apply(s, BeginRemove(h, user, role)).handlers[h].Removing?
    ensures exists r :: (user, r) in Apply(Apply(s, BeginRemove(h, user, role)), Remove(h)).held
  {
    var t := Apply(s, BeginRemove(h, user, role));
    var p :| p in s.held && p.0 == user && p.1 != role;
    assert p in t.held && p.0 == user && p.1 != role;
    RemovalLeavesRoleIff(t, h);
  }

  // ---------------------------------------------------------------- a user without a role

  predicate HasRole(s: State, user: nat) {
    exists p :: p in s.held && p.0 == user
  }

  /** An outstanding handler is about to take this role: a removal that passed its check, or an expiry job
      that read a row for it. */
  ghost predicate TakenBy(s: State, h: nat, p: (nat, nat)) {
    h in s.handlers &&
      match s.handlers[h]
      case Removing(user, role) => p == (user, role)
      case Expiring(due) => exists k :: 0 <= k < |due| && due[k] < |s.rows| && Pair(s.rows[due[k]]) == p
      case _ => false
  }

  ghost predicate Threatened(s: State, p: (nat, nat)) {
    exists h :: TakenBy(s, h, p)
  }

  ghost predicate AllThreatened(s: State, user: nat) {
    forall p :: p in s.held && p.0 == user ==> Threatened(s, p)
  }

  /** The steps of handlers that have begun. */
  predicate Finishes(e: Event) {
    e.Assign? || e.Remove? || e.ExpireNext?
  }

  ghost predicate IsPath(tr: seq<State>, ev: seq<Event>) {
    && |tr| == |ev| + 1
    && forall i :: 0 <= i < |ev| ==> Finishes(ev[i]) && Enabled(tr[i], ev[i]) && tr[i + 1] == Apply(tr[i], ev[i])
  }

  /** Some way for the outstanding handlers to go on, with no new one, leaves the user without a role. */
  ghost predicate CanStrip(s: State, user: nat) {
    exists tr: seq<State>, ev: seq<Event> :: IsPath(tr, ev) && tr[0] == s && !HasRole(tr[|ev|], user)
  }

  /** Every row an expiry job has still to do exists. */
  ghost predicate DueExists(s: State, h: nat) {
    h in s.handlers && s.handlers[h].Expiring? ==>
      forall k :: 0 <= k < |s.handlers[h].due| ==> s.handlers[h].due[k] < |s.rows|
  }

  lemma DueExistsStep(s: State, e: Event, h: nat)
    requires Enabled(s, e) && DueExists(s, h)
    ensures DueExists(Apply(s, e), h)
  {
    if e.ExpireNext? && e.handler == h {
      var due := s.handlers[h].due;
      assert forall k :: 0 <= k < |due| - 1 ==> due[1..][k] == due[k + 1];
    }
  }

  /** No handler comes to threaten a role that none threatened. */
  lemma ThreatsShrink(s: State, e: Event, h: nat, p: (nat, nat))
    requires Enabled(s, e) && Finishes(e) && DueExists(s, h) && TakenBy(Apply(s, e), h, p)
    ensures TakenBy(s, h, p)
  {
    var t := Apply(s, e);
    if t.handlers[h].Expiring? {
      var due := t.handlers[h].due;
      var k :| 0 <= k < |due| && due[k] < |t.rows| && Pair(t.rows[due[k]]) == p;
      if e.ExpireNext? && e.handler == h {
        assert s.handlers[h].due[k + 1] == due[k];
      }
      assert due[k] in s.handlers[h].due && due[k] < |s.rows| && Pair(s.rows[due[k]]) == p;
    }
  }

  /** A role that no outstanding handler threatens stays. */
  lemma SafeRoleStays(s: State, e: Event, p: (nat, nat))
    requires Enabled(s, e) && Finishes(e) && p in s.held && !Threatened(s, p)
    ensures p in Apply(s, e).held
  {
    if e.Remove? && p == (s.handlers[e.handler].user, s.handlers[e.handler].role) {
      assert TakenBy(s, e.handler, p);
    }
    if e.ExpireNext? && Pair(s.rows[s.handlers[e.handler].due[0]]) == p {
      assert TakenBy(s, e.handler, p);
    }
  }

  lemma {:induction false} SafeRoleRun(tr: seq<State>, ev: seq<Event>, m: nat, p: (nat, nat))
    requires IsPath(tr, ev) && m < |tr| && (forall h :: DueExists(tr[0], h))
    requires p in tr[0].held && !Threatened(tr[0], p)
    ensures p in tr[m].held && !Threatened(tr[m], p)
    ensures forall h :: DueExists(tr[m], h)
  {
    if m > 0 {
      var s, e := tr[m - 1], ev[m - 1];
      SafeRoleRun(tr, ev, m - 1, p);
      SafeRoleStays(s, e, p);
      forall h ensures DueExists(tr[m], h) && !TakenBy(tr[m], h, p) {
        assert DueExists(s, h);
        DueExistsStep(s, e, h);
        if TakenBy(tr[m], h, p) {
          ThreatsShrink(s, e, h, p);
          assert Threatened(s, p);
        }
      }
    }
  }

  function RolesOf(s: State, user: nat): set<(nat, nat)> {
    set p | p in s.held && p.0 == user
  }

  /** A handler other than the one that moves threatens what it threatened. */
  lemma OthersStillThreaten(s: State, e: Event, h: nat, p: (nat, nat))
    requires Enabled(s, e) && (e.Remove? || e.ExpireNext?) && h != e.handler && TakenBy(s, h, p)
    ensures TakenBy(Apply(s, e), h, p)
  {
    if s.handlers[h].Expiring? {
      var due := s.handlers[h].due;
      var k :| 0 <= k < |due| && due[k] < |s.rows| && Pair(s.rows[due[k]]) == p;
      assert due[k] < |Apply(s, e).rows| && Pair(Apply(s, e).rows[due[k]]) == p;
    }
  }

  /** A step of a threatening handler leaves every role that remains threatened. */
  lemma StripStep(s: State, e: Event, user: nat)
    requires Enabled(s, e) && AllThreatened(s, user) && (forall h :: DueExists(s, h))
    requires e.Remove? || (e.ExpireNext? && e.ok)
    ensures AllThreatened(Apply(s, e), user) && (forall h :: DueExists(Apply(s, e), h))
    ensures RolesOf(Apply(s, e), user) <= RolesOf(s, user)
  {
    var t := Apply(s, e);
    forall h ensures DueExists(t, h) {
      DueExistsStep(s, e, h);
    }
    forall p | p in t.held && p.0 == user ensures Threatened(t, p) {
      assert p in s.held && Threatened(s, p);
      var h :| TakenBy(s, h, p);
      if h != e.handler {
        OthersStillThreaten(s, e, h, p);
      } else {
        var due := s.handlers[h].due;
        var k :| 0 <= k < |due| && due[k] < |s.rows| && Pair(s.rows[due[k]]) == p;
        assert k > 0 && due[1..][k - 1] == due[k];
        assert due[k] < |t.rows| && Pair(t.rows[due[k]]) == p;
        assert TakenBy(t, h, p);
      }
    }
  }

  lemma Prepend(s: State, e: Event, tr: seq<State>, ev: seq<Event>) returns (tr': seq<State>, ev': seq<Event>)
    requires Enabled(s, e) && Finishes(e) && IsPath(tr, ev) && tr[0] == Apply(s, e)
    ensures IsPath(tr', ev') && tr'[0] == s && tr'[|ev'|] == tr[|ev|]
  {
    tr', ev' := [s] + tr, [e] + ev;
    forall i | 0 <= i < |ev'|
      ensures Finishes(ev'[i]) && Enabled(tr'[i], ev'[i]) && tr'[i + 1] == Apply(tr'[i], ev'[i])
    {
      if i > 0 { assert ev'[i] == ev[i - 1] && tr'[i] == tr[i - 1] && tr'[i + 1] == tr[i]; }
    }
  }

  /** The threatening handlers, run one after another, take all roles. */
  lemma {:induction false} Strip(s: State, user: nat) returns (tr: seq<State>, ev: seq<Event>)
    requires AllThreatened(s, user) && forall h :: DueExists(s, h)
    ensures IsPath(tr, ev) && tr[0] == s && !HasRole(tr[|ev|], user)
    decreases |RolesOf(s, user)|, 1, 0
  {
    if !HasRole(s, user) {
      tr, ev := [s], [];
    } else {
      var p :| p in s.held && p.0 == user;
      assert Threatened(s, p);
      var h :| TakenBy(s, h, p);
      if s.handlers[h].Removing? {
        var e := Remove(h);
        StripStep(s, e, user);
        assert p in RolesOf(s, user) && p !in RolesOf(Apply(s, e), user);
        SmallerSet(RolesOf(Apply(s, e), user), RolesOf(s, user), p);
        tr, ev := Strip(Apply(s, e), user);
        tr, ev := Prepend(s, e, tr, ev);
      } else {
        var due := s.handlers[h].due;
        var k :| 0 <= k < |due| && due[k] < |s.rows| && Pair(s.rows[due[k]]) == p;
        tr, ev := StripByExpiry(s, user, h, p, k);
      }
    }
  }

  /** The expiry job works its way to the row that takes role `p`. */
  lemma {:induction false} StripByExpiry(s: State, user: nat, h: nat, p: (nat, nat), k: nat)
    returns (tr: seq<State>, ev: seq<Event>)
    requires AllThreatened(s, user) && (forall q :: DueExists(s, q))
    requires p in s.held && p.0 == user && h in s.handlers && s.handlers[h].Expiring?
    requires k < |s.handlers[h].due| && s.handlers[h].due[k] < |s.rows| && Pair(s.rows[s.handlers[h].due[k]]) == p
    ensures IsPath(tr, ev) && tr[0] == s && !HasRole(tr[|ev|], user)
    decreases |RolesOf(s, user)|, 0, k
  {
    var e := ExpireNext(h, true);
    var due := s.handlers[h].due;
    assert DueExists(s, h);
    var t := Apply(s, e);
    StripStep(s, e, user);
    if p !in t.held {
      assert p in RolesOf(s, user) && p !in RolesOf(t, user);
      SmallerSet(RolesOf(t, user), RolesOf(s, user), p);
      tr, ev := Strip(t, user);
    } else {
      assert k > 0 && t.handlers[h].due[k - 1] == due[k];
      NoLarger(RolesOf(t, user), RolesOf(s, user));
      tr, ev := StripByExpiry(t, user, h, p, k - 1);
    }
    tr, ev := Prepend(s, e, tr, ev);
  }

  lemma NoLarger(a: set<(nat, nat)>, b: set<(nat, nat)>)
    requires a <= b
    ensures |a| <= |b|
  {
    assert a + (b - a) == b;
  }

  lemma SmallerSet(a: set<(nat, nat)>, b: set<(nat, nat)>, p: (nat, nat))
    requires a <= b && p in b && p !in a
    ensures |a| < |b|
  {
    NoLarger(a, b - {p});
  }

  /** Main result on "never left with no role": in every reachable state the handlers that have begun can
      leave a user without a role if and only if each role the user holds is about to be taken by one of them:
      it is then a matter of their order only. */
  lemma StrippedIffAllThreatened(tr: seq<State>, ev: seq<Event>, m: nat, user: nat)
    requires IsRun(tr, ev) && m < |tr|
    ensures CanStrip(tr[m], user) <==> AllThreatened(tr[m], user)
  {
    var s := tr[m];
    DueExistsRun(tr, ev, m);
    if AllThreatened(s, user) {
      var path, steps := Strip(s, user);
      assert CanStrip(s, user);
    } else {
      var p :| p in s.held && p.0 == user && !Threatened(s, p);
      forall path: seq<State>, steps: seq<Event> | IsPath(path, steps) && path[0] == s
        ensures HasRole(path[|steps|], user)
      {
        SafeRoleRun(path, steps, |steps|, p);
        assert p in path[|steps|].held && p.0 == user;
      }
    }
  }

  lemma {:induction false} DueExistsRun(tr: seq<State>, ev: seq<Event>, m: nat)
    requires IsRun(tr, ev) && m < |tr|
    ensures forall h :: DueExists(tr[m], h)
  {
    if m > 0 {
      DueExistsRun(tr, ev, m - 1);
      forall h ensures DueExists(tr[m], h) {
        DueExistsStep(tr[m - 1], ev[m - 1], h);
      }
    }
  }

  /** For a removal that has passed its check: the user can end up without a role if and only if another
      handler is about to take each other role. */
  lemma RemovalCanStripIff(tr: seq<State>, ev: seq<Event>, m: nat, h: nat)
    requires IsRun(tr, ev) && m < |tr| && h in tr[m].handlers && tr[m].handlers[h].Removing?
    ensures var s, user, role := tr[m], tr[m].handlers[h].user, tr[m].handlers[h].role;
      CanStrip(s, user) <==>
        forall p :: p in s.held && p.0 == user && p.1 != role ==> exists q :: q != h && TakenBy(s, q, p)
  {
    var s, user, role := tr[m], tr[m].handlers[h].user, tr[m].handlers[h].role;
    StrippedIffAllThreatened(tr, ev, m, user);
    if AllThreatened(s, user) {
      forall p | p in s.held && p.0 == user && p.1 != role ensures exists q :: q != h && TakenBy(s, q, p) {
        assert Threatened(s, p);
        var q :| TakenBy(s, q, p);
        assert q != h;
      }
    }
    if forall p :: p in s.held && p.0 == user && p.1 != role ==> exists q :: q != h && TakenBy(s, q, p) {
      forall p | p in s.held && p.0 == user ensures Threatened(s, p) {
        if p.1 == role {
          assert p == (user, role) && TakenBy(s, h, p);
        } else {
          var q :| q != h && TakenBy(s, q, p);
        }
      }
    }
  }

  /** The step takes a role from the user. */
  ghost predicate TakesFrom(s: State, e: Event, user: nat) {
    Enabled(s, e) && exists p :: p in s.held && p.0 == user && p !in Apply(s, e).held
  }

  lemma {:induction false} OtherRoleStays(tr: seq<State>, ev: seq<Event>, i: nat, m: nat, user: nat, p: (nat, nat))
    requires IsRun(tr, ev) && i <= m < |tr| && p in tr[i].held && p.0 == user
    requires forall j :: i <= j < m ==> !TakesFrom(tr[j], ev[j], user)
    ensures p in tr[m].held
  {
    if i < m {
      OtherRoleStays(tr, ev, i, m - 1, user, p);
      assert !TakesFrom(tr[m - 1], ev[m - 1], user);
    }
  }

  /** removeFromUser keeps its promise in every run in which nothing else takes a role of the user between its
      check and its transaction. */
  lemma UndisturbedRemovalKeepsARole(tr: seq<State>, ev: seq<Event>, i: nat, m: nat, h: nat, user: nat, role: nat)
    requires IsRun(tr, ev) && i < m < |ev| && ev[i] == BeginRemove(h, user, role) && ev[m] == Remove(h)
    requires tr[i + 1].handlers[h] == Removing(user, role) && tr[m].handlers[h] == Removing(user, role)
    requires forall j :: i < j < m ==> !TakesFrom(tr[j], ev[j], user)
    ensures HasRole(tr[m + 1], user)
  {
    var p :| p in tr[i].held && p.0 == user && p.1 != role;
    OtherRoleStays(tr, ev, i + 1, m, user, p);
    assert p in tr[m + 1].held;
  }

  /** A row the job works on, or has ended, is past its date. */
  ghost predicate DateOk(s: State, i: nat) {
    i < |s.rows| && s.rows[i].status == EXPIRED ==> s.rows[i].expiresAt <= s.now
  }

  ghost predicate DueOk(s: State, h: nat) {
    h in s.handlers && s.handlers[h].Expiring? ==>
      forall k :: 0 <= k < |s.handlers[h].due| ==>
        s.handlers[h].due[k] < |s.rows| && s.rows[s.handlers[h].due[k]].expiresAt <= s.now
  }

  lemma DueStep(s: State, e: Event, h: nat)
    requires Enabled(s, e) && DueOk(s, h)
    ensures DueOk(Apply(s, e), h)
  {
    match e
    case ExpireNext(q, ok) =>
      if q == h {
        var due := s.handlers[h].due;
        assert forall k :: 0 <= k < |due| - 1 ==> due[1..][k] == due[k + 1];
      }
    case _ =>
  }

  lemma DateStep(s: State, e: Event, i: nat)
    requires Enabled(s, e) && DateOk(s, i) && (e.ExpireNext? ==> DueOk(s, e.handler))
    ensures DateOk(Apply(s, e), i)
  {
    match e
    case ExpireNext(q, ok) => assert s.handlers[q].due[0] < |s.rows|;
    case _ =>
  }

  /** Nobody loses a temporary role before its date. */
  lemma {:induction false} ExpiredOnlyPastTheirDate(tr: seq<State>, ev: seq<Event>, m: nat)
    requires IsRun(tr, ev) && m < |tr|
    ensures forall i: nat :: DateOk(tr[m], i)
    ensures forall h :: DueOk(tr[m], h)
  {
    if m > 0 {
      ExpiredOnlyPastTheirDate(tr, ev, m - 1);
      forall i: nat ensures DateOk(tr[m], i) {
        DateStep(tr[m - 1], ev[m - 1], i);
      }
      forall h ensures DueOk(tr[m], h) {
        DueStep(tr[m - 1], ev[m - 1], h);
      }
    }
  }

  // The two exceptions happen.

  lemma Extend(tr: seq<State>, ev: seq<Event>, e: Event, t: State) returns (tr': seq<State>, ev': seq<Event>)
    requires IsRun(tr, ev) && Enabled(tr[|ev|], e) && t == Apply(tr[|ev|], e)
    ensures tr' == tr + [t] && ev' == ev + [e] && IsRun(tr', ev')
  {
    tr', ev' := tr + [t], ev + [e];
  }

  /** Two removals, each of which saw the other's role, leave a user without any. */
  lemma TwoRemovalsLeaveNone() returns (tr: seq<State>, ev: seq<Event>)
    ensures IsRun(tr, ev) && |ev| == 4
    ensures tr[0].held == {(1, 1), (1, 2)} && tr[4].held == {}
  {
    var both: set<(nat, nat)> := {(1, 1), (1, 2)};
    tr, ev := [State(0, [], both, map[])], [];
    assert (1, 2) in both && (1, 1) in both;
    assert HasOther(tr[0], 1, 1) && HasOther(tr[0], 1, 2);
    tr, ev := Extend(tr, ev, BeginRemove(1, 1, 1), State(0, [], both, map[1 := Removing(1, 1)]));
    assert (1, 1) in both && HasOther(tr[1], 1, 2);
    tr, ev := Extend(tr, ev, BeginRemove(2, 1, 2), State(0, [], both, map[1 := Removing(1, 1), 2 := Removing(1, 2)]));
    tr, ev := Extend(tr, ev, Remove(1), State(0, [], {(1, 2)}, map[1 := Finished, 2 := Removing(1, 2)]));
    tr, ev := Extend(tr, ev, Remove(2), State(0, [], {}, map[1 := Finished, 2 := Finished]));
  }

  lemma DueAndPickedUp(was: Grant, p: set<(nat, nat)>, q: set<(nat, nat)>) returns (tr: seq<State>, ev: seq<Event>)
    requires was == Grant(1, 1, ACTIVE, 5) && p == {(1, 1), (1, 2)} && q == {(1, 2)}
    ensures IsRun(tr, ev) && |ev| == 4 && tr[4] == State(5, [was], p, map[1 := Finished, 2 := Expiring([0])])
  {
    tr, ev := [State(0, [], q, map[])], [];
    tr, ev := Extend(tr, ev, BeginAssign(1, 1, 1, Some(5)), State(0, [], q, map[1 := Assigning(1, 1, Some(5))]));
    tr, ev := Extend(tr, ev, Assign(1), State(0, [was], p, map[1 := Finished]));
    tr, ev := Extend(tr, ev, Tick(5), State(5, [was], p, map[1 := Finished]));
    tr, ev := Extend(tr, ev, BeginExpiry(2, [0]), State(5, [was], p, map[1 := Finished, 2 := Expiring([0])]));
  }

  lemma RevokedMeanwhile(was: Grant, p: set<(nat, nat)>, q: set<(nat, nat)>, h: map<nat, Stage>)
    returns (tr: seq<State>, ev: seq<Event>)
    requires was == Grant(1, 1, ACTIVE, 5) && p == {(1, 1), (1, 2)} && q == {(1, 2)}
    requires h == map[1 := Finished, 2 := Expiring([0]), 3 := Finished]
    ensures IsRun(tr, ev) && |ev| == 6 && tr[6] == State(5, [was.(status := REVOKED)], q, h)
  {
    tr, ev := DueAndPickedUp(was, p, q);
    assert (1, 2) in p && (1, 1) in p && HasOther(tr[4], 1, 1);
    tr, ev := Extend(tr, ev, BeginRemove(3, 1, 1), State(5, [was], p, h[3 := Removing(1, 1)]));
    tr, ev := Extend(tr, ev, Remove(3), State(5, [was.(status := REVOKED)], q, h));
  }

  /** Without any interleaving: a user's permanent role is removed while a temporary one is held, and when its
      date comes the expiry job takes that last role too. */
  lemma ExpiryTakesLastRole(was: Grant) returns (tr: seq<State>, ev: seq<Event>)
    requires was == Grant(1, 1, ACTIVE, 5)
    ensures IsRun(tr, ev) && |ev| == 7 && tr[0].held == {(1, 2)} && !HasRole(tr[7], 1)
    ensures ev == [BeginAssign(1, 1, 1, Some(5)), Assign(1), BeginRemove(2, 1, 2), Remove(2), Tick(5),
                   BeginExpiry(3, [0]), ExpireNext(3, true)]
  {
    var p, q, r: set<(nat, nat)> := {(1, 1), (1, 2)}, {(1, 2)}, {(1, 1)};
    var h: map<nat, Stage> := map[1 := Finished, 2 := Finished];
    tr, ev := [State(0, [], q, map[])], [];
    tr, ev := Extend(tr, ev, BeginAssign(1, 1, 1, Some(5)), State(0, [], q, map[1 := Assigning(1, 1, Some(5))]));
    tr, ev := Extend(tr, ev, Assign(1), State(0, [was], p, map[1 := Finished]));
    assert (1, 1) in p && (1, 2) in p && HasOther(tr[2], 1, 2);
    tr, ev := Extend(tr, ev, BeginRemove(2, 1, 2), State(0, [was], p, h[2 := Removing(1, 2)]));
    assert p - {(1, 2)} == r;
    tr, ev := Extend(tr, ev, Remove(2), State(0, [was], r, h));
    tr, ev := ThenExpires(tr, ev, was, r, h);
  }

  lemma ThenExpires(tr: seq<State>, ev: seq<Event>, was: Grant, r: set<(nat, nat)>, h: map<nat, Stage>)
    returns (tr': seq<State>, ev': seq<Event>)
    requires was == Grant(1, 1, ACTIVE, 5) && r == {(1, 1)} && h == map[1 := Finished, 2 := Finished]
    requires IsRun(tr, ev) && |ev| == 4 && tr[4] == State(0, [was], r, h)
    ensures IsRun(tr', ev') && tr'[0] == tr[0] && ev' == ev + [Tick(5), BeginExpiry(3, [0]), ExpireNext(3, true)]
    ensures tr'[7].held == {}
  {
    var due: seq<nat> := [0];
    tr', ev' := Extend(tr, ev, Tick(5), State(5, [was], r, h));
    tr', ev' := Extend(tr', ev', BeginExpiry(3, due), State(5, [was], r, h[3 := Expiring(due)]));
    assert due[1..] == [] && r - {(1, 1)} == {};
    tr', ev' := Extend(tr', ev', ExpireNext(3, true), State(5, [was.(status := EXPIRED)], {}, h[3 := Expiring([])]));
  }

  /** A due grant is revoked and given anew while the expiry job is at work: the job then takes the role of
      the new grant, which stays active. */
  lemma NewGrantLosesItsRole(was: Grant, anew: Grant) returns (tr: seq<State>, ev: seq<Event>)
    requires was == Grant(1, 1, ACTIVE, 5) && anew == Grant(1, 1, ACTIVE, 90)
    ensures IsRun(tr, ev) && |ev| == 9 && EndsTwice(tr[8], ev[8])
    ensures tr[9].rows == [was.(status := EXPIRED), anew] && tr[9].held == {(1, 2)}
  {
    var p, q: set<(nat, nat)> := {(1, 1), (1, 2)}, {(1, 2)};
    var h: map<nat, Stage> := map[1 := Finished, 2 := Expiring([0]), 3 := Finished];
    var revoked := was.(status := REVOKED);
    tr, ev := RevokedMeanwhile(was, p, q, h);
    tr, ev := Extend(tr, ev, BeginAssign(4, 1, 1, Some(90)), State(5, [revoked], q, h[4 := Assigning(1, 1, Some(90))]));
    tr, ev := Extend(tr, ev, Assign(4), State(5, [revoked, anew], p, h[4 := Finished]));
    assert OtherActive(tr[8], 0, 1);
    var due: seq<nat> := [0];
    assert due[1..] == [] && p - {(1, 1)} == q;
    tr, ev := Extend(tr, ev, ExpireNext(2, true), State(5, [was.(status := EXPIRED), anew], q, h[4 := Finished][2 := Expiring([])]));
  }

  // ---------------------------------------------------------------- a whole expiry job

  /** The job without other handlers in between; `oks` says which of its transactions succeed. */
  function Sweep(s: State, due: seq<nat>, oks: seq<bool>): State
    requires |oks| == |due| && forall k :: 0 <= k < |due| ==> due[k] < |s.rows|
    decreases |due|
  {
    if due == [] then s
    else Sweep(if oks[0] then ExpireRow(s, due[0]) else s, due[1..], oks[1..])
  }

  /** The row is among those the job ends. */
  predicate Ended(due: seq<nat>, oks: seq<bool>, id: nat)
    requires |oks| == |due|
  {
    exists k :: 0 <= k < |due| && due[k] == id && oks[k]
  }

  /** A whole job keeps the invariant, ends exactly the due rows whose transactions succeed, and takes exactly
      their roles away. */
  lemma {:induction false} SweepEndsTheDue(s: State, due: seq<nat>, oks: seq<bool>)
    requires Inv(s) && |oks| == |due| && IsDue(s, due)
    ensures var t := Sweep(s, due, oks);
      && Inv(t) && |t.rows| == |s.rows| && t.now == s.now && t.handlers == s.handlers
      && (forall i :: 0 <= i < |s.rows| ==>
            t.rows[i] == if Ended(due, oks, i) then s.rows[i].(status := EXPIRED) else s.rows[i])
      && (forall p :: p in t.held <==>
            p in s.held && !exists k :: 0 <= k < |due| && oks[k] && Pair(s.rows[due[k]]) == p)
    decreases |due|
  {
    if due != [] {
      var u := if oks[0] then ExpireRow(s, due[0]) else s;
      SweepOnce(s, due, oks[0]);
      SweepEndsTheDue(u, due[1..], oks[1..]);
      var t := Sweep(s, due, oks);
      forall i: nat | i < |s.rows|
        ensures t.rows[i] == if Ended(due, oks, i) then s.rows[i].(status := EXPIRED) else s.rows[i]
      {
        EndedTail(due, oks, i);
      }
      forall p
        ensures p in t.held <==>
                p in s.held && !exists k :: 0 <= k < |due| && oks[k] && Pair(s.rows[due[k]]) == p
      {
        HeldTail(s, u, due, oks, p);
      }
    }
  }

  lemma SweepOnce(s: State, due: seq<nat>, ok: bool)
    requires Inv(s) && IsDue(s, due) && due != []
    ensures var u := if ok then ExpireRow(s, due[0]) else s;
      && Inv(u) && IsDue(u, due[1..]) && |u.rows| == |s.rows|
  {
    ExpiryKeepsIffSoleGrant(s, due[0]);
    forall j ensures !OtherActive(s, due[0], j) {
      if 0 <= j { assert OneActive(s, due[0], j); }
    }
  }

  lemma EndedTail(due: seq<nat>, oks: seq<bool>, id: nat)
    requires |oks| == |due| && due != []
    ensures Ended(due, oks, id) <==> (due[0] == id && oks[0]) || Ended(due[1..], oks[1..], id)
  {
    if Ended(due, oks, id) {
      var k :| 0 <= k < |due| && due[k] == id && oks[k];
      if k > 0 { assert due[1..][k - 1] == id && oks[1..][k - 1]; }
    }
    if Ended(due[1..], oks[1..], id) {
      var k :| 0 <= k < |due| - 1 && due[1..][k] == id && oks[1..][k];
      assert due[k + 1] == id && oks[k + 1];
    }
  }

  predicate Loses(rows: seq<Grant>, due: seq<nat>, oks: seq<bool>, p: (nat, nat))
    requires |oks| == |due| && forall k :: 0 <= k < |due| ==> due[k] < |rows|
  {
    exists k :: 0 <= k < |due| && oks[k] && Pair(rows[due[k]]) == p
  }

  lemma HeldTail(s: State, u: State, due: seq<nat>, oks: seq<bool>, p: (nat, nat))
    requires |oks| == |due| && due != [] && IsDue(s, due)
    requires u == if oks[0] then ExpireRow(s, due[0]) else s
    ensures Loses(s.rows, due, oks, p) <==> (oks[0] && Pair(s.rows[due[0]]) == p) || Loses(u.rows, due[1..], oks[1..], p)
  {
    if Loses(s.rows, due, oks, p) {
      var k :| 0 <= k < |due| && oks[k] && Pair(s.rows[due[k]]) == p;
      if k > 0 { assert oks[1..][k - 1] && Pair(u.rows[due[1..][k - 1]]) == p; }
    }
    if Loses(u.rows, due[1..], oks[1..], p) {
      var k :| 0 <= k < |due| - 1 && oks[1..][k] && Pair(u.rows[due[1..][k]]) == p;
      assert oks[k + 1] && Pair(s.rows[due[k + 1]]) == p;
    }
  }

  // ---------------------------------------------------------------- every change has its cause

  /** The step gives the user the role. */
  predicate GivesRole(s: State, e: Event, pair: (nat, nat)) {
    || e == Change(pair.0, pair.1, true)
    || (e.Assign? && e.handler in s.handlers && s.handlers[e.handler].Assigning?
        && (s.handlers[e.handler].user, s.handlers[e.handler].role) == pair)
  }

  predicate RemovesRole(s: State, e: Event, pair: (nat, nat)) {
    e.Remove? && e.handler in s.handlers && s.handlers[e.handler] == Removing(pair.0, pair.1)
  }

  predicate ExpiresRow(s: State, e: Event, id: nat) {
    && e.ExpireNext? && e.ok && e.handler in s.handlers && s.handlers[e.handler].Expiring?
    && s.handlers[e.handler].due != [] && s.handlers[e.handler].due[0] == id
  }

  predicate TakesRole(s: State, e: Event, pair: (nat, nat)) {
    || e == Change(pair.0, pair.1, false)
    || RemovesRole(s, e, pair)
    || (e.ExpireNext? && e.handler in s.handlers && s.handlers[e.handler].Expiring? && s.handlers[e.handler].due != []
        && ExpiresRow(s, e, s.handlers[e.handler].due[0]) && s.handlers[e.handler].due[0] < |s.rows|
        && Pair(s.rows[s.handlers[e.handler].due[0]]) == pair)
  }

  /** A role appears with a user only by an assignment, and goes only by a removal, an expiry, or another service. */
  lemma RolesChangeByCause(s: State, e: Event, pair: (nat, nat))
    requires Enabled(s, e)
    ensures pair in Apply(s, e).held && pair !in s.held ==> GivesRole(s, e, pair)
    ensures pair in s.held && pair !in Apply(s, e).held ==> TakesRole(s, e, pair)
  {
  }

  /** A new row is the assignment that was asked for; a row's status changes only by its own cause. */
  lemma RowStep(s: State, e: Event, i: nat)
    requires Enabled(s, e) && i < |Apply(s, e).rows|
    ensures i >= |s.rows| ==>
      && i == |s.rows| && e.Assign? && s.handlers[e.handler].until.Some?
      && Apply(s, e).rows[i] == Grant(s.handlers[e.handler].user, s.handlers[e.handler].role, ACTIVE, s.handlers[e.handler].until.value)
    ensures i < |s.rows| && Apply(s, e).rows[i] != s.rows[i] ==>
      || (RemovesRole(s, e, Pair(s.rows[i])) && s.rows[i].status == ACTIVE && Apply(s, e).rows[i] == s.rows[i].(status := REVOKED))
      || (ExpiresRow(s, e, i) && Apply(s, e).rows[i] == s.rows[i].(status := EXPIRED))
  {
    match e
    case Remove(_) =>
    case ExpireNext(_, _) =>
    case _ =>
  }

  /** In every run a REVOKED grant was ended by a removal of its role from its user, and an EXPIRED one by the expiry
      job. */
  lemma {:induction false} EndedGrantHasCause(tr: seq<State>, ev: seq<Event>, m: nat, i: nat) returns (j: nat)
    requires IsRun(tr, ev) && m < |tr| && i < |tr[m].rows| && tr[m].rows[i].status != ACTIVE
    ensures j < m
    ensures if tr[m].rows[i].status == REVOKED then RemovesRole(tr[j], ev[j], Pair(tr[m].rows[i])) else ExpiresRow(tr[j], ev[j], i)
  {
    RowStep(tr[m - 1], ev[m - 1], i);
    if i < |tr[m - 1].rows| && tr[m - 1].rows[i] == tr[m].rows[i] {
      j := EndedGrantHasCause(tr, ev, m - 1, i);
    } else {
      j := m - 1;
    }
  }

  // ---------------------------------------------------------------- a handler by itself

  /** An assignment that nothing interrupts gives the role, and if it has an end records it, exactly if the user does
      not hold the role and the end lies ahead; otherwise nothing changes. */
  lemma AssignmentAlone(s: State, h: nat, user: nat, role: nat, until: Option<int>)
    requires h !in s.handlers
    ensures var s1 := Apply(s, BeginAssign(h, user, role, until));
      && s1.rows == s.rows && s1.held == s.held
      && if (user, role) in s.held || (until.Some? && until.value <= s.now) then s1.handlers[h] == Finished
         else
           && Enabled(s1, Assign(h))
           && var t := Apply(s1, Assign(h));
              && t.held == s.held + {(user, role)}
              && t.rows == s.rows + if until.Some? then [Grant(user, role, ACTIVE, until.value)] else []
  {
  }

  /** A removal that nothing interrupts takes the role and ends its active grants, exactly if the user holds the role
      and another one; otherwise nothing changes. */
  lemma RemovalAlone(s: State, h: nat, user: nat, role: nat)
    requires h !in s.handlers
    ensures var s1 := Apply(s, BeginRemove(h, user, role));
      && s1.rows == s.rows && s1.held == s.held
      && if (user, role) in s.held && exists other :: other != role && (user, other) in s.held
         then
           && Enabled(s1, Remove(h))
           && var t := Apply(s1, Remove(h));
              && t.held == s.held - {(user, role)} && |t.rows| == |s.rows|
              && forall i :: 0 <= i < |s.rows| ==>
                   t.rows[i] == if s.rows[i].user == user && s.rows[i].role == role && s.rows[i].status == ACTIVE
                                then s.rows[i].(status := REVOKED) else s.rows[i]
         else s1.handlers[h] == Finished
  {
    if exists other :: other != role && (user, other) in s.held {
      var other :| other != role && (user, other) in s.held;
      assert (user, other).0 == user && (user, other).1 != role;
    }
    if HasOther(s, user, role) {
      var p :| p in s.held && p.0 == user && p.1 != role;
      assert (user, p.1) == p;
    }
  }

  /** The expiry of a due row takes its role and marks it. */
  lemma ExpiryAlone(s: State, h: nat, id: nat)
    requires h !in s.handlers && id < |s.rows| && s.rows[id].status == ACTIVE && s.rows[id].expiresAt <= s.now
    ensures Enabled(s, BeginExpiry(h, [id]))
    ensures var s1 := Apply(s, BeginExpiry(h, [id]));
      && Enabled(s1, ExpireNext(h, true))
      && var t := Apply(s1, ExpireNext(h, true));
         && t.rows == s.rows[id := s.rows[id].(status := EXPIRED)]
         && t.held == s.held - {(s.rows[id].user, s.rows[id].role)}
  {
  }

  // ---------------------------------------------------------------- the code, step by step

  class GrantTable {
    var now: int
    var rows: seq<Grant>
    var held: set<(nat, nat)>
    var handlers: map<nat, Stage>

    ghost function View(): State
      reads this
    {
      State(now, rows, held, handlers)
    }

    constructor (held: set<(nat, nat)>)
      ensures View() == State(0, [], held, map[])
    {
      this.held, now, rows, handlers := held, 0, [], map[];
    }

    /** The checks of assignToUser and, with an end, of assignTemporarily. */
    method CheckAssignment(h: nat, user: nat, role: nat, until: Option<int>)
      requires Enabled(View(), BeginAssign(h, user, role, until))
      modifies this`handlers
      ensures View() == Apply(old(View()), BeginAssign(h, user, role, until))
    {
      handlers := handlers[h := Finished];
      if until.Some? && until.value <= now {
        return;
      }
      if (user, role) !in held {
        handlers := handlers[h := Assigning(user, role, until)];
      }
    }

    /** A write to userRole by another service. */
    method ChangeRole(user: nat, role: nat, add: bool)
      modifies this`held
      ensures View() == Apply(old(View()), Change(user, role, add))
    {
      held := if add then held + {(user, role)} else held - {(user, role)};
    }

    method AssignInTransaction(h: nat)
      requires Enabled(View(), Assign(h))
      modifies this`rows, this`held, this`handlers
      ensures View() == Apply(old(View()), Assign(h))
    {
      var st := handlers[h];
      handlers := handlers[h := Finished];
      if (st.user, st.role) in held {
        return;
      }
      held := held + {(st.user, st.role)};
      if st.until.Some? {
        rows := rows + [Grant(st.user, st.role, ACTIVE, st.until.value)];
      }
    }

    method CheckRemoval(h: nat, user: nat, role: nat)
      requires Enabled(View(), BeginRemove(h, user, role))
      modifies this`handlers
      ensures View() == Apply(old(View()), BeginRemove(h, user, role))
    {
      var isLast := !exists p :: p in held && p.0 == user && p.1 != role;
      handlers := handlers[h := if (user, role) in held && !isLast then Removing(user, role) else Finished];
    }

    method RemoveInTransaction(h: nat)
      requires Enabled(View(), Remove(h))
      modifies this`rows, this`held, this`handlers
      ensures View() == Apply(old(View()), Remove(h))
    {
      var st := handlers[h];
      handlers := handlers[h := Finished];
      if (st.user, st.role) in held {
        held := held - {(st.user, st.role)};
        rows := RevokeAll(rows, (st.user, st.role));
      }
    }

    method ExpireInTransaction(id: nat)
      requires id < |rows|
      modifies this`rows, this`held
      ensures View() == ExpireRow(old(View()), id)
    {
      held := held - {(rows[id].user, rows[id].role)};
      rows := rows[id := rows[id].(status := EXPIRED)];
    }

    /** The loop of the expiry job over what it found due; a failed transaction is skipped. */
    method ExpireTemporary(due: seq<nat>, oks: seq<bool>) returns (expired: nat)
      requires |oks| == |due| && IsDue(View(), due)
      modifies this`rows, this`held
      ensures View() == Sweep(old(View()), due, oks)
      ensures expired == CountTrue(oks)
    {
      expired := 0;
      for k := 0 to |due|
        invariant |rows| == old(|rows|)
        invariant Sweep(View(), due[k..], oks[k..]) == Sweep(old(View()), due, oks)
        invariant expired + CountTrue(oks[k..]) == CountTrue(oks)
      {
        assert due[k..][1..] == due[k + 1..] && oks[k..][1..] == oks[k + 1..];
        if oks[k] {
          ExpireInTransaction(due[k]);
          expired := expired + 1;
        }
      }
    }
  }

  function CountTrue(oks: seq<bool>): nat {
    if oks == [] then 0 else (if oks[0] then 1 else 0) + CountTrue(oks[1..])
  }
}
