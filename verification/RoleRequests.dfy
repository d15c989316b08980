/** Requests for a role and their review by a second person: requestAssignment, reviewAssignmentRequest,
    expireStaleRequests and archive, with handlers interleaved between every two awaits. A transaction, and
    each statement outside one, is one step. */
module RoleRequests {
  import opened Options
  import Sets

  datatype Status = PENDING | APPROVED | REJECTED | EXPIRED | CANCELLED

  datatype Request = Request(
    role: nat, target: nat, requester: nat, status: Status, expiresAt: int, reviewer: Option<nat>)

  datatype Decision = Approve | Reject(noteGiven: bool)

  datatype Stage =
    | ReadingStale(role: nat, target: nat, requester: nat)
    | UpdatingStale(role: nat, target: nat, requester: nat, stale: set<nat>)
    | FindingPending(role: nat, target: nat, requester: nat)
    | Creating(role: nat, target: nat, requester: nat)
    | Expiring(id: nat)
    | Rejecting(id: nat, actor: nat)
    | LoadingTarget(id: nat, actor: nat)
    | Approving(id: nat, actor: nat)
    | Ended

  /** `held` are the rows of userRole: (user, role). Requests are numbered as they are created. */
  datatype State = State(now: int, lifetime: nat, rows: seq<Request>, held: set<(nat, nat)>, handlers: map<nat, Stage>)

  /** The parameter `allowed` stands for the checks on roles and staff members that are made elsewhere. */
  datatype Event =
    | Tick(dt: nat)
    | Change(user: nat, role: nat, add: bool)
    | Archive(role: nat)
    | Ask(handler: nat, role: nat, target: nat, requester: nat, allowed: bool)
    | ReadStale(handler: nat)
    | UpdateStale(handler: nat)
    | FindPending(handler: nat)
    | Create(handler: nat)
    | Review(handler: nat, id: nat, actor: nat, decision: Decision)
    | ExpireOne(handler: nat)
    | RejectOne(handler: nat)
    | LoadTarget(handler: nat, allowed: bool)
    | ApproveOne(handler: nat)

  predicate At(s: State, h: nat, e: Event) {
    h in s.handlers &&
      match e
      case ReadStale(_) => s.handlers[h].ReadingStale?
      case UpdateStale(_) => s.handlers[h].UpdatingStale?
      case FindPending(_) => s.handlers[h].FindingPending?
      case Create(_) => s.handlers[h].Creating?
      case ExpireOne(_) => s.handlers[h].Expiring? && s.handlers[h].id < |s.rows|
      case RejectOne(_) => s.handlers[h].Rejecting? && s.handlers[h].id < |s.rows|
      case LoadTarget(_, _) => s.handlers[h].LoadingTarget? && s.handlers[h].id < |s.rows|
      case ApproveOne(_) => s.handlers[h].Approving? && s.handlers[h].id < |s.rows|
      case _ => false
  }

  predicate Enabled(s: State, e: Event) {
    match e
    case Tick(_) => true
    case Change(_, _, _) => true
    case Archive(_) => true
    case Ask(h, _, _, _, _) => h !in s.handlers
    case Review(h, _, _, _) => h !in s.handlers
    case _ => At(s, e.handler, e)
  }

  function Go(s: State, h: nat, stage: Stage): State {
    s.(handlers := s.handlers[h := stage])
  }

  function SetStatus(s: State, id: nat, status: Status): State
    requires id < |s.rows|
  {
    s.(rows := s.rows[id := s.rows[id].(status := status)])
  }

  function Decide(s: State, id: nat, status: Status, actor: nat): State
    requires id < |s.rows|
  {
    s.(rows := s.rows[id := s.rows[id].(status := status, reviewer := Some(actor))])
  }

  function CancelRow(r: Request, role: nat): Request {
    if r.role == role && r.status == PENDING then r.(status := CANCELLED) else r
  }

  function CancelAll(rows: seq<Request>, role: nat): (out: seq<Request>)
    ensures |out| == |rows|
    ensures forall i :: 0 <= i < |rows| ==> out[i] == CancelRow(rows[i], role)
  {
    if rows == [] then []
    else CancelAll(rows[..|rows| - 1], role) + [CancelRow(rows[|rows| - 1], role)]
  }

  function ExpireRow(r: Request, chosen: bool): Request {
    if chosen && r.status == PENDING then r.(status := EXPIRED) else r
  }

  function ExpireAll(rows: seq<Request>, ids: set<nat>): (out: seq<Request>)
    ensures |out| == |rows|
    ensures forall i :: 0 <= i < |rows| ==> out[i] == ExpireRow(rows[i], i in ids)
  {
    if rows == [] then []
    else ExpireAll(rows[..|rows| - 1], ids) + [ExpireRow(rows[|rows| - 1], |rows| - 1 in ids)]
  }

  function Stale(s: State): set<nat> {
    set i: nat | i < |s.rows| && s.rows[i].status == PENDING && s.rows[i].expiresAt <= s.now
  }

  predicate HasPending(s: State, role: nat, target: nat) {
    exists i :: 0 <= i < |s.rows| && s.rows[i].role == role && s.rows[i].target == target && s.rows[i].status == PENDING
  }

  /** The read of the request and the checks made on it at once. */
  function ReviewStep(s: State, h: nat, id: nat, actor: nat, decision: Decision): State {
    Go(s, h,
       if id >= |s.rows| || s.rows[id].requester == actor || s.rows[id].status != PENDING then Ended
       else if s.rows[id].expiresAt <= s.now then Expiring(id)
       else match decision
         case Reject(noteGiven) => if noteGiven then Rejecting(id, actor) else Ended
         case Approve => LoadingTarget(id, actor))
  }

  /** The approval transaction: a grant that exists already makes the insert fail and undoes the claim. */
  function ApproveStep(s: State, h: nat, id: nat, actor: nat): State
    requires id < |s.rows|
  {
    var r := s.rows[id];
    if r.status != PENDING || (r.target, r.role) in s.held then Go(s, h, Ended)
    else Go(Decide(s, id, APPROVED, actor), h, Ended).(held := s.held + {(r.target, r.role)})
  }

  function Apply(s: State, e: Event): State
    requires Enabled(s, e)
  {
    match e
    case Tick(dt) => s.(now := s.now + dt)
    case Change(user, role, add) => s.(held := if add then s.held + {(user, role)} else s.held - {(user, role)})
    case Archive(role) => s.(rows := CancelAll(s.rows, role))
    case Ask(h, role, target, requester, allowed) =>
      Go(s, h, if allowed && (target, role) !in s.held then ReadingStale(role, target, requester) else Ended)
    case ReadStale(h) =>
      var st := s.handlers[h];
      Go(s, h, UpdatingStale(st.role, st.target, st.requester, Stale(s)))
    case UpdateStale(h) =>
      var st := s.handlers[h];
      Go(s, h, FindingPending(st.role, st.target, st.requester)).(rows := ExpireAll(s.rows, st.stale))
    case FindPending(h) =>
      var st := s.handlers[h];
      Go(s, h, if HasPending(s, st.role, st.target) then Ended else Creating(st.role, st.target, st.requester))
    case Create(h) =>
      var st := s.handlers[h];
      Go(s, h, Ended)
        .(rows := s.rows + [Request(st.role, st.target, st.requester, PENDING, s.now + s.lifetime, None)])
    case Review(h, id, actor, decision) => ReviewStep(s, h, id, actor, decision)
    case ExpireOne(h) => Go(SetStatus(s, s.handlers[h].id, EXPIRED), h, Ended)
    case RejectOne(h) =>
      var st := s.handlers[h];
      if s.rows[st.id].status != PENDING then Go(s, h, Ended)
      else Go(Decide(s, st.id, REJECTED, st.actor), h, Ended)
    case LoadTarget(h, allowed) =>
      var st := s.handlers[h];
      var r := s.rows[st.id];
      Go(s, h, if allowed && (r.target, r.role) !in s.held then Approving(st.id, st.actor) else Ended)
    case ApproveOne(h) => ApproveStep(s, h, s.handlers[h].id, s.handlers[h].actor)
  }

  ghost predicate IsRun(tr: seq<State>, ev: seq<Event>) {
    && |tr| == |ev| + 1
    && tr[0].rows == [] && tr[0].handlers == map[]
    && forall i :: 0 <= i < |ev| ==> Enabled(tr[i], ev[i]) && tr[i + 1] == Apply(tr[i], ev[i])
  }

  // ---------------------------------------------------------------- invariant

  /** A decided request was decided by someone other than its requester. */
  ghost predicate RowOk(s: State, i: nat) {
    i < |s.rows| ==>
      && (s.rows[i].status in {APPROVED, REJECTED} ==> s.rows[i].reviewer.Some?)
      && (s.rows[i].reviewer.Some? ==> s.rows[i].reviewer.value != s.rows[i].requester)
      && (s.rows[i].status == EXPIRED ==> s.rows[i].expiresAt <= s.now)
  }

  predicate Reviews(st: Stage) {
    st.Rejecting? || st.LoadingTarget? || st.Approving?
  }

  ghost predicate HandlerOk(s: State, h: nat) {
    h in s.handlers ==>
      && (Reviews(s.handlers[h]) ==>
            s.handlers[h].id < |s.rows| && s.rows[s.handlers[h].id].requester != s.handlers[h].actor)
      && (s.handlers[h].Expiring? ==>
            s.handlers[h].id < |s.rows| && s.rows[s.handlers[h].id].expiresAt <= s.now)
      && (s.handlers[h].UpdatingStale? ==> forall i :: i in s.handlers[h].stale ==> StaleOk(s, i))
  }

  ghost predicate StaleOk(s: State, i: nat) {
    i < |s.rows| && s.rows[i].expiresAt <= s.now
  }

  ghost predicate Inv(s: State) {
    (forall i: nat :: RowOk(s, i)) && (forall h :: HandlerOk(s, h))
  }

  /** A step never removes a request, never changes whom it is about, and never makes it pending again. */
  ghost predicate RowGrows(s: State, t: State, i: nat) {
    i < |s.rows| ==>
      && i < |t.rows|
      && t.rows[i].role == s.rows[i].role && t.rows[i].target == s.rows[i].target
      && t.rows[i].requester == s.rows[i].requester && t.rows[i].expiresAt == s.rows[i].expiresAt
      && (t.rows[i].status == PENDING ==> s.rows[i].status == PENDING)
  }

  lemma RowStep(s: State, e: Event, i: nat)
    requires Enabled(s, e)
    ensures RowGrows(s, Apply(s, e), i) && s.now <= Apply(s, e).now
  {
    match e
    case Archive(_) =>
    case UpdateStale(_) =>
    case ApproveOne(_) =>
    case _ =>
  }

  lemma RowOkStep(s: State, e: Event, i: nat)
    requires Inv(s) && Enabled(s, e)
    ensures RowOk(Apply(s, e), i)
  {
    assert RowOk(s, i);
    match e
    case RejectOne(h) => assert HandlerOk(s, h);
    case ApproveOne(h) => assert HandlerOk(s, h);
    case ExpireOne(h) => assert HandlerOk(s, h);
    case UpdateStale(h) =>
      assert HandlerOk(s, h);
      assert i in s.handlers[h].stale ==> StaleOk(s, i);
    case _ =>
  }

  lemma HandlerOkStep(s: State, e: Event, h: nat)
    requires Inv(s) && Enabled(s, e)
    ensures HandlerOk(Apply(s, e), h)
  {
    assert HandlerOk(s, h);
    if h in s.handlers && (Reviews(s.handlers[h]) || s.handlers[h].Expiring?) {
      RowStep(s, e, s.handlers[h].id);
    }
    if h in s.handlers && s.handlers[h].UpdatingStale? {
      forall i | i in s.handlers[h].stale ensures StaleOk(Apply(s, e), i) {
        assert StaleOk(s, i);
        RowStep(s, e, i);
      }
    }
    match e
    case Review(_, _, _, _) =>
    case _ =>
  }

  lemma {:induction false} InvRun(tr: seq<State>, ev: seq<Event>, m: nat)
    requires IsRun(tr, ev) && m < |tr|
    ensures Inv(tr[m])
  {
    if m > 0 {
      InvRun(tr, ev, m - 1);
      forall i: nat ensures RowOk(tr[m], i) {
        RowOkStep(tr[m - 1], ev[m - 1], i);
      }
      forall h ensures HandlerOk(tr[m], h) {
        HandlerOkStep(tr[m - 1], ev[m - 1], h);
      }
    }
  }

  // ---------------------------------------------------------------- main results

  /** A request leaves PENDING at most once: once it is anything else it is never pending again. */
  lemma {:induction false} NeverPendingAgain(tr: seq<State>, ev: seq<Event>, i: nat, m: nat, id: nat)
    requires IsRun(tr, ev) && i <= m < |tr| && id < |tr[i].rows|
    ensures RowGrows(tr[i], tr[m], id)
  {
    if i < m {
      NeverPendingAgain(tr, ev, i, m - 1, id);
      RowStep(tr[m - 1], ev[m - 1], id);
    }
  }

  /** The step grants a role because of a review. */
  predicate Grants(s: State, e: Event) {
    Enabled(s, e) && e.ApproveOne? && Apply(s, e).held != s.held
  }

  /** A grant is the one that was asked for: the pending request becomes APPROVED, someone other than the
      requester is its reviewer, and its target gets its role and nobody gets anything else. */
  lemma GrantIsTheRequest(tr: seq<State>, ev: seq<Event>, m: nat)
    requires IsRun(tr, ev) && m < |ev| && Grants(tr[m], ev[m])
    ensures var id := tr[m].handlers[ev[m].handler].id;
      && tr[m].rows[id].status == PENDING && tr[m + 1].rows[id].status == APPROVED
      && tr[m + 1].rows[id].reviewer == Some(tr[m].handlers[ev[m].handler].actor)
      && tr[m].handlers[ev[m].handler].actor != tr[m].rows[id].requester
      && tr[m + 1].held == tr[m].held + {(tr[m].rows[id].target, tr[m].rows[id].role)}
  {
    InvRun(tr, ev, m);
    assert HandlerOk(tr[m], ev[m].handler);
  }

  /** Each request grants its role at most once. */
  lemma GrantsAtMostOnce(tr: seq<State>, ev: seq<Event>, i: nat, m: nat)
    requires IsRun(tr, ev) && i < m < |ev| && Grants(tr[i], ev[i]) && Grants(tr[m], ev[m])
    ensures tr[i].handlers[ev[i].handler].id != tr[m].handlers[ev[m].handler].id
  {
    var id := tr[i].handlers[ev[i].handler].id;
    NeverPendingAgain(tr, ev, i + 1, m, id);
  }

  /** In every reachable state a decided request names a reviewer who is not its requester. */
  lemma DecidedByAnother(tr: seq<State>, ev: seq<Event>, m: nat, id: nat)
    requires IsRun(tr, ev) && m < |tr| && id < |tr[m].rows| && tr[m].rows[id].status in {APPROVED, REJECTED}
    ensures tr[m].rows[id].reviewer.Some? && tr[m].rows[id].reviewer.value != tr[m].rows[id].requester
  {
    InvRun(tr, ev, m);
    assert RowOk(tr[m], id);
  }

  /** A request is EXPIRED only past its date. */
  lemma ExpiredOnlyPastItsDate(tr: seq<State>, ev: seq<Event>, m: nat, id: nat)
    requires IsRun(tr, ev) && m < |tr| && id < |tr[m].rows| && tr[m].rows[id].status == EXPIRED
    ensures tr[m].rows[id].expiresAt <= tr[m].now
  {
    InvRun(tr, ev, m);
    assert RowOk(tr[m], id);
  }

  /** The handler's read of the request, for approval, while it was pending and before its date. */
  predicate ReviewsInTime(s: State, e: Event, h: nat, id: nat, actor: nat) {
    && e == Review(h, id, actor, Approve)
    && id < |s.rows| && s.rows[id].status == PENDING && s.now < s.rows[id].expiresAt
    && s.rows[id].requester != actor
  }

  /** The handler's read of the target, who does not hold the role. */
  predicate TargetLacksRole(s: State, e: Event, h: nat, id: nat) {
    e == LoadTarget(h, true) && id < |s.rows| && (s.rows[id].target, s.rows[id].role) !in s.held
  }

  lemma StageOrigin(s: State, e: Event, h: nat)
    requires Enabled(s, e) && h in Apply(s, e).handlers
    ensures var st := Apply(s, e).handlers[h];
      && (st.LoadingTarget? ==>
            ReviewsInTime(s, e, h, st.id, st.actor) || (h in s.handlers && s.handlers[h] == st))
      && (st.Approving? ==>
            h in s.handlers &&
            (s.handlers[h] == st || (TargetLacksRole(s, e, h, st.id) && s.handlers[h] == LoadingTarget(st.id, st.actor))))
  {
  }

  lemma {:induction false} LoadsAreReviewed(tr: seq<State>, ev: seq<Event>, m: nat, h: nat) returns (i: nat)
    requires IsRun(tr, ev) && m < |tr| && h in tr[m].handlers && tr[m].handlers[h].LoadingTarget?
    ensures i < m && ReviewsInTime(tr[i], ev[i], h, tr[m].handlers[h].id, tr[m].handlers[h].actor)
  {
    StageOrigin(tr[m - 1], ev[m - 1], h);
    if ReviewsInTime(tr[m - 1], ev[m - 1], h, tr[m].handlers[h].id, tr[m].handlers[h].actor) {
      i := m - 1;
    } else {
      i := LoadsAreReviewed(tr, ev, m - 1, h);
    }
  }

  /** No grant without a review: an approval that gets as far as its transaction was asked for by its actor,
      on a pending request before its date, and then found that the target did not hold the role. */
  lemma {:induction false} GrantsAreReviewed(tr: seq<State>, ev: seq<Event>, m: nat, h: nat) returns (i: nat, j: nat)
    requires IsRun(tr, ev) && m < |tr| && h in tr[m].handlers && tr[m].handlers[h].Approving?
    ensures i < j < m && TargetLacksRole(tr[j], ev[j], h, tr[m].handlers[h].id)
    ensures ReviewsInTime(tr[i], ev[i], h, tr[m].handlers[h].id, tr[m].handlers[h].actor)
  {
    StageOrigin(tr[m - 1], ev[m - 1], h);
    if TargetLacksRole(tr[m - 1], ev[m - 1], h, tr[m].handlers[h].id) && tr[m - 1].handlers[h].LoadingTarget? {
      j := m - 1;
      i := LoadsAreReviewed(tr, ev, m - 1, h);
    } else {
      i, j := GrantsAreReviewed(tr, ev, m - 1, h);
    }
  }

  // ---------------------------------------------------------------- every status has its cause

  predicate HasStatus(s: State, id: nat, status: Status) {
    id < |s.rows| && s.rows[id].status == status
  }

  /** The reviewer's read of the pending request, for rejection with a note, before its date. */
  predicate RejectsInTime(s: State, e: Event, h: nat, id: nat, actor: nat) {
    && e == Review(h, id, actor, Reject(true))
    && id < |s.rows| && s.rows[id].status == PENDING && s.now < s.rows[id].expiresAt
    && s.rows[id].requester != actor
  }

  /** The step gives the request this status, on behalf of this reviewer. */
  predicate Causes(s: State, e: Event, id: nat, status: Status, reviewer: Option<nat>) {
    && Enabled(s, e) && id < |s.rows|
    && match status
       case APPROVED =>
         Grants(s, e) && s.handlers[e.handler].id == id && reviewer == Some(s.handlers[e.handler].actor)
         && Apply(s, e).held == s.held + {(s.rows[id].target, s.rows[id].role)}
       case REJECTED =>
         e.RejectOne? && reviewer.Some? && s.handlers[e.handler] == Rejecting(id, reviewer.value)
       case CANCELLED => e == Archive(s.rows[id].role)
       case EXPIRED => (e.ExpireOne? && IsExpiring(s, e.handler, id)) || (e.UpdateStale? && id in s.handlers[e.handler].stale)
       case PENDING => false
  }

  predicate IsExpiring(s: State, h: nat, id: nat) {
    h in s.handlers && s.handlers[h] == Expiring(id)
  }

  /** A status that a request did not have before was set by its cause; a new request is pending. */
  lemma StatusStep(s: State, e: Event, id: nat)
    requires Enabled(s, e) && id < |Apply(s, e).rows|
    ensures var r := Apply(s, e).rows[id];
      if id >= |s.rows| then e.Create? && r.status == PENDING
      else if r.status == s.rows[id].status then r.reviewer == s.rows[id].reviewer
      else Causes(s, e, id, r.status, if r.status in {APPROVED, REJECTED} then r.reviewer else None)
  {
    match e
    case Archive(_) =>
    case UpdateStale(_) =>
    case ApproveOne(_) => ApprovalGrants(s, e);
    case _ =>
  }

  /** A request turns APPROVED only together with its grant. */
  lemma ApprovalGrants(s: State, e: Event)
    requires Enabled(s, e) && e.ApproveOne?
    ensures Apply(s, e).rows != s.rows ==> Grants(s, e)
  {
    var r := s.rows[s.handlers[e.handler].id];
    if r.status == PENDING && (r.target, r.role) !in s.held {
      assert (r.target, r.role) in Apply(s, e).held;
    }
  }

  /** Main result on statuses. In every run a request that is APPROVED was granted at some step for the reviewer it
      names, one that is REJECTED was rejected by the reviewer it names, a CANCELLED one was cancelled when its role
      was archived, and an EXPIRED one by one of the two expiry updates. */
  lemma {:induction false} StatusHasCause(tr: seq<State>, ev: seq<Event>, m: nat, id: nat) returns (i: nat)
    requires IsRun(tr, ev) && m < |tr| && id < |tr[m].rows| && tr[m].rows[id].status != PENDING
    ensures var r := tr[m].rows[id];
      i < m && Causes(tr[i], ev[i], id, r.status, if r.status in {APPROVED, REJECTED} then r.reviewer else None)
  {
    var s, e := tr[m - 1], ev[m - 1];
    StatusStep(s, e, id);
    if id < |s.rows| && s.rows[id].status == tr[m].rows[id].status {
      i := StatusHasCause(tr, ev, m - 1, id);
    } else {
      i := m - 1;
    }
  }

  lemma RejectingOrigin(s: State, e: Event, h: nat)
    requires Enabled(s, e) && h in Apply(s, e).handlers && Apply(s, e).handlers[h].Rejecting?
    ensures var st := Apply(s, e).handlers[h];
      RejectsInTime(s, e, h, st.id, st.actor) || (h in s.handlers && s.handlers[h] == st)
  {
  }

  lemma {:induction false} RejectionsAreReviewed(tr: seq<State>, ev: seq<Event>, m: nat, h: nat) returns (i: nat)
    requires IsRun(tr, ev) && m < |tr| && h in tr[m].handlers && tr[m].handlers[h].Rejecting?
    ensures i < m && RejectsInTime(tr[i], ev[i], h, tr[m].handlers[h].id, tr[m].handlers[h].actor)
  {
    RejectingOrigin(tr[m - 1], ev[m - 1], h);
    if RejectsInTime(tr[m - 1], ev[m - 1], h, tr[m].handlers[h].id, tr[m].handlers[h].actor) {
      i := m - 1;
    } else {
      i := RejectionsAreReviewed(tr, ev, m - 1, h);
    }
  }

  /** A REJECTED request was read as pending, before its date, by the reviewer it names, who rejected it with a
      note. */
  lemma RejectedByReview(tr: seq<State>, ev: seq<Event>, m: nat, id: nat) returns (j: nat, i: nat)
    requires IsRun(tr, ev) && m < |tr| && HasStatus(tr[m], id, REJECTED)
    ensures j < i < m && ev[i].RejectOne? && tr[m].rows[id].reviewer.Some?
    ensures RejectsInTime(tr[j], ev[j], ev[i].handler, id, tr[m].rows[id].reviewer.value)
  {
    i := StatusHasCause(tr, ev, m, id);
    j := RejectionsAreReviewed(tr, ev, i, ev[i].handler);
  }

  /** An APPROVED request was read as pending, before its date, by the reviewer it names, who approved it, and the
      grant came with the approval. */
  lemma ApprovedByReview(tr: seq<State>, ev: seq<Event>, m: nat, id: nat) returns (j: nat, i: nat)
    requires IsRun(tr, ev) && m < |tr| && HasStatus(tr[m], id, APPROVED)
    ensures j < i < m && Grants(tr[i], ev[i]) && tr[i].handlers[ev[i].handler].id == id && tr[m].rows[id].reviewer.Some?
    ensures ReviewsInTime(tr[j], ev[j], ev[i].handler, id, tr[m].rows[id].reviewer.value)
  {
    i := StatusHasCause(tr, ev, m, id);
    var k;
    j, k := GrantsAreReviewed(tr, ev, i, ev[i].handler);
  }

  /** Archiving a role cancels its pending requests and no others. */
  lemma ArchiveCancels(s: State, role: nat)
    ensures var t := Apply(s, Archive(role));
      && |t.rows| == |s.rows| && t.held == s.held && t.handlers == s.handlers
      && forall i :: 0 <= i < |s.rows| ==>
           t.rows[i] == if s.rows[i].role == role && s.rows[i].status == PENDING then s.rows[i].(status := CANCELLED) else s.rows[i]
  {
  }

  // ---------------------------------------------------------------- a handler by itself

  /** A request for a role that nothing interrupts creates one pending request exactly if the target does not hold
      the role and has no pending request for it left after the stale ones have expired. */
  lemma RequestAlone(s: State, h: nat, role: nat, target: nat, requester: nat)
    requires h !in s.handlers && (target, role) !in s.held
    ensures var s1 := Apply(s, Ask(h, role, target, requester, true));
      && Enabled(s1, ReadStale(h)) && Enabled(Apply(s1, ReadStale(h)), UpdateStale(h))
      && var s3 := Apply(Apply(s1, ReadStale(h)), UpdateStale(h));
         && Enabled(s3, FindPending(h)) && |s3.rows| == |s.rows| && s3.held == s.held
         && (forall i :: 0 <= i < |s.rows| ==> 
               s3.rows[i] == if s.rows[i].status == PENDING && s.rows[i].expiresAt <= s.now
                             then s.rows[i].(status := EXPIRED) else s.rows[i])
         && var s4 := Apply(s3, FindPending(h));
            if exists i :: 0 <= i < |s.rows| && IsPending(s, i, role, target) && s.now < s.rows[i].expiresAt
            then s4.handlers[h] == Ended && s4.rows == s3.rows
            else Enabled(s4, Create(h)) && Apply(s4, Create(h)).rows
                 == s3.rows + [Request(role, target, requester, PENDING, s.now + s.lifetime, None)]
  {
    var s1 := Apply(s, Ask(h, role, target, requester, true));
    var s3 := Apply(Apply(s1, ReadStale(h)), UpdateStale(h));
    forall i: nat ensures IsPending(s3, i, role, target) <==>
        i < |s.rows| && IsPending(s, i, role, target) && s.now < s.rows[i].expiresAt
    {
    }
    assert HasPending(s3, role, target) <==> exists i :: 0 <= i < |s3.rows| && IsPending(s3, i, role, target);
  }

  /** An approval that nothing interrupts, of a pending request before its date by someone else, gives the target
      the role and marks the request, and changes nothing else. */
  lemma ApprovalAlone(s: State, h: nat, id: nat, actor: nat)
    requires h !in s.handlers && id < |s.rows| && s.rows[id].status == PENDING && s.now < s.rows[id].expiresAt
    requires s.rows[id].requester != actor && (s.rows[id].target, s.rows[id].role) !in s.held
    ensures var s1 := Apply(s, Review(h, id, actor, Approve));
      && Enabled(s1, LoadTarget(h, true)) && Enabled(Apply(s1, LoadTarget(h, true)), ApproveOne(h))
      && var t := Apply(Apply(s1, LoadTarget(h, true)), ApproveOne(h));
         && t.rows == s.rows[id := s.rows[id].(status := APPROVED, reviewer := Some(actor))]
         && t.held == s.held + {(s.rows[id].target, s.rows[id].role)}
  {
  }

  lemma RejectionAlone(s: State, h: nat, id: nat, actor: nat)
    requires h !in s.handlers && id < |s.rows| && s.rows[id].status == PENDING && s.now < s.rows[id].expiresAt
    requires s.rows[id].requester != actor
    ensures var s1 := Apply(s, Review(h, id, actor, Reject(true)));
      && Enabled(s1, RejectOne(h))
      && var t := Apply(s1, RejectOne(h));
         t.rows == s.rows[id := s.rows[id].(status := REJECTED, reviewer := Some(actor))] && t.held == s.held
  {
  }

  /** A review is refused at once, and changes nothing, exactly if the request is missing, decided, the reviewer's
      own, or to be rejected without a note; past its date it only expires. */
  lemma ReviewRefusedIff(s: State, h: nat, id: nat, actor: nat, decision: Decision)
    requires h !in s.handlers
    ensures var t := Apply(s, Review(h, id, actor, decision));
      && t.rows == s.rows && t.held == s.held
      && (t.handlers[h] == Expiring(id) <==>
            HasStatus(s, id, PENDING) && s.rows[id].requester != actor && s.rows[id].expiresAt <= s.now)
      && (t.handlers[h] == Ended <==>
            || !HasStatus(s, id, PENDING) || s.rows[id].requester == actor
            || (s.now < s.rows[id].expiresAt && decision == Reject(false)))
  {
  }

  // ---------------------------------------------------------------- final statuses

  /** Some next step gives the request another status. */
  ghost predicate CanChange(s: State, id: nat) {
    exists e :: Changes(s, e, id)
  }

  predicate Changes(s: State, e: Event, id: nat) {
    && Enabled(s, e) && id < |s.rows| && id < |Apply(s, e).rows|
    && Apply(s, e).rows[id].status != s.rows[id].status
  }

  /** A status other than PENDING is final, except that a reviewer who found the request pending and past its
      date still overwrites it: such a reviewer in between its read and its update is what it takes. */
  lemma FinalUnlessExpiring(s: State, id: nat)
    requires id < |s.rows| && s.rows[id].status != PENDING
    ensures CanChange(s, id) <==> s.rows[id].status != EXPIRED && exists h :: IsExpiring(s, h, id)
  {
    if CanChange(s, id) {
      var e :| Changes(s, e, id);
      OnlyExpiryOverwrites(s, e, id);
      assert IsExpiring(s, e.handler, id);
    }
    if s.rows[id].status != EXPIRED && exists h :: IsExpiring(s, h, id) {
      var h :| IsExpiring(s, h, id);
      assert Changes(s, ExpireOne(h), id);
    }
  }

  /** Once a request is decided and no reviewer's expiry of it is outstanding, its status never changes. */
  lemma {:induction false} DecidedStays(tr: seq<State>, ev: seq<Event>, i: nat, m: nat, id: nat)
    requires IsRun(tr, ev) && i <= m < |tr| && id < |tr[i].rows| && tr[i].rows[id].status != PENDING
    requires forall h :: !IsExpiring(tr[i], h, id)
    ensures id < |tr[m].rows| && tr[m].rows[id].status == tr[i].rows[id].status
    ensures forall h :: !IsExpiring(tr[m], h, id)
  {
    if i < m {
      var s, e := tr[m - 1], ev[m - 1];
      DecidedStays(tr, ev, i, m - 1, id);
      RowStep(s, e, id);
      if Changes(s, e, id) {
        OnlyExpiryOverwrites(s, e, id);
      }
      forall h ensures !IsExpiring(tr[m], h, id) {
        NoNewExpiry(s, e, h, id);
      }
    }
  }

  /** A reviewer sets out to expire a request only if it reads it as pending. */
  lemma NoNewExpiry(s: State, e: Event, h: nat, id: nat)
    requires Enabled(s, e) && id < |s.rows| && s.rows[id].status != PENDING && !IsExpiring(s, h, id)
    ensures !IsExpiring(Apply(s, e), h, id)
  {
  }

  lemma OnlyExpiryOverwrites(s: State, e: Event, id: nat)
    requires Changes(s, e, id) && s.rows[id].status != PENDING
    ensures e.ExpireOne? && IsExpiring(s, e.handler, id) && Apply(s, e).rows[id].status == EXPIRED
  {
    match e
    case Archive(_) =>
    case UpdateStale(_) =>
    case _ =>
  }

  lemma Extend(tr: seq<State>, ev: seq<Event>, e: Event, t: State) returns (tr': seq<State>, ev': seq<Event>)
    requires IsRun(tr, ev) && Enabled(tr[|ev|], e) && t == Apply(tr[|ev|], e)
    ensures tr' == tr + [t] && ev' == ev + [e] && IsRun(tr', ev')
  {
    tr', ev' := tr + [t], ev + [e];
  }

  function Blank(rows: seq<Request>, stage: Stage): State {
    State(0, 10, rows, {}, map[1 := stage])
  }

  lemma NoStaleRequest() returns (tr: seq<State>, ev: seq<Event>)
    ensures IsRun(tr, ev) && |ev| == 3 && tr[3] == Blank([], FindingPending(1, 2, 3))
  {
    tr, ev := [State(0, 10, [], {}, map[])], [];
    tr, ev := Extend(tr, ev, Ask(1, 1, 2, 3, true), Blank([], ReadingStale(1, 2, 3)));
    assert Stale(tr[1]) == {};
    tr, ev := Extend(tr, ev, ReadStale(1), Blank([], UpdatingStale(1, 2, 3, {})));
    tr, ev := Extend(tr, ev, UpdateStale(1), Blank([], FindingPending(1, 2, 3)));
  }

  lemma OneRequest(r: Request) returns (tr: seq<State>, ev: seq<Event>)
    requires r == Request(1, 2, 3, PENDING, 10, None)
    ensures IsRun(tr, ev) && |ev| == 5 && tr[5] == State(0, 10, [r], {}, map[1 := Ended])
  {
    tr, ev := NoStaleRequest();
    tr, ev := Extend(tr, ev, FindPending(1), Blank([], Creating(1, 2, 3)));
    tr, ev := Extend(tr, ev, Create(1), Blank([r], Ended));
  }

  /** It happens: an approval that was checked before the date is granted after it, and the request then
      shows EXPIRED although its target holds the role. */
  lemma ApprovedThenExpired(r: Request) returns (tr: seq<State>, ev: seq<Event>)
    requires r == Request(1, 2, 3, PENDING, 10, None)
    ensures IsRun(tr, ev) && |ev| == 11
    ensures tr[10].rows == [r.(status := APPROVED, reviewer := Some(4))] && Grants(tr[9], ev[9])
    ensures tr[11].rows == [r.(status := EXPIRED, reviewer := Some(4))] && (2, 1) in tr[11].held
  {
    tr, ev := OneRequest(r);
    var h := map[1 := Ended];
    tr, ev := Extend(tr, ev, Review(2, 0, 4, Approve), State(0, 10, [r], {}, h[2 := LoadingTarget(0, 4)]));
    tr, ev := Extend(tr, ev, LoadTarget(2, true), State(0, 10, [r], {}, h[2 := Approving(0, 4)]));
    tr, ev := Extend(tr, ev, Tick(11), State(11, 10, [r], {}, h[2 := Approving(0, 4)]));
    tr, ev := Extend(tr, ev, Review(3, 0, 5, Approve), State(11, 10, [r], {}, h[2 := Approving(0, 4)][3 := Expiring(0)]));
    var a := r.(status := APPROVED, reviewer := Some(4));
    assert {(2, 1)} != {};
    assert (2, 1) in {(2, 1)};
    tr, ev := Extend(tr, ev, ApproveOne(2), State(11, 10, [a], {(2, 1)}, h[2 := Ended][3 := Expiring(0)]));
    tr, ev := Extend(tr, ev, ExpireOne(3), State(11, 10, [a.(status := EXPIRED)], {(2, 1)}, h[2 := Ended][3 := Ended]));
  }

  // ---------------------------------------------------------------- one pending request at a time

  predicate IsPending(s: State, i: nat, role: nat, target: nat) {
    i < |s.rows| && s.rows[i].role == role && s.rows[i].target == target && s.rows[i].status == PENDING
  }

  /** The handler found no pending request for the role and target and has not created its own yet. */
  predicate IsCreating(s: State, h: nat, role: nat, target: nat) {
    h in s.handlers && s.handlers[h].Creating? && s.handlers[h].role == role && s.handlers[h].target == target
  }

  function Pendings(s: State, role: nat, target: nat): set<nat> {
    set i: nat | i < |s.rows| && IsPending(s, i, role, target)
  }

  function Creators(s: State, role: nat, target: nat): set<nat> {
    set h | h in s.handlers && IsCreating(s, h, role, target)
  }

  /** The requests there are, and those that are about to be. */
  function Claimants(s: State, role: nat, target: nat): nat {
    |Pendings(s, role, target)| + |Creators(s, role, target)|
  }

  predicate Creates(s: State, e: Event, role: nat, target: nat) {
    Enabled(s, e) && e.Create? && IsCreating(s, e.handler, role, target)
  }

  /** The check for a pending request finds none. */
  predicate Passes(s: State, e: Event, role: nat, target: nat) {
    && Enabled(s, e) && e.FindPending? && !HasPending(s, role, target)
    && s.handlers[e.handler].role == role && s.handlers[e.handler].target == target
  }

  lemma PendingsStep(s: State, e: Event, role: nat, target: nat)
    requires Enabled(s, e)
    ensures if Creates(s, e, role, target)
            then |s.rows| !in Pendings(s, role, target)
                 && Pendings(Apply(s, e), role, target) == Pendings(s, role, target) + {|s.rows|}
            else Pendings(Apply(s, e), role, target) <= Pendings(s, role, target)
  {
    var t := Apply(s, e);
    forall i: nat ensures IsPending(t, i, role, target) <==>
        (IsPending(s, i, role, target) && IsPending(t, i, role, target)) || (Creates(s, e, role, target) && i == |s.rows|)
    {
      RowStep(s, e, i);
      if !e.Create? { RowsKeep(s, e); }
    }
    if Creates(s, e, role, target) {
      assert forall i: nat :: IsPending(s, i, role, target) ==> IsPending(t, i, role, target);
    }
  }

  lemma RowsKeep(s: State, e: Event)
    requires Enabled(s, e) && !e.Create?
    ensures |Apply(s, e).rows| == |s.rows|
  {
  }

  lemma CreatorsStep(s: State, e: Event, role: nat, target: nat)
    requires Enabled(s, e)
    ensures Creates(s, e, role, target) ==>
      && e.handler in Creators(s, role, target)
      && Creators(Apply(s, e), role, target) == Creators(s, role, target) - {e.handler}
    ensures Passes(s, e, role, target) ==>
      && e.handler !in Creators(s, role, target)
      && Creators(Apply(s, e), role, target) == Creators(s, role, target) + {e.handler}
    ensures !Creates(s, e, role, target) && !Passes(s, e, role, target) ==>
      Creators(Apply(s, e), role, target) <= Creators(s, role, target)
  {
  }

  /** Only a check that finds nothing makes a claimant; there is no pending request then. */
  lemma ClaimantsStep(s: State, e: Event, role: nat, target: nat)
    requires Enabled(s, e)
    ensures if Passes(s, e, role, target)
            then Pendings(Apply(s, e), role, target) == {}
                 && Claimants(Apply(s, e), role, target) == |Creators(s, role, target)| + 1
            else Claimants(Apply(s, e), role, target) <= Claimants(s, role, target)
  {
    var t := Apply(s, e);
    PendingsStep(s, e, role, target);
    CreatorsStep(s, e, role, target);
    if Passes(s, e, role, target) {
      assert Pendings(s, role, target) == {};
    } else if !Creates(s, e, role, target) {
      Sets.SizeOfSubset(Pendings(t, role, target), Pendings(s, role, target));
      Sets.SizeOfSubset(Creators(t, role, target), Creators(s, role, target));
    }
  }

  /** As long as no two handlers stand between their check and their create for the same role and target, there
      is at most one pending request for them. */
  lemma {:induction false} OnePendingUnlessOverlap(tr: seq<State>, ev: seq<Event>, m: nat, role: nat, target: nat)
    requires IsRun(tr, ev) && m < |tr| && forall k :: 0 <= k <= m ==> |Creators(tr[k], role, target)| <= 1
    ensures Claimants(tr[m], role, target) <= 1
  {
    if m > 0 {
      OnePendingUnlessOverlap(tr, ev, m - 1, role, target);
      ClaimantsStep(tr[m - 1], ev[m - 1], role, target);
      assert |Creators(tr[m], role, target)| <= 1;
    } else {
      assert Pendings(tr[0], role, target) == {} && Creators(tr[0], role, target) == {};
    }
  }

  /** Steps from any state on. */
  ghost predicate IsPath(tr: seq<State>, ev: seq<Event>) {
    |tr| == |ev| + 1 && forall i :: 0 <= i < |ev| ==> Enabled(tr[i], ev[i]) && tr[i + 1] == Apply(tr[i], ev[i])
  }

  predicate NoChecks(ev: seq<Event>) {
    forall i :: 0 <= i < |ev| ==> !ev[i].FindPending?
  }

  /** Without another check, two pending requests for the role and target can come about. */
  ghost predicate CanDouble(s: State, role: nat, target: nat) {
    exists tr, ev :: IsPath(tr, ev) && tr[0] == s && NoChecks(ev) && 2 <= |Pendings(tr[|ev|], role, target)|
  }

  lemma {:induction false} ClaimantsPath(tr: seq<State>, ev: seq<Event>, m: nat, role: nat, target: nat)
    requires IsPath(tr, ev) && NoChecks(ev) && m < |tr|
    ensures Claimants(tr[m], role, target) <= Claimants(tr[0], role, target)
  {
    if m > 0 {
      ClaimantsPath(tr, ev, m - 1, role, target);
      ClaimantsStep(tr[m - 1], ev[m - 1], role, target);
    }
  }

  /** Every handler past its check can create its request. */
  lemma {:induction false} AllCreate(s: State, role: nat, target: nat) returns (tr: seq<State>, ev: seq<Event>)
    ensures IsPath(tr, ev) && tr[0] == s && NoChecks(ev)
    ensures |Pendings(tr[|ev|], role, target)| == Claimants(s, role, target)
    decreases |Creators(s, role, target)|
  {
    tr, ev := [s], [];
    if Creators(s, role, target) != {} {
      var h :| h in Creators(s, role, target);
      PendingsStep(s, Create(h), role, target);
      CreatorsStep(s, Create(h), role, target);
      tr, ev := AllCreate(Apply(s, Create(h)), role, target);
      tr, ev := [s] + tr, [Create(h)] + ev;
    }
  }

  lemma CanDoubleIff(s: State, role: nat, target: nat)
    ensures CanDouble(s, role, target) <==> 2 <= Claimants(s, role, target)
  {
    if CanDouble(s, role, target) {
      var tr, ev :| IsPath(tr, ev) && tr[0] == s && NoChecks(ev) && 2 <= |Pendings(tr[|ev|], role, target)|;
      ClaimantsPath(tr, ev, |ev|, role, target);
    }
    if 2 <= Claimants(s, role, target) {
      var tr, ev := AllCreate(s, role, target);
    }
  }

  /** Main result on the check for a pending request. After it has passed, two pending requests for the role and
      target can come about if and only if another handler for them is between its own check and its create. */
  lemma CheckHoldsUnlessOverlap(s: State, h: nat, role: nat, target: nat)
    requires Passes(s, FindPending(h), role, target)
    ensures CanDouble(Apply(s, FindPending(h)), role, target) <==> exists h' :: h' != h && IsCreating(s, h', role, target)
  {
    ClaimantsStep(s, FindPending(h), role, target);
    CanDoubleIff(Apply(s, FindPending(h)), role, target);
    if h' :| h' != h && IsCreating(s, h', role, target) {
      assert h' in Creators(s, role, target);
    }
    if Creators(s, role, target) != {} {
      var h' :| h' in Creators(s, role, target);
      assert IsCreating(s, h', role, target) && h' != h;
    }
  }

  function Two(rows: seq<Request>, first: Stage, second: Stage): State {
    State(0, 10, rows, {}, map[1 := first][2 := second])
  }

  lemma TwoHandlers() returns (tr: seq<State>, ev: seq<Event>)
    ensures IsRun(tr, ev) && |ev| == 6 && tr[6] == Two([], FindingPending(1, 2, 3), FindingPending(1, 2, 3))
  {
    tr, ev := NoStaleRequest();
    var f := FindingPending(1, 2, 3);
    tr, ev := Extend(tr, ev, Ask(2, 1, 2, 3, true), Two([], f, ReadingStale(1, 2, 3)));
    assert Stale(tr[4]) == {};
    tr, ev := Extend(tr, ev, ReadStale(2), Two([], f, UpdatingStale(1, 2, 3, {})));
    tr, ev := Extend(tr, ev, UpdateStale(2), Two([], f, f));
  }

  lemma BothChecked() returns (tr: seq<State>, ev: seq<Event>)
    ensures IsRun(tr, ev) && |ev| == 8 && tr[8] == Two([], Creating(1, 2, 3), Creating(1, 2, 3))
    ensures Passes(tr[7], ev[7], 1, 2) && IsCreating(tr[7], 1, 1, 2)
  {
    tr, ev := TwoHandlers();
    var f, c := FindingPending(1, 2, 3), Creating(1, 2, 3);
    tr, ev := Extend(tr, ev, FindPending(1), Two([], c, f));
    tr, ev := Extend(tr, ev, FindPending(2), Two([], c, c));
  }

  /** It happens: the same person asks twice at once, and both requests are pending. */
  lemma TwoPendingRequests(r: Request) returns (tr: seq<State>, ev: seq<Event>)
    requires r == Request(1, 2, 3, PENDING, 10, None)
    ensures IsRun(tr, ev) && |ev| == 10 && tr[10].rows == [r, r]
    ensures Passes(tr[7], ev[7], 1, 2) && IsCreating(tr[7], 1, 1, 2)
  {
    tr, ev := BothChecked();
    tr, ev := Extend(tr, ev, Create(1), Two([r], Ended, Creating(1, 2, 3)));
    tr, ev := Extend(tr, ev, Create(2), Two([r, r], Ended, Ended));
  }

  // ---------------------------------------------------------------- the code, step by step

  /** The tables and the handlers in progress. */
  class RequestTable {
    const lifetime: nat
    var now: int
    var rows: seq<Request>
    var held: set<(nat, nat)>
    var handlers: map<nat, Stage>

    ghost function View(): State
      reads this
    {
      State(now, lifetime, rows, held, handlers)
    }

    constructor (lifetime: nat, held: set<(nat, nat)>)
      ensures View() == State(0, lifetime, [], held, map[])
    {
      this.lifetime, this.held, now, rows, handlers := lifetime, held, 0, [], map[];
    }

    /** The update of pending requests inside archive's transaction. */
    method CancelPending(role: nat)
      modifies this`rows
      ensures View() == Apply(old(View()), Archive(role))
    {
      rows := CancelAll(rows, role);
    }

    method BeginRequest(h: nat, role: nat, target: nat, requester: nat, allowed: bool)
      requires Enabled(View(), Ask(h, role, target, requester, allowed))
      modifies this`handlers
      ensures View() == Apply(old(View()), Ask(h, role, target, requester, allowed))
    {
      if !allowed || (target, role) in held {
        handlers := handlers[h := Ended];
      } else {
        handlers := handlers[h := ReadingStale(role, target, requester)];
      }
    }

    method FindStale(h: nat)
      requires Enabled(View(), ReadStale(h))
      modifies this`handlers
      ensures View() == Apply(old(View()), ReadStale(h))
    {
      var st := handlers[h];
      var stale: set<nat> := set i: nat | i < |rows| && rows[i].status == PENDING && rows[i].expiresAt <= now;
      handlers := handlers[h := UpdatingStale(st.role, st.target, st.requester, stale)];
    }

    method ExpireStale(h: nat)
      requires Enabled(View(), UpdateStale(h))
      modifies this`rows, this`handlers
      ensures View() == Apply(old(View()), UpdateStale(h))
    {
      var st := handlers[h];
      rows := ExpireAll(rows, st.stale);
      handlers := handlers[h := FindingPending(st.role, st.target, st.requester)];
    }

    method FindExisting(h: nat)
      requires Enabled(View(), FindPending(h))
      modifies this`handlers
      ensures View() == Apply(old(View()), FindPending(h))
    {
      var st := handlers[h];
      var existing := exists i :: 0 <= i < |rows| && rows[i].role == st.role && rows[i].target == st.target && rows[i].status == PENDING;
      handlers := handlers[h := if existing then Ended else Creating(st.role, st.target, st.requester)];
    }

    method CreateRequest(h: nat)
      requires Enabled(View(), Create(h))
      modifies this`rows, this`handlers
      ensures View() == Apply(old(View()), Create(h))
    {
      var st := handlers[h];
      rows := rows + [Request(st.role, st.target, st.requester, PENDING, now + lifetime, None)];
      handlers := handlers[h := Ended];
    }

    method BeginReview(h: nat, id: nat, actor: nat, decision: Decision)
      requires Enabled(View(), Review(h, id, actor, decision))
      modifies this`handlers
      ensures View() == Apply(old(View()), Review(h, id, actor, decision))
    {
      handlers := handlers[h := Ended];
      if id >= |rows| {
        return;
      }
      var request := rows[id];
      if request.requester == actor || request.status != PENDING {
        return;
      }
      if request.expiresAt <= now {
        handlers := handlers[h := Expiring(id)];
      } else if decision.Approve? {
        handlers := handlers[h := LoadingTarget(id, actor)];
      } else if decision.noteGiven {
        handlers := handlers[h := Rejecting(id, actor)];
      }
    }

    /** The update without a condition on the status. */
    method ExpireReviewed(h: nat)
      requires Enabled(View(), ExpireOne(h))
      modifies this`rows, this`handlers
      ensures View() == Apply(old(View()), ExpireOne(h))
    {
      var id := handlers[h].id;
      rows := rows[id := rows[id].(status := EXPIRED)];
      handlers := handlers[h := Ended];
    }

    method RejectRequest(h: nat)
      requires Enabled(View(), RejectOne(h))
      modifies this`rows, this`handlers
      ensures View() == Apply(old(View()), RejectOne(h))
    {
      var st := handlers[h];
      handlers := handlers[h := Ended];
      if rows[st.id].status == PENDING {
        rows := rows[st.id := rows[st.id].(status := REJECTED, reviewer := Some(st.actor))];
      }
    }

    method TargetLoaded(h: nat, allowed: bool)
      requires Enabled(View(), LoadTarget(h, allowed))
      modifies this`handlers
      ensures View() == Apply(old(View()), LoadTarget(h, allowed))
    {
      var st := handlers[h];
      var row := rows[st.id];
      var proceed := allowed && (row.target, row.role) !in held;
      handlers := handlers[h := if proceed then Approving(st.id, st.actor) else Ended];
    }

    method ApproveInTransaction(h: nat)
      requires Enabled(View(), ApproveOne(h))
      modifies this`rows, this`held, this`handlers
      ensures View() == Apply(old(View()), ApproveOne(h))
    {
      var st := handlers[h];
      var row := rows[st.id];
      handlers := handlers[h := Ended];
      if row.status != PENDING || (row.target, row.role) in held {
        return;
      }
      rows := rows[st.id := row.(status := APPROVED, reviewer := Some(st.actor))];
      held := held + {(row.target, row.role)};
    }
  }
}
