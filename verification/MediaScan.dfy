/** The lease on one row of the malware-scan table, and the passes of any number of workers over it. Each
    database or storage call is one step; calls of different passes interleave freely. */
module MediaScan {
  import opened Options

  const LOCK_STALE_MS := 300_000

  datatype Status = PENDING | CLEAN | INFECTED | REJECTED | FAILED

  type Blocked = b: Status | b == INFECTED || b == REJECTED witness INFECTED

  datatype Row = Row(status: Status, lockedAt: Option<int>, attempts: nat)

  /** Where a pass stands; `at` is when it claimed the row. */
  datatype Stage =
    | Statting(at: int)
    | Scanning(at: int)
    | Removing(at: int)
    | Releasing(at: int)
    | Deleting(at: int, status: Blocked)
    | MarkingClean(at: int)
    | MarkingBlocked(at: int, status: Blocked)
    | Recording(at: int)
    | Failing(at: int)
    | Done

  datatype Found = Missing | TooLarge | Usable | StatError

  datatype Verdict = ScannedClean | ScannedInfected | ScanError

  /** `row` is None once the row has been removed. Its column expiresAt is set at creation and never changes,
      so the copy that findDue gives each pass is the row's own. */
  datatype State = State(
    maxAttempts: nat, expiresAt: Option<int>, now: int, row: Option<Row>, passes: map<nat, Stage>)

  /** Call is the pass's pending database or storage call; it may fail. */
  datatype Event =
    | Tick(dt: nat)
    | Claim(pass: nat)
    | Stat(pass: nat, found: Found)
    | Scan(pass: nat, verdict: Verdict)
    | Call(pass: nat, ok: bool)

  predicate Claimable(s: State) {
    && s.row.Some? && s.row.value.status == PENDING
    && (s.row.value.lockedAt.None? || s.row.value.lockedAt.value < s.now - LOCK_STALE_MS)
  }

  predicate Enabled(s: State, e: Event) {
    match e
    case Tick(_) => true
    case Claim(p) => p !in s.passes
    case Stat(p, _) => p in s.passes && s.passes[p].Statting?
    case Scan(p, _) => p in s.passes && s.passes[p].Scanning?
    case Call(p, _) => p in s.passes && !s.passes[p].Statting? && !s.passes[p].Scanning? && !s.passes[p].Done?
  }

  function Go(s: State, p: nat, stage: Stage): State {
    s.(passes := s.passes[p := stage])
  }

  function ClaimStep(s: State, p: nat): State {
    if Claimable(s) then Go(s, p, Statting(s.now)).(row := Some(s.row.value.(lockedAt := Some(s.now))))
    else Go(s, p, Done)
  }

  predicate Expired(s: State) {
    s.expiresAt.Some? && s.expiresAt.value < s.now
  }

  /** A missing object is given up once the row has expired. */
  function StatStep(s: State, p: nat, at: int, found: Found): State {
    Go(s, p,
       match found
       case Missing => if Expired(s) then Removing(at) else Releasing(at)
       case TooLarge => Deleting(at, REJECTED)
       case Usable => Scanning(at)
       case StatError => Recording(at))
  }

  function ScanStep(s: State, p: nat, at: int, verdict: Verdict): State {
    Go(s, p,
       match verdict
       case ScannedClean => MarkingClean(at)
       case ScannedInfected => Deleting(at, INFECTED)
       case ScanError => Recording(at))
  }

  /** An update of the row by its id; a failed call, or a missing row, ends in recordFailure. */
  function UpdateOr(s: State, p: nat, ok: bool, row: Row, orElse: Stage): State {
    if ok && s.row.Some? then Go(s, p, Done).(row := Some(row)) else Go(s, p, orElse)
  }

  /** The first update of recordFailure; its errors are swallowed. */
  function RecordStep(s: State, p: nat, at: int, ok: bool): State {
    if !ok || s.row.None? then Go(s, p, Done)
    else
      var attempts := s.row.value.attempts + 1;
      Go(s, p, if attempts >= s.maxAttempts then Failing(at) else Done)
        .(row := Some(s.row.value.(attempts := attempts, lockedAt := None)))
  }

  function TheRow(s: State): Row {
    if s.row.Some? then s.row.value else Row(PENDING, None, 0)
  }

  function CallStep(s: State, p: nat, stage: Stage, ok: bool): State {
    var row := TheRow(s);
    match stage
    case Removing(at) => if ok && s.row.Some? then Go(s, p, Done).(row := None) else Go(s, p, Recording(at))
    case Releasing(at) => UpdateOr(s, p, ok, row.(lockedAt := None), Recording(at))
    case Deleting(at, status) => Go(s, p, if ok then MarkingBlocked(at, status) else Recording(at))
    case MarkingClean(at) => UpdateOr(s, p, ok, row.(status := CLEAN, lockedAt := None), Recording(at))
    case MarkingBlocked(at, status) => UpdateOr(s, p, ok, row.(status := status, lockedAt := None), Recording(at))
    case Recording(at) => RecordStep(s, p, at, ok)
    case Failing(at) => UpdateOr(s, p, ok, row.(status := FAILED), Done)
    case _ => s
  }

  function Apply(s: State, e: Event): State
    requires Enabled(s, e)
  {
    match e
    case Tick(dt) => s.(now := s.now + dt)
    case Claim(p) => ClaimStep(s, p)
    case Stat(p, found) => StatStep(s, p, s.passes[p].at, found)
    case Scan(p, verdict) => ScanStep(s, p, s.passes[p].at, verdict)
    case Call(p, ok) => CallStep(s, p, s.passes[p], ok)
  }

  ghost predicate IsPath(tr: seq<State>, ev: seq<Event>) {
    && |tr| == |ev| + 1
    && forall i :: 0 <= i < |ev| ==> Enabled(tr[i], ev[i]) && tr[i + 1] == Apply(tr[i], ev[i])
  }

  /** A run begins with a pending, unlocked row and no pass. */
  ghost predicate IsRun(tr: seq<State>, ev: seq<Event>) {
    && IsPath(tr, ev)
    && tr[0].passes == map[] && tr[0].row == Some(Row(PENDING, None, 0))
  }

  // ---------------------------------------------------------------- the lease

  /** The claim takes effect. */
  predicate Claims(s: State, e: Event) {
    e.Claim? && Enabled(s, e) && Claimable(s)
  }

  predicate Locked(s: State) {
    s.row.Some? && s.row.value.lockedAt.Some?
  }

  predicate Unlocks(s: State, e: Event) {
    Enabled(s, e) && Locked(s) && !Locked(Apply(s, e))
  }

  lemma {:induction false} LockHolds(tr: seq<State>, ev: seq<Event>, i: nat, k: nat)
    requires IsRun(tr, ev) && i < k <= |ev| && Claims(tr[i], ev[i])
    requires forall j :: i < j < k ==> !Unlocks(tr[j], ev[j])
    ensures Locked(tr[k]) && tr[k].row.value.lockedAt.value >= tr[i].now && tr[k].now >= tr[i].now
  {
    if k > i + 1 {
      LockHolds(tr, ev, i, k - 1);
      assert !Unlocks(tr[k - 1], ev[k - 1]);
    }
  }

  /** Two claims succeed within five minutes of each other only if the lock was cleared in between. */
  lemma LeaseSpacesClaims(tr: seq<State>, ev: seq<Event>, i: nat, k: nat)
    requires IsRun(tr, ev) && i < k < |ev| && Claims(tr[i], ev[i]) && Claims(tr[k], ev[k])
    requires forall j :: i < j < k ==> !Unlocks(tr[j], ev[j])
    ensures tr[k].now > tr[i].now + LOCK_STALE_MS
  {
    LockHolds(tr, ev, i, k);
  }

  // ---------------------------------------------------------------- prompt passes

  /** A pass that holds the lease: it has claimed the row and neither ended nor passed its first
      recordFailure update. */
  predicate Holds(s: State, p: nat) {
    p in s.passes && !s.passes[p].Done? && !s.passes[p].Failing?
  }

  predicate Active(s: State, p: nat) {
    p in s.passes && !s.passes[p].Done?
  }

  ghost predicate PromptAt(s: State, p: nat) {
    Active(s, p) ==> s.now <= s.passes[p].at + LOCK_STALE_MS
  }

  /** No pass has outlived its lease. */
  ghost predicate Prompt(s: State) {
    forall p :: PromptAt(s, p)
  }

  ghost predicate HolderOk(s: State, p: nat) {
    Holds(s, p) && s.row.Some? ==> s.row.value.lockedAt == Some(s.passes[p].at)
  }

  ghost predicate OneHolder(s: State, p: nat, r: nat) {
    Holds(s, p) && Holds(s, r) ==> p == r
  }

  ghost predicate LeaseInv(s: State) {
    (forall p :: HolderOk(s, p)) && (forall p, r :: OneHolder(s, p, r))
  }

  lemma LeaseStep(s: State, e: Event)
    requires Enabled(s, e) && LeaseInv(s) && Prompt(s)
    ensures LeaseInv(Apply(s, e))
  {
    var t := Apply(s, e);
    forall p ensures HolderOk(t, p) {
      assert HolderOk(s, p) && PromptAt(s, p);
      if e.Call? {
        assert OneHolder(s, p, e.pass);
      }
    }
    forall p, r ensures OneHolder(t, p, r) {
      assert OneHolder(s, p, r) && HolderOk(s, p) && HolderOk(s, r) && PromptAt(s, p) && PromptAt(s, r);
    }
  }

  ghost predicate PromptRun(tr: seq<State>, m: nat) {
    forall i :: 0 <= i < |tr| && i <= m ==> Prompt(tr[i])
  }

  lemma {:induction false} LeaseRun(tr: seq<State>, ev: seq<Event>, m: nat)
    requires IsRun(tr, ev) && m < |tr| && PromptRun(tr, m)
    ensures LeaseInv(tr[m])
  {
    if m > 0 {
      LeaseRun(tr, ev, m - 1);
      LeaseStep(tr[m - 1], ev[m - 1]);
    }
  }

  /** If every pass ends within its lease, a claim succeeds only when every earlier claimant has released
      the row, ended, or made the first update of recordFailure. */
  lemma ClaimsExclude(tr: seq<State>, ev: seq<Event>, k: nat, p: nat)
    requires IsRun(tr, ev) && k < |ev| && PromptRun(tr, k) && Claims(tr[k], ev[k])
    ensures !Holds(tr[k], p)
  {
    LeaseRun(tr, ev, k);
    assert HolderOk(tr[k], p) && PromptAt(tr[k], p);
  }

  // ---------------------------------------------------------------- final statuses

  predicate Final(s: State) {
    s.row.Some? && s.row.value.status != PENDING
  }

  /** The step gives a row that already has a final status another status. */
  predicate Overwrites(s: State, e: Event) {
    Enabled(s, e) && Final(s) && Apply(s, e).row.Some? && Apply(s, e).row.value.status != s.row.value.status
  }

  predicate FailingPass(s: State, p: nat) {
    p in s.passes && s.passes[p].Failing?
  }

  /** A claim succeeds between the two updates of another pass's recordFailure. */
  ghost predicate Overlaps(s: State, e: Event) {
    Claims(s, e) && exists p :: FailingPass(s, p)
  }

  /** The claim succeeds while an earlier pass is still active. */
  ghost predicate Shares(s: State, e: Event) {
    Claims(s, e) && exists p :: Active(s, p)
  }

  /** Among passes that end within their leases a claim is shared exactly if it splits a recordFailure. */
  lemma SharedIffOverlap(tr: seq<State>, ev: seq<Event>, k: nat)
    requires IsRun(tr, ev) && k < |ev| && PromptRun(tr, k)
    ensures Shares(tr[k], ev[k]) <==> Overlaps(tr[k], ev[k])
  {
    if Shares(tr[k], ev[k]) {
      var p :| Active(tr[k], p);
      ClaimsExclude(tr, ev, k, p);
      assert FailingPass(tr[k], p);
    }
    if Overlaps(tr[k], ev[k]) {
      var p :| FailingPass(tr[k], p);
      assert Active(tr[k], p);
    }
  }

  ghost predicate AloneAt(s: State, p: nat, r: nat) {
    Active(s, p) && Active(s, r) ==> p == r
  }

  ghost predicate PendingAt(s: State, p: nat) {
    Active(s, p) ==> !Final(s)
  }

  /** At most one pass is active, and then the row is pending. */
  ghost predicate Sole(s: State) {
    (forall p, r :: AloneAt(s, p, r)) && (forall p :: PendingAt(s, p))
  }

  lemma SoleStep(s: State, e: Event)
    requires Enabled(s, e) && Sole(s) && !e.Claim?
    ensures Sole(Apply(s, e)) && !Overwrites(s, e)
  {
    var t := Apply(s, e);
    forall p ensures PendingAt(t, p) {
      assert PendingAt(s, p);
      if e.Call? { assert PendingAt(s, e.pass) && AloneAt(s, p, e.pass); }
    }
    forall p, r ensures AloneAt(t, p, r) {
      assert AloneAt(s, p, r);
    }
    if e.Call? { assert PendingAt(s, e.pass); }
  }

  lemma SoleClaim(s: State, e: Event)
    requires Enabled(s, e) && Sole(s) && e.Claim? && !Shares(s, e)
    ensures Sole(Apply(s, e)) && !Overwrites(s, e)
  {
    var t := Apply(s, e);
    forall p ensures PendingAt(t, p) {
      assert PendingAt(s, p);
    }
    forall p, r ensures AloneAt(t, p, r) {
      assert AloneAt(s, p, r);
      assert Claimable(s) ==> !Active(s, p) && !Active(s, r);
      assert Active(t, p) ==> Active(s, p) || (Claimable(s) && p == e.pass);
      assert Active(t, r) ==> Active(s, r) || (Claimable(s) && r == e.pass);
    }
  }

  ghost predicate NoneShared(tr: seq<State>, ev: seq<Event>, m: nat) {
    forall i :: 0 <= i < |ev| && i < m && i < |tr| ==> !Shares(tr[i], ev[i])
  }

  lemma {:induction false} SoleRun(tr: seq<State>, ev: seq<Event>, m: nat)
    requires IsRun(tr, ev) && m < |tr| && NoneShared(tr, ev, m)
    ensures Sole(tr[m])
  {
    if m > 0 {
      SoleRun(tr, ev, m - 1);
      if ev[m - 1].Claim? {
        SoleClaim(tr[m - 1], ev[m - 1]);
      } else {
        SoleStep(tr[m - 1], ev[m - 1]);
      }
    }
  }

  /** If no claim succeeds while an earlier pass is active, a final status is never replaced by another. */
  lemma FinalStatusStays(tr: seq<State>, ev: seq<Event>, m: nat)
    requires IsRun(tr, ev) && m < |ev| && NoneShared(tr, ev, m + 1)
    ensures !Overwrites(tr[m], ev[m])
  {
    SoleRun(tr, ev, m);
    if ev[m].Claim? {
      SoleClaim(tr[m], ev[m]);
    } else {
      SoleStep(tr[m], ev[m]);
    }
  }

  ghost predicate NoOverlap(tr: seq<State>, ev: seq<Event>, m: nat) {
    forall i :: 0 <= i < |ev| && i < m && i < |tr| ==> !Overlaps(tr[i], ev[i])
  }

  lemma PromptSharesNothing(tr: seq<State>, ev: seq<Event>, m: nat)
    requires IsRun(tr, ev) && m <= |ev| && PromptRun(tr, m) && NoOverlap(tr, ev, m)
    ensures NoneShared(tr, ev, m)
  {
    forall i | 0 <= i < |ev| && i < m && i < |tr| ensures !Shares(tr[i], ev[i]) {
      SharedIffOverlap(tr, ev, i);
    }
  }

  /** Some way for the passes in progress to go on, without a further claim, replaces a final status. */
  ghost predicate CanOverwrite(s: State) {
    exists tr: seq<State>, ev: seq<Event> ::
      && IsPath(tr, ev) && tr[0] == s && |ev| > 0 && NoClaims(ev)
      && Overwrites(tr[|ev| - 1], ev[|ev| - 1])
  }

  predicate NoClaims(ev: seq<Event>) {
    forall i :: 0 <= i < |ev| ==> !ev[i].Claim?
  }

  lemma {:induction false} SolePath(tr: seq<State>, ev: seq<Event>, m: nat)
    requires IsPath(tr, ev) && m < |tr| && Sole(tr[0]) && NoClaims(ev)
    ensures Sole(tr[m])
  {
    if m > 0 {
      SolePath(tr, ev, m - 1);
      SoleStep(tr[m - 1], ev[m - 1]);
    }
  }

  /** The continuation that overwrites: the new claimant finds the object clean, and then the older pass
      makes its second recordFailure update. */
  lemma CleanThenFailed(s: State, p: nat, r: nat)
    requires p != r && FailingPass(s, p) && r in s.passes && s.passes[r].Statting? && s.row.Some?
    ensures CanOverwrite(s)
  {
    var ev := [Stat(r, Usable), Scan(r, ScannedClean), Call(r, true), Call(p, true)];
    var s1 := Apply(s, ev[0]);
    var s2 := Apply(s1, ev[1]);
    var s3 := Apply(s2, ev[2]);
    var s4 := Apply(s3, ev[3]);
    var tr := [s, s1, s2, s3, s4];
    assert Final(s3) && s3.row.value.status == CLEAN && s4.row.value.status == FAILED;
    assert IsPath(tr, ev) && Overwrites(tr[3], ev[3]);
  }

  /** A successful claim endangers the final status exactly if another pass stands between the two updates
      of its recordFailure. */
  lemma OverwriteIffOverlap(tr: seq<State>, ev: seq<Event>, k: nat)
    requires IsRun(tr, ev) && k < |ev| && PromptRun(tr, k) && NoOverlap(tr, ev, k) && Claims(tr[k], ev[k])
    ensures CanOverwrite(tr[k + 1]) <==> exists p :: FailingPass(tr[k], p)
  {
    var s, e, t := tr[k], ev[k], tr[k + 1];
    PromptSharesNothing(tr, ev, k);
    SoleRun(tr, ev, k);
    if exists p :: FailingPass(s, p) {
      var p :| FailingPass(s, p);
      CleanThenFailed(t, p, e.pass);
    } else {
      SharedIffOverlap(tr, ev, k);
      SoleClaim(s, e);
      if CanOverwrite(t) {
        var tr', ev' :| IsPath(tr', ev') && tr'[0] == t && |ev'| > 0 && NoClaims(ev')
                        && Overwrites(tr'[|ev'| - 1], ev'[|ev'| - 1]);
        SolePath(tr', ev', |ev'| - 1);
        SoleStep(tr'[|ev'| - 1], ev'[|ev'| - 1]);
        assert false;
      }
    }
  }

  /** Such a claim does happen, with every pass finished within its lease. */
  lemma OverlapHappens() returns (tr: seq<State>, ev: seq<Event>)
    ensures IsRun(tr, ev) && |ev| == 4 && PromptRun(tr, 3) && Overlaps(tr[3], ev[3])
  {
    var row := Row(PENDING, None, 0);
    var failed := row.(attempts := 1);
    tr := [State(1, None, 0, Some(row), map[]),
           State(1, None, 0, Some(row.(lockedAt := Some(0))), map[1 := Statting(0)]),
           State(1, None, 0, Some(row.(lockedAt := Some(0))), map[1 := Recording(0)]),
           State(1, None, 0, Some(failed), map[1 := Failing(0)]),
           State(1, None, 0, Some(failed.(lockedAt := Some(0))), map[1 := Failing(0), 2 := Statting(0)])];
    ev := [Claim(1), Stat(1, StatError), Call(1, true), Claim(2)];
    assert FailingPass(tr[3], 1);
    forall i | 0 <= i <= 3 ensures Prompt(tr[i]) {
      forall p ensures PromptAt(tr[i], p) { }
    }
  }

  // ---------------------------------------------------------------- progress after expiry

  predicate Pending(s: State) {
    s.row.Some? && s.row.value.status == PENDING
  }

  function Attempts(s: State): nat {
    if s.row.Some? then s.row.value.attempts else 0
  }

  /** An update of recordFailure itself fails, and its error is swallowed. */
  predicate Loses(s: State, e: Event) {
    e.Call? && !e.ok && e.pass in s.passes && (s.passes[e.pass].Recording? || s.passes[e.pass].Failing?)
  }

  /** What happened between two states of a run: successful claims, those of them that were shared, and lost
      first and second updates of recordFailure. */
  datatype Tally = Tally(claims: nat, shared: nat, uncounted: nat, unfailed: nat)

  ghost function Record(s: State, e: Event, l: Tally): Tally {
    if Claims(s, e) then l.(claims := l.claims + 1, shared := l.shared + if Shares(s, e) then 1 else 0)
    else if Loses(s, e) then
      (if s.passes[e.pass].Recording? then l.(uncounted := l.uncounted + 1) else l.(unfailed := l.unfailed + 1))
    else l
  }

  ghost function TallyOf(tr: seq<State>, ev: seq<Event>, from: nat, m: nat): Tally
    requires from <= m <= |ev| < |tr|
    decreases m
  {
    if m == from then Tally(0, 0, 0, 0) else Record(tr[m - 1], ev[m - 1], TallyOf(tr, ev, from, m - 1))
  }

  /** How many failures are left before the limit; at least one, since the limit is tested after counting. */
  function Remaining(s: State): nat {
    if Attempts(s) < s.maxAttempts then s.maxAttempts - Attempts(s) else 1
  }

  function FailingSet(s: State): set<nat> {
    set p | p in s.passes && s.passes[p].Failing?
  }

  /** A pass that claimed after the ledger was opened still holds its claim. */
  ghost predicate NewHolder(s: State, earlier: set<nat>) {
    exists p :: Holds(s, p) && p !in earlier
  }

  /** The ledger after expiry. While the row is pending, a claim made alone is paid for by a recorded attempt,
      or its record was lost, or its pass still holds the claim and will pay or end the row; and attempts pass
      the limit only by passes that are about to set FAILED or lost that update. */
  ghost predicate Balanced(s: State, base: nat, cap: nat, earlier: set<nat>, l: Tally) {
    && cap >= 1 && s.maxAttempts <= base + cap
    && l.claims <= cap + l.shared + l.uncounted + l.unfailed
    && (Pending(s) ==>
          && s.row.value.attempts < base + cap + l.unfailed + |FailingSet(s)|
          && base + l.claims <= l.shared + s.row.value.attempts + l.uncounted + if NewHolder(s, earlier) then 1 else 0)
    && (forall p :: p !in earlier ==> !(p in s.passes && s.passes[p].Releasing?))
    && Expired(s)
    && earlier <= s.passes.Keys
  }

  lemma NoFailing(s: State)
    requires forall p :: !Active(s, p)
    ensures FailingSet(s) == {}
  {
    forall p | p in FailingSet(s) ensures false {
      assert Active(s, p);
    }
  }

  lemma BalancedClaim(s: State, e: Event, base: nat, cap: nat, earlier: set<nat>, l: Tally)
    requires Enabled(s, e) && e.Claim? && Balanced(s, base, cap, earlier, l)
    ensures Balanced(Apply(s, e), base, cap, earlier, Record(s, e, l))
  {
    var t := Apply(s, e);
    assert FailingSet(t) == FailingSet(s);
    if Claims(s, e) {
      assert Holds(t, e.pass) && e.pass !in earlier;
      if !Shares(s, e) {
        forall p ensures !Active(s, p) && !Holds(s, p) {
          assert Active(s, p) ==> Shares(s, e);
        }
        NoFailing(s);
      }
    } else {
      forall p ensures Holds(t, p) == Holds(s, p) { }
    }
  }

  lemma BalancedQuiet(s: State, e: Event, base: nat, cap: nat, earlier: set<nat>, l: Tally)
    requires Enabled(s, e) && (e.Tick? || e.Stat? || e.Scan?) && Balanced(s, base, cap, earlier, l)
    ensures Balanced(Apply(s, e), base, cap, earlier, Record(s, e, l))
  {
    var t := Apply(s, e);
    assert FailingSet(t) == FailingSet(s);
    forall p ensures Holds(t, p) == Holds(s, p) { }
  }

  /** The first update of recordFailure pays for the claim, or is lost. */
  lemma BalancedRecording(s: State, e: Event, base: nat, cap: nat, earlier: set<nat>, l: Tally)
    requires Enabled(s, e) && e.Call? && s.passes[e.pass].Recording? && Balanced(s, base, cap, earlier, l)
    ensures Balanced(Apply(s, e), base, cap, earlier, Record(s, e, l))
  {
    var t := Apply(s, e);
    assert FailingSet(t) == FailingSet(s) + if t.passes[e.pass].Failing? then {e.pass} else {};
    assert e.pass !in FailingSet(s);
    forall p | p != e.pass ensures Holds(t, p) == Holds(s, p) { }
    assert NewHolder(t, earlier) || !NewHolder(s, earlier) || e.ok || Loses(s, e);
  }

  /** The second update takes the row out of PENDING, or is lost. */
  lemma BalancedFailing(s: State, e: Event, base: nat, cap: nat, earlier: set<nat>, l: Tally)
    requires Enabled(s, e) && e.Call? && s.passes[e.pass].Failing? && Balanced(s, base, cap, earlier, l)
    ensures Balanced(Apply(s, e), base, cap, earlier, Record(s, e, l))
  {
    var t := Apply(s, e);
    assert FailingSet(t) == FailingSet(s) - {e.pass};
    assert e.pass in FailingSet(s);
    forall p ensures Holds(t, p) == Holds(s, p) { }
  }

  /** Every other call ends the row, or leads on to recordFailure with the claim still held. */
  lemma BalancedCall(s: State, e: Event, base: nat, cap: nat, earlier: set<nat>, l: Tally)
    requires Enabled(s, e) && e.Call? && !s.passes[e.pass].Recording? && !s.passes[e.pass].Failing?
    requires Balanced(s, base, cap, earlier, l)
    ensures Balanced(Apply(s, e), base, cap, earlier, Record(s, e, l))
  {
    var t := Apply(s, e);
    assert FailingSet(t) == FailingSet(s);
    forall p | p != e.pass ensures Holds(t, p) == Holds(s, p) { }
    assert Holds(s, e.pass);
    if Pending(t) {
      assert Holds(t, e.pass) || s.passes[e.pass].Releasing?;
      assert NewHolder(s, earlier) ==> NewHolder(t, earlier);
    }
  }

  lemma {:induction false} BalancedRun(tr: seq<State>, ev: seq<Event>, from: nat, m: nat)
    requires IsRun(tr, ev) && from <= m < |tr| && Expired(tr[from])
    ensures Balanced(tr[m], Attempts(tr[from]), Remaining(tr[from]), tr[from].passes.Keys, TallyOf(tr, ev, from, m))
    decreases m
  {
    if m > from {
      var base, cap, earlier := Attempts(tr[from]), Remaining(tr[from]), tr[from].passes.Keys;
      var s, e, l := tr[m - 1], ev[m - 1], TallyOf(tr, ev, from, m - 1);
      BalancedRun(tr, ev, from, m - 1);
      if e.Claim? {
        BalancedClaim(s, e, base, cap, earlier, l);
      } else if !e.Call? {
        BalancedQuiet(s, e, base, cap, earlier, l);
      } else if s.passes[e.pass].Recording? {
        BalancedRecording(s, e, base, cap, earlier, l);
      } else if s.passes[e.pass].Failing? {
        BalancedFailing(s, e, base, cap, earlier, l);
      } else {
        BalancedCall(s, e, base, cap, earlier, l);
      }
    }
  }

  /** Main result, for every run, whatever calls fail and however passes overlap. Once a row has expired, the
      passes that still claim it are at most the failures left before the limit, plus one for each claim made
      while an earlier pass was active, plus one for each lost update of recordFailure. */
  lemma PassesAfterExpiry(tr: seq<State>, ev: seq<Event>, from: nat, m: nat)
    requires IsRun(tr, ev) && from <= m < |tr| && Expired(tr[from])
    ensures var l := TallyOf(tr, ev, from, m);
      l.claims <= Remaining(tr[from]) + l.shared + l.uncounted + l.unfailed
  {
    BalancedRun(tr, ev, from, m);
  }

  lemma {:induction false} NothingShared(tr: seq<State>, ev: seq<Event>, from: nat, m: nat)
    requires IsRun(tr, ev) && from <= m < |tr| && NoneShared(tr, ev, m)
    requires forall i :: 0 <= i < |ev| ==> !Loses(tr[i], ev[i])
    ensures var l := TallyOf(tr, ev, from, m); l.shared == 0 && l.uncounted == 0 && l.unfailed == 0
    decreases m
  {
    if m > from {
      NothingShared(tr, ev, from, m - 1);
    }
  }

  /** So at most `maxAttempts` passes remain (one, if the limit is set to 0) when no claim succeeds while an
      earlier pass is active and recordFailure's own updates succeed; every other call may fail. */
  lemma AtMostTheLimitRemain(tr: seq<State>, ev: seq<Event>, from: nat, m: nat)
    requires IsRun(tr, ev) && from <= m < |tr| && Expired(tr[from])
    requires NoneShared(tr, ev, m) && forall i :: 0 <= i < |ev| ==> !Loses(tr[i], ev[i])
    ensures TallyOf(tr, ev, from, m).claims <= Remaining(tr[from])
    ensures TallyOf(tr, ev, from, m).claims <= if tr[from].maxAttempts == 0 then 1 else tr[from].maxAttempts
  {
    PassesAfterExpiry(tr, ev, from, m);
    NothingShared(tr, ev, from, m);
  }

  // Each of the three surcharges is real: with a limit of one, two passes claim an expired row.

  lemma {:induction false} TallyOfPrefix(tr: seq<State>, ev: seq<Event>, tr': seq<State>, ev': seq<Event>, m: nat)
    requires m <= |ev| < |tr| && m <= |ev'| < |tr'| && tr[..m] == tr'[..m] && ev[..m] == ev'[..m]
    ensures TallyOf(tr, ev, 0, m) == TallyOf(tr', ev', 0, m)
  {
    if m > 0 {
      assert tr[m - 1] == tr[..m][m - 1] == tr'[..m][m - 1] == tr'[m - 1];
      assert ev[m - 1] == ev[..m][m - 1] == ev'[..m][m - 1] == ev'[m - 1];
      assert tr[..m - 1] == tr[..m][..m - 1] == tr'[..m][..m - 1] == tr'[..m - 1];
      assert ev[..m - 1] == ev[..m][..m - 1] == ev'[..m][..m - 1] == ev'[..m - 1];
      TallyOfPrefix(tr, ev, tr', ev', m - 1);
    }
  }

  ghost predicate Tallied(tr: seq<State>, ev: seq<Event>, n: nat, last: State, l: Tally) {
    IsRun(tr, ev) && |ev| == n && tr[n] == last && TallyOf(tr, ev, 0, n) == l
  }

  /** One more step at the end of a run, with what it adds to the tally. */
  lemma Extend(tr: seq<State>, ev: seq<Event>, n: nat, s: State, l: Tally, e: Event, t: State)
    returns (tr': seq<State>, ev': seq<Event>)
    requires Tallied(tr, ev, n, s, l) && Enabled(s, e) && t == Apply(s, e)
    ensures Tallied(tr', ev', n + 1, t, Record(s, e, l)) && tr'[0] == tr[0]
  {
    tr', ev' := tr + [t], ev + [e];
    assert tr[..n] == tr'[..n] && ev[..n] == ev'[..n];
    TallyOfPrefix(tr, ev, tr', ev', n);
  }

  function Late(now: int, lockedAt: Option<int>, attempts: nat, passes: map<nat, Stage>): State {
    State(1, Some(-1), now, Some(Row(PENDING, lockedAt, attempts)), passes)
  }

  /** The second pass claims the row once the first is over. */
  lemma ClaimedAgain(s: State, now: int, lockedAt: Option<int>, attempts: nat, l: Tally)
    requires s == Late(now, lockedAt, attempts, map[1 := Done])
    requires lockedAt.Some? ==> lockedAt.value < now - LOCK_STALE_MS
    ensures Enabled(s, Claim(2)) && Record(s, Claim(2), l) == l.(claims := l.claims + 1)
    ensures Apply(s, Claim(2)) == Late(now, Some(now), attempts, map[1 := Done, 2 := Statting(now)])
  {
    assert forall p :: !Active(s, p);
  }

  lemma FirstPassFails() returns (tr: seq<State>, ev: seq<Event>)
    ensures Tallied(tr, ev, 2, Late(0, Some(0), 0, map[1 := Recording(0)]), Tally(1, 0, 0, 0))
    ensures Expired(tr[0]) && Remaining(tr[0]) == 1
  {
    var s0, s1 := Late(0, None, 0, map[]), Late(0, Some(0), 0, map[1 := Statting(0)]);
    var s2 := Late(0, Some(0), 0, map[1 := Recording(0)]);
    tr, ev := [s0], [];
    assert forall p :: !Active(s0, p);
    tr, ev := Extend(tr, ev, 0, s0, Tally(0, 0, 0, 0), Claim(1), s1);
    tr, ev := Extend(tr, ev, 1, s1, Tally(1, 0, 0, 0), Stat(1, StatError), s2);
  }

  lemma FirstPassCounted() returns (tr: seq<State>, ev: seq<Event>)
    ensures Tallied(tr, ev, 3, Late(0, None, 1, map[1 := Failing(0)]), Tally(1, 0, 0, 0))
    ensures Expired(tr[0]) && Remaining(tr[0]) == 1
  {
    var s2, s3 := Late(0, Some(0), 0, map[1 := Recording(0)]), Late(0, None, 1, map[1 := Failing(0)]);
    tr, ev := FirstPassFails();
    tr, ev := Extend(tr, ev, 2, s2, Tally(1, 0, 0, 0), Call(1, true), s3);
  }

  /** A pass whose first recordFailure update is lost ends without a trace, and the row is claimed again once
      its lock is stale. */
  lemma LostRecordCostsAPass() returns (tr: seq<State>, ev: seq<Event>)
    ensures IsRun(tr, ev) && |ev| == 5 && Expired(tr[0]) && Remaining(tr[0]) == 1
    ensures TallyOf(tr, ev, 0, 5) == Tally(2, 0, 1, 0)
  {
    var s2 := Late(0, Some(0), 0, map[1 := Recording(0)]);
    var s3, s4 := Late(0, Some(0), 0, map[1 := Done]), Late(300_001, Some(0), 0, map[1 := Done]);
    var s5 := Late(300_001, Some(300_001), 0, map[1 := Done, 2 := Statting(300_001)]);
    tr, ev := FirstPassFails();
    tr, ev := Extend(tr, ev, 2, s2, Tally(1, 0, 0, 0), Call(1, false), s3);
    tr, ev := Extend(tr, ev, 3, s3, Tally(1, 0, 1, 0), Tick(300_001), s4);
    ClaimedAgain(s4, 300_001, Some(0), 0, Tally(1, 0, 1, 0));
    tr, ev := Extend(tr, ev, 4, s4, Tally(1, 0, 1, 0), Claim(2), s5);
  }

  /** A pass whose second update is lost leaves the row pending above the limit. */
  lemma LostFailedCostsAPass() returns (tr: seq<State>, ev: seq<Event>)
    ensures IsRun(tr, ev) && |ev| == 5 && Expired(tr[0]) && Remaining(tr[0]) == 1
    ensures TallyOf(tr, ev, 0, 5) == Tally(2, 0, 0, 1)
  {
    var s3, s4 := Late(0, None, 1, map[1 := Failing(0)]), Late(0, None, 1, map[1 := Done]);
    var s5 := Late(0, Some(0), 1, map[1 := Done, 2 := Statting(0)]);
    tr, ev := FirstPassCounted();
    tr, ev := Extend(tr, ev, 3, s3, Tally(1, 0, 0, 0), Call(1, false), s4);
    ClaimedAgain(s4, 0, None, 1, Tally(1, 0, 0, 1));
    tr, ev := Extend(tr, ev, 4, s4, Tally(1, 0, 0, 1), Claim(2), s5);
  }

  /** A claim between the two updates is one pass more. */
  lemma SplitRecordCostsAPass() returns (tr: seq<State>, ev: seq<Event>)
    ensures IsRun(tr, ev) && |ev| == 4 && Expired(tr[0]) && Remaining(tr[0]) == 1
    ensures TallyOf(tr, ev, 0, 4) == Tally(2, 1, 0, 0)
  {
    var s3 := Late(0, None, 1, map[1 := Failing(0)]);
    var s4 := Late(0, Some(0), 1, map[1 := Failing(0), 2 := Statting(0)]);
    tr, ev := FirstPassCounted();
    assert Active(s3, 1);
    tr, ev := Extend(tr, ev, 3, s3, Tally(1, 0, 0, 0), Claim(2), s4);
  }

  // ---------------------------------------------------------------- evidence

  /** What the pass saw before it came to this stage. */
  ghost predicate Saw(tr: seq<State>, ev: seq<Event>, i: nat, p: nat, stage: Stage) {
    && i < |ev| && i < |tr|
    && match stage
       case MarkingClean(_) => ev[i] == Scan(p, ScannedClean)
       case Deleting(_, status) => ev[i] == if status == INFECTED then Scan(p, ScannedInfected) else Stat(p, TooLarge)
       case MarkingBlocked(_, status) => ev[i] == if status == INFECTED then Scan(p, ScannedInfected) else Stat(p, TooLarge)
       case Removing(_) => ev[i] == Stat(p, Missing) && Expired(tr[i])
       case Releasing(_) => ev[i] == Stat(p, Missing) && !Expired(tr[i])
       case _ => false
  }

  predicate NeedsEvidence(stage: Stage) {
    stage.MarkingClean? || stage.Deleting? || stage.MarkingBlocked? || stage.Removing? || stage.Releasing?
  }

  /** A pass marks a row clean only if its scan was clean, blocks it only as infected or too large, removes it
      only if its object was missing past its date, and releases it only if missing before. */
  lemma {:induction false} PassesActOnEvidence(tr: seq<State>, ev: seq<Event>, m: nat, p: nat) returns (i: nat)
    requires IsRun(tr, ev) && m < |tr| && p in tr[m].passes && NeedsEvidence(tr[m].passes[p])
    ensures i < m && Saw(tr, ev, i, p, tr[m].passes[p])
  {
    var s, e := tr[m - 1], ev[m - 1];
    if (e.Stat? || e.Scan?) && e.pass == p {
      i := m - 1;
    } else {
      i := PassesActOnEvidence(tr, ev, m - 1, p);
    }
  }

  /** The status changes only through a pass that acts on its evidence, or through the failure limit. */
  lemma StatusChangesByCall(s: State, e: Event)
    requires Enabled(s, e) && s.row.Some? && (Apply(s, e).row.None? || Apply(s, e).row.value.status != s.row.value.status)
    ensures e.Call? && e.ok
    ensures match s.passes[e.pass]
      case MarkingClean(_) => Apply(s, e).row.Some? && Apply(s, e).row.value.status == CLEAN
      case MarkingBlocked(_, status) => Apply(s, e).row.Some? && Apply(s, e).row.value.status == status
      case Failing(_) => Apply(s, e).row.Some? && Apply(s, e).row.value.status == FAILED
      case Removing(_) => Apply(s, e).row.None?
      case _ => false
  {
  }

  /** The object is deleted before its row says so. */
  lemma {:induction false} BlockedAfterDeletion(tr: seq<State>, ev: seq<Event>, m: nat, p: nat) returns (i: nat)
    requires IsRun(tr, ev) && m < |tr| && p in tr[m].passes && tr[m].passes[p].MarkingBlocked?
    ensures i < m && ev[i] == Call(p, true) && p in tr[i].passes
    ensures tr[i].passes[p] == Deleting(tr[m].passes[p].at, tr[m].passes[p].status)
  {
    if ev[m - 1].Call? && ev[m - 1].pass == p {
      i := m - 1;
    } else {
      i := BlockedAfterDeletion(tr, ev, m - 1, p);
    }
  }

  /** The step gives the row this status, from a pass that saw what the status says. */
  predicate Settles(s: State, e: Event, status: Status) {
    && e.Call? && e.ok && e.pass in s.passes && s.row.Some?
    && match s.passes[e.pass]
       case MarkingClean(_) => status == CLEAN
       case MarkingBlocked(_, blocked) => status == blocked
       case Failing(_) => status == FAILED
       case _ => false
  }

  lemma StatusStep(s: State, e: Event)
    requires Enabled(s, e) && Apply(s, e).row.Some?
    ensures s.row.Some?
    ensures Apply(s, e).row.value.status != s.row.value.status ==> Settles(s, e, Apply(s, e).row.value.status)
  {
  }

  /** Every status but PENDING was set by a step of a pass. */
  lemma {:induction false} StatusHasCause(tr: seq<State>, ev: seq<Event>, m: nat) returns (j: nat)
    requires IsRun(tr, ev) && m < |tr| && tr[m].row.Some? && tr[m].row.value.status != PENDING
    ensures j < m && Settles(tr[j], ev[j], tr[m].row.value.status)
  {
    StatusStep(tr[m - 1], ev[m - 1]);
    if tr[m - 1].row.value.status == tr[m].row.value.status {
      j := StatusHasCause(tr, ev, m - 1);
    } else {
      j := m - 1;
    }
  }

  /** Main result on verdicts. A row is CLEAN only after a pass scanned its object and found it clean, INFECTED or
      REJECTED only after a pass found that and deleted the object. */
  lemma StatusIsTrue(tr: seq<State>, ev: seq<Event>, m: nat) returns (i: nat, j: nat)
    requires IsRun(tr, ev) && m < |tr| && tr[m].row.Some? && tr[m].row.value.status in {CLEAN, INFECTED, REJECTED}
    ensures i < j < m && Settles(tr[j], ev[j], tr[m].row.value.status)
    ensures match tr[m].row.value.status
      case CLEAN => ev[i] == Scan(ev[j].pass, ScannedClean)
      case INFECTED => ev[i] == Scan(ev[j].pass, ScannedInfected)
      case _ => ev[i] == Stat(ev[j].pass, TooLarge)
  {
    j := StatusHasCause(tr, ev, m);
    i := PassesActOnEvidence(tr, ev, j, ev[j].pass);
  }

  // Attempts are the failures recorded, and only the limit makes a row FAILED.

  predicate Records(s: State, e: Event) {
    Enabled(s, e) && e.Call? && e.ok && s.row.Some? && s.passes[e.pass].Recording?
  }

  function Recorded(tr: seq<State>, ev: seq<Event>, m: nat): nat
    requires m <= |ev| < |tr|
  {
    if m == 0 then 0 else Recorded(tr, ev, m - 1) + if Records(tr[m - 1], ev[m - 1]) then 1 else 0
  }

  lemma RecordCounts(s: State, e: Event)
    requires Enabled(s, e) && Apply(s, e).row.Some?
    ensures s.row.Some? && Apply(s, e).row.value.attempts == s.row.value.attempts + if Records(s, e) then 1 else 0
  {
  }

  /** `attempts` counts exactly the failures that were recorded. */
  lemma {:induction false} AttemptsAreRecorded(tr: seq<State>, ev: seq<Event>, m: nat)
    requires IsRun(tr, ev) && m < |tr| && tr[m].row.Some?
    ensures tr[m].row.value.attempts == Recorded(tr, ev, m)
  {
    if m > 0 {
      RecordCounts(tr[m - 1], ev[m - 1]);
      AttemptsAreRecorded(tr, ev, m - 1);
    }
  }

  ghost predicate FailingAtLimit(s: State, p: nat) {
    FailingPass(s, p) && s.row.Some? ==> s.maxAttempts <= s.row.value.attempts
  }

  lemma FailingStep(s: State, e: Event, p: nat)
    requires Enabled(s, e) && FailingAtLimit(s, p)
    ensures FailingAtLimit(Apply(s, e), p)
  {
  }

  lemma {:induction false} FailingRun(tr: seq<State>, ev: seq<Event>, m: nat, p: nat)
    requires IsRun(tr, ev) && m < |tr|
    ensures FailingAtLimit(tr[m], p)
  {
    if m > 0 {
      FailingRun(tr, ev, m - 1, p);
      FailingStep(tr[m - 1], ev[m - 1], p);
    }
  }

  lemma {:induction false} RecordedGrows(tr: seq<State>, ev: seq<Event>, i: nat, m: nat)
    requires i <= m <= |ev| < |tr|
    ensures Recorded(tr, ev, i) <= Recorded(tr, ev, m)
  {
    if i < m {
      RecordedGrows(tr, ev, i, m - 1);
    }
  }

  lemma {:induction false} MaxStays(tr: seq<State>, ev: seq<Event>, m: nat)
    requires IsRun(tr, ev) && m < |tr|
    ensures tr[m].maxAttempts == tr[0].maxAttempts
  {
    if m > 0 {
      MaxStays(tr, ev, m - 1);
    }
  }

  /** A row is FAILED only when at least the maximum of failures was recorded. */
  lemma FailedAtLimit(tr: seq<State>, ev: seq<Event>, m: nat)
    requires IsRun(tr, ev) && m < |tr| && tr[m].row.Some? && tr[m].row.value.status == FAILED
    ensures tr[0].maxAttempts <= Recorded(tr, ev, m)
  {
    var j := StatusHasCause(tr, ev, m);
    FailingRun(tr, ev, j, ev[j].pass);
    AttemptsAreRecorded(tr, ev, j);
    RecordedGrows(tr, ev, j, m);
    MaxStays(tr, ev, j);
  }

  // ---------------------------------------------------------------- a pass by itself

  /** What a pass finds out about the object. */
  datatype Finding = ObjectGone | ObjectTooLarge | ObjectClean | ObjectInfected | StatTrouble | ScanTrouble

  predicate IsTrouble(finding: Finding) {
    finding.StatTrouble? || finding.ScanTrouble?
  }

  /** The calls of a pass that nothing interrupts and that find this out, one after another. */
  function PassOf(p: nat, finding: Finding): seq<Event> {
    match finding
    case ObjectGone => [Claim(p), Stat(p, Missing), Call(p, true)]
    case ObjectTooLarge => [Claim(p), Stat(p, TooLarge), Call(p, true), Call(p, true)]
    case ObjectClean => [Claim(p), Stat(p, Usable), Scan(p, ScannedClean), Call(p, true)]
    case ObjectInfected => [Claim(p), Stat(p, Usable), Scan(p, ScannedInfected), Call(p, true), Call(p, true)]
    case StatTrouble => [Claim(p), Stat(p, StatError), Call(p, true)]
    case ScanTrouble => [Claim(p), Stat(p, Usable), Scan(p, ScanError), Call(p, true)]
  }

  /** What is left of the row: the verdict on the object, without a lock; a missing object's row goes with its date;
      trouble costs one attempt. */
  function RowAfter(s: State, row: Row, finding: Finding): Option<Row> {
    match finding
    case ObjectGone => if s.expiresAt.Some? && s.expiresAt.value < s.now then None else Some(row.(lockedAt := None))
    case ObjectTooLarge => Some(row.(status := REJECTED, lockedAt := None))
    case ObjectClean => Some(row.(status := CLEAN, lockedAt := None))
    case ObjectInfected => Some(row.(status := INFECTED, lockedAt := None))
    case _ => Some(row.(attempts := row.attempts + 1, lockedAt := None))
  }

  /** The pass runs to its end and leaves exactly what it found out; past the limit it has FAILED still to write. */
  ghost predicate RunsTo(s: State, p: nat, finding: Finding, tr: seq<State>) {
    && IsPath(tr, PassOf(p, finding)) && tr[0] == s && s.row.Some?
    && var t := tr[|tr| - 1];
       && t.row == RowAfter(s, s.row.value, finding) && p in t.passes
       && (t.passes[p] == Done <==> !IsTrouble(finding) || s.row.value.attempts + 1 < s.maxAttempts)
       && (t.passes[p] != Done ==> t.passes[p].Failing?)
  }

  lemma UnscannedPass(s: State, p: nat, finding: Finding) returns (tr: seq<State>)
    requires p !in s.passes && Claimable(s) && (finding.ObjectGone? || finding.ObjectTooLarge? || finding.StatTrouble?)
    ensures RunsTo(s, p, finding, tr)
  {
    var s1 := Apply(s, Claim(p));
    match finding
    case ObjectGone =>
      var s2 := Apply(s1, Stat(p, Missing));
      tr := [s, s1, s2, Apply(s2, Call(p, true))];
    case ObjectTooLarge =>
      var s2 := Apply(s1, Stat(p, TooLarge));
      var s3 := Apply(s2, Call(p, true));
      tr := [s, s1, s2, s3, Apply(s3, Call(p, true))];
    case StatTrouble =>
      var s2 := Apply(s1, Stat(p, StatError));
      tr := [s, s1, s2, Apply(s2, Call(p, true))];
  }

  lemma ScannedPass(s: State, p: nat, finding: Finding) returns (tr: seq<State>)
    requires p !in s.passes && Claimable(s) && (finding.ObjectClean? || finding.ScanTrouble?)
    ensures RunsTo(s, p, finding, tr)
  {
    var s2 := Apply(Apply(s, Claim(p)), Stat(p, Usable));
    tr := [s, Apply(s, Claim(p)), s2];
    match finding
    case ObjectClean =>
      var s3 := Apply(s2, Scan(p, ScannedClean));
      tr := tr + [s3, Apply(s3, Call(p, true))];
    case ScanTrouble =>
      var s3 := Apply(s2, Scan(p, ScanError));
      tr := tr + [s3, Apply(s3, Call(p, true))];
  }

  lemma InfectedPass(s: State, p: nat) returns (tr: seq<State>)
    requires p !in s.passes && Claimable(s)
    ensures RunsTo(s, p, ObjectInfected, tr)
  {
    var s2 := Apply(Apply(s, Claim(p)), Stat(p, Usable));
    var s3 := Apply(s2, Scan(p, ScannedInfected));
    var s4 := Apply(s3, Call(p, true));
    tr := [s, Apply(s, Claim(p)), s2, s3, s4, Apply(s4, Call(p, true))];
  }

  /** Main result on a pass. If the row is pending and unlocked, or its lock is more than five minutes old, a pass
      that nothing interrupts claims it, runs to its end, and leaves exactly what it found out. */
  lemma PassAlone(s: State, p: nat, finding: Finding) returns (tr: seq<State>)
    requires p !in s.passes && s.row.Some? && s.row.value.status == PENDING
    requires s.row.value.lockedAt.None? || s.now - s.row.value.lockedAt.value > LOCK_STALE_MS
    ensures RunsTo(s, p, finding, tr)
  {
    if finding.ObjectGone? || finding.ObjectTooLarge? || finding.StatTrouble? {
      tr := UnscannedPass(s, p, finding);
    } else if finding.ObjectInfected? {
      tr := InfectedPass(s, p);
    } else {
      tr := ScannedPass(s, p, finding);
    }
  }

  /** Any call of a pass that fails, up to its verdict, leaves the row alone and is recorded as a failure next. */
  lemma TroubleIsRecorded(s: State, p: nat)
    requires Enabled(s, Call(p, false)) && !s.passes[p].Recording? && !s.passes[p].Failing?
    ensures var t := Apply(s, Call(p, false));
      && t.row == s.row && t.passes[p].Recording? && Enabled(t, Call(p, true))
      && (s.row.Some? ==> Apply(t, Call(p, true)).row
                          == Some(s.row.value.(attempts := s.row.value.attempts + 1, lockedAt := None)))
  {
  }

  /** A pass past the limit writes FAILED and nothing else. */
  lemma FailingWrites(s: State, p: nat)
    requires FailingPass(s, p) && s.row.Some?
    ensures Enabled(s, Call(p, true)) && Apply(s, Call(p, true)).row == Some(s.row.value.(status := FAILED))
  {
  }

  /** Otherwise the claim does nothing. */
  lemma NoClaimNoPass(s: State, p: nat)
    requires p !in s.passes
    requires s.row.Some? && s.row.value.status == PENDING ==>
      s.row.value.lockedAt.Some? && s.now - s.row.value.lockedAt.value <= LOCK_STALE_MS
    ensures Apply(s, Claim(p)).row == s.row && Apply(s, Claim(p)).passes[p] == Done
  {
  }

  // ---------------------------------------------------------------- the code, step by step

  /** The row and the passes over it. `reached` says whether the pending call got through. */
  class ScanRow {
    const maxAttempts: nat
    const expiresAt: Option<int>
    var now: int
    var row: Option<Row>
    var passes: map<nat, Stage>

    ghost function View(): State
      reads this
    {
      State(maxAttempts, expiresAt, now, row, passes)
    }

    /** registerPending. */
    constructor (maxAttempts: nat, expiresAt: Option<int>, now: int)
      ensures View() == State(maxAttempts, expiresAt, now, Some(Row(PENDING, None, 0)), map[])
    {
      this.maxAttempts, this.expiresAt, this.now := maxAttempts, expiresAt, now;
      row, passes := Some(Row(PENDING, None, 0)), map[];
    }

    method ClaimRow(p: nat) returns (claimed: bool)
      requires Enabled(View(), Claim(p))
      modifies this`row, this`passes
      ensures View() == Apply(old(View()), Claim(p))
      ensures claimed <==> old(Claims(View(), Claim(p)))
    {
      claimed := false;
      if row.Some? && row.value.status == PENDING {
        claimed := row.value.lockedAt.None? || row.value.lockedAt.value < now - LOCK_STALE_MS;
      }
      if claimed {
        row := Some(row.value.(lockedAt := Some(now)));
      }
      passes := passes[p := if claimed then Statting(now) else Done];
    }

    method ObjectStatted(p: nat, found: Found)
      requires Enabled(View(), Stat(p, found))
      modifies this`passes
      ensures View() == Apply(old(View()), Stat(p, found))
    {
      var at := passes[p].at;
      if found == Missing {
        var expired := expiresAt.Some? && expiresAt.value < now;
        passes := passes[p := if expired then Removing(at) else Releasing(at)];
      } else if found == TooLarge {
        passes := passes[p := Deleting(at, REJECTED)];
      } else if found == Usable {
        passes := passes[p := Scanning(at)];
      } else {
        passes := passes[p := Recording(at)];
      }
    }

    method ObjectScanned(p: nat, verdict: Verdict)
      requires Enabled(View(), Scan(p, verdict))
      modifies this`passes
      ensures View() == Apply(old(View()), Scan(p, verdict))
    {
      var at := passes[p].at;
      if verdict == ScannedClean {
        passes := passes[p := MarkingClean(at)];
      } else if verdict == ScannedInfected {
        passes := passes[p := Deleting(at, INFECTED)];
      } else {
        passes := passes[p := Recording(at)];
      }
    }

    method ObjectDeleted(p: nat, reached: bool)
      requires p in passes && passes[p].Deleting?
      modifies this`passes
      ensures View() == Apply(old(View()), Call(p, reached))
    {
      var st := passes[p];
      passes := passes[p := if reached then MarkingBlocked(st.at, st.status) else Recording(st.at)];
    }

    method Remove(p: nat, reached: bool)
      requires p in passes && passes[p].Removing?
      modifies this`row, this`passes
      ensures View() == Apply(old(View()), Call(p, reached))
    {
      if reached && row.Some? {
        row := None;
        passes := passes[p := Done];
      } else {
        passes := passes[p := Recording(passes[p].at)];
      }
    }

    method Release(p: nat, reached: bool)
      requires p in passes && passes[p].Releasing?
      modifies this`row, this`passes
      ensures View() == Apply(old(View()), Call(p, reached))
    {
      if reached && row.Some? {
        row := Some(row.value.(lockedAt := None));
        passes := passes[p := Done];
      } else {
        passes := passes[p := Recording(passes[p].at)];
      }
    }

    method MarkClean(p: nat, reached: bool)
      requires p in passes && passes[p].MarkingClean?
      modifies this`row, this`passes
      ensures View() == Apply(old(View()), Call(p, reached))
    {
      if reached && row.Some? {
        row := Some(row.value.(status := CLEAN, lockedAt := None));
        passes := passes[p := Done];
      } else {
        passes := passes[p := Recording(passes[p].at)];
      }
    }

    method MarkBlocked(p: nat, reached: bool)
      requires p in passes && passes[p].MarkingBlocked?
      modifies this`row, this`passes
      ensures View() == Apply(old(View()), Call(p, reached))
    {
      var st := passes[p];
      if reached && row.Some? {
        row := Some(row.value.(status := st.status, lockedAt := None));
        passes := passes[p := Done];
      } else {
        passes := passes[p := Recording(st.at)];
      }
    }

    /** The first update of recordFailure. */
    method CountFailure(p: nat, reached: bool)
      requires p in passes && passes[p].Recording?
      modifies this`row, this`passes
      ensures View() == Apply(old(View()), Call(p, reached))
    {
      var at := passes[p].at;
      passes := passes[p := Done];
      if reached && row.Some? {
        row := Some(row.value.(attempts := row.value.attempts + 1, lockedAt := None));
        if row.value.attempts >= maxAttempts {
          passes := passes[p := Failing(at)];
        }
      }
    }

    /** The second update of recordFailure. */
    method SetFailed(p: nat, reached: bool)
      requires p in passes && passes[p].Failing?
      modifies this`row, this`passes
      ensures View() == Apply(old(View()), Call(p, reached))
    {
      if reached && row.Some? {
        row := Some(row.value.(status := FAILED));
      }
      passes := passes[p := Done];
    }
  }
}
