/** One-time passwords: issuing a row (issueAndSendOtp) and spending it on a password change (resetPassword,
    changePasswordVerify), with requests interleaved between every two awaits. A transaction is one step. */
module Otp {
  import opened Options
  import Sets

  datatype Key = Key(user: nat, purpose: nat, channel: nat)

  datatype Row = Row(key: Key, createdAt: int, expiresAt: int, attempts: nat, used: bool)

  datatype Stage =
    | Issuing(key: Key)
    | Answered(row: nat)
    | Comparing(row: nat, password: nat)
    | Counting(row: nat)
    | Claiming(row: nat, password: nat)
    | Ended(claimed: bool)

  /** Rows are numbered in the order of their creation; times are in milliseconds. */
  datatype State = State(
    cooldown: nat, lifetime: nat, maxAttempts: nat,
    now: int, rows: seq<Row>, passwords: map<nat, nat>, requests: map<nat, Stage>)

  /** `found` is the row that findFirst returned, if there is one. */
  datatype Event =
    | Tick(dt: nat)
    | Precheck(request: nat, key: Key, found: Option<nat>)
    | Issue(request: nat, found: Option<nat>)
    | Lookup(request: nat, row: nat, purpose: nat, password: nat)
    | Compare(request: nat, same: bool)
    | CountAttempt(request: nat)
    | Claim(request: nat)

  predicate Has(s: State, key: Key, i: nat) {
    i < |s.rows| && s.rows[i].key == key
  }

  /** findFirst with the greatest createdAt: if several rows share it, any of them. */
  predicate IsLatest(s: State, key: Key, found: Option<nat>) {
    match found
    case None => forall i :: 0 <= i < |s.rows| ==> s.rows[i].key != key
    case Some(i) =>
      Has(s, key, i) && forall j :: 0 <= j < |s.rows| && s.rows[j].key == key ==> s.rows[j].createdAt <= s.rows[i].createdAt
  }

  predicate Cooling(s: State, i: nat) {
    i < |s.rows| && !s.rows[i].used && s.now - s.rows[i].createdAt < s.cooldown
  }

  predicate Enabled(s: State, e: Event) {
    match e
    case Tick(_) => true
    case Precheck(q, key, found) => q !in s.requests && IsLatest(s, key, found)
    case Issue(q, found) => q in s.requests && s.requests[q].Issuing? && IsLatest(s, s.requests[q].key, found)
    case Lookup(q, _, _, _) => q !in s.requests
    case Compare(q, _) => q in s.requests && s.requests[q].Comparing?
    case CountAttempt(q) => q in s.requests && s.requests[q].Counting? && s.requests[q].row < |s.rows|
    case Claim(q) => q in s.requests && s.requests[q].Claiming?
  }

  function UseRow(r: Row, key: Key): Row {
    if r.key == key then r.(used := true) else r
  }

  /** `updateMany` over the unused rows of a key. */
  function UseAll(rows: seq<Row>, key: Key): (out: seq<Row>)
    ensures |out| == |rows|
    ensures forall i :: 0 <= i < |rows| ==> out[i] == UseRow(rows[i], key)
  {
    if rows == [] then []
    else UseAll(rows[..|rows| - 1], key) + [UseRow(rows[|rows| - 1], key)]
  }

  function Go(s: State, q: nat, stage: Stage): State {
    s.(requests := s.requests[q := stage])
  }

  predicate IsCooling(s: State, found: Option<nat>) {
    found.Some? && Cooling(s, found.value)
  }

  /** The transaction of issueAndSendOtp. */
  function IssueStep(s: State, q: nat, key: Key, found: Option<nat>): State {
    if IsCooling(s, found) then Go(s, q, Answered(found.value))
    else
      Go(s, q, Answered(|s.rows|))
        .(rows := UseAll(s.rows, key) + [Row(key, s.now, s.now + s.lifetime, 0, false)])
  }

  function LookupStep(s: State, q: nat, i: nat, purpose: nat, password: nat): State {
    if i >= |s.rows| || s.rows[i].key.purpose != purpose || s.rows[i].used || s.rows[i].expiresAt < s.now
       || s.rows[i].attempts >= s.maxAttempts
    then Go(s, q, Ended(false))
    else Go(s, q, Comparing(i, password))
  }

  /** What the claiming `updateMany` asks of the row. */
  predicate Claimable(s: State, i: nat) {
    && i < |s.rows| && !s.rows[i].used
    && s.rows[i].attempts < s.maxAttempts && s.now < s.rows[i].expiresAt
  }

  /** The transaction that spends a row: claim it, and change the password of its user. */
  function ClaimStep(s: State, q: nat, i: nat, password: nat): State {
    if !Claimable(s, i) then Go(s, q, Ended(false))
    else
      Go(s, q, Ended(true))
        .(rows := s.rows[i := s.rows[i].(used := true)],
          passwords := s.passwords[s.rows[i].key.user := password])
  }

  function Apply(s: State, e: Event): State
    requires Enabled(s, e)
  {
    match e
    case Tick(dt) => s.(now := s.now + dt)
    case Precheck(q, key, found) =>
      Go(s, q, if IsCooling(s, found) then Answered(found.value) else Issuing(key))
    case Issue(q, found) => IssueStep(s, q, s.requests[q].key, found)
    case Lookup(q, i, purpose, password) => LookupStep(s, q, i, purpose, password)
    case Compare(q, same) =>
      var st := s.requests[q];
      Go(s, q, if same then Claiming(st.row, st.password) else Counting(st.row))
    case CountAttempt(q) =>
      var i := s.requests[q].row;
      Go(s, q, Ended(false)).(rows := s.rows[i := s.rows[i].(attempts := s.rows[i].attempts + 1)])
    case Claim(q) => ClaimStep(s, q, s.requests[q].row, s.requests[q].password)
  }

  ghost predicate IsRun(tr: seq<State>, ev: seq<Event>) {
    && |tr| == |ev| + 1
    && tr[0].requests == map[] && tr[0].rows == []
    && forall i :: 0 <= i < |ev| ==> Enabled(tr[i], ev[i]) && tr[i + 1] == Apply(tr[i], ev[i])
  }

  // ---------------------------------------------------------------- invariant

  ghost predicate RowOk(s: State, i: nat) {
    i < |s.rows| ==> s.rows[i].createdAt <= s.now && s.rows[i].expiresAt == s.rows[i].createdAt + s.lifetime
  }

  ghost predicate OrderOk(s: State, i: nat, j: nat) {
    i < j < |s.rows| ==>
      && s.rows[i].createdAt <= s.rows[j].createdAt
      && (s.rows[i].key == s.rows[j].key ==> s.rows[i].used)
  }

  /** Rows are created in the order of time, and every row but the newest of its key is used. */
  ghost predicate Inv(s: State) {
    (forall i: nat :: RowOk(s, i)) && (forall i: nat, j: nat :: OrderOk(s, i, j))
  }

  ghost predicate RowGrows(s: State, t: State, i: nat) {
    i < |s.rows| ==>
      && i < |t.rows| && t.rows[i].key == s.rows[i].key
      && t.rows[i].createdAt == s.rows[i].createdAt && t.rows[i].expiresAt == s.rows[i].expiresAt
      && (s.rows[i].used ==> t.rows[i].used)
      && s.rows[i].attempts <= t.rows[i].attempts
  }

  ghost predicate Grows(s: State, t: State) {
    && t.cooldown == s.cooldown && t.lifetime == s.lifetime && t.maxAttempts == s.maxAttempts && s.now <= t.now
    && forall i: nat :: RowGrows(s, t, i)
  }

  lemma GrowsStep(s: State, e: Event)
    requires Enabled(s, e)
    ensures Grows(s, Apply(s, e))
  {
    match e
    case Issue(_, _) =>
    case Claim(_) =>
    case _ =>
  }

  lemma InvSameRows(s: State, t: State)
    requires Inv(s) && Grows(s, t) && |t.rows| == |s.rows|
    ensures Inv(t)
  {
    forall i: nat, j: nat ensures RowOk(t, i) && OrderOk(t, i, j) {
      assert RowOk(s, i) && OrderOk(s, i, j) && RowGrows(s, t, i) && RowGrows(s, t, j);
    }
    assert forall i: nat :: OrderOk(t, i, i) ==> RowOk(t, i);
  }

  lemma InvIssue(s: State, q: nat, key: Key, found: Option<nat>)
    requires Inv(s) && !IsCooling(s, found)
    ensures Inv(IssueStep(s, q, key, found))
  {
    var t := IssueStep(s, q, key, found);
    forall i: nat ensures RowOk(t, i) {
      assert RowOk(s, i);
    }
    forall i: nat, j: nat ensures OrderOk(t, i, j) {
      assert RowOk(s, i) && OrderOk(s, i, j);
    }
  }

  lemma InvStep(s: State, e: Event)
    requires Inv(s) && Enabled(s, e)
    ensures Inv(Apply(s, e))
  {
    GrowsStep(s, e);
    if e.Issue? && !IsCooling(s, e.found) {
      InvIssue(s, e.request, s.requests[e.request].key, e.found);
    } else {
      InvSameRows(s, Apply(s, e));
    }
  }

  lemma {:induction false} InvRun(tr: seq<State>, ev: seq<Event>, m: nat)
    requires IsRun(tr, ev) && m < |tr|
    ensures Inv(tr[m])
  {
    if m > 0 {
      InvRun(tr, ev, m - 1);
      InvStep(tr[m - 1], ev[m - 1]);
    }
  }

  lemma {:induction false} GrowsRun(tr: seq<State>, ev: seq<Event>, i: nat, m: nat, row: nat)
    requires IsRun(tr, ev) && i <= m < |tr|
    ensures RowGrows(tr[i], tr[m], row) && tr[m].maxAttempts == tr[i].maxAttempts && tr[i].now <= tr[m].now
  {
    if i < m {
      GrowsRun(tr, ev, i, m - 1, row);
      GrowsStep(tr[m - 1], ev[m - 1]);
      assert RowGrows(tr[m - 1], tr[m], row);
    }
  }

  // ---------------------------------------------------------------- issuing

  /** In every reachable state all rows of a user, purpose and channel but the last created one are used. */
  lemma OnlyNewestIsUsable(tr: seq<State>, ev: seq<Event>, m: nat, i: nat, j: nat)
    requires IsRun(tr, ev) && m < |tr|
    requires i < j < |tr[m].rows| && tr[m].rows[i].key == tr[m].rows[j].key
    ensures tr[m].rows[i].used
  {
    InvRun(tr, ev, m);
    assert OrderOk(tr[m], i, j);
  }

  predicate IsNewest(s: State, key: Key, n: nat) {
    Has(s, key, n) && forall j :: n < j < |s.rows| ==> s.rows[j].key != key
  }

  /** An older row of the key was created in the same millisecond as row `n`. */
  predicate Tied(s: State, key: Key, n: nat) {
    n < |s.rows| && exists j :: 0 <= j < n && s.rows[j].key == key && s.rows[j].createdAt == s.rows[n].createdAt
  }

  predicate Creates(s: State, e: Event) {
    Enabled(s, e) && |Apply(s, e).rows| > |s.rows|
  }

  /** The cooldown holds, except where createdAt is not distinct: a row of a key whose newest row is unused
      and younger than the cooldown can be created exactly if an older row of the key carries the same time. */
  lemma CooldownHoldsUnlessTied(tr: seq<State>, ev: seq<Event>, m: nat, q: nat, key: Key, n: nat)
    requires IsRun(tr, ev) && m < |tr|
    requires q in tr[m].requests && tr[m].requests[q] == Issuing(key)
    requires IsNewest(tr[m], key, n) && Cooling(tr[m], n)
    ensures (exists found :: Creates(tr[m], Issue(q, found))) <==> Tied(tr[m], key, n)
  {
    var s := tr[m];
    InvRun(tr, ev, m);
    if exists found :: Creates(s, Issue(q, found)) {
      var found :| Creates(s, Issue(q, found));
      assert found.Some? && found.value != n;
      assert OrderOk(s, found.value, n);
    }
    if Tied(s, key, n) {
      var j :| 0 <= j < n && s.rows[j].key == key && s.rows[j].createdAt == s.rows[n].createdAt;
      assert OrderOk(s, j, n);
      forall k: nat | k < |s.rows| && s.rows[k].key == key
        ensures s.rows[k].createdAt <= s.rows[j].createdAt
      {
        assert OrderOk(s, k, n);
      }
      assert Creates(s, Issue(q, Some(j)));
    }
  }

  /** With distinct times, a new row appears only when the newest row of its key is used or old enough. */
  lemma SpacedByCooldown(tr: seq<State>, ev: seq<Event>, m: nat, n: nat)
    requires IsRun(tr, ev) && m < |ev| && Creates(tr[m], ev[m])
    requires IsNewest(tr[m], tr[m + 1].rows[|tr[m].rows|].key, n)
    requires !Tied(tr[m], tr[m].rows[n].key, n)
    ensures tr[m].rows[n].used || tr[m].now - tr[m].rows[n].createdAt >= tr[m].cooldown
  {
    var s, e := tr[m], ev[m];
    var key := s.rows[n].key;
    assert e.Issue?;
    if Cooling(s, n) {
      CooldownHoldsUnlessTied(tr, ev, m, e.request, key, n);
      assert Creates(s, Issue(e.request, e.found));
    }
  }

  /** One more step at the end of a run. */
  lemma Extend(tr: seq<State>, ev: seq<Event>, e: Event, t: State) returns (tr': seq<State>, ev': seq<Event>)
    requires IsRun(tr, ev) && Enabled(tr[|ev|], e) && t == Apply(tr[|ev|], e)
    ensures tr' == tr + [t] && ev' == ev + [e] && IsRun(tr', ev')
  {
    tr', ev' := tr + [t], ev + [e];
  }

  function At0(rows: seq<Row>, passwords: map<nat, nat>, requests: map<nat, Stage>): State {
    State(60_000, 600_000, 5, 0, rows, passwords, requests)
  }

  /** The first row is issued and spent, all in one millisecond. */
  lemma SpentAtOnce(k: Key) returns (tr: seq<State>, ev: seq<Event>)
    requires k == Key(0, 0, 0)
    ensures IsRun(tr, ev) && |ev| == 5
    ensures tr[5] == At0([Row(k, 0, 600_000, 0, true)], map[0 := 7], map[1 := Answered(0), 2 := Ended(true)])
  {
    var fresh0, used0 := Row(k, 0, 600_000, 0, false), Row(k, 0, 600_000, 0, true);
    tr, ev := [At0([], map[], map[])], [];
    tr, ev := Extend(tr, ev, Precheck(1, k, None), At0([], map[], map[1 := Issuing(k)]));
    tr, ev := Extend(tr, ev, Issue(1, None), At0([fresh0], map[], map[1 := Answered(0)]));
    tr, ev := Extend(tr, ev, Lookup(2, 0, 0, 7), At0([fresh0], map[], map[1 := Answered(0), 2 := Comparing(0, 7)]));
    tr, ev := Extend(tr, ev, Compare(2, true), At0([fresh0], map[], map[1 := Answered(0), 2 := Claiming(0, 7)]));
    tr, ev := Extend(tr, ev, Claim(2), At0([used0], map[0 := 7], map[1 := Answered(0), 2 := Ended(true)]));
  }

  /** And a second row is issued, still in that millisecond. */
  lemma SpentAndReissued(k: Key) returns (tr: seq<State>, ev: seq<Event>)
    requires k == Key(0, 0, 0)
    ensures IsRun(tr, ev) && |ev| == 7
    ensures tr[7] == At0([Row(k, 0, 600_000, 0, true), Row(k, 0, 600_000, 0, false)], map[0 := 7],
                         map[1 := Answered(0), 2 := Ended(true), 3 := Answered(1)])
  {
    var fresh0, used0 := Row(k, 0, 600_000, 0, false), Row(k, 0, 600_000, 0, true);
    tr, ev := SpentAtOnce(k);
    var r := map[1 := Answered(0), 2 := Ended(true)];
    var p := map[0 := 7];
    tr, ev := Extend(tr, ev, Precheck(3, k, Some(0)), At0([used0], p, r[3 := Issuing(k)]));
    tr, ev := Extend(tr, ev, Issue(3, Some(0)), At0([used0, fresh0], p, r[3 := Answered(1)]));
  }

  /** The exception happens: two rows of one key in one millisecond, the first already spent, and a third
      row although the second is unused and brand new. */
  lemma TieBreaksCooldown(k: Key) returns (tr: seq<State>, ev: seq<Event>)
    requires k == Key(0, 0, 0)
    ensures IsRun(tr, ev) && |ev| == 9
    ensures Creates(tr[8], ev[8]) && IsNewest(tr[8], k, 1) && Cooling(tr[8], 1)
  {
    var fresh0, used0 := Row(k, 0, 600_000, 0, false), Row(k, 0, 600_000, 0, true);
    tr, ev := SpentAndReissued(k);
    var r := map[1 := Answered(0), 2 := Ended(true), 3 := Answered(1)];
    var p := map[0 := 7];
    tr, ev := Extend(tr, ev, Precheck(4, k, Some(0)), At0([used0, fresh0], p, r[4 := Issuing(k)]));
    tr, ev := Extend(tr, ev, Issue(4, Some(0)), At0([used0, used0, fresh0], p, r[4 := Answered(2)]));
    assert |tr[9].rows| == 3;
  }

  // ---------------------------------------------------------------- spending

  /** The request's claim of row `i` takes effect. */
  predicate Claims(s: State, e: Event, i: nat) {
    && Enabled(s, e) && e.Claim? && s.requests[e.request].row == i
    && Apply(s, e).requests[e.request] == Ended(true)
  }

  /** A row is claimed at most once, however many verifiers found its code correct. */
  lemma ClaimedAtMostOnce(tr: seq<State>, ev: seq<Event>, i: nat, j: nat, row: nat)
    requires IsRun(tr, ev) && i < j < |ev| && Claims(tr[i], ev[i], row)
    ensures !Claims(tr[j], ev[j], row)
  {
    GrowsRun(tr, ev, i + 1, j, row);
  }

  /** How many wrong codes were counted against a row in the first `m` steps. */
  function Failures(tr: seq<State>, ev: seq<Event>, m: nat, row: nat): nat
    requires m <= |ev| < |tr|
  {
    if m == 0 then 0
    else
      var q := if ev[m - 1].CountAttempt? then ev[m - 1].request else 0;
      var hit := ev[m - 1].CountAttempt? && q in tr[m - 1].requests && tr[m - 1].requests[q] == Counting(row);
      Failures(tr, ev, m - 1, row) + if hit then 1 else 0
  }

  /** No wrong code is lost: `attempts` counts them all, although the verifiers run concurrently. */
  lemma {:induction false} AttemptsCountFailures(tr: seq<State>, ev: seq<Event>, m: nat, row: nat)
    requires IsRun(tr, ev) && m < |tr|
    ensures Failures(tr, ev, m, row) == if row < |tr[m].rows| then tr[m].rows[row].attempts else 0
  {
    if m > 0 {
      AttemptsCountFailures(tr, ev, m - 1, row);
      AttemptsStep(tr[m - 1], ev[m - 1], row);
    }
  }

  function Attempts(s: State, row: nat): nat {
    if row < |s.rows| then s.rows[row].attempts else 0
  }

  lemma AttemptsStep(s: State, e: Event, row: nat)
    requires Enabled(s, e)
    ensures Attempts(Apply(s, e), row) ==
            Attempts(s, row) + if e.CountAttempt? && s.requests[e.request].row == row then 1 else 0
  {
    match e
    case Issue(_, _) =>
    case Claim(_) =>
    case _ =>
  }

  // The limit is read when the row is looked up, and the failure is counted after the comparison.

  predicate Trying(s: State, q: nat, row: nat) {
    q in s.requests && (s.requests[q].Comparing? || s.requests[q].Counting?) && s.requests[q].row == row
  }

  /** The requests that have looked the row up and may still count a wrong code against it. */
  function Triers(s: State, row: nat): set<nat> {
    set q | q in s.requests && Trying(s, q, row)
  }

  predicate Counts(s: State, e: Event, row: nat) {
    Enabled(s, e) && e.CountAttempt? && s.requests[e.request].row == row
  }

  lemma TriersStep(s: State, e: Event, row: nat)
    requires Enabled(s, e)
    ensures Triers(Apply(s, e), row) <= Triers(s, row) + if e.Lookup? then {e.request} else {}
    ensures Counts(s, e, row) ==> e.request in Triers(s, row) && Triers(Apply(s, e), row) == Triers(s, row) - {e.request}
    ensures s.maxAttempts <= Attempts(s, row) ==> Triers(Apply(s, e), row) <= Triers(s, row)
  {
    match e
    case Lookup(_, _, _, _) =>
    case Issue(_, _) =>
    case Claim(_) =>
    case _ =>
  }

  /** Steps from any state on. */
  ghost predicate IsPath(tr: seq<State>, ev: seq<Event>) {
    |tr| == |ev| + 1 && forall i :: 0 <= i < |ev| ==> Enabled(tr[i], ev[i]) && tr[i + 1] == Apply(tr[i], ev[i])
  }

  /** At the limit, every further failure uses up a request that had looked the row up. */
  lemma SpendStep(s: State, e: Event, row: nat)
    requires Enabled(s, e) && s.maxAttempts <= Attempts(s, row)
    ensures Apply(s, e).maxAttempts == s.maxAttempts && Attempts(s, row) <= Attempts(Apply(s, e), row)
    ensures Attempts(Apply(s, e), row) + |Triers(Apply(s, e), row)| <= Attempts(s, row) + |Triers(s, row)|
  {
    AttemptsStep(s, e, row);
    GrowsStep(s, e);
    TriersStep(s, e, row);
    Sets.SizeOfSubset(Triers(Apply(s, e), row), Triers(s, row));
  }

  ghost predicate SpendsAt(tr: seq<State>, k: nat, row: nat) {
    k + 1 < |tr| && tr[k].maxAttempts <= Attempts(tr[k], row) ==>
      && tr[k + 1].maxAttempts == tr[k].maxAttempts && Attempts(tr[k], row) <= Attempts(tr[k + 1], row)
      && Attempts(tr[k + 1], row) + |Triers(tr[k + 1], row)| <= Attempts(tr[k], row) + |Triers(tr[k], row)|
  }

  lemma {:induction false} SpendChain(tr: seq<State>, i: nat, m: nat, row: nat)
    requires i <= m < |tr| && tr[i].maxAttempts <= Attempts(tr[i], row) && forall k: nat :: SpendsAt(tr, k, row)
    ensures tr[m].maxAttempts == tr[i].maxAttempts && Attempts(tr[i], row) <= Attempts(tr[m], row)
    ensures Attempts(tr[m], row) + |Triers(tr[m], row)| <= Attempts(tr[i], row) + |Triers(tr[i], row)|
  {
    if i < m {
      SpendChain(tr, i, m - 1, row);
      assert SpendsAt(tr, m - 1, row);
    }
  }

  lemma TriersAreSpent(tr: seq<State>, ev: seq<Event>, i: nat, m: nat, row: nat)
    requires IsPath(tr, ev) && i <= m < |tr| && tr[i].maxAttempts <= Attempts(tr[i], row)
    ensures Attempts(tr[m], row) + |Triers(tr[m], row)| <= Attempts(tr[i], row) + |Triers(tr[i], row)|
  {
    forall k: nat ensures SpendsAt(tr, k, row) {
      if k + 1 < |tr| && tr[k].maxAttempts <= Attempts(tr[k], row) {
        SpendStep(tr[k], ev[k], row);
      }
    }
    SpendChain(tr, i, m, row);
  }

  lemma PathStep(s: State, e: Event, tr: seq<State>, ev: seq<Event>)
    requires Enabled(s, e) && IsPath(tr, ev) && tr[0] == Apply(s, e)
    ensures IsPath([s] + tr, [e] + ev)
  {
  }

  /** A request that has looked the row up and compared counts one more. */
  lemma CountStep(s: State, q: nat, row: nat)
    requires q in Triers(s, row) && s.requests[q].Counting? && row < |s.rows|
    ensures var t := Apply(s, CountAttempt(q));
      row < |t.rows| && Attempts(t, row) == Attempts(s, row) + 1 && |Triers(t, row)| == |Triers(s, row)| - 1
  {
    AttemptsStep(s, CountAttempt(q), row);
    TriersStep(s, CountAttempt(q), row);
  }

  lemma CompareStep(s: State, q: nat, row: nat)
    requires q in Triers(s, row) && s.requests[q].Comparing? && row < |s.rows|
    ensures var t := Apply(s, Compare(q, false));
      t.rows == s.rows && q in Triers(t, row) && t.requests[q].Counting? && |Triers(t, row)| == |Triers(s, row)|
  {
    assert Triers(Apply(s, Compare(q, false)), row) == Triers(s, row);
  }

  /** Each of those requests can count one more. */
  lemma {:induction false} TriersCanFail(s: State, row: nat, n: nat) returns (tr: seq<State>, ev: seq<Event>)
    requires row < |s.rows| && n <= |Triers(s, row)|
    ensures IsPath(tr, ev) && tr[0] == s && Attempts(tr[|ev|], row) == Attempts(s, row) + n
    decreases n
  {
    tr, ev := [s], [];
    if n > 0 {
      var q :| q in Triers(s, row);
      tr, ev := TrierCanFail(s, row, n, q);
    }
  }

  lemma {:induction false} TrierCanFail(s: State, row: nat, n: nat, q: nat) returns (tr: seq<State>, ev: seq<Event>)
    requires row < |s.rows| && 0 < n <= |Triers(s, row)| && q in Triers(s, row)
    ensures IsPath(tr, ev) && tr[0] == s && Attempts(tr[|ev|], row) == Attempts(s, row) + n
    decreases n, 0, if s.requests[q].Comparing? then 1 else 0
  {
    var e := if s.requests[q].Comparing? then Compare(q, false) else CountAttempt(q);
    if s.requests[q].Comparing? {
      CompareStep(s, q, row);
      tr, ev := TrierCanFail(Apply(s, e), row, n, q);
    } else {
      CountStep(s, q, row);
      tr, ev := TriersCanFail(Apply(s, e), row, n - 1);
    }
    PathStep(s, e, tr, ev);
    tr, ev := [s] + tr, [e] + ev;
  }

  /** Some continuation counts exactly `n` more wrong codes against the row. */
  ghost predicate CanFail(s: State, row: nat, n: nat) {
    exists tr, ev :: IsPath(tr, ev) && tr[0] == s && Attempts(tr[|ev|], row) == Attempts(s, row) + n
  }

  /** Main result on the limit. It is soft: once it is reached, exactly as many more wrong codes can be counted
      against the row as there are requests that looked it up before and have not counted yet. */
  lemma FailuresPastLimit(s: State, row: nat, n: nat)
    requires row < |s.rows| && s.maxAttempts <= Attempts(s, row)
    ensures CanFail(s, row, n) <==> n <= |Triers(s, row)|
  {
    if CanFail(s, row, n) {
      var tr, ev :| IsPath(tr, ev) && tr[0] == s && Attempts(tr[|ev|], row) == Attempts(s, row) + n;
      TriersAreSpent(tr, ev, 0, |ev|, row);
    }
    if n <= |Triers(s, row)| {
      var tr, ev := TriersCanFail(s, row, n);
    }
  }

  lemma NoneAtFirst(s: State, row: nat)
    requires s.requests == map[]
    ensures |Triers(s, row)| == 0
  {
  }

  /** Over whole runs: never more failures than the maximum and the requests that had looked the row up when
      it was reached, at step `k`. */
  lemma FailuresAtMost(tr: seq<State>, ev: seq<Event>, m: nat, row: nat) returns (k: nat)
    requires IsRun(tr, ev) && m < |tr| && tr[0].maxAttempts < Failures(tr, ev, m, row)
    ensures 0 < k < m && Counts(tr[k - 1], ev[k - 1], row) && Attempts(tr[k], row) == tr[0].maxAttempts
    ensures Failures(tr, ev, m, row) <= tr[0].maxAttempts + |Triers(tr[k], row)|
  {
    AttemptsCountFailures(tr, ev, m, row);
    if tr[0].maxAttempts == 0 {
      NoneAtFirst(tr[0], row);
      TriersAreSpent(tr, ev, 0, m, row);
    }
    k := CountedAt(tr, ev, m, row, tr[0].maxAttempts);
    GrowsRun(tr, ev, 0, k, row);
    TriersAreSpent(tr, ev, k, m, row);
  }

  /** The step that counted the `n`-th failure. */
  lemma {:induction false} CountedAt(tr: seq<State>, ev: seq<Event>, m: nat, row: nat, n: nat) returns (k: nat)
    requires IsRun(tr, ev) && m < |tr| && 0 < n <= Attempts(tr[m], row)
    ensures 0 < k <= m && Counts(tr[k - 1], ev[k - 1], row) && Attempts(tr[k], row) == n
  {
    AttemptsStep(tr[m - 1], ev[m - 1], row);
    if n <= Attempts(tr[m - 1], row) {
      k := CountedAt(tr, ev, m - 1, row, n);
    } else {
      k := m;
    }
  }

  lemma LastTrier(s: State, e: Event, row: nat)
    requires Counts(s, e, row) && |Triers(s, row)| <= 1
    ensures |Triers(Apply(s, e), row)| == 0
  {
    TriersStep(s, e, row);
  }

  /** The plain maximum holds for a row that no two requests try at the same time. */
  lemma LimitHoldsOneAtATime(tr: seq<State>, ev: seq<Event>, m: nat, row: nat)
    requires IsRun(tr, ev) && m < |tr| && forall i :: 0 <= i < m ==> |Triers(tr[i], row)| <= 1
    ensures Failures(tr, ev, m, row) <= tr[0].maxAttempts
  {
    if tr[0].maxAttempts < Failures(tr, ev, m, row) {
      var k := FailuresAtMost(tr, ev, m, row);
      LastTrier(tr[k - 1], ev[k - 1], row);
    }
  }

  function At1(attempts: nat, requests: map<nat, Stage>): State {
    State(60_000, 600_000, 1, 0, [Row(Key(0, 0, 0), 0, 600_000, attempts, false)], map[], requests)
  }

  /** It is passed: with a limit of one, two requests look the same row up and count two wrong codes. */
  lemma TwoAtOncePassTheLimit() returns (tr: seq<State>, ev: seq<Event>)
    ensures IsRun(tr, ev) && tr[0].maxAttempts == 1 && Failures(tr, ev, |ev|, 0) == 2
  {
    var k, r := Key(0, 0, 0), map[1 := Answered(0)];
    var none := State(60_000, 600_000, 1, 0, [], map[], map[]);
    tr, ev := [none], [];
    tr, ev := Extend(tr, ev, Precheck(1, k, None), none.(requests := map[1 := Issuing(k)]));
    tr, ev := Extend(tr, ev, Issue(1, None), At1(0, r));
    tr, ev := Extend(tr, ev, Lookup(2, 0, 0, 7), At1(0, r[2 := Comparing(0, 7)]));
    tr, ev := Extend(tr, ev, Lookup(3, 0, 0, 7), At1(0, r[2 := Comparing(0, 7)][3 := Comparing(0, 7)]));
    tr, ev := BothCount(tr, ev, r);
    AttemptsCountFailures(tr, ev, |ev|, 0);
  }

  lemma BothCount(tr: seq<State>, ev: seq<Event>, r: map<nat, Stage>) returns (tr': seq<State>, ev': seq<Event>)
    requires IsRun(tr, ev) && tr[|ev|] == At1(0, r[2 := Comparing(0, 7)][3 := Comparing(0, 7)])
    ensures IsRun(tr', ev') && tr'[0] == tr[0] && tr'[|ev'|] == At1(2, r[2 := Ended(false)][3 := Ended(false)])
  {
    tr', ev' := Extend(tr, ev, Compare(2, false), At1(0, r[2 := Counting(0)][3 := Comparing(0, 7)]));
    tr', ev' := Extend(tr', ev', Compare(3, false), At1(0, r[2 := Counting(0)][3 := Counting(0)]));
    tr', ev' := Extend(tr', ev', CountAttempt(2), At1(1, r[2 := Ended(false)][3 := Counting(0)]));
    tr', ev' := Extend(tr', ev', CountAttempt(3), At1(2, r[2 := Ended(false)][3 := Ended(false)]));
  }

  /** A password changes only when a row is claimed: the row belongs to that user, is unused and unexpired,
      and fewer than the maximum of wrong codes were counted against it; all other passwords stay. */
  lemma PasswordChangesOnlyByClaim(tr: seq<State>, ev: seq<Event>, m: nat)
    requires IsRun(tr, ev) && m < |ev| && tr[m + 1].passwords != tr[m].passwords
    ensures ev[m].Claim? && ev[m].request in tr[m].requests && tr[m].requests[ev[m].request].Claiming?
    ensures var st := tr[m].requests[ev[m].request];
      && Claims(tr[m], ev[m], st.row) && st.row < |tr[m].rows|
      && !tr[m].rows[st.row].used && tr[m].now < tr[m].rows[st.row].createdAt + tr[m].lifetime
      && Failures(tr, ev, m, st.row) < tr[m].maxAttempts
      && tr[m + 1].passwords == tr[m].passwords[tr[m].rows[st.row].key.user := st.password]
      && tr[m + 1].rows[st.row].used
  {
    InvRun(tr, ev, m);
    assert ev[m].Claim?;
    var row := tr[m].requests[ev[m].request].row;
    AttemptsCountFailures(tr, ev, m, row);
    assert RowOk(tr[m], row);
  }

  /** The lookup found the row in order. */
  predicate LooksUpUsable(s: State, e: Event, q: nat, row: nat, password: nat) {
    && e.Lookup? && e.request == q && e.row == row && e.password == password
    && row < |s.rows| && s.rows[row].key.purpose == e.purpose && !s.rows[row].used
    && s.now <= s.rows[row].expiresAt && s.rows[row].attempts < s.maxAttempts
  }

  lemma StageOrigin(s: State, e: Event, q: nat)
    requires Enabled(s, e) && q in Apply(s, e).requests
    ensures var st := Apply(s, e).requests[q];
      && (st.Comparing? ==> LooksUpUsable(s, e, q, st.row, st.password) || (q in s.requests && s.requests[q] == st))
      && (st.Claiming? ==>
            q in s.requests &&
            (s.requests[q] == st || (e == Compare(q, true) && s.requests[q] == Comparing(st.row, st.password))))
  {
  }

  lemma {:induction false} ComparisonsAreLookedUp(tr: seq<State>, ev: seq<Event>, m: nat, q: nat) returns (i: nat)
    requires IsRun(tr, ev) && m < |tr| && q in tr[m].requests && tr[m].requests[q].Comparing?
    ensures i < m && LooksUpUsable(tr[i], ev[i], q, tr[m].requests[q].row, tr[m].requests[q].password)
  {
    StageOrigin(tr[m - 1], ev[m - 1], q);
    if LooksUpUsable(tr[m - 1], ev[m - 1], q, tr[m].requests[q].row, tr[m].requests[q].password) {
      i := m - 1;
    } else {
      i := ComparisonsAreLookedUp(tr, ev, m - 1, q);
    }
  }

  /** No password changes without the right code: a claim is only attempted after a lookup that found the row
      in order and, later, a comparison in which the code was right. */
  lemma {:induction false} ClaimsAreChecked(tr: seq<State>, ev: seq<Event>, m: nat, q: nat) returns (i: nat, j: nat)
    requires IsRun(tr, ev) && m < |tr| && q in tr[m].requests && tr[m].requests[q].Claiming?
    ensures i < j < m && ev[j] == Compare(q, true)
    ensures LooksUpUsable(tr[i], ev[i], q, tr[m].requests[q].row, tr[m].requests[q].password)
  {
    StageOrigin(tr[m - 1], ev[m - 1], q);
    if ev[m - 1] == Compare(q, true) {
      j := m - 1;
      i := ComparisonsAreLookedUp(tr, ev, m - 1, q);
    } else {
      i, j := ClaimsAreChecked(tr, ev, m - 1, q);
    }
  }

  /** Each password change spends a row of its own. */
  lemma OneChangePerRow(tr: seq<State>, ev: seq<Event>, i: nat, j: nat)
    requires IsRun(tr, ev) && i < j < |ev|
    requires tr[i + 1].passwords != tr[i].passwords && tr[j + 1].passwords != tr[j].passwords
    ensures ev[i].Claim? && ev[j].Claim?
    ensures tr[i].requests[ev[i].request].row != tr[j].requests[ev[j].request].row
  {
    PasswordChangesOnlyByClaim(tr, ev, i);
    PasswordChangesOnlyByClaim(tr, ev, j);
    ClaimedAtMostOnce(tr, ev, i, j, tr[i].requests[ev[i].request].row);
  }

  // ---------------------------------------------------------------- what one request can do

  /** The request that takes this step. */
  function Actor(e: Event): Option<nat> {
    match e
    case Tick(_) => None
    case Precheck(q, _, _) => Some(q)
    case Issue(q, _) => Some(q)
    case Lookup(q, _, _, _) => Some(q)
    case Compare(q, _) => Some(q)
    case CountAttempt(q) => Some(q)
    case Claim(q) => Some(q)
  }

  /** Steps of one request alone, beginning with its lookup of row `i` under the row's own purpose. */
  ghost predicate SpendsAlone(s: State, q: nat, i: nat, password: nat, tr: seq<State>, ev: seq<Event>) {
    && i < |s.rows| && IsPath(tr, ev) && tr[0] == s && ev != []
    && ev[0] == Lookup(q, i, s.rows[i].key.purpose, password)
    && forall k :: 0 <= k < |ev| ==> Actor(ev[k]) == Some(q)
  }

  /** The password of the row's user is the new one, the row is used, and nothing else has changed. */
  predicate SpentFor(s: State, t: State, i: nat, password: nat) {
    && i < |s.rows| && t.passwords == s.passwords[s.rows[i].key.user := password]
    && t.rows == s.rows[i := s.rows[i].(used := true)]
  }

  ghost predicate Spends(s: State, q: nat, i: nat, password: nat, tr: seq<State>, ev: seq<Event>) {
    && SpendsAlone(s, q, i, password, tr, ev)
    && q in tr[|ev|].requests && tr[|ev|].requests[q] == Ended(true) && SpentFor(s, tr[|ev|], i, password)
  }

  ghost predicate CanSpend(s: State, q: nat, i: nat, password: nat) {
    exists tr, ev :: Spends(s, q, i, password, tr, ev)
  }

  /** How far a request alone on row `i` can have come: the row is as it was, until it is claimed. */
  ghost predicate AloneOk(s: State, t: State, q: nat, i: nat) {
    && q in t.requests && t.now == s.now && t.maxAttempts == s.maxAttempts
    && match t.requests[q]
       case Comparing(row, _) => row == i && t.rows == s.rows
       case Claiming(row, _) => row == i && t.rows == s.rows
       case Counting(row) => true
       case Ended(claimed) => claimed ==> Claimable(s, i)
       case _ => false
  }

  lemma {:induction false} AloneStays(s: State, q: nat, i: nat, password: nat, tr: seq<State>, ev: seq<Event>, m: nat)
    requires SpendsAlone(s, q, i, password, tr, ev) && 0 < m < |tr| && q !in s.requests
    ensures AloneOk(s, tr[m], q, i)
  {
    if m > 1 {
      AloneStays(s, q, i, password, tr, ev, m - 1);
      assert Actor(ev[m - 1]) == Some(q);
      AloneStep(s, tr[m - 1], ev[m - 1], q, i);
    }
  }

  lemma AloneStep(s: State, t: State, e: Event, q: nat, i: nat)
    requires AloneOk(s, t, q, i) && Enabled(t, e) && Actor(e) == Some(q)
    ensures AloneOk(s, Apply(t, e), q, i)
  {
  }

  lemma RightCodeSpends(s: State, q: nat, i: nat, password: nat) returns (tr: seq<State>, ev: seq<Event>)
    requires q !in s.requests && Claimable(s, i)
    ensures Spends(s, q, i, password, tr, ev)
  {
    var lookup := Lookup(q, i, s.rows[i].key.purpose, password);
    var s1 := Apply(s, lookup);
    var s2 := Apply(s1, Compare(q, true));
    tr, ev := [s, s1, s2, Apply(s2, Claim(q))], [lookup, Compare(q, true), Claim(q)];
  }

  /** Main result on acceptance. A request that presents the right code changes the password of the row's user,
      uses the row up and changes nothing else, if and only if the row is unused and unexpired and fewer than the
      maximum of wrong codes were counted against it. */
  lemma RightCodeIsAcceptedIff(s: State, q: nat, i: nat, password: nat)
    requires q !in s.requests && i < |s.rows|
    ensures CanSpend(s, q, i, password)
            <==> !s.rows[i].used && s.now < s.rows[i].expiresAt && s.rows[i].attempts < s.maxAttempts
  {
    if Claimable(s, i) {
      var tr, ev := RightCodeSpends(s, q, i, password);
    }
    if CanSpend(s, q, i, password) {
      var tr, ev :| Spends(s, q, i, password, tr, ev);
      AloneStays(s, q, i, password, tr, ev, |ev|);
    }
  }

  /** A wrong code changes nothing but the row's count. */
  lemma WrongCodeOnlyCounts(s: State, q: nat, i: nat, password: nat)
    requires q !in s.requests && i < |s.rows| && !s.rows[i].used && s.now <= s.rows[i].expiresAt
    requires s.rows[i].attempts < s.maxAttempts
    ensures var s1 := Apply(s, Lookup(q, i, s.rows[i].key.purpose, password));
      && Enabled(s1, Compare(q, false)) && Enabled(Apply(s1, Compare(q, false)), CountAttempt(q))
      && var t := Apply(Apply(s1, Compare(q, false)), CountAttempt(q));
         && t.rows == s.rows[i := s.rows[i].(attempts := s.rows[i].attempts + 1)]
         && t.passwords == s.passwords && t.requests[q] == Ended(false)
  {
  }

  /** A code that is issued can be used: outside a cooldown a request that asks for one is answered with a new
      row, the older ones of its key are used, and whoever presents the new code changes the password with it. */
  lemma IssuedCodeWorks(s: State, q: nat, r: nat, key: Key, found: Option<nat>, password: nat)
    requires q !in s.requests && r !in s.requests && q != r && IsLatest(s, key, found)
    requires found.Some? ==> s.rows[found.value].used || s.now - s.rows[found.value].createdAt >= s.cooldown
    requires 0 < s.lifetime && 0 < s.maxAttempts
    ensures var s1 := Apply(s, Precheck(q, key, found));
      && Enabled(s1, Issue(q, found))
      && var t, n := Apply(s1, Issue(q, found)), |s.rows|;
         && t.requests[q] == Answered(n) && |t.rows| == n + 1 && t.rows[n].key == key
         && (forall i :: 0 <= i < n ==> 
               t.rows[i] == if s.rows[i].key == key then s.rows[i].(used := true) else s.rows[i])
         && CanSpend(t, r, n, password)
  {
    var s1 := Apply(s, Precheck(q, key, found));
    RightCodeIsAcceptedIff(Apply(s1, Issue(q, found)), r, |s.rows|, password);
  }

  /** Within a cooldown the request is answered with the row that is cooling, and nothing changes. */
  lemma CooldownAnswersOld(s: State, q: nat, key: Key, found: Option<nat>)
    requires q !in s.requests && IsLatest(s, key, found)
    requires found.Some? && !s.rows[found.value].used && s.now - s.rows[found.value].createdAt < s.cooldown
    ensures var t := Apply(s, Precheck(q, key, found));
      t.requests[q] == Answered(found.value) && t.rows == s.rows && t.passwords == s.passwords
  {
  }

  // ---------------------------------------------------------------- the code, step by step

  /** The OTP table, the password column and the handlers in progress. */
  class OtpTable {
    const cooldown: nat
    const lifetime: nat
    const maxAttempts: nat
    var now: int
    var rows: seq<Row>
    var passwords: map<nat, nat>
    var requests: map<nat, Stage>

    ghost function View(): State
      reads this
    {
      State(cooldown, lifetime, maxAttempts, now, rows, passwords, requests)
    }

    constructor (cooldown: nat, lifetime: nat, maxAttempts: nat, passwords: map<nat, nat>)
      ensures View() == State(cooldown, lifetime, maxAttempts, 0, [], passwords, map[])
    {
      this.cooldown, this.lifetime, this.maxAttempts, this.passwords := cooldown, lifetime, maxAttempts, passwords;
      now, rows, requests := 0, [], map[];
    }

    /** One findCooldownOtp, on the row that findFirst returned. */
    method FindCooldownOtp(found: Option<nat>) returns (active: Option<nat>)
      requires found.Some? ==> found.value < |rows|
      ensures active == if IsCooling(View(), found) then found else None
    {
      if found.Some? && !rows[found.value].used && now - rows[found.value].createdAt < cooldown {
        return found;
      }
      return None;
    }

    method CheckBeforeIssue(q: nat, key: Key, found: Option<nat>)
      requires Enabled(View(), Precheck(q, key, found))
      modifies this`requests
      ensures View() == Apply(old(View()), Precheck(q, key, found))
    {
      var cooling := FindCooldownOtp(found);
      requests := requests[q := if cooling.Some? then Answered(cooling.value) else Issuing(key)];
    }

    method IssueInTransaction(q: nat, found: Option<nat>)
      requires Enabled(View(), Issue(q, found))
      modifies this`rows, this`requests
      ensures View() == Apply(old(View()), Issue(q, found))
    {
      var key := requests[q].key;
      var active := FindCooldownOtp(found);
      if active.Some? {
        requests := requests[q := Answered(active.value)];
        return;
      }
      rows := UseAll(rows, key);
      rows := rows + [Row(key, now, now + lifetime, 0, false)];
      requests := requests[q := Answered(|rows| - 1)];
    }

    method LookupRow(q: nat, i: nat, purpose: nat, password: nat)
      requires Enabled(View(), Lookup(q, i, purpose, password))
      modifies this`requests
      ensures View() == Apply(old(View()), Lookup(q, i, purpose, password))
    {
      if i >= |rows| {
        requests := requests[q := Ended(false)];
        return;
      }
      var row := rows[i];
      var refused := row.key.purpose != purpose || row.used || row.expiresAt < now || row.attempts >= maxAttempts;
      requests := requests[q := if refused then Ended(false) else Comparing(i, password)];
    }

    method CodeCompared(q: nat, same: bool)
      requires Enabled(View(), Compare(q, same))
      modifies this`requests
      ensures View() == Apply(old(View()), Compare(q, same))
    {
      var st := requests[q];
      requests := requests[q := if same then Claiming(st.row, st.password) else Counting(st.row)];
    }

    method CountWrongCode(q: nat)
      requires Enabled(View(), CountAttempt(q))
      modifies this`rows, this`requests
      ensures View() == Apply(old(View()), CountAttempt(q))
    {
      var i := requests[q].row;
      rows := rows[i := rows[i].(attempts := rows[i].attempts + 1)];
      requests := requests[q := Ended(false)];
    }

    method ClaimInTransaction(q: nat)
      requires Enabled(View(), Claim(q))
      modifies this`rows, this`passwords, this`requests
      ensures View() == Apply(old(View()), Claim(q))
    {
      var i, password := requests[q].row, requests[q].password;
      if i < |rows| && !rows[i].used && rows[i].attempts < maxAttempts && rows[i].expiresAt > now {
        rows := rows[i := rows[i].(used := true)];
        passwords := passwords[rows[i].key.user := password];
        requests := requests[q := Ended(true)];
      } else {
        requests := requests[q := Ended(false)];
      }
    }
  }
}
