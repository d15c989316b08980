/** The second step of a login: challenges, the TOTP and SMS factors, and single-use recovery codes, with
    requests interleaved between every two awaits. */
module TwoFactor {
  import opened Options
  import Base32
  import Sets
  import Totp

  const MAX_ATTEMPTS := 5
  const CHALLENGE_TTL_MS := 300_000
  const WINDOW := 1

  /** Challenges of other purposes share the table; only LOGIN ones are issued here. */
  datatype Purpose = LOGIN | OTHER_PURPOSE

  datatype Challenge = Challenge(
    user: nat, purpose: Purpose, consumed: bool, expiresAt: int, attempts: nat, smsHash: Option<nat>)

  datatype RecoveryCode = RecoveryCode(user: nat, hash: nat, used: bool)

  datatype Entry = ByCode(code: seq<Totp.Unit>) | ByRecovery(hash: nat) | Resend(smsHash: nat)

  /** What a handler holds after loadChallengeOrThrow has read the challenge. */
  datatype Job = Job(challenge: nat, user: nat, smsHash: Option<nat>, entry: Entry)

  /** The evidence a request offers; for a TOTP step also what was read when it was found. */
  datatype Factor = Sms | TotpStep(step: int, seen: Option<int>, at: int) | Recovery(code: nat)

  datatype Stage =
    | Creating(user: nat)
    | LoadingUser(job: Job)
    | ComparingSms(job: Job)
    | ReadingSecret(job: Job)
    | Advancing(job: Job, step: int, seen: Option<int>, at: int)
    | FindingCode(job: Job)
    | ClaimingCode(job: Job, code: nat)
    | SettingSms(job: Job)
    | Finishing(job: Job, factor: Factor)
    | Failing(job: Job)
    | Burning(job: Job)
    | Finished(job: Job, factor: Factor, issued: bool)
    | Rejected

  datatype State = State(
    hmac: Totp.Hmac, secrets: map<nat, string>, now: int,
    challenges: map<nat, Challenge>, lastUsed: map<nat, int>, codes: map<nat, RecoveryCode>,
    requests: map<nat, Stage>)

  /** `verdict` is None if two-factor is not enabled; `found` is the row findFirst returns, if any. */
  datatype Event =
    | Tick(dt: nat)
    | DropOlder(request: nat, user: nat)
    | Create(request: nat, challenge: nat)
    | Load(request: nat, challenge: nat, entry: Entry)
    | LoadUser(request: nat, allowed: bool)
    | CompareSms(request: nat, same: bool)
    | ReadSecret(request: nat, verdict: Option<Totp.Verdict>)
    | Advance(request: nat)
    | FindCode(request: nat, found: Option<nat>)
    | ClaimCode(request: nat)
    | SetSms(request: nat)
    | Finish(request: nat)
    | Fail(request: nat)
    | Burn(request: nat)

  function LastUsed(s: State, user: nat): Option<int> {
    if user in s.lastUsed then Some(s.lastUsed[user]) else None
  }

  predicate Matches(s: State, job: Job, id: nat) {
    && id in s.codes && s.codes[id].user == job.user && !s.codes[id].used
    && job.entry.ByRecovery? && s.codes[id].hash == job.entry.hash
  }

  ghost predicate VerdictOk(s: State, job: Job, verdict: Option<Totp.Verdict>) {
    verdict.Some? ==>
      && job.user in s.secrets && job.entry.ByCode?
      && Totp.IsVerdict(s.hmac, s.secrets[job.user], job.entry.code, LastUsed(s, job.user), WINDOW, s.now, verdict.value)
  }

  ghost predicate Enabled(s: State, e: Event) {
    match e
    case Tick(_) => true
    case DropOlder(q, _) => q !in s.requests
    case Create(q, c) => q in s.requests && s.requests[q].Creating? && c !in s.challenges
    case Load(q, _, _) => q !in s.requests
    case LoadUser(q, _) => q in s.requests && s.requests[q].LoadingUser?
    case CompareSms(q, _) => q in s.requests && s.requests[q].ComparingSms?
    case ReadSecret(q, v) => q in s.requests && s.requests[q].ReadingSecret? && VerdictOk(s, s.requests[q].job, v)
    case Advance(q) => q in s.requests && s.requests[q].Advancing?
    case FindCode(q, found) =>
      && q in s.requests && s.requests[q].FindingCode?
      && (if found.Some? then Matches(s, s.requests[q].job, found.value)
          else forall id :: !Matches(s, s.requests[q].job, id))
    case ClaimCode(q) => q in s.requests && s.requests[q].ClaimingCode?
    case SetSms(q) => q in s.requests && s.requests[q].SettingSms?
    case Finish(q) => q in s.requests && s.requests[q].Finishing?
    case Fail(q) => q in s.requests && s.requests[q].Failing?
    case Burn(q) => q in s.requests && s.requests[q].Burning?
  }

  function Go(s: State, q: nat, stage: Stage): State {
    s.(requests := s.requests[q := stage])
  }

  function DropChallenges(challenges: map<nat, Challenge>, user: nat): (out: map<nat, Challenge>)
    ensures out.Keys == challenges.Keys
  {
    map c | c in challenges ::
      if challenges[c].user == user then challenges[c].(consumed := true) else challenges[c]
  }

  function Consume(s: State, c: nat): State {
    if c !in s.challenges then s
    else s.(challenges := s.challenges[c := s.challenges[c].(consumed := true)])
  }

  /** The checks of loadChallengeOrThrow on the row it read. */
  predicate Usable(s: State, c: nat) {
    && c in s.challenges && !s.challenges[c].consumed
    && s.now <= s.challenges[c].expiresAt && s.challenges[c].purpose == LOGIN
    && s.challenges[c].attempts < MAX_ATTEMPTS
  }

  function LoadStep(s: State, q: nat, c: nat, entry: Entry): State {
    if !Usable(s, c) then Go(s, q, Rejected)
    else Go(s, q, LoadingUser(Job(c, s.challenges[c].user, s.challenges[c].smsHash, entry)))
  }

  function LoadUserStep(s: State, q: nat, job: Job, allowed: bool): State {
    Go(s, q,
       if !allowed then Rejected
       else match job.entry
         case ByCode(_) => if job.smsHash.Some? then ComparingSms(job) else ReadingSecret(job)
         case ByRecovery(_) => FindingCode(job)
         case Resend(_) => SettingSms(job))
  }

  function ReadSecretStep(s: State, q: nat, job: Job, verdict: Option<Totp.Verdict>): State {
    Go(s, q,
       if verdict.None? then Rejected
       else match verdict.value
         case Matched(step) => Advancing(job, step, LastUsed(s, job.user), s.now)
         case Refused => Failing(job)
         case _ => Rejected)
  }

  /** `updateMany` on the secret row, where lastUsedStep is null or below the step. */
  function AdvanceStep(s: State, q: nat, job: Job, step: int, seen: Option<int>, at: int): State {
    if job.user in s.lastUsed && step <= s.lastUsed[job.user] then Go(s, q, Failing(job))
    else Go(s, q, Finishing(job, TotpStep(step, seen, at))).(lastUsed := s.lastUsed[job.user := step])
  }

  function ClaimCodeStep(s: State, q: nat, job: Job, code: nat): State {
    if code !in s.codes || s.codes[code].used then Go(s, q, Failing(job))
    else Go(s, q, Finishing(job, Recovery(code))).(codes := s.codes[code := s.codes[code].(used := true)])
  }

  function SetSmsStep(s: State, q: nat, job: Job): State {
    var t := Go(s, q, Rejected);
    if job.challenge !in s.challenges || !job.entry.Resend? then t
    else t.(challenges := s.challenges[job.challenge := s.challenges[job.challenge].(smsHash := Some(job.entry.smsHash))])
  }

  /** finishChallenge: tokens are issued to whoever consumes the challenge. */
  function FinishStep(s: State, q: nat, job: Job, factor: Factor): State {
    var c := job.challenge;
    if c !in s.challenges || s.challenges[c].consumed then Go(s, q, Finished(job, factor, false))
    else Go(Consume(s, c), q, Finished(job, factor, true))
  }

  function FailStep(s: State, q: nat, job: Job): State {
    var c := job.challenge;
    if c !in s.challenges then Go(s, q, Rejected)
    else
      var attempts := s.challenges[c].attempts + 1;
      Go(s, q, if attempts >= MAX_ATTEMPTS then Burning(job) else Rejected)
        .(challenges := s.challenges[c := s.challenges[c].(attempts := attempts)])
  }

  function Apply(s: State, e: Event): State
    requires Enabled(s, e)
  {
    match e
    case Tick(dt) => s.(now := s.now + dt)
    case DropOlder(q, user) => Go(s, q, Creating(user)).(challenges := DropChallenges(s.challenges, user))
    case Create(q, c) =>
      Go(s, q, Rejected)
        .(challenges := s.challenges[c := Challenge(s.requests[q].user, LOGIN, false, s.now + CHALLENGE_TTL_MS, 0, None)])
    case Load(q, c, entry) => LoadStep(s, q, c, entry)
    case LoadUser(q, allowed) => LoadUserStep(s, q, s.requests[q].job, allowed)
    case CompareSms(q, same) =>
      var job := s.requests[q].job;
      Go(s, q, if same then Finishing(job, Sms) else ReadingSecret(job))
    case ReadSecret(q, verdict) => ReadSecretStep(s, q, s.requests[q].job, verdict)
    case Advance(q) =>
      var st := s.requests[q];
      AdvanceStep(s, q, st.job, st.step, st.seen, st.at)
    case FindCode(q, found) =>
      var job := s.requests[q].job;
      Go(s, q, if found.Some? then ClaimingCode(job, found.value) else Failing(job))
    case ClaimCode(q) => ClaimCodeStep(s, q, s.requests[q].job, s.requests[q].code)
    case SetSms(q) => SetSmsStep(s, q, s.requests[q].job)
    case Finish(q) => FinishStep(s, q, s.requests[q].job, s.requests[q].factor)
    case Fail(q) => FailStep(s, q, s.requests[q].job)
    case Burn(q) => Go(Consume(s, s.requests[q].job.challenge), q, Rejected)
  }

  ghost predicate IsRun(tr: seq<State>, ev: seq<Event>) {
    && |tr| == |ev| + 1
    && tr[0].requests == map[]
    && forall i :: 0 <= i < |ev| ==> Enabled(tr[i], ev[i]) && tr[i + 1] == Apply(tr[i], ev[i])
  }

  // ---------------------------------------------------------------- invariant

  /** The code was, when it was checked, the least match above the last used step within the window. */
  ghost predicate WasMatch(s: State, job: Job, step: int, seen: Option<int>, at: int) {
    && job.user in s.secrets && job.entry.ByCode? && Base32.DecodeText(s.secrets[job.user]).Some?
    && Totp.IsLeastMatch(s.hmac, Base32.DecodeText(s.secrets[job.user]).value, job.entry.code, seen, WINDOW, at, step)
  }

  /** The evidence is used up: the step is not above the last used one, the recovery code is used. */
  ghost predicate Spent(s: State, job: Job, factor: Factor) {
    match factor
    case Sms => true
    case TotpStep(step, seen, at) =>
      job.user in s.lastUsed && step <= s.lastUsed[job.user] && WasMatch(s, job, step, seen, at)
    case Recovery(code) =>
      && code in s.codes && s.codes[code].used && s.codes[code].user == job.user
      && job.entry.ByRecovery? && s.codes[code].hash == job.entry.hash
  }

  predicate OwnJob(s: State, job: Job) {
    job.challenge in s.challenges && s.challenges[job.challenge].user == job.user
  }

  ghost predicate StageOk(s: State, st: Stage) {
    match st
    case Creating(_) => true
    case Rejected => true
    case ComparingSms(job) => OwnJob(s, job) && job.smsHash.Some? && job.entry.ByCode?
    case Advancing(job, step, seen, at) => OwnJob(s, job) && WasMatch(s, job, step, seen, at)
    case ClaimingCode(job, code) =>
      && OwnJob(s, job) && job.entry.ByRecovery?
      && code in s.codes && s.codes[code].user == job.user && s.codes[code].hash == job.entry.hash
    case Finishing(job, factor) => OwnJob(s, job) && Spent(s, job, factor)
    case Finished(job, factor, issued) =>
      && OwnJob(s, job) && Spent(s, job, factor)
      && (issued ==> s.challenges[job.challenge].consumed)
    case _ => OwnJob(s, st.job)
  }

  predicate Holds(st: Stage) {
    st.Finishing? || st.Finished?
  }

  /** Two requests never hold the same step of one user or the same recovery code, and never both issued
      tokens for one challenge. */
  ghost predicate Distinct(a: Stage, b: Stage) {
    Holds(a) && Holds(b) ==>
      && (a.factor.TotpStep? && b.factor.TotpStep? && a.job.user == b.job.user ==> a.factor.step != b.factor.step)
      && (a.factor.Recovery? && b.factor.Recovery? ==> a.factor.code != b.factor.code)
      && (a.Finished? && b.Finished? && a.issued && b.issued ==> a.job.challenge != b.job.challenge)
  }

  ghost predicate RequestOk(s: State, q: nat) {
    q in s.requests ==> StageOk(s, s.requests[q])
  }

  ghost predicate PairOk(s: State, q: nat, r: nat) {
    q in s.requests && r in s.requests && q != r ==> Distinct(s.requests[q], s.requests[r])
  }

  ghost predicate Inv(s: State) {
    (forall q :: RequestOk(s, q)) && (forall q, r :: PairOk(s, q, r))
  }

  // Nothing that has been used up ever becomes usable again.

  predicate ChallengeGrows(s: State, t: State, c: nat) {
    c in s.challenges ==>
      && c in t.challenges && t.challenges[c].user == s.challenges[c].user
      && (s.challenges[c].consumed ==> t.challenges[c].consumed)
      && s.challenges[c].attempts <= t.challenges[c].attempts
  }

  predicate CodeGrows(s: State, t: State, c: nat) {
    c in s.codes ==>
      && c in t.codes && t.codes[c].user == s.codes[c].user && t.codes[c].hash == s.codes[c].hash
      && (s.codes[c].used ==> t.codes[c].used)
  }

  predicate StepGrows(s: State, t: State, user: nat) {
    user in s.lastUsed ==> user in t.lastUsed && s.lastUsed[user] <= t.lastUsed[user]
  }

  ghost predicate Grows(s: State, t: State) {
    && t.hmac == s.hmac && t.secrets == s.secrets
    && (forall c :: ChallengeGrows(s, t, c))
    && (forall c :: CodeGrows(s, t, c))
    && (forall u :: StepGrows(s, t, u))
  }

  lemma StageStaysOk(s: State, t: State, st: Stage)
    requires Grows(s, t) && StageOk(s, st)
    ensures StageOk(t, st)
  {
    if !st.Creating? && !st.Rejected? {
      assert ChallengeGrows(s, t, st.job.challenge) && StepGrows(s, t, st.job.user);
    }
    if Holds(st) && st.factor.Recovery? {
      assert CodeGrows(s, t, st.factor.code);
    }
    if st.ClaimingCode? {
      assert CodeGrows(s, t, st.code);
    }
  }

  /** A step that moves one request on and uses things up keeps the invariant, if the new stage is in order
      and its evidence is new. */
  lemma InvMove(s: State, t: State, q: nat, st: Stage)
    requires Inv(s) && Grows(s, t) && t.requests == s.requests[q := st]
    requires StageOk(t, st)
    requires forall r :: r in s.requests && r != q ==> Distinct(st, s.requests[r])
    ensures Inv(t)
  {
    forall r ensures RequestOk(t, r) {
      assert RequestOk(s, r);
      if r in s.requests {
        StageStaysOk(s, t, s.requests[r]);
      }
    }
    forall r, r' ensures PairOk(t, r, r') {
      assert PairOk(s, r, r');
    }
  }

  lemma ChallengeStep(s: State, e: Event, c: nat)
    requires Enabled(s, e)
    ensures ChallengeGrows(s, Apply(s, e), c)
  {
  }

  lemma CodeStep(s: State, e: Event, c: nat)
    requires Enabled(s, e)
    ensures CodeGrows(s, Apply(s, e), c)
  {
  }

  lemma UsedStep(s: State, e: Event, user: nat)
    requires Enabled(s, e)
    ensures StepGrows(s, Apply(s, e), user)
    ensures Apply(s, e).hmac == s.hmac && Apply(s, e).secrets == s.secrets
  {
  }

  lemma GrowsStep(s: State, e: Event)
    requires Enabled(s, e)
    ensures Grows(s, Apply(s, e))
  {
    var t := Apply(s, e);
    forall c ensures ChallengeGrows(s, t, c) && CodeGrows(s, t, c) && StepGrows(s, t, c) {
      ChallengeStep(s, e, c);
      CodeStep(s, e, c);
      UsedStep(s, e, c);
    }
    UsedStep(s, e, 0);
  }

  lemma InvAdvance(s: State, q: nat)
    requires Inv(s) && Enabled(s, Advance(q))
    ensures Inv(Apply(s, Advance(q)))
  {
    var t := Apply(s, Advance(q));
    GrowsStep(s, Advance(q));
    assert RequestOk(s, q);
    forall r | r in s.requests && r != q
      ensures Distinct(t.requests[q], s.requests[r])
    {
      assert RequestOk(s, r);
    }
    InvMove(s, t, q, t.requests[q]);
  }

  lemma InvClaim(s: State, q: nat)
    requires Inv(s) && Enabled(s, ClaimCode(q))
    ensures Inv(Apply(s, ClaimCode(q)))
  {
    var t := Apply(s, ClaimCode(q));
    GrowsStep(s, ClaimCode(q));
    assert RequestOk(s, q);
    forall r | r in s.requests && r != q
      ensures Distinct(t.requests[q], s.requests[r])
    {
      assert RequestOk(s, r);
    }
    InvMove(s, t, q, t.requests[q]);
  }

  lemma InvFinish(s: State, q: nat)
    requires Inv(s) && Enabled(s, Finish(q))
    ensures Inv(Apply(s, Finish(q)))
  {
    var t := Apply(s, Finish(q));
    GrowsStep(s, Finish(q));
    assert RequestOk(s, q);
    StageStaysOk(s, t, s.requests[q]);
    forall r | r in s.requests && r != q
      ensures Distinct(t.requests[q], s.requests[r])
    {
      assert RequestOk(s, r) && PairOk(s, q, r);
    }
    InvMove(s, t, q, t.requests[q]);
  }

  lemma InvCompare(s: State, q: nat, same: bool)
    requires Inv(s) && Enabled(s, CompareSms(q, same))
    ensures Inv(Apply(s, CompareSms(q, same)))
  {
    var t := Apply(s, CompareSms(q, same));
    GrowsStep(s, CompareSms(q, same));
    assert RequestOk(s, q);
    InvMove(s, t, q, t.requests[q]);
  }

  lemma InvReadSecret(s: State, q: nat, verdict: Option<Totp.Verdict>)
    requires Inv(s) && Enabled(s, ReadSecret(q, verdict))
    ensures Inv(Apply(s, ReadSecret(q, verdict)))
  {
    var t := Apply(s, ReadSecret(q, verdict));
    GrowsStep(s, ReadSecret(q, verdict));
    assert RequestOk(s, q);
    InvMove(s, t, q, t.requests[q]);
  }

  /** The last steps of a handler that issues nothing. */
  lemma InvEnding(s: State, e: Event)
    requires Inv(s) && Enabled(s, e) && (e.SetSms? || e.Fail? || e.Burn?)
    ensures Inv(Apply(s, e))
  {
    var t := Apply(s, e);
    GrowsStep(s, e);
    assert RequestOk(s, e.request);
    InvMove(s, t, e.request, t.requests[e.request]);
  }

  /** The first steps of a handler give it no evidence. */
  lemma InvBeginning(s: State, e: Event)
    requires Inv(s) && Enabled(s, e) && (e.DropOlder? || e.Create? || e.Load? || e.LoadUser? || e.FindCode?)
    ensures Inv(Apply(s, e))
  {
    var t := Apply(s, e);
    GrowsStep(s, e);
    if e.request in s.requests { assert RequestOk(s, e.request); }
    InvMove(s, t, e.request, t.requests[e.request]);
  }

  lemma InvTick(s: State, t: State)
    requires Inv(s) && Grows(s, t) && t.requests == s.requests
    ensures Inv(t)
  {
    forall q ensures RequestOk(t, q) {
      assert RequestOk(s, q);
      if q in s.requests {
        StageStaysOk(s, t, s.requests[q]);
      }
    }
    forall q, r ensures PairOk(t, q, r) {
      assert PairOk(s, q, r);
    }
  }

  lemma InvStep(s: State, e: Event)
    requires Inv(s) && Enabled(s, e)
    ensures Inv(Apply(s, e))
  {
    match e
    case Tick(_) =>
      GrowsStep(s, e);
      InvTick(s, Apply(s, e));
    case Advance(q) => InvAdvance(s, q);
    case ClaimCode(q) => InvClaim(s, q);
    case Finish(q) => InvFinish(s, q);
    case CompareSms(q, same) => InvCompare(s, q, same);
    case ReadSecret(q, verdict) => InvReadSecret(s, q, verdict);
    case SetSms(_) => InvEnding(s, e);
    case Fail(_) => InvEnding(s, e);
    case Burn(_) => InvEnding(s, e);
    case _ => InvBeginning(s, e);
  }

  lemma {:induction false} InvRun(tr: seq<State>, ev: seq<Event>, m: nat)
    requires IsRun(tr, ev) && m < |tr|
    ensures Inv(tr[m])
  {
    if m > 0 {
      InvRun(tr, ev, m - 1);
      InvStep(tr[m - 1], ev[m - 1]);
    }
  }

  ghost predicate GrowsAt(tr: seq<State>, i: nat) {
    i + 1 < |tr| ==> Grows(tr[i], tr[i + 1])
  }

  lemma {:induction false} GrowsChain(tr: seq<State>, i: nat, m: nat)
    requires i <= m < |tr| && forall k: nat :: GrowsAt(tr, k)
    ensures Grows(tr[i], tr[m])
  {
    if i < m {
      GrowsChain(tr, i, m - 1);
      assert GrowsAt(tr, m - 1);
      GrowsTransitive(tr[i], tr[m - 1], tr[m]);
    } else {
      GrowsReflexive(tr[i]);
    }
  }

  lemma GrowsRun(tr: seq<State>, ev: seq<Event>, i: nat, m: nat)
    requires IsRun(tr, ev) && i <= m < |tr|
    ensures Grows(tr[i], tr[m])
  {
    forall k: nat ensures GrowsAt(tr, k) {
      if k + 1 < |tr| {
        GrowsStep(tr[k], ev[k]);
      }
    }
    GrowsChain(tr, i, m);
  }

  lemma GrowsReflexive(s: State)
    ensures Grows(s, s)
  {
  }

  lemma GrowsTransitive(s: State, t: State, u: State)
    requires Grows(s, t) && Grows(t, u)
    ensures Grows(s, u)
  {
    forall c ensures ChallengeGrows(s, u, c) && CodeGrows(s, u, c) && StepGrows(s, u, c) {
      assert ChallengeGrows(s, t, c) && CodeGrows(s, t, c) && StepGrows(s, t, c);
      assert ChallengeGrows(t, u, c) && CodeGrows(t, u, c) && StepGrows(t, u, c);
    }
  }

  // ---------------------------------------------------------------- main results

  predicate Issued(s: State, q: nat) {
    q in s.requests && s.requests[q].Finished? && s.requests[q].issued
  }

  /** Two requests that were issued tokens answered different challenges, and with different evidence: not
      the same time step of one user, and not the same recovery code. */
  lemma EveryPairHasItsOwnEvidence(tr: seq<State>, ev: seq<Event>, m: nat, q: nat, r: nat)
    requires IsRun(tr, ev) && m < |tr| && Issued(tr[m], q) && Issued(tr[m], r) && q != r
    ensures var a, b := tr[m].requests[q], tr[m].requests[r];
      && a.job.challenge != b.job.challenge
      && (a.factor.TotpStep? && b.factor.TotpStep? && a.job.user == b.job.user ==> a.factor.step != b.factor.step)
      && (a.factor.Recovery? && b.factor.Recovery? ==> a.factor.code != b.factor.code)
  {
    InvRun(tr, ev, m);
    assert PairOk(tr[m], q, r);
  }

  /** The comparison of the entered code with the SMS hash that the challenge held when it was read. */
  predicate MatchesSms(s: State, e: Event, q: nat, job: Job) {
    && e == CompareSms(q, true) && q in s.requests && s.requests[q] == ComparingSms(job)
    && job.smsHash.Some? && job.entry.ByCode?
  }

  predicate HoldsSms(s: State, q: nat, job: Job) {
    q in s.requests && Holds(s.requests[q]) && s.requests[q].factor.Sms? && s.requests[q].job == job
  }

  /** A request that holds SMS evidence held it before, or has just compared. */
  ghost predicate SmsOriginAt(tr: seq<State>, ev: seq<Event>, k: nat, q: nat, job: Job) {
    k < |ev| && k + 1 < |tr| && HoldsSms(tr[k + 1], q, job) ==>
      MatchesSms(tr[k], ev[k], q, job) || HoldsSms(tr[k], q, job)
  }

  lemma SmsOrigin(s: State, e: Event, q: nat, job: Job)
    requires Enabled(s, e) && Inv(s) && HoldsSms(Apply(s, e), q, job)
    ensures MatchesSms(s, e, q, job) || HoldsSms(s, q, job)
  {
    assert RequestOk(s, q);
  }

  lemma {:induction false} SmsChain(tr: seq<State>, ev: seq<Event>, m: nat, q: nat, job: Job) returns (i: nat)
    requires |tr| == |ev| + 1 && tr[0].requests == map[] && m < |tr| && HoldsSms(tr[m], q, job)
    requires forall k: nat :: SmsOriginAt(tr, ev, k, q, job)
    ensures i < m && MatchesSms(tr[i], ev[i], q, job)
  {
    assert SmsOriginAt(tr, ev, m - 1, q, job);
    if MatchesSms(tr[m - 1], ev[m - 1], q, job) {
      i := m - 1;
    } else {
      i := SmsChain(tr, ev, m - 1, q, job);
    }
  }

  /** No token on an SMS code without the code: the request compared its code with the hash of the code that
      was sent for the challenge, and they matched. */
  lemma SmsIsCompared(tr: seq<State>, ev: seq<Event>, m: nat, q: nat, job: Job) returns (i: nat)
    requires IsRun(tr, ev) && m < |tr| && HoldsSms(tr[m], q, job)
    ensures i < m && MatchesSms(tr[i], ev[i], q, job)
  {
    forall k: nat ensures SmsOriginAt(tr, ev, k, q, job) {
      if k < |ev| && HoldsSms(tr[k + 1], q, job) {
        InvRun(tr, ev, k);
        SmsOrigin(tr[k], ev[k], q, job);
      }
    }
    i := SmsChain(tr, ev, m, q, job);
  }

  /** Tokens are issued only on evidence of the challenge's own user: a recovery code whose hash was entered
      and which is now used, a TOTP code that was the least unused match within one step of its time, or, at
      step `i`, a code that matched the one sent by SMS. */
  lemma IssuedOnEvidence(tr: seq<State>, ev: seq<Event>, m: nat, q: nat) returns (i: nat)
    requires IsRun(tr, ev) && m < |tr| && Issued(tr[m], q)
    ensures tr[m].requests[q].factor.Sms? ==> i < m && MatchesSms(tr[i], ev[i], q, tr[m].requests[q].job)
    ensures var s, st := tr[m], tr[m].requests[q];
      && st.job.challenge in s.challenges && s.challenges[st.job.challenge].user == st.job.user
      && s.challenges[st.job.challenge].consumed && Spent(s, st.job, st.factor)
  {
    InvRun(tr, ev, m);
    assert RequestOk(tr[m], q);
    i := 0;
    if tr[m].requests[q].factor.Sms? {
      i := SmsIsCompared(tr, ev, m, q, tr[m].requests[q].job);
    }
  }

  /** The challenge a request works on, once it has been read. */
  function Reading(st: Stage): Option<Job> {
    if st.Creating? || st.Rejected? then None else Some(st.job)
  }

  /** The event is the read of the challenge by a request that went on from it. */
  predicate LoadsUsable(s: State, e: Event, q: nat, job: Job) {
    && e.Load? && e.request == q && e.challenge == job.challenge && e.entry == job.entry
    && Usable(s, job.challenge) && s.challenges[job.challenge].user == job.user
    && s.challenges[job.challenge].smsHash == job.smsHash
  }

  /** No token without the checks: whatever a request does with a challenge, tokens included, it read that
      challenge before, unconsumed, unexpired and with fewer than five failures. */
  lemma {:induction false} EveryRequestLoadedUsable(tr: seq<State>, ev: seq<Event>, m: nat, q: nat) returns (i: nat)
    requires IsRun(tr, ev) && m < |tr| && q in tr[m].requests && Reading(tr[m].requests[q]).Some?
    ensures i < m && LoadsUsable(tr[i], ev[i], q, Reading(tr[m].requests[q]).value)
  {
    var s, e := tr[m - 1], ev[m - 1];
    if e.Load? && e.request == q {
      i := m - 1;
    } else {
      JobStays(s, e, q);
      i := EveryRequestLoadedUsable(tr, ev, m - 1, q);
    }
  }

  lemma JobStays(s: State, e: Event, q: nat)
    requires Enabled(s, e) && !(e.Load? && e.request == q)
    requires q in Apply(s, e).requests && Reading(Apply(s, e).requests[q]).Some?
    ensures q in s.requests && Reading(s.requests[q]) == Reading(Apply(s, e).requests[q])
  {
    if !e.Tick? {
      MovesOneRequest(s, e);
    }
  }

  /** The stages that only a request of an active user who is not locked out comes to. */
  predicate PastUser(st: Stage) {
    !st.Creating? && !st.LoadingUser? && !st.Rejected?
  }

  ghost predicate UserAllowed(s: State, q: nat) {
    q in s.requests && PastUser(s.requests[q])
  }

  lemma UserStep(s: State, e: Event, q: nat)
    requires Enabled(s, e) && UserAllowed(Apply(s, e), q)
    ensures UserAllowed(s, q) || e == LoadUser(q, true)
  {
    if !e.Tick? {
      MovesOneRequest(s, e);
    }
  }

  ghost predicate UserAt(tr: seq<State>, ev: seq<Event>, k: nat, q: nat) {
    k < |ev| && k + 1 < |tr| && UserAllowed(tr[k + 1], q) ==> UserAllowed(tr[k], q) || ev[k] == LoadUser(q, true)
  }

  lemma {:induction false} UserChain(tr: seq<State>, ev: seq<Event>, m: nat, q: nat) returns (i: nat)
    requires |tr| == |ev| + 1 && tr[0].requests == map[] && m < |tr| && UserAllowed(tr[m], q)
    requires forall k: nat :: UserAt(tr, ev, k, q)
    ensures i < m && ev[i] == LoadUser(q, true)
  {
    assert UserAt(tr, ev, m - 1, q);
    if UserAllowed(tr[m - 1], q) {
      i := UserChain(tr, ev, m - 1, q);
    } else {
      i := m - 1;
    }
  }

  /** And without the check of the user nothing is compared, spent or issued. */
  lemma EveryRequestCheckedUser(tr: seq<State>, ev: seq<Event>, m: nat, q: nat) returns (i: nat)
    requires IsRun(tr, ev) && m < |tr| && UserAllowed(tr[m], q)
    ensures i < m && ev[i] == LoadUser(q, true)
  {
    forall k: nat ensures UserAt(tr, ev, k, q) {
      if k < |ev| && UserAllowed(tr[k + 1], q) {
        UserStep(tr[k], ev[k], q);
      }
    }
    i := UserChain(tr, ev, m, q);
  }

  ghost predicate Moves(s: State, t: State, q: nat) {
    q in t.requests && t.requests == s.requests[q := t.requests[q]]
  }

  /** The second half of a handler. */
  predicate Settles(e: Event) {
    e.Advance? || e.ClaimCode? || e.SetSms? || e.Finish? || e.Fail? || e.Burn?
  }

  lemma SettlingMovesOneRequest(s: State, e: Event)
    requires Enabled(s, e) && Settles(e)
    ensures Moves(s, Apply(s, e), e.request)
  {
  }

  lemma MovesOneRequest(s: State, e: Event)
    requires Enabled(s, e) && !e.Tick?
    ensures Moves(s, Apply(s, e), e.request)
  {
    if Settles(e) {
      SettlingMovesOneRequest(s, e);
    }
  }

  /** The request's update of lastUsedStep takes effect. */
  ghost predicate Wins(s: State, e: Event, user: nat, step: int) {
    && Enabled(s, e) && e.Advance?
    && s.requests[e.request].job.user == user && s.requests[e.request].step == step
    && Apply(s, e).requests[e.request].Finishing?
  }

  /** The steps that win the update of a user's last used step strictly increase. */
  lemma WinningStepsIncrease(tr: seq<State>, ev: seq<Event>, i: nat, j: nat, user: nat, a: int, b: int)
    requires IsRun(tr, ev) && i < j < |ev|
    requires Wins(tr[i], ev[i], user, a) && Wins(tr[j], ev[j], user, b)
    ensures a < b
  {
    GrowsRun(tr, ev, i + 1, j);
    assert StepGrows(tr[i + 1], tr[j], user);
  }

  /** A recovery code is claimed at most once. */
  lemma RecoveryCodeIsSingleUse(tr: seq<State>, ev: seq<Event>, i: nat, j: nat, code: nat)
    requires IsRun(tr, ev) && i < j < |ev|
    requires ev[i].ClaimCode? && tr[i].requests[ev[i].request].code == code
    requires ev[j].ClaimCode? && tr[j].requests[ev[j].request].code == code
    requires tr[i + 1].requests[ev[i].request].Finishing?
    ensures tr[j + 1].requests[ev[j].request].Failing?
  {
    GrowsRun(tr, ev, i + 1, j);
    assert CodeGrows(tr[i + 1], tr[j], code);
  }

  // The limit is read with the challenge, and a failure is counted when the factor has been refused.

  /** A stage from which a failure may still be counted. */
  predicate MayFail(st: Stage) {
    match st
    case LoadingUser(job) => !job.entry.Resend?
    case ComparingSms(_) => true
    case ReadingSecret(_) => true
    case Advancing(_, _, _, _) => true
    case FindingCode(_) => true
    case ClaimingCode(_, _) => true
    case Failing(_) => true
    case _ => false
  }

  predicate Trying(s: State, q: nat, c: nat) {
    q in s.requests && MayFail(s.requests[q]) && s.requests[q].job.challenge == c
  }

  /** The requests that have read the challenge and may still count a failure against it. */
  function Triers(s: State, c: nat): set<nat> {
    set q | q in s.requests && Trying(s, q, c)
  }

  function Attempts(s: State, c: nat): nat {
    if c in s.challenges then s.challenges[c].attempts else 0
  }

  ghost predicate Counts(s: State, e: Event, c: nat) {
    Enabled(s, e) && e.Fail? && s.requests[e.request].job.challenge == c && c in s.challenges
  }

  lemma AttemptsStep(s: State, e: Event, c: nat)
    requires Enabled(s, e)
    ensures Attempts(Apply(s, e), c) == Attempts(s, c) + if Counts(s, e, c) then 1 else 0
  {
  }

  /** Only a request that read the challenge below the limit comes to try it. */
  lemma TrierStays(s: State, e: Event, c: nat, q: nat)
    requires Enabled(s, e) && Trying(Apply(s, e), q, c)
    ensures Trying(s, q, c) || (e.Load? && e.request == q && Attempts(s, c) < MAX_ATTEMPTS)
    ensures !(Counts(s, e, c) && e.request == q)
  {
    if !e.Tick? {
      MovesOneRequest(s, e);
    }
  }

  lemma TriersStep(s: State, e: Event, c: nat)
    requires Enabled(s, e) && (MAX_ATTEMPTS <= Attempts(s, c) || Counts(s, e, c))
    ensures Triers(Apply(s, e), c) <= Triers(s, c) - if Counts(s, e, c) then {e.request} else {}
    ensures Counts(s, e, c) ==> e.request in Triers(s, c)
  {
    forall q | q in Triers(Apply(s, e), c) ensures q in Triers(s, c) && !(Counts(s, e, c) && q == e.request) {
      TrierStays(s, e, c, q);
    }
  }

  /** At the limit, every further failure uses up a request that had read the challenge. */
  lemma SpendStep(s: State, e: Event, c: nat)
    requires Enabled(s, e) && MAX_ATTEMPTS <= Attempts(s, c)
    ensures Attempts(s, c) <= Attempts(Apply(s, e), c)
    ensures Attempts(Apply(s, e), c) + |Triers(Apply(s, e), c)| <= Attempts(s, c) + |Triers(s, c)|
  {
    AttemptsStep(s, e, c);
    TriersStep(s, e, c);
    Sets.SizeOfSubset(Triers(Apply(s, e), c), Triers(s, c) - if Counts(s, e, c) then {e.request} else {});
  }

  ghost predicate SpendsAt(tr: seq<State>, k: nat, c: nat) {
    k + 1 < |tr| && MAX_ATTEMPTS <= Attempts(tr[k], c) ==>
      && Attempts(tr[k], c) <= Attempts(tr[k + 1], c)
      && Attempts(tr[k + 1], c) + |Triers(tr[k + 1], c)| <= Attempts(tr[k], c) + |Triers(tr[k], c)|
  }

  lemma {:induction false} SpendChain(tr: seq<State>, i: nat, m: nat, c: nat)
    requires i <= m < |tr| && MAX_ATTEMPTS <= Attempts(tr[i], c) && forall k: nat :: SpendsAt(tr, k, c)
    ensures MAX_ATTEMPTS <= Attempts(tr[m], c)
    ensures Attempts(tr[m], c) + |Triers(tr[m], c)| <= Attempts(tr[i], c) + |Triers(tr[i], c)|
  {
    if i < m {
      SpendChain(tr, i, m - 1, c);
      assert SpendsAt(tr, m - 1, c);
    }
  }

  ghost predicate CountsAt(tr: seq<State>, ev: seq<Event>, k: nat, c: nat) {
    k < |ev| && k + 1 < |tr| && Counts(tr[k], ev[k], c)
  }

  /** How many failures were counted against a challenge in the first `m` steps. */
  ghost function Failures(tr: seq<State>, ev: seq<Event>, m: nat, c: nat): nat {
    if m == 0 then 0 else Failures(tr, ev, m - 1, c) + if CountsAt(tr, ev, m - 1, c) then 1 else 0
  }

  ghost predicate AttemptsAt(tr: seq<State>, ev: seq<Event>, k: nat, c: nat) {
    k + 1 < |tr| ==> Attempts(tr[k + 1], c) == Attempts(tr[k], c) + if CountsAt(tr, ev, k, c) then 1 else 0
  }

  /** The step that counted the `n`-th failure. */
  lemma {:induction false} CountedAt(tr: seq<State>, ev: seq<Event>, m: nat, c: nat, n: nat) returns (k: nat)
    requires m < |tr| && Attempts(tr[0], c) < n <= Attempts(tr[m], c) && forall k: nat :: AttemptsAt(tr, ev, k, c)
    ensures k < m && CountsAt(tr, ev, k, c) && Attempts(tr[k + 1], c) == n
  {
    assert AttemptsAt(tr, ev, m - 1, c);
    if n <= Attempts(tr[m - 1], c) {
      k := CountedAt(tr, ev, m - 1, c, n);
    } else {
      k := m - 1;
    }
  }

  lemma {:induction false} AttemptsCount(tr: seq<State>, ev: seq<Event>, m: nat, c: nat)
    requires m < |tr| && forall k: nat :: AttemptsAt(tr, ev, k, c)
    ensures Attempts(tr[m], c) == Attempts(tr[0], c) + Failures(tr, ev, m, c)
  {
    if m > 0 {
      AttemptsCount(tr, ev, m - 1, c);
      assert AttemptsAt(tr, ev, m - 1, c);
    }
  }

  lemma AttemptsRun(tr: seq<State>, ev: seq<Event>, c: nat)
    requires IsRun(tr, ev)
    ensures forall k: nat :: AttemptsAt(tr, ev, k, c)
    ensures forall k: nat :: SpendsAt(tr, k, c)
  {
    forall k: nat ensures AttemptsAt(tr, ev, k, c) && SpendsAt(tr, k, c) {
      if k + 1 < |tr| {
        AttemptsStep(tr[k], ev[k], c);
        if MAX_ATTEMPTS <= Attempts(tr[k], c) {
          SpendStep(tr[k], ev[k], c);
        }
      }
    }
  }

  /** The limit is soft, but not open: against a challenge of the run never more failures are counted than the
      maximum and the requests that had read the challenge when step `k` reached the maximum. */
  lemma FailuresAtMost(tr: seq<State>, ev: seq<Event>, m: nat, c: nat) returns (k: nat)
    requires IsRun(tr, ev) && m < |tr| && c !in tr[0].challenges && MAX_ATTEMPTS < Failures(tr, ev, m, c)
    ensures k + 1 < m && CountsAt(tr, ev, k, c) && Attempts(tr[k + 1], c) == MAX_ATTEMPTS
    ensures Failures(tr, ev, m, c) <= MAX_ATTEMPTS + |Triers(tr[k + 1], c)|
  {
    AttemptsRun(tr, ev, c);
    AttemptsCount(tr, ev, m, c);
    k := CountedAt(tr, ev, m, c, MAX_ATTEMPTS);
    SpendChain(tr, k + 1, m, c);
  }

  lemma LastTrier(s: State, e: Event, c: nat)
    requires Counts(s, e, c) && |Triers(s, c)| <= 1
    ensures |Triers(Apply(s, e), c)| == 0
  {
    TriersStep(s, e, c);
    Sets.SizeOfSubset(Triers(Apply(s, e), c), Triers(s, c) - {e.request});
  }

  /** The plain maximum holds for a challenge that no two requests try at the same time. */
  lemma LimitHoldsOneAtATime(tr: seq<State>, ev: seq<Event>, m: nat, c: nat)
    requires IsRun(tr, ev) && m < |tr| && c !in tr[0].challenges && forall i :: 0 <= i < m ==> |Triers(tr[i], c)| <= 1
    ensures Failures(tr, ev, m, c) <= MAX_ATTEMPTS
  {
    if MAX_ATTEMPTS < Failures(tr, ev, m, c) {
      var k := FailuresAtMost(tr, ev, m, c);
      LastTrier(tr[k], ev[k], c);
    }
  }

  /** Once a challenge is consumed, by an issue, by too many failures or by a newer challenge, no request
      is issued tokens for it, even one that had passed every check before. */
  lemma ConsumedNeverIssues(tr: seq<State>, ev: seq<Event>, i: nat, j: nat, c: nat)
    requires IsRun(tr, ev) && i <= j < |ev|
    requires c in tr[i].challenges && tr[i].challenges[c].consumed
    requires ev[j].Finish? && tr[j].requests[ev[j].request].job.challenge == c
    ensures !Issued(tr[j + 1], ev[j].request)
  {
    GrowsRun(tr, ev, i, j);
    assert ChallengeGrows(tr[i], tr[j], c);
  }

  // ---------------------------------------------------------------- what uses a challenge up

  /** The step issues tokens for the challenge. */
  ghost predicate IssuesFor(s: State, e: Event, c: nat) {
    Enabled(s, e) && e.Finish? && s.requests[e.request].job.challenge == c && Issued(Apply(s, e), e.request)
  }

  ghost predicate BurnsAt(s: State, e: Event, c: nat) {
    Enabled(s, e) && e.Burn? && s.requests[e.request].job.challenge == c
  }

  predicate Open(s: State, c: nat) {
    c in s.challenges && !s.challenges[c].consumed
  }

  lemma ConsumedStep(s: State, e: Event, c: nat)
    requires Enabled(s, e) && c in Apply(s, e).challenges && Apply(s, e).challenges[c].consumed
    ensures || (c in s.challenges && s.challenges[c].consumed)
            || IssuesFor(s, e, c) || BurnsAt(s, e, c)
            || (e.DropOlder? && c in s.challenges && e.user == s.challenges[c].user)
  {
  }

  /** No challenge is lost: one that was consumed in the run was consumed by the step that issued tokens for it, or
      burnt, or dropped when its user asked for a newer one. */
  lemma {:induction false} ConsumedOrigin(tr: seq<State>, ev: seq<Event>, m: nat, c: nat) returns (i: nat)
    requires IsRun(tr, ev) && m < |tr| && c in tr[m].challenges && tr[m].challenges[c].consumed
    requires c in tr[0].challenges ==> Open(tr[0], c)
    ensures i < m
    ensures || IssuesFor(tr[i], ev[i], c) || BurnsAt(tr[i], ev[i], c)
            || (ev[i].DropOlder? && c in tr[i].challenges && ev[i].user == tr[i].challenges[c].user)
  {
    ConsumedStep(tr[m - 1], ev[m - 1], c);
    if c in tr[m - 1].challenges && tr[m - 1].challenges[c].consumed {
      i := ConsumedOrigin(tr, ev, m - 1, c);
    } else {
      i := m - 1;
    }
  }

  ghost predicate BurningPastLimit(s: State, q: nat) {
    q in s.requests && s.requests[q].Burning? ==> MAX_ATTEMPTS <= Attempts(s, s.requests[q].job.challenge)
  }

  lemma BurningStep(s: State, e: Event, q: nat)
    requires Enabled(s, e) && BurningPastLimit(s, q)
    ensures BurningPastLimit(Apply(s, e), q)
  {
    if q in s.requests && s.requests[q].Burning? {
      AttemptsStep(s, e, s.requests[q].job.challenge);
    }
    if !e.Tick? {
      MovesOneRequest(s, e);
    }
  }

  /** A challenge is burnt only at the limit. */
  lemma {:induction false} BurntPastLimit(tr: seq<State>, ev: seq<Event>, m: nat, q: nat)
    requires IsRun(tr, ev) && m < |tr|
    ensures BurningPastLimit(tr[m], q)
  {
    if m > 0 {
      BurntPastLimit(tr, ev, m - 1, q);
      BurningStep(tr[m - 1], ev[m - 1], q);
    }
  }

  // ---------------------------------------------------------------- a login by itself

  /** Steps from any state on. */
  ghost predicate IsPath(tr: seq<State>, ev: seq<Event>) {
    |tr| == |ev| + 1 && forall i :: 0 <= i < |ev| ==> Enabled(tr[i], ev[i]) && tr[i + 1] == Apply(tr[i], ev[i])
  }

  /** Steps of one request, beginning with its read of the challenge. */
  ghost predicate LoginAlone(s: State, q: nat, c: nat, entry: Entry, tr: seq<State>, ev: seq<Event>) {
    && IsPath(tr, ev) && tr[0] == s && ev != [] && ev[0] == Load(q, c, entry)
    && forall k :: 0 <= k < |ev| ==> !ev[k].Tick? && ev[k].request == q
  }

  ghost predicate CanLogin(s: State, q: nat, c: nat, entry: Entry) {
    exists tr, ev :: LoginAlone(s, q, c, entry, tr, ev) && Issued(tr[|ev|], q)
  }

  function JobFor(s: State, c: nat, entry: Entry): Job
    requires c in s.challenges
  {
    Job(c, s.challenges[c].user, s.challenges[c].smsHash, entry)
  }

  ghost predicate MatchesStep(s: State, job: Job, step: int) {
    && job.user in s.secrets && job.entry.ByCode?
    && Totp.IsVerdict(s.hmac, s.secrets[job.user], job.entry.code, LastUsed(s, job.user), WINDOW, s.now, Totp.Matched(step))
  }

  /** The user holds a factor that the entry can answer: the code sent by SMS, a TOTP code that is the least unused
      match now, or an unused recovery code. Whether a code equals the one sent is an outcome of the comparison. */
  ghost predicate HasFactor(s: State, job: Job) {
    match job.entry
    case ByCode(_) => job.smsHash.Some? || exists step :: MatchesStep(s, job, step)
    case ByRecovery(hash) => exists id :: id in s.codes && s.codes[id] == RecoveryCode(job.user, hash, false)
    case Resend(_) => false
  }

  /** The tables are those of `s`. */
  ghost predicate SameTables(s: State, t: State) {
    && t.now == s.now && t.hmac == s.hmac && t.secrets == s.secrets
    && t.challenges == s.challenges && t.lastUsed == s.lastUsed && t.codes == s.codes
  }

  ghost predicate AloneStage(s: State, t: State, job: Job, st: Stage) {
    match st
    case Creating(_) => false
    case LoadingUser(j) => j == job && SameTables(s, t)
    case ComparingSms(j) => j == job && SameTables(s, t) && job.smsHash.Some? && job.entry.ByCode?
    case ReadingSecret(j) => j == job && SameTables(s, t) && job.entry.ByCode?
    case Advancing(j, step, _, _) => j == job && MatchesStep(s, job, step)
    case FindingCode(j) => j == job && SameTables(s, t) && job.entry.ByRecovery?
    case ClaimingCode(j, id) => j == job && job.entry.ByRecovery? && Matches(s, job, id)
    case Finishing(j, _) => j == job && HasFactor(s, job)
    case Finished(j, _, _) => j == job && HasFactor(s, job)
    case _ => true
  }

  ghost predicate AloneOk(s: State, t: State, q: nat, c: nat, entry: Entry) {
    q in t.requests &&
      (t.requests[q].Rejected? || (Usable(s, c) && AloneStage(s, t, JobFor(s, c, entry), t.requests[q])))
  }

  lemma AloneStepClaims(s: State, t: State, e: Event, q: nat, c: nat, entry: Entry)
    requires AloneOk(s, t, q, c, entry) && Enabled(t, e) && (e.Advance? || e.ClaimCode?) && e.request == q
    ensures AloneOk(s, Apply(t, e), q, c, entry)
  {
    if e.Advance? {
      assert MatchesStep(s, JobFor(s, c, entry), t.requests[q].step);
    } else {
      assert Matches(s, JobFor(s, c, entry), t.requests[q].code);
    }
  }

  lemma AloneStepEnds(s: State, t: State, e: Event, q: nat, c: nat, entry: Entry)
    requires AloneOk(s, t, q, c, entry) && Enabled(t, e) && (e.SetSms? || e.Finish? || e.Fail? || e.Burn?) && e.request == q
    ensures AloneOk(s, Apply(t, e), q, c, entry)
  {
  }

  lemma AloneStepBegins(s: State, t: State, e: Event, q: nat, c: nat, entry: Entry)
    requires AloneOk(s, t, q, c, entry) && Enabled(t, e) && !Settles(e) && !e.Tick? && e.request == q
    ensures AloneOk(s, Apply(t, e), q, c, entry)
  {
    match e
    case ReadSecret(_, v) =>
      if v.Some? && v.value.Matched? { assert MatchesStep(s, JobFor(s, c, entry), v.value.step); }
    case FindCode(_, found) =>
      if found.Some? { assert Matches(s, JobFor(s, c, entry), found.value); }
    case LoadUser(_, _) =>
    case CompareSms(_, _) =>
  }

  lemma AloneStep(s: State, t: State, e: Event, q: nat, c: nat, entry: Entry)
    requires AloneOk(s, t, q, c, entry) && Enabled(t, e) && !e.Tick? && e.request == q
    ensures AloneOk(s, Apply(t, e), q, c, entry)
  {
    if !Settles(e) {
      AloneStepBegins(s, t, e, q, c, entry);
    } else if e.Advance? || e.ClaimCode? {
      AloneStepClaims(s, t, e, q, c, entry);
    } else {
      AloneStepEnds(s, t, e, q, c, entry);
    }
  }

  lemma {:induction false} AloneStays(s: State, q: nat, c: nat, entry: Entry, tr: seq<State>, ev: seq<Event>, m: nat)
    requires LoginAlone(s, q, c, entry, tr, ev) && 0 < m < |tr| && q !in s.requests
    ensures AloneOk(s, tr[m], q, c, entry)
  {
    if m > 1 {
      AloneStays(s, q, c, entry, tr, ev, m - 1);
      AloneStep(s, tr[m - 1], ev[m - 1], q, c, entry);
    }
  }

  /** One more step of the request. */
  lemma Extend(s: State, q: nat, c: nat, entry: Entry, tr: seq<State>, ev: seq<Event>, e: Event, t: State)
    returns (tr': seq<State>, ev': seq<Event>)
    requires LoginAlone(s, q, c, entry, tr, ev) && Enabled(tr[|ev|], e) && t == Apply(tr[|ev|], e)
    requires !e.Tick? && e.request == q
    ensures LoginAlone(s, q, c, entry, tr', ev') && tr'[|ev'|] == t
  {
    tr', ev' := tr + [t], ev + [e];
  }

  /** The challenge is consumed and the tokens are issued, and nothing else about challenges has changed. */
  predicate LoggedIn(s: State, t: State, q: nat, c: nat) {
    && Issued(t, q) && t.requests[q].job.challenge == c
    && c in s.challenges && t.challenges == s.challenges[c := s.challenges[c].(consumed := true)]
  }

  lemma Loads(s: State, q: nat, c: nat, entry: Entry) returns (tr: seq<State>, ev: seq<Event>)
    requires q !in s.requests && Usable(s, c)
    ensures LoginAlone(s, q, c, entry, tr, ev) && tr[|ev|] == Go(s, q, LoadingUser(JobFor(s, c, entry)))
  {
    tr, ev := [s, Apply(s, Load(q, c, entry))], [Load(q, c, entry)];
  }

  /** Whoever comes to the end with an open challenge is issued tokens. */
  lemma Finishes(s: State, q: nat, job: Job, factor: Factor)
    requires Open(s, job.challenge)
    ensures var t := Go(s, q, Finishing(job, factor));
      && Enabled(t, Finish(q)) && LoggedIn(s, Apply(t, Finish(q)), q, job.challenge)
      && Apply(t, Finish(q)).lastUsed == s.lastUsed && Apply(t, Finish(q)).codes == s.codes
  {
  }

  lemma SmsLogsIn(s: State, q: nat, c: nat, entry: Entry) returns (tr: seq<State>, ev: seq<Event>)
    requires q !in s.requests && Usable(s, c) && entry.ByCode? && s.challenges[c].smsHash.Some?
    ensures LoginAlone(s, q, c, entry, tr, ev) && LoggedIn(s, tr[|ev|], q, c)
    ensures tr[|ev|].lastUsed == s.lastUsed && tr[|ev|].codes == s.codes
  {
    var job := JobFor(s, c, entry);
    tr, ev := Loads(s, q, c, entry);
    tr, ev := Extend(s, q, c, entry, tr, ev, LoadUser(q, true), Go(s, q, ComparingSms(job)));
    tr, ev := Extend(s, q, c, entry, tr, ev, CompareSms(q, true), Go(s, q, Finishing(job, Sms)));
    Finishes(s, q, job, Sms);
    tr, ev := Extend(s, q, c, entry, tr, ev, Finish(q), Apply(tr[|ev|], Finish(q)));
  }

  lemma ReachesComparison(s: State, q: nat, c: nat, entry: Entry) returns (tr: seq<State>, ev: seq<Event>)
    requires q !in s.requests && Usable(s, c) && entry.ByCode?
    ensures LoginAlone(s, q, c, entry, tr, ev)
    ensures var job := JobFor(s, c, entry);
      tr[|ev|] == Go(s, q, if job.smsHash.Some? then ComparingSms(job) else ReadingSecret(job))
  {
    var job := JobFor(s, c, entry);
    tr, ev := Loads(s, q, c, entry);
    tr, ev := Extend(s, q, c, entry, tr, ev, LoadUser(q, true),
                     Go(s, q, if job.smsHash.Some? then ComparingSms(job) else ReadingSecret(job)));
  }

  lemma ReachesSecret(s: State, q: nat, c: nat, entry: Entry) returns (tr: seq<State>, ev: seq<Event>)
    requires q !in s.requests && Usable(s, c) && entry.ByCode?
    ensures LoginAlone(s, q, c, entry, tr, ev) && tr[|ev|] == Go(s, q, ReadingSecret(JobFor(s, c, entry)))
  {
    var job := JobFor(s, c, entry);
    tr, ev := ReachesComparison(s, q, c, entry);
    if job.smsHash.Some? {
      tr, ev := Extend(s, q, c, entry, tr, ev, CompareSms(q, false), Go(s, q, ReadingSecret(job)));
    }
  }

  /** The verdict on the code, taken where the request reads the secret. */
  lemma ReachesVerdict(s: State, q: nat, c: nat, entry: Entry, v: Totp.Verdict) returns (tr: seq<State>, ev: seq<Event>)
    requires q !in s.requests && Usable(s, c) && entry.ByCode? && VerdictOk(s, JobFor(s, c, entry), Some(v))
    requires v.Matched? || v.Refused?
    ensures LoginAlone(s, q, c, entry, tr, ev)
    ensures var job := JobFor(s, c, entry);
      tr[|ev|] == Go(s, q, if v.Matched? then Advancing(job, v.step, LastUsed(s, job.user), s.now) else Failing(job))
  {
    var job := JobFor(s, c, entry);
    tr, ev := ReachesSecret(s, q, c, entry);
    tr, ev := Extend(s, q, c, entry, tr, ev, ReadSecret(q, Some(v)),
                     Go(s, q, if v.Matched? then Advancing(job, v.step, LastUsed(s, job.user), s.now) else Failing(job)));
  }

  lemma MatchIsUnused(s: State, job: Job, step: int)
    requires MatchesStep(s, job, step)
    ensures job.user in s.lastUsed ==> s.lastUsed[job.user] < step
  {
  }

  lemma Advances(s: State, q: nat, job: Job, step: int, seen: Option<int>, at: int)
    requires job.user in s.lastUsed ==> s.lastUsed[job.user] < step
    ensures var t := Go(s, q, Advancing(job, step, seen, at));
      Enabled(t, Advance(q))
      && Apply(t, Advance(q)) == Go(s.(lastUsed := s.lastUsed[job.user := step]), q, Finishing(job, TotpStep(step, seen, at)))
  {
  }

  lemma TotpLogsIn(s: State, q: nat, c: nat, entry: Entry, step: int) returns (tr: seq<State>, ev: seq<Event>)
    requires q !in s.requests && Usable(s, c) && MatchesStep(s, JobFor(s, c, entry), step)
    ensures LoginAlone(s, q, c, entry, tr, ev) && LoggedIn(s, tr[|ev|], q, c)
    ensures tr[|ev|].lastUsed == s.lastUsed[s.challenges[c].user := step] && tr[|ev|].codes == s.codes
  {
    var job, seen := JobFor(s, c, entry), LastUsed(s, s.challenges[c].user);
    MatchIsUnused(s, job, step);
    Advances(s, q, job, step, seen, s.now);
    var used := s.(lastUsed := s.lastUsed[job.user := step]);
    var factor := TotpStep(step, seen, s.now);
    Finishes(used, q, job, factor);
    tr, ev := ReachesVerdict(s, q, c, entry, Totp.Matched(step));
    tr, ev := Extend(s, q, c, entry, tr, ev, Advance(q), Go(used, q, Finishing(job, factor)));
    tr, ev := Extend(s, q, c, entry, tr, ev, Finish(q), Apply(Go(used, q, Finishing(job, factor)), Finish(q)));
  }

  lemma ReachesClaim(s: State, q: nat, c: nat, entry: Entry, id: nat) returns (tr: seq<State>, ev: seq<Event>)
    requires q !in s.requests && Usable(s, c) && Matches(s, JobFor(s, c, entry), id)
    ensures LoginAlone(s, q, c, entry, tr, ev) && tr[|ev|] == Go(s, q, ClaimingCode(JobFor(s, c, entry), id))
  {
    var job := JobFor(s, c, entry);
    tr, ev := Loads(s, q, c, entry);
    tr, ev := Extend(s, q, c, entry, tr, ev, LoadUser(q, true), Go(s, q, FindingCode(job)));
    tr, ev := Extend(s, q, c, entry, tr, ev, FindCode(q, Some(id)), Go(s, q, ClaimingCode(job, id)));
  }

  lemma ClaimsCode(s: State, q: nat, job: Job, id: nat)
    requires id in s.codes && !s.codes[id].used
    ensures var t := Go(s, q, ClaimingCode(job, id));
      Enabled(t, ClaimCode(q))
      && Apply(t, ClaimCode(q)) == Go(s.(codes := s.codes[id := s.codes[id].(used := true)]), q, Finishing(job, Recovery(id)))
  {
  }

  lemma RecoveryLogsIn(s: State, q: nat, c: nat, entry: Entry, id: nat) returns (tr: seq<State>, ev: seq<Event>)
    requires q !in s.requests && Usable(s, c) && Matches(s, JobFor(s, c, entry), id)
    ensures LoginAlone(s, q, c, entry, tr, ev) && LoggedIn(s, tr[|ev|], q, c)
    ensures tr[|ev|].codes == s.codes[id := s.codes[id].(used := true)] && tr[|ev|].lastUsed == s.lastUsed
  {
    var job := JobFor(s, c, entry);
    var used := s.(codes := s.codes[id := s.codes[id].(used := true)]);
    ClaimsCode(s, q, job, id);
    Finishes(used, q, job, Recovery(id));
    tr, ev := ReachesClaim(s, q, c, entry, id);
    tr, ev := Extend(s, q, c, entry, tr, ev, ClaimCode(q), Go(used, q, Finishing(job, Recovery(id))));
    tr, ev := Extend(s, q, c, entry, tr, ev, Finish(q), Apply(Go(used, q, Finishing(job, Recovery(id))), Finish(q)));
  }

  /** Main result on acceptance. A request that nothing interrupts can be issued tokens if and only if it found the
      challenge unconsumed, unexpired, for a login and below the limit, and the user holds a factor that answers. */
  lemma LoginSucceedsIff(s: State, q: nat, c: nat, entry: Entry)
    requires q !in s.requests
    ensures CanLogin(s, q, c, entry)
            <==> && c in s.challenges && !s.challenges[c].consumed && s.now <= s.challenges[c].expiresAt
                 && s.challenges[c].purpose == LOGIN && s.challenges[c].attempts < MAX_ATTEMPTS
                 && HasFactor(s, JobFor(s, c, entry))
  {
    if CanLogin(s, q, c, entry) {
      var tr, ev :| LoginAlone(s, q, c, entry, tr, ev) && Issued(tr[|ev|], q);
      AloneStays(s, q, c, entry, tr, ev, |ev|);
    }
    if Usable(s, c) && HasFactor(s, JobFor(s, c, entry)) {
      var job := JobFor(s, c, entry);
      var tr, ev;
      if entry.ByRecovery? {
        var id :| id in s.codes && s.codes[id] == RecoveryCode(job.user, entry.hash, false);
        tr, ev := RecoveryLogsIn(s, q, c, entry, id);
      } else if job.smsHash.Some? {
        tr, ev := SmsLogsIn(s, q, c, entry);
      } else {
        var step :| MatchesStep(s, job, step);
        tr, ev := TotpLogsIn(s, q, c, entry, step);
      }
      assert Issued(tr[|ev|], q);
    }
  }

  lemma Fails(s: State, q: nat, job: Job)
    requires job.challenge in s.challenges
    ensures var c, t := job.challenge, Go(s, q, Failing(job));
      var n := s.challenges[c].attempts + 1;
      Enabled(t, Fail(q))
      && Apply(t, Fail(q)) == Go(s.(challenges := s.challenges[c := s.challenges[c].(attempts := n)]), q,
                                 if n >= MAX_ATTEMPTS then Burning(job) else Rejected)
  {
  }

  lemma Burns(s: State, q: nat, job: Job)
    requires job.challenge in s.challenges
    ensures var c, t := job.challenge, Go(s, q, Burning(job));
      Enabled(t, Burn(q))
      && Apply(t, Burn(q)) == Go(s.(challenges := s.challenges[c := s.challenges[c].(consumed := true)]), q, Rejected)
  {
  }

  function Counted(s: State, c: nat, consumed: bool): State
    requires c in s.challenges
  {
    s.(challenges := s.challenges[c := s.challenges[c].(attempts := s.challenges[c].attempts + 1, consumed := consumed)])
  }

  lemma WrongCodeCounts(s: State, q: nat, c: nat, entry: Entry) returns (tr: seq<State>, ev: seq<Event>)
    requires q !in s.requests && Usable(s, c) && entry.ByCode? && RefusesCode(s, JobFor(s, c, entry))
    ensures LoginAlone(s, q, c, entry, tr, ev)
    ensures tr[|ev|] == Go(Counted(s, c, false), q,
                           if s.challenges[c].attempts + 1 >= MAX_ATTEMPTS then Burning(JobFor(s, c, entry)) else Rejected)
  {
    var job, n := JobFor(s, c, entry), s.challenges[c].attempts + 1;
    Fails(s, q, job);
    tr, ev := ReachesVerdict(s, q, c, entry, Totp.Refused);
    tr, ev := Extend(s, q, c, entry, tr, ev, Fail(q),
                     Go(Counted(s, c, false), q, if n >= MAX_ATTEMPTS then Burning(job) else Rejected));
  }

  /** A wrong code costs one attempt and nothing else; the fifth also burns the challenge. */
  lemma WrongCodeCosts(s: State, q: nat, c: nat, entry: Entry) returns (tr: seq<State>, ev: seq<Event>)
    requires q !in s.requests && Usable(s, c) && entry.ByCode? && RefusesCode(s, JobFor(s, c, entry))
    ensures LoginAlone(s, q, c, entry, tr, ev)
    ensures tr[|ev|] == Go(Counted(s, c, s.challenges[c].attempts + 1 >= MAX_ATTEMPTS), q, Rejected)
  {
    var job := JobFor(s, c, entry);
    var counted := Counted(s, c, false);
    tr, ev := WrongCodeCounts(s, q, c, entry);
    if s.challenges[c].attempts + 1 >= MAX_ATTEMPTS {
      Burns(counted, q, job);
      assert counted.challenges[c := counted.challenges[c].(consumed := true)] == Counted(s, c, true).challenges;
      tr, ev := Extend(s, q, c, entry, tr, ev, Burn(q), Go(Counted(s, c, true), q, Rejected));
    }
  }

  ghost predicate RefusesCode(s: State, job: Job) {
    && job.user in s.secrets && job.entry.ByCode?
    && Totp.IsVerdict(s.hmac, s.secrets[job.user], job.entry.code, LastUsed(s, job.user), WINDOW, s.now, Totp.Refused)
  }

  predicate NoSuchCode(s: State, job: Job) {
    job.entry.ByRecovery? && forall id :: id in s.codes ==> s.codes[id] != RecoveryCode(job.user, job.entry.hash, false)
  }

  lemma ReachesNoCode(s: State, q: nat, c: nat, entry: Entry) returns (tr: seq<State>, ev: seq<Event>)
    requires q !in s.requests && Usable(s, c) && NoSuchCode(s, JobFor(s, c, entry))
    ensures LoginAlone(s, q, c, entry, tr, ev) && tr[|ev|] == Go(s, q, Failing(JobFor(s, c, entry)))
  {
    var job := JobFor(s, c, entry);
    assert forall id :: !Matches(s, job, id);
    tr, ev := Loads(s, q, c, entry);
    tr, ev := Extend(s, q, c, entry, tr, ev, LoadUser(q, true), Go(s, q, FindingCode(job)));
    tr, ev := Extend(s, q, c, entry, tr, ev, FindCode(q, None), Go(s, q, Failing(job)));
  }

  /** A wrong recovery code costs the same. */
  lemma WrongRecoveryCosts(s: State, q: nat, c: nat, entry: Entry) returns (tr: seq<State>, ev: seq<Event>)
    requires q !in s.requests && Usable(s, c) && NoSuchCode(s, JobFor(s, c, entry))
    ensures LoginAlone(s, q, c, entry, tr, ev)
    ensures tr[|ev|] == Go(Counted(s, c, false), q,
                           if s.challenges[c].attempts + 1 >= MAX_ATTEMPTS then Burning(JobFor(s, c, entry)) else Rejected)
  {
    var job, n := JobFor(s, c, entry), s.challenges[c].attempts + 1;
    Fails(s, q, job);
    tr, ev := ReachesNoCode(s, q, c, entry);
    tr, ev := Extend(s, q, c, entry, tr, ev, Fail(q),
                     Go(Counted(s, c, false), q, if n >= MAX_ATTEMPTS then Burning(job) else Rejected));
  }

  /** A code sent by SMS can be answered: after a resend the challenge holds its hash, and only that changes. */
  lemma ResendStoresHash(s: State, q: nat, c: nat, hash: nat)
    requires q !in s.requests && Usable(s, c)
    ensures var s1 := Apply(s, Load(q, c, Resend(hash)));
      && Enabled(s1, LoadUser(q, true)) && Enabled(Apply(s1, LoadUser(q, true)), SetSms(q))
      && var t := Apply(Apply(s1, LoadUser(q, true)), SetSms(q));
         t.challenges == s.challenges[c := s.challenges[c].(smsHash := Some(hash))] && t.lastUsed == s.lastUsed && t.codes == s.codes
  {
  }

  /** A new challenge is usable, and the user's older ones are consumed. */
  lemma NewChallengeIsUsable(s: State, q: nat, user: nat, c: nat)
    requires q !in s.requests && c !in s.challenges
    ensures var s1 := Apply(s, DropOlder(q, user));
      && Enabled(s1, Create(q, c))
      && var t := Apply(s1, Create(q, c));
         && Usable(t, c) && t.challenges[c].user == user && t.challenges.Keys == s.challenges.Keys + {c}
         && (forall d :: d in s.challenges ==>
               t.challenges[d] == if s.challenges[d].user == user then s.challenges[d].(consumed := true) else s.challenges[d])
         && t.lastUsed == s.lastUsed && t.codes == s.codes
  {
  }

  // ---------------------------------------------------------------- the code, step by step

  /** The four tables and the handlers in progress. */
  class LoginTables {
    const hmac: Totp.Hmac
    const secrets: map<nat, string>
    var now: int
    var challenges: map<nat, Challenge>
    var lastUsed: map<nat, int>
    var codes: map<nat, RecoveryCode>
    var requests: map<nat, Stage>

    ghost function View(): State
      reads this
    {
      State(hmac, secrets, now, challenges, lastUsed, codes, requests)
    }

    constructor (hmac: Totp.Hmac, secrets: map<nat, string>, codes: map<nat, RecoveryCode>, now: int)
      ensures View() == State(hmac, secrets, now, map[], map[], codes, map[])
    {
      this.hmac, this.secrets, this.codes, this.now := hmac, secrets, codes, now;
      challenges, lastUsed, requests := map[], map[], map[];
    }

    method DropOlderChallenges(q: nat, user: nat)
      requires Enabled(View(), DropOlder(q, user))
      modifies this`challenges, this`requests
      ensures View() == Apply(old(View()), DropOlder(q, user))
    {
      challenges := DropChallenges(challenges, user);
      requests := requests[q := Creating(user)];
    }

    method CreateChallenge(q: nat, c: nat)
      requires Enabled(View(), Create(q, c))
      modifies this`challenges, this`requests
      ensures View() == Apply(old(View()), Create(q, c))
    {
      challenges := challenges[c := Challenge(requests[q].user, LOGIN, false, now + CHALLENGE_TTL_MS, 0, None)];
      requests := requests[q := Rejected];
    }

    method LoadChallenge(q: nat, c: nat, entry: Entry)
      requires Enabled(View(), Load(q, c, entry))
      modifies this`requests
      ensures View() == Apply(old(View()), Load(q, c, entry))
    {
      if c !in challenges {
        requests := requests[q := Rejected];
        return;
      }
      var row := challenges[c];
      if row.consumed || row.expiresAt < now || row.purpose != LOGIN || row.attempts >= MAX_ATTEMPTS {
        requests := requests[q := Rejected];
      } else {
        requests := requests[q := LoadingUser(Job(c, row.user, row.smsHash, entry))];
      }
    }

    method UserLoaded(q: nat, allowed: bool)
      requires Enabled(View(), LoadUser(q, allowed))
      modifies this`requests
      ensures View() == Apply(old(View()), LoadUser(q, allowed))
    {
      var job := requests[q].job;
      if !allowed {
        requests := requests[q := Rejected];
      } else if job.entry.ByRecovery? {
        requests := requests[q := FindingCode(job)];
      } else if job.entry.Resend? {
        requests := requests[q := SettingSms(job)];
      } else if job.smsHash.Some? {
        requests := requests[q := ComparingSms(job)];
      } else {
        requests := requests[q := ReadingSecret(job)];
      }
    }

    method SmsCompared(q: nat, same: bool)
      requires Enabled(View(), CompareSms(q, same))
      modifies this`requests
      ensures View() == Apply(old(View()), CompareSms(q, same))
    {
      var job := requests[q].job;
      requests := requests[q := if same then Finishing(job, Sms) else ReadingSecret(job)];
    }

    /** requireEnabledSecret and checkTotpOrNull. */
    method CheckTotp(q: nat, enabled: bool) returns (verdict: Option<Totp.Verdict>)
      requires q in requests && requests[q].ReadingSecret? && requests[q].job.entry.ByCode?
      modifies this`requests
      ensures Enabled(old(View()), ReadSecret(q, verdict))
      ensures View() == Apply(old(View()), ReadSecret(q, verdict))
      ensures verdict.Some? <==> enabled && old(requests)[q].job.user in secrets
    {
      var job := requests[q].job;
      if !enabled || job.user !in secrets {
        requests := requests[q := Rejected];
        return None;
      }
      var seen := if job.user in lastUsed then Some(lastUsed[job.user]) else None;
      var v := Totp.VerifyTotp(hmac, secrets[job.user], job.entry.code, seen, WINDOW, now);
      verdict := Some(v);
      match v {
        case Matched(step) => requests := requests[q := Advancing(job, step, seen, now)];
        case Refused => requests := requests[q := Failing(job)];
        case _ => requests := requests[q := Rejected];
      }
    }

    method AdvanceLastUsedStep(q: nat)
      requires Enabled(View(), Advance(q))
      modifies this`lastUsed, this`requests
      ensures View() == Apply(old(View()), Advance(q))
    {
      var st := requests[q];
      if st.job.user !in lastUsed || lastUsed[st.job.user] < st.step {
        lastUsed := lastUsed[st.job.user := st.step];
        requests := requests[q := Finishing(st.job, TotpStep(st.step, st.seen, st.at))];
      } else {
        requests := requests[q := Failing(st.job)];
      }
    }

    method RecoveryCodeFound(q: nat, found: Option<nat>)
      requires Enabled(View(), FindCode(q, found))
      modifies this`requests
      ensures View() == Apply(old(View()), FindCode(q, found))
    {
      var job := requests[q].job;
      requests := requests[q := if found.None? then Failing(job) else ClaimingCode(job, found.value)];
    }

    method ClaimRecoveryCode(q: nat)
      requires Enabled(View(), ClaimCode(q))
      modifies this`codes, this`requests
      ensures View() == Apply(old(View()), ClaimCode(q))
    {
      var job, code := requests[q].job, requests[q].code;
      if code in codes && !codes[code].used {
        codes := codes[code := codes[code].(used := true)];
        requests := requests[q := Finishing(job, Recovery(code))];
      } else {
        requests := requests[q := Failing(job)];
      }
    }

    method StoreSmsHash(q: nat)
      requires Enabled(View(), SetSms(q))
      modifies this`challenges, this`requests
      ensures View() == Apply(old(View()), SetSms(q))
    {
      var job := requests[q].job;
      requests := requests[q := Rejected];
      if job.challenge in challenges && job.entry.Resend? {
        challenges := challenges[job.challenge := challenges[job.challenge].(smsHash := Some(job.entry.smsHash))];
      }
    }

    method FinishChallenge(q: nat)
      requires Enabled(View(), Finish(q))
      modifies this`challenges, this`requests
      ensures View() == Apply(old(View()), Finish(q))
    {
      var job, factor := requests[q].job, requests[q].factor;
      var claimed := job.challenge in challenges && !challenges[job.challenge].consumed;
      if claimed {
        challenges := challenges[job.challenge := challenges[job.challenge].(consumed := true)];
      }
      requests := requests[q := Finished(job, factor, claimed)];
    }

    method CountFailure(q: nat)
      requires Enabled(View(), Fail(q))
      modifies this`challenges, this`requests
      ensures View() == Apply(old(View()), Fail(q))
    {
      var job := requests[q].job;
      requests := requests[q := Rejected];
      if job.challenge in challenges {
        var row := challenges[job.challenge];
        challenges := challenges[job.challenge := row.(attempts := row.attempts + 1)];
        if row.attempts + 1 >= MAX_ATTEMPTS {
          requests := requests[q := Burning(job)];
        }
      }
    }

    method BurnChallenge(q: nat)
      requires Enabled(View(), Burn(q))
      modifies this`challenges, this`requests
      ensures View() == Apply(old(View()), Burn(q))
    {
      var c := requests[q].job.challenge;
      if c in challenges {
        challenges := challenges[c := challenges[c].(consumed := true)];
      }
      requests := requests[q := Rejected];
    }
  }
}
