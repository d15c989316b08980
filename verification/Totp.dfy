/** One-time codes: hotp, the HMAC-based code for one counter, and verifyTotp, which searches the time
    steps around the present one for a code. The HMAC is a parameter; the rest is computed. */
module Totp {
  import opened Options
  import Base32

  type Byte = Base32.Byte
  type Digest = d: seq<Byte> | |d| == 20 witness seq(20, _ => 0)
  type Hmac = (seq<nat>, seq<Byte>) -> Digest

  const PERIOD_MS := 30_000
  const STEPS := 0x1_0000_0000_0000_0000

  /** A UTF-16 code unit, as charCodeAt returns it. */
  type Unit = bv16

  datatype Verdict = Matched(step: int) | Refused | BadSecret | BadStep

  // ---------------------------------------------------------------- one code

  function BigEndian(n: nat, width: nat): (bytes: seq<Byte>)
    ensures |bytes| == width
  {
    if width == 0 then [] else BigEndian(n / 256, width - 1) + [n % 256]
  }

  /** Dynamic truncation: 31 bits of the digest, from the place its last four bits name. */
  function Truncate(d: Digest): (n: nat)
    ensures n < 0x8000_0000
  {
    var offset: nat := d[19] % 16;
    var a: nat, b: nat, c: nat, e: nat := d[offset], d[offset + 1], d[offset + 2], d[offset + 3];
    a % 128 * 0x100_0000 + b * 0x1_0000 + c * 0x100 + e
  }

  function FromBytes(bytes: seq<Byte>): nat {
    if bytes == [] then 0 else 256 * FromBytes(bytes[..|bytes| - 1]) + bytes[|bytes| - 1]
  }

  function Pow256(n: nat): nat {
    if n == 0 then 1 else 256 * Pow256(n - 1)
  }

  /** The counter's bytes spell the counter. */
  lemma {:induction false} BigEndianSpells(n: nat, width: nat)
    requires n < Pow256(width)
    ensures FromBytes(BigEndian(n, width)) == n
  {
    if width > 0 {
      BigEndianSpells(n / 256, width - 1);
      assert BigEndian(n, width)[..width - 1] == BigEndian(n / 256, width - 1);
    }
  }

  /** Section 5.3 of RFC 4226: the low 31 bits of the big-endian number in four bytes of the digest, from the
      place that the low four bits of its last byte name. */
  lemma TruncateIsLow31(d: Digest)
    ensures var offset := d[19] % 16;
      offset + 4 <= 20 && Truncate(d) == FromBytes(d[offset..offset + 4]) % 0x8000_0000
  {
    var offset: nat := d[19] % 16;
    var a: nat, b: nat, c: nat, e: nat := d[offset], d[offset + 1], d[offset + 2], d[offset + 3];
    var four := d[offset..offset + 4];
    assert four == [a, b, c, e];
    FourBytes(a, b, c, e);
    DropTopBit(a, b * 0x1_0000 + c * 0x100 + e);
  }

  lemma DropTopBit(a: nat, rest: nat)
    requires a < 256 && rest < 0x100_0000
    ensures (a * 0x100_0000 + rest) % 0x8000_0000 == a % 128 * 0x100_0000 + rest
  {
  }

  lemma FourBytes(a: Byte, b: Byte, c: Byte, e: Byte)
    ensures FromBytes([a, b, c, e]) == a as int * 0x100_0000 + b as int * 0x1_0000 + c as int * 0x100 + e as int
  {
    assert [a, b, c, e][..3] == [a, b, c] && [a, b, c][..2] == [a, b] && [a, b][..1] == [a] && [a][..0] == [];
    assert FromBytes([a]) == a;
    assert FromBytes([a, b]) == 256 * FromBytes([a]) + b;
    assert FromBytes([a, b, c]) == 256 * FromBytes([a, b]) + c;
  }

  function DigitUnit(d: nat): (u: Unit)
    requires d < 10
  {
    match d
    case 0 => 48 case 1 => 49 case 2 => 50 case 3 => 51 case 4 => 52
    case 5 => 53 case 6 => 54 case 7 => 55 case 8 => 56 case _ => 57
  }

  /** `n.toString()`. */
  function Decimal(n: nat): (s: seq<Unit>)
    ensures |s| >= 1
  {
    if n < 10 then [DigitUnit(n)] else Decimal(n / 10) + [DigitUnit(n % 10)]
  }

  function PadStart(s: seq<Unit>, width: nat): (r: seq<Unit>)
    decreases width - |s|
  {
    if |s| >= width then s else PadStart([DigitUnit(0)] + s, width)
  }

  function Hotp(hmac: Hmac, secret: seq<nat>, counter: nat): seq<Unit>
    requires counter < STEPS
  {
    PadStart(Decimal(Truncate(hmac(secret, BigEndian(counter, 8))) % 1_000_000), 6)
  }

  // The code of RFC 4226, section 5.3: the six low decimal digits of the truncated digest.

  predicate IsDigit(u: Unit) {
    exists d: nat :: d < 10 && u == DigitUnit(d)
  }

  /** The `width` low decimal digits of `n`, most significant first. */
  function Digits(n: nat, width: nat): (s: seq<Unit>)
    ensures |s| == width
  {
    if width == 0 then [] else Digits(n / 10, width - 1) + [DigitUnit(n % 10)]
  }

  function Pow10(n: nat): nat {
    if n == 0 then 1 else 10 * Pow10(n - 1)
  }

  function Noughts(n: nat): (s: seq<Unit>)
    ensures |s| == n
  {
    if n == 0 then [] else [DigitUnit(0)] + Noughts(n - 1)
  }

  lemma {:induction false} NoughtsEnd(n: nat)
    ensures Noughts(n) + [DigitUnit(0)] == [DigitUnit(0)] + Noughts(n)
  {
    if n > 0 {
      NoughtsEnd(n - 1);
      assert Noughts(n) + [DigitUnit(0)] == [DigitUnit(0)] + (Noughts(n - 1) + [DigitUnit(0)]);
    }
  }

  lemma {:induction false} PaddingIsNoughts(s: seq<Unit>, width: nat)
    requires |s| <= width
    ensures PadStart(s, width) == Noughts(width - |s|) + s
    decreases width - |s|
  {
    if |s| < width {
      PaddingIsNoughts([DigitUnit(0)] + s, width);
      NoughtsEnd(width - |s| - 1);
      assert Noughts(width - |s| - 1) + ([DigitUnit(0)] + s) == (Noughts(width - |s| - 1) + [DigitUnit(0)]) + s;
    }
  }

  lemma {:induction false} DigitsOfZero(width: nat)
    ensures Digits(0, width) == Noughts(width)
  {
    if width > 0 {
      DigitsOfZero(width - 1);
      NoughtsEnd(width - 1);
    }
  }

  lemma {:induction false} DecimalPadded(n: nat, width: nat)
    requires n < Pow10(width) && width > 0
    ensures |Decimal(n)| <= width
    ensures Noughts(width - |Decimal(n)|) + Decimal(n) == Digits(n, width)
  {
    if n < 10 {
      assert n / 10 == 0;
      DigitsOfZero(width - 1);
    } else {
      assert width > 1;
      DecimalPadded(n / 10, width - 1);
      var pad := Noughts(width - |Decimal(n)|);
      assert pad + Decimal(n) == (pad + Decimal(n / 10)) + [DigitUnit(n % 10)];
    }
  }

  lemma {:induction false} DigitsAreDigits(n: nat, width: nat, k: nat)
    requires k < width
    ensures IsDigit(Digits(n, width)[k])
  {
    if k == width - 1 {
      assert Digits(n, width)[k] == DigitUnit(n % 10);
    } else {
      DigitsAreDigits(n / 10, width - 1, k);
    }
  }

  lemma {:induction false} DigitsAreExact(a: nat, b: nat, width: nat)
    requires a < Pow10(width) && b < Pow10(width)
    ensures Digits(a, width) == Digits(b, width) <==> a == b
  {
    if width > 0 {
      DigitsAreExact(a / 10, b / 10, width - 1);
      if Digits(a, width) == Digits(b, width) {
        assert Digits(a, width)[..width - 1] == Digits(a / 10, width - 1);
        assert Digits(b, width)[..width - 1] == Digits(b / 10, width - 1);
        assert Digits(a, width)[width - 1] == Digits(b, width)[width - 1];
        SameDigit(a % 10, b % 10);
      }
    }
  }

  lemma SameDigit(a: nat, b: nat)
    requires a < 10 && b < 10
    ensures DigitUnit(a) == DigitUnit(b) ==> a == b
  {
  }

  /** Section 5.3 of RFC 4226: a code is always the six low decimal digits of the truncated digest, and two
      counters share a code exactly when these agree. */
  lemma HotpIsSixDigits(hmac: Hmac, secret: seq<nat>, counter: nat)
    requires counter < STEPS
    ensures Hotp(hmac, secret, counter) == Digits(Truncate(hmac(secret, BigEndian(counter, 8))), 6)
    ensures WellFormed(Hotp(hmac, secret, counter))
  {
    var n := Truncate(hmac(secret, BigEndian(counter, 8)));
    SixDigits();
    DecimalPadded(n % 1_000_000, 6);
    PaddingIsNoughts(Decimal(n % 1_000_000), 6);
    LowDigits(n);
    forall k | 0 <= k < 6 ensures IsDigit(Digits(n, 6)[k]) {
      DigitsAreDigits(n, 6, k);
    }
  }

  lemma SixDigits()
    ensures Pow10(6) == 1_000_000
  {
    assert Pow10(3) == 1000;
  }

  lemma {:induction false} DigitsOfRemainder(n: nat, m: nat, width: nat, p: nat)
    requires p == Pow10(width)
    ensures Digits(n + m * p, width) == Digits(n, width)
  {
    if width > 0 {
      var q := Pow10(width - 1);
      TenTimes(m, q);
      assert n + m * p == n + 10 * (m * q);
      assert (n + 10 * (m * q)) / 10 == n / 10 + m * q && (n + 10 * (m * q)) % 10 == n % 10;
      DigitsOfRemainder(n / 10, m, width - 1, q);
    }
  }

  lemma TenTimes(m: nat, q: nat)
    ensures m * (10 * q) == 10 * (m * q)
  {
  }

  lemma LowDigits(n: nat)
    ensures Digits(n % 1_000_000, 6) == Digits(n, 6)
  {
    SixDigits();
    DigitsOfRemainder(n % 1_000_000, n / 1_000_000, 6, 1_000_000);
  }

  // ---------------------------------------------------------------- comparison

  method TimingSafeEqual(a: seq<Unit>, b: seq<Unit>) returns (same: bool)
    ensures same <==> a == b
  {
    if |a| != |b| {
      return false;
    }
    var diff: Unit := 0;
    for i := 0 to |a|
      invariant diff == 0 <==> a[..i] == b[..i]
    {
      EqualPrefixes(a, b, i);
      diff := Accumulate(diff, a[i], b[i]);
    }
    assert a[..|a|] == a && b[..|b|] == b;
    return diff == 0;
  }

  lemma EqualPrefixes(a: seq<Unit>, b: seq<Unit>, i: nat)
    requires i < |a| && i < |b|
    ensures a[..i + 1] == b[..i + 1] <==> a[..i] == b[..i] && a[i] == b[i]
  {
    assert a[..i + 1] == a[..i] + [a[i]] && b[..i + 1] == b[..i] + [b[i]];
  }

  /** One round of the comparison: zero only while everything compared so far is equal. */
  function Accumulate(diff: Unit, x: Unit, y: Unit): (d: Unit)
    ensures d == 0 <==> diff == 0 && x == y
  {
    diff | (x ^ y)
  }

  // ---------------------------------------------------------------- the window

  predicate WellFormed(code: seq<Unit>) {
    |code| == 6 && forall k :: 0 <= k < 6 ==> IsDigit(code[k])
  }

  /** `/^\d/`, one unit at a time. */
  function DigitTest(u: Unit): (r: bool)
    ensures r <==> IsDigit(u)
  {
    assert DigitUnit(0) == 48 && DigitUnit(1) == 49 && DigitUnit(2) == 50 && DigitUnit(3) == 51 && DigitUnit(4) == 52;
    assert DigitUnit(5) == 53 && DigitUnit(6) == 54 && DigitUnit(7) == 55 && DigitUnit(8) == 56 && DigitUnit(9) == 57;
    48 <= u <= 57
  }

  function StepAt(nowMs: int): int {
    nowMs / PERIOD_MS
  }

  /** The steps verifyTotp considers: those of the window that are above the last one used. */
  predicate Candidate(step: int, lastUsed: Option<int>, window: int, nowMs: int) {
    && StepAt(nowMs) - window <= step <= StepAt(nowMs) + window
    && (lastUsed.Some? ==> lastUsed.value < step)
  }

  predicate IsCode(hmac: Hmac, secret: seq<nat>, step: int, code: seq<Unit>) {
    0 <= step < STEPS && Hotp(hmac, secret, step) == code
  }

  /** `step` is the least candidate that has `code`, and hotp is defined on every candidate up to it. */
  ghost predicate IsLeastMatch(hmac: Hmac, secret: seq<nat>, code: seq<Unit>, lastUsed: Option<int>,
                               window: int, nowMs: int, step: int) {
    && Candidate(step, lastUsed, window, nowMs) && IsCode(hmac, secret, step, code)
    && (forall t :: Candidate(t, lastUsed, window, nowMs) && t < step ==>
          0 <= t && !IsCode(hmac, secret, t, code))
  }

  /** No candidate has the code, and hotp is defined on each. */
  ghost predicate IsNoMatch(hmac: Hmac, secret: seq<nat>, code: seq<Unit>, lastUsed: Option<int>,
                            window: int, nowMs: int) {
    forall t :: Candidate(t, lastUsed, window, nowMs) ==> 0 <= t < STEPS && !IsCode(hmac, secret, t, code)
  }

  /** hotp is not defined on candidate `t`, and no candidate before it has the code or is undefined. */
  ghost predicate IsFirstBad(hmac: Hmac, secret: seq<nat>, code: seq<Unit>, lastUsed: Option<int>,
                             window: int, nowMs: int, t: int) {
    && Candidate(t, lastUsed, window, nowMs) && !(0 <= t < STEPS)
    && (forall u :: Candidate(u, lastUsed, window, nowMs) && u < t ==>
          0 <= u < STEPS && !IsCode(hmac, secret, u, code))
  }

  /** What verifyTotp promises: the least candidate step whose code was entered. An ill-formed code is
      refused before the secret is looked at; a bad secret and a step outside 0 .. 2^64 - 1 are errors. */
  ghost predicate IsVerdict(hmac: Hmac, secretText: string, code: seq<Unit>, lastUsed: Option<int>,
                            window: int, nowMs: int, v: Verdict) {
    var decoded := Base32.DecodeText(secretText);
    if !WellFormed(code) then v == Refused
    else if decoded.None? then v == BadSecret
    else match v
      case Matched(step) => IsLeastMatch(hmac, decoded.value, code, lastUsed, window, nowMs, step)
      case Refused => IsNoMatch(hmac, decoded.value, code, lastUsed, window, nowMs)
      case BadSecret => false
      case BadStep => exists t :: IsFirstBad(hmac, decoded.value, code, lastUsed, window, nowMs, t)
  }

  method VerifyTotp(hmac: Hmac, secretText: string, code: seq<Unit>, lastUsed: Option<int>, window: int, nowMs: int)
    returns (v: Verdict)
    ensures IsVerdict(hmac, secretText, code, lastUsed, window, nowMs, v)
  {
    var wellFormed := |code| == 6 && forall k :: 0 <= k < 6 ==> DigitTest(code[k]);
    if !wellFormed {
      return Refused;
    }
    var decoded := Base32.DecodeText(secretText);
    if decoded.None? {
      return BadSecret;
    }
    var secret := decoded.value;
    var drift := -window;
    while drift <= window
      invariant forall t :: Candidate(t, lastUsed, window, nowMs) && t < StepAt(nowMs) + drift ==>
                  0 <= t < STEPS && !IsCode(hmac, secret, t, code)
      decreases window - drift
    {
      var step := StepAt(nowMs) + drift;
      if !(lastUsed.Some? && step <= lastUsed.value) {
        assert Candidate(step, lastUsed, window, nowMs);
        if !(0 <= step < STEPS) {
          assert IsFirstBad(hmac, secret, code, lastUsed, window, nowMs, step);
          return BadStep;
        }
        var same := TimingSafeEqual(Hotp(hmac, secret, step), code);
        if same {
          return Matched(step);
        }
      }
      drift := drift + 1;
    }
    return Refused;
  }

  /** The promise leaves one verdict only. */
  lemma VerdictIsUnique(hmac: Hmac, secretText: string, code: seq<Unit>, lastUsed: Option<int>,
                        window: int, nowMs: int, v: Verdict, w: Verdict)
    requires IsVerdict(hmac, secretText, code, lastUsed, window, nowMs, v)
    requires IsVerdict(hmac, secretText, code, lastUsed, window, nowMs, w)
    ensures v == w
  {
    var decoded := Base32.DecodeText(secretText);
    if WellFormed(code) && decoded.Some? {
      if v.BadStep? {
        var t :| IsFirstBad(hmac, decoded.value, code, lastUsed, window, nowMs, t);
        assert Candidate(t, lastUsed, window, nowMs);
      }
      if w.BadStep? {
        var t :| IsFirstBad(hmac, decoded.value, code, lastUsed, window, nowMs, t);
        assert Candidate(t, lastUsed, window, nowMs);
      }
    }
  }

  /** A step is half a minute of the clock. */
  lemma StepIsHalfAMinute(nowMs: int)
    ensures 30_000 * StepAt(nowMs) <= nowMs < 30_000 * (StepAt(nowMs) + 1)
  {
  }

  /** Only a six-digit code of the secret is matched, for an unused step that is within the window. */
  lemma MatchIsACodeInTheWindow(hmac: Hmac, secretText: string, code: seq<Unit>, lastUsed: Option<int>,
                                window: int, nowMs: int, step: int)
    requires IsVerdict(hmac, secretText, code, lastUsed, window, nowMs, Matched(step))
    ensures StepAt(nowMs) - window <= step <= StepAt(nowMs) + window && (lastUsed.Some? ==> lastUsed.value < step)
    ensures 0 <= step < STEPS && Base32.DecodeText(secretText).Some?
    ensures code == Hotp(hmac, Base32.DecodeText(secretText).value, step)
  {
  }

  /** Section 5.2 of RFC 6238: the code shown by a clock within the window is accepted unless its step has
      been used up, as its own step or as an earlier one with the same code. */
  lemma AcceptsAClockInTheWindow(hmac: Hmac, secretText: string, clientMs: int, lastUsed: Option<int>,
                                 window: int, nowMs: int, v: Verdict)
    requires Base32.DecodeText(secretText).Some?
    requires 0 <= StepAt(clientMs) < STEPS && StepAt(nowMs) - window <= StepAt(clientMs) <= StepAt(nowMs) + window
    requires lastUsed.Some? ==> lastUsed.value < StepAt(clientMs)
    requires forall t :: Candidate(t, lastUsed, window, nowMs) ==> 0 <= t
    requires var code := Hotp(hmac, Base32.DecodeText(secretText).value, StepAt(clientMs));
      IsVerdict(hmac, secretText, code, lastUsed, window, nowMs, v)
    ensures v.Matched? && v.step <= StepAt(clientMs)
  {
    var secret := Base32.DecodeText(secretText).value;
    var step := StepAt(clientMs);
    var code := Hotp(hmac, secret, step);
    HotpIsSixDigits(hmac, secret, step);
    assert IsCode(hmac, secret, step, code);
    forall t ensures !IsFirstBad(hmac, secret, code, lastUsed, window, nowMs, t) { }
  }

  // ---------------------------------------------------------------- successive checks

  /** One login after another: each stores the step it matched. */
  datatype Check = Check(code: seq<Unit>, nowMs: int, verdict: Verdict)

  function Stored(checks: seq<Check>, first: Option<int>): Option<int> {
    if checks == [] then first
    else
      var last := checks[|checks| - 1].verdict;
      if last.Matched? then Some(last.step) else Stored(checks[..|checks| - 1], first)
  }

  ghost predicate CheckOk(hmac: Hmac, secretText: string, window: int, checks: seq<Check>, first: Option<int>, i: nat) {
    i < |checks| ==>
      IsVerdict(hmac, secretText, checks[i].code, Stored(checks[..i], first), window, checks[i].nowMs, checks[i].verdict)
  }

  lemma MatchIsAbove(hmac: Hmac, secretText: string, code: seq<Unit>, lastUsed: Option<int>, window: int, nowMs: int, v: Verdict)
    requires IsVerdict(hmac, secretText, code, lastUsed, window, nowMs, v) && v.Matched?
    ensures lastUsed.Some? ==> lastUsed.value < v.step
  {
  }

  lemma StoredStep(checks: seq<Check>, first: Option<int>, j: nat)
    requires 0 < j <= |checks|
    ensures Stored(checks[..j], first)
            == if checks[j - 1].verdict.Matched? then Some(checks[j - 1].verdict.step) else Stored(checks[..j - 1], first)
  {
    assert checks[..j][..j - 1] == checks[..j - 1];
  }

  lemma MatchIsAboveStored(hmac: Hmac, secretText: string, window: int, checks: seq<Check>, first: Option<int>, i: nat)
    requires CheckOk(hmac, secretText, window, checks, first, i) && i < |checks| && checks[i].verdict.Matched?
    ensures var last := Stored(checks[..i], first); last.Some? ==> last.value < checks[i].verdict.step
  {
    MatchIsAbove(hmac, secretText, checks[i].code, Stored(checks[..i], first), window, checks[i].nowMs, checks[i].verdict);
  }

  lemma {:induction false} StoredNeverFalls(checks: seq<Check>, first: Option<int>, i: nat, j: nat)
    requires i < j <= |checks| && checks[i].verdict.Matched?
    requires forall k: nat :: Rises(checks, first, k)
    ensures Stored(checks[..j], first).Some? && checks[i].verdict.step <= Stored(checks[..j], first).value
    decreases j
  {
    StoredStep(checks, first, j);
    if i < j - 1 {
      StoredNeverFalls(checks, first, i, j - 1);
      assert Rises(checks, first, j - 1);
    }
  }

  /** A match lies above the step stored before it. */
  predicate Rises(checks: seq<Check>, first: Option<int>, k: nat) {
    k < |checks| && checks[k].verdict.Matched? && Stored(checks[..k], first).Some? ==>
      Stored(checks[..k], first).value < checks[k].verdict.step
  }

  /** The steps matched by successive checks strictly increase, so no code is accepted twice for one step. */
  lemma MatchedStepsIncrease(hmac: Hmac, secretText: string, window: int, checks: seq<Check>,
                             first: Option<int>, i: nat, j: nat)
    requires forall k: nat :: CheckOk(hmac, secretText, window, checks, first, k)
    requires i < j < |checks| && checks[i].verdict.Matched? && checks[j].verdict.Matched?
    ensures checks[i].verdict.step < checks[j].verdict.step
  {
    forall k: nat ensures Rises(checks, first, k) {
      if k < |checks| && checks[k].verdict.Matched? {
        assert CheckOk(hmac, secretText, window, checks, first, k);
        MatchIsAboveStored(hmac, secretText, window, checks, first, k);
      }
    }
    StoredNeverFalls(checks, first, i, j);
    assert Rises(checks, first, j);
  }
}
