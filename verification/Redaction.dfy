/** redact: a copy of a value for the audit log, without secrets. */
module Redaction {
  import opened Options
  import opened Strings

  const REDACTED := "[REDACTED]"
  const MAX_DEPTH := 8

  datatype Entry = Entry(key: string, value: Value)

  /** A character of the text that toISOString gives. */
  predicate IsoChar(c: char) {
    '0' <= c <= '9' || c in "-+:.TZ"
  }

  type IsoText = s: string | forall i :: 0 <= i < |s| ==> IsoChar(s[i]) witness ""

  /** A date carries its ISO text. */
  datatype Value =
    | Null | Undefined | Number(n: int) | Text(s: string) | Date(iso: IsoText) | Buffer
    | List(items: seq<Value>) | Object(entries: seq<Entry>)

  // ---------------------------------------------------------------- what is sensitive

  function StripMarks(s: string): string {
    if s == "" then ""
    else
      var init := StripMarks(s[..|s| - 1]);
      var c := s[|s| - 1];
      if c == '_' || c == '-' then init else init + [c]
  }

  predicate EndsWith(s: string, suffix: string) {
    |suffix| <= |s| && s[|s| - |suffix|..] == suffix
  }

  predicate OccursAt(s: string, part: string, i: nat) {
    i + |part| <= |s| && s[i..i + |part|] == part
  }

  predicate Contains(s: string, part: string) {
    exists i: nat :: i <= |s| && OccursAt(s, part, i)
  }

  predicate IsSensitiveKey(key: string) {
    var k := StripMarks(Lower(key));
    || k in ["otp", "authorization", "cookie", "apikey", "privatekey", "signedurl"]
    || EndsWith(k, "password") || EndsWith(k, "passcode") || EndsWith(k, "secret")
    || EndsWith(k, "token") || EndsWith(k, "hash") || EndsWith(k, "otp")
  }

  predicate IsSignedUrl(text: string) {
    var t := Lower(text);
    || Contains(t, "x-amz-signature") || Contains(t, "x-goog-signature")
    || Contains(t, "?token=") || Contains(t, "&token=") || Contains(t, "?signature=") || Contains(t, "&signature=")
  }

  // ---------------------------------------------------------------- redaction

  /** Which keys and texts are secret. What follows holds of any such policy that lets the placeholder and the
      texts of dates pass; AUDIT is the one in use. */
  datatype Policy = Policy(secretKey: string -> bool, secretText: string -> bool)

  const AUDIT := Policy(k => IsSensitiveKey(k), t => IsSignedUrl(t))

  ghost predicate Lenient(p: Policy) {
    !p.secretText(REDACTED) && forall iso: IsoText :: !p.secretText(iso)
  }

  function RedactEntry(p: Policy, e: Entry, depth: nat): Entry
    decreases e, 0
  {
    Entry(e.key, if p.secretKey(e.key) then Text(REDACTED) else Redact(p, e.value, depth + 1))
  }

  function Redact(p: Policy, v: Value, depth: nat): Value
    decreases v, 1
  {
    if v.Null? || v.Undefined? then v
    else if depth > MAX_DEPTH then Text(REDACTED)
    else
      match v
      case Text(s) => if p.secretText(s) then Text(REDACTED) else v
      case Date(iso) => Text(iso)
      case Buffer => Text(REDACTED)
      case List(items) => List(seq(|items|, i requires 0 <= i < |items| => Redact(p, items[i], depth + 1)))
      case Object(entries) => Object(seq(|entries|, i requires 0 <= i < |entries| => RedactEntry(p, entries[i], depth)))
      case _ => v
  }

  // ---------------------------------------------------------------- the policy in use

  predicate HasChar(t: string, c: char) {
    exists i :: 0 <= i < |t| && t[i] == c
  }

  lemma PartHasStart(t: string, part: string)
    requires part != ""
    ensures Contains(t, part) ==> HasChar(t, part[0])
  {
    if Contains(t, part) {
      var i: nat :| i <= |t| && OccursAt(t, part, i);
      assert t[i] == t[i..i + |part|][0];
    }
  }

  /** A text in whose lower-case form no `x`, `?` or `&` occurs holds no signature. */
  lemma NoSignatureIn(text: string)
    requires var t := Lower(text); !HasChar(t, 'x') && !HasChar(t, '?') && !HasChar(t, '&')
    ensures !IsSignedUrl(text)
  {
    var t := Lower(text);
    PartHasStart(t, "x-amz-signature");
    PartHasStart(t, "x-goog-signature");
    PartHasStart(t, "?token=");
    PartHasStart(t, "&token=");
    PartHasStart(t, "?signature=");
    PartHasStart(t, "&signature=");
  }

  lemma DatesPass(iso: IsoText)
    ensures !IsSignedUrl(iso)
  {
    var t := Lower(iso);
    forall i | 0 <= i < |t| ensures t[i] != 'x' && t[i] != '?' && t[i] != '&' {
      assert IsoChar(iso[i]);
    }
    NoSignatureIn(iso);
  }

  lemma PlaceholderPasses()
    ensures !IsSignedUrl(REDACTED)
  {
    assert Lower(REDACTED) == "[redacted]";
    NoSignatureIn(REDACTED);
  }

  lemma AuditIsLenient()
    ensures Lenient(AUDIT)
  {
    PlaceholderPasses();
    forall iso: IsoText ensures !IsSignedUrl(iso) {
      DatesPass(iso);
    }
  }

  // ---------------------------------------------------------------- main results

  /** Nothing sensitive is left: a secret key holds the placeholder only, no text is secret, there are no raw
      buffers, and nothing but a placeholder, a null or an undefined lies deeper than the limit. */
  predicate Safe(p: Policy, v: Value, depth: nat) {
    match v
    case Text(s) => !p.secretText(s) && (depth > MAX_DEPTH ==> s == REDACTED)
    case Number(_) => depth <= MAX_DEPTH
    case Date(_) => false
    case Buffer => false
    case List(items) => depth <= MAX_DEPTH && forall i :: 0 <= i < |items| ==> Safe(p, items[i], depth + 1)
    case Object(entries) => depth <= MAX_DEPTH && forall i :: 0 <= i < |entries| ==> SafeEntry(p, entries[i], depth)
    case _ => true
  }

  predicate SafeEntry(p: Policy, e: Entry, depth: nat) {
    if p.secretKey(e.key) then e.value == Text(REDACTED) else Safe(p, e.value, depth + 1)
  }

  lemma {:induction false} RedactedIsSafe(p: Policy, v: Value, depth: nat)
    requires Lenient(p)
    ensures Safe(p, Redact(p, v, depth), depth)
    decreases v
  {
    match v
    case List(items) =>
      if depth <= MAX_DEPTH {
        forall i | 0 <= i < |items| ensures Safe(p, Redact(p, items[i], depth + 1), depth + 1) {
          RedactedIsSafe(p, items[i], depth + 1);
        }
      }
    case Object(entries) =>
      if depth <= MAX_DEPTH {
        forall i | 0 <= i < |entries| ensures SafeEntry(p, RedactEntry(p, entries[i], depth), depth) {
          RedactedIsSafe(p, entries[i].value, depth + 1);
        }
      }
    case _ =>
  }

  lemma {:induction false} SafeIsFixed(p: Policy, v: Value, depth: nat)
    requires Safe(p, v, depth)
    ensures Redact(p, v, depth) == v
    decreases v
  {
    match v
    case List(items) =>
      forall i | 0 <= i < |items| ensures Redact(p, items[i], depth + 1) == items[i] {
        SafeIsFixed(p, items[i], depth + 1);
      }
      assert Redact(p, v, depth).items == items;
    case Object(entries) =>
      forall i | 0 <= i < |entries| ensures RedactEntry(p, entries[i], depth) == entries[i] {
        assert SafeEntry(p, entries[i], depth);
        if !p.secretKey(entries[i].key) { SafeIsFixed(p, entries[i].value, depth + 1); }
      }
      assert Redact(p, v, depth).entries == entries;
    case _ =>
  }

  /** Redacting again changes nothing, and a value is its own redaction exactly if it is safe. */
  lemma RedactionIsIdempotent(p: Policy, v: Value)
    requires Lenient(p)
    ensures Redact(p, Redact(p, v, 0), 0) == Redact(p, v, 0)
    ensures Redact(p, v, 0) == v <==> Safe(p, v, 0)
  {
    RedactedIsSafe(p, v, 0);
    SafeIsFixed(p, Redact(p, v, 0), 0);
    if Safe(p, v, 0) {
      SafeIsFixed(p, v, 0);
    }
  }

  /** All of it for what the audit log stores. */
  lemma AuditValuesAreSafe(v: Value)
    ensures Safe(AUDIT, Redact(AUDIT, v, 0), 0)
    ensures Redact(AUDIT, Redact(AUDIT, v, 0), 0) == Redact(AUDIT, v, 0)
  {
    AuditIsLenient();
    RedactedIsSafe(AUDIT, v, 0);
    RedactionIsIdempotent(AUDIT, v);
  }

  // ---------------------------------------------------------------- what survives

  /** The value at a path of positions. */
  function Follow(v: Value, path: seq<nat>): Option<Value> {
    if path == [] then Some(v)
    else
      match v
      case List(items) => if path[0] < |items| then Follow(items[path[0]], path[1..]) else None
      case Object(entries) => if path[0] < |entries| then Follow(entries[path[0]].value, path[1..]) else None
      case _ => None
  }

  /** No key on the path is secret. */
  predicate OpenPath(p: Policy, v: Value, path: seq<nat>) {
    if path == [] then true
    else
      match v
      case List(items) => path[0] < |items| && OpenPath(p, items[path[0]], path[1..])
      case Object(entries) =>
        path[0] < |entries| && !p.secretKey(entries[path[0]].key) && OpenPath(p, entries[path[0]].value, path[1..])
      case _ => false
  }

  predicate Missing(v: Value) {
    v.Null? || v.Undefined?
  }

  predicate IsScalar(v: Value) {
    v.Null? || v.Undefined? || v.Number? || v.Text?
  }

  lemma ItemSurvives(p: Policy, items: seq<Value>, path: seq<nat>, depth: nat)
    requires path != [] && path[0] < |items| && depth <= MAX_DEPTH
    ensures Follow(Redact(p, List(items), depth), path) == Follow(Redact(p, items[path[0]], depth + 1), path[1..])
  {
  }

  lemma EntrySurvives(p: Policy, entries: seq<Entry>, path: seq<nat>, depth: nat)
    requires path != [] && path[0] < |entries| && depth <= MAX_DEPTH
    ensures var e := entries[path[0]];
      Follow(Redact(p, Object(entries), depth), path)
      == Follow(if p.secretKey(e.key) then Text(REDACTED) else Redact(p, e.value, depth + 1), path[1..])
  {
  }

  /** Exactly this much is lost: a scalar survives redaction if and only if no key above it is secret, it is no
      secret text, and it lies within the depth limit (one level deeper for a missing value). */
  lemma {:induction false} ScalarSurvivesIff(p: Policy, v: Value, path: seq<nat>, leaf: Value, depth: nat)
    requires Follow(v, path) == Some(leaf) && depth <= MAX_DEPTH + 1
    requires IsScalar(leaf) && leaf != Text(REDACTED)
    ensures Follow(Redact(p, v, depth), path) == Some(leaf) <==>
            && OpenPath(p, v, path)
            && !(leaf.Text? && p.secretText(leaf.s))
            && depth + |path| <= MAX_DEPTH + if Missing(leaf) then 1 else 0
    decreases |path|
  {
    if path != [] && depth <= MAX_DEPTH {
      match v
      case List(items) =>
        ItemSurvives(p, items, path, depth);
        ScalarSurvivesIff(p, items[path[0]], path[1..], leaf, depth + 1);
      case Object(entries) =>
        EntrySurvives(p, entries, path, depth);
        ScalarSurvivesIff(p, entries[path[0]].value, path[1..], leaf, depth + 1);
    }
  }

  predicate IsLeaf(v: Value) {
    !v.List? && !v.Object?
  }

  /** What a value without parts becomes where it may stay. */
  predicate Becomes(p: Policy, leaf: Value, out: Value) {
    match leaf
    case Text(s) => out == if p.secretText(s) then Text(REDACTED) else leaf
    case Date(iso) => out == Text(iso)
    case Buffer => out == Text(REDACTED)
    case _ => out == leaf
  }

  /** And what is kept is kept as it was: on an open path within the depth limit a date becomes its text, a secret
      text and a buffer become the placeholder, and everything else stays. */
  lemma {:induction false} LeafBecomes(p: Policy, v: Value, path: seq<nat>, leaf: Value, depth: nat)
    requires Follow(v, path) == Some(leaf) && IsLeaf(leaf) && OpenPath(p, v, path) && depth + |path| <= MAX_DEPTH
    ensures var out := Follow(Redact(p, v, depth), path);
      out.Some? && Becomes(p, leaf, out.value)
    decreases |path|
  {
    if path != [] {
      match v
      case List(items) =>
        ItemSurvives(p, items, path, depth);
        LeafBecomes(p, items[path[0]], path[1..], leaf, depth + 1);
      case Object(entries) =>
        EntrySurvives(p, entries, path, depth);
        LeafBecomes(p, entries[path[0]].value, path[1..], leaf, depth + 1);
    }
  }

  /** Below the limit there is the placeholder, except for what was missing anyway. */
  lemma TooDeepIsMarked(p: Policy, v: Value, depth: nat)
    requires depth > MAX_DEPTH
    ensures Redact(p, v, depth) == if Missing(v) then v else Text(REDACTED)
  {
  }

  // ---------------------------------------------------------------- the loop

  method RedactOne(p: Policy, e: Entry, depth: nat) returns (r: Entry)
    ensures r == RedactEntry(p, e, depth)
  {
    if p.secretKey(e.key) {
      return Entry(e.key, Text(REDACTED));
    }
    return Entry(e.key, Redact(p, e.value, depth + 1));
  }

  /** The object case: `out` is filled entry by entry. */
  method RedactObject(p: Policy, entries: seq<Entry>, depth: nat) returns (out: seq<Entry>)
    requires depth <= MAX_DEPTH
    ensures Object(out) == Redact(p, Object(entries), depth)
  {
    out := [];
    for i := 0 to |entries|
      invariant |out| == i && forall k :: 0 <= k < i ==> out[k] == RedactEntry(p, entries[k], depth)
    {
      var entry := RedactOne(p, entries[i], depth);
      out := out + [entry];
    }
  }
}
