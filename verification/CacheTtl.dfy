/** Lifetimes of cached values (seconds) and the jitter applied to them. */
module CacheTtl {

  const ENTITY_GEN := 86_400
  const STALE_GRACE := 30
  const SESSION_AUTH := 30

  /** PROFILE, POST_DETAIL, MISSING_PERSON_DETAIL and VICTIM_PROFILE_DETAIL: every wrapEntity caller. */
  const ENTITY_TTL := 300

  function Round(x: real): int {
    (x + 0.5).Floor
  }

  function Jitter(ttl: nat, random: real): (t: nat)
    requires 0.0 <= random < 1.0
    ensures t >= 1
  {
    var t := Round(ttl as real * (0.9 + random * 0.2));
    if t < 1 then 1 else t
  }

  function MaxJitter(ttl: nat): nat {
    var t := Round(ttl as real * 1.1);
    if t < 1 then 1 else t
  }

  /** Hard lifetime of an entry written by refresh: the jittered ttl plus the grace period. */
  function Life(ttl: nat, t: nat): nat {
    t + if ttl < STALE_GRACE then ttl else STALE_GRACE
  }

  lemma Scale(a: real, x: real, y: real)
    requires a >= 0.0 && x <= y
    ensures a * x <= a * y
  {
  }

  lemma FloorMonotone(x: real, y: real)
    requires x <= y
    ensures x.Floor <= y.Floor
  {
    assert x.Floor as real <= x;
    assert y < (y.Floor + 1) as real;
  }

  lemma JitterAtMost(ttl: nat, random: real)
    requires 0.0 <= random < 1.0
    ensures Jitter(ttl, random) <= MaxJitter(ttl)
    ensures MaxJitter(300) == 330 && MaxJitter(30) == 33 && Life(30, MaxJitter(30)) == 63
  {
    var factor := 0.9 + random * 0.2;
    assert factor <= 1.1;
    Scale(ttl as real, factor, 1.1);
    FloorMonotone(ttl as real * factor + 0.5, ttl as real * 1.1 + 0.5);
  }

  /** And at least nine tenths of it. */
  lemma JitterAtLeast(ttl: nat, random: real)
    requires 0.0 <= random < 1.0
    ensures Jitter(ttl, random) as real > ttl as real * 0.9 - 0.5
    ensures Jitter(300, random) >= 270 && Jitter(30, random) >= 27
  {
    var factor := 0.9 + random * 0.2;
    Scale(ttl as real, 0.9, factor);
    Scale(300.0, 0.9, factor);
    Scale(30.0, 0.9, factor);
    FloorMonotone(300.0 * 0.9 + 0.5, 300.0 * factor + 0.5);
    FloorMonotone(30.0 * 0.9 + 0.5, 30.0 * factor + 0.5);
  }
}
