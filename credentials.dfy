/**
 * `Util.hash` and `Util.match`: argon2 digests, abstractly. A digest is
 * recognisable by its `$argon2id$` header, hashing is injective, and
 * verifying a string that is not a digest throws. The salt is not modelled,
 * so the same input always gives the same digest here.
 */
module Credentials {
  import opened Wrappers

  /** The header every argon2id digest starts with. */
  const DigestPrefix: string := "$argon2id$"

  predicate IsDigest(h: string) {
    DigestPrefix <= h
  }

  /** `argon.hash(s)`. */
  function Hash(s: string): (h: string)
    ensures IsDigest(h) && |h| == |DigestPrefix| + |s|
  {
    DigestPrefix + s
  }

  /** What `argon.verify` throws on a string that is not a digest. */
  datatype HashError = MalformedDigest

  /** `argon.verify(h, candidate)`: whether `h` is the digest of `candidate`; throws when `h` is not a digest. */
  function Match(h: string, candidate: string): (r: Result<bool, HashError>)
    ensures r.Err? <==> !IsDigest(h)
    ensures r == Ok(true) <==> h == Hash(candidate)
  {
    if !IsDigest(h) then Err(MalformedDigest) else Ok(h == Hash(candidate))
  }

  /** Different inputs have different digests. */
  lemma HashInjective(a: string, b: string)
    ensures Hash(a) == Hash(b) ==> a == b
  {
    if Hash(a) == Hash(b) {
      assert a == Hash(a)[|DigestPrefix|..];
    }
  }

  /** A digest verifies exactly the string it was made from. */
  lemma MatchHash(a: string, b: string)
    ensures Match(Hash(a), b) == Ok(a == b)
  {
    HashInjective(a, b);
  }

  /** No string verifies against itself: a digest is always longer than its input. */
  lemma NoSelfMatch(h: string)
    ensures Match(h, h) != Ok(true)
  {
    assert |Hash(h)| > |h|;
  }
}
