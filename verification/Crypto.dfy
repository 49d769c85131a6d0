/**
 * Symbolic cryptography: derived keys are equal only when everything they were derived from
 * is, and a sealed blob opens under the key that sealed it and under no other.
 */
module Crypto {
  import opened Wrappers
  import Decimal

  /** What besides the password goes into a key derivation. */
  datatype KdfParams = KdfParams(salt: string, memKiB: nat, iters: nat)

  datatype Key = Kek(password: string, params: KdfParams)

  /** Ciphertext: something a key sealed, or bytes that open under nothing. */
  datatype Blob = Sealed(key: Key, plaintext: string) | Junk

  function Seal(key: Key, plaintext: string): Blob {
    Sealed(key, plaintext)
  }

  function Open(key: Key, blob: Blob): Option<string> {
    match blob
    case Sealed(k, m) => if k == key then Some(m) else None
    case Junk => None
  }

  /** The name a derived key is cached under while a group of vaults is unlocked. */
  function CacheKey(p: KdfParams): string {
    p.salt + ":" + Decimal.Print(p.memKiB) + ":" + Decimal.Print(p.iters)
  }

  lemma NoColonAfter(a: string, digits: string)
    requires Decimal.AllDigits(digits)
    ensures forall k :: |a| < k < |a| + 1 + |digits| ==> (a + ":" + digits)[k] != ':'
  {}

  /** A text ending in a colon and digits determines both sides of that colon. */
  lemma LastColon(a: string, m: nat, b: string, n: nat)
    requires a + ":" + Decimal.Print(m) == b + ":" + Decimal.Print(n)
    ensures a == b && m == n
  {
    hide Decimal.Print;
    var s, p, q := a + ":" + Decimal.Print(m), Decimal.Print(m), Decimal.Print(n);
    NoColonAfter(a, p);
    NoColonAfter(b, q);
    assert s[|a|] == ':' && s[|b|] == ':';
    assert a == s[..|a|] && b == s[..|b|];
    assert p == s[|a| + 1..] && q == s[|b| + 1..];
    Decimal.ReadPrint(m);
    Decimal.ReadPrint(n);
  }

  /** The colon-joined cache key tells all parameters apart, even for salts with colons in them. */
  lemma CacheKeyInjective(p: KdfParams, q: KdfParams)
    requires CacheKey(p) == CacheKey(q)
    ensures p == q
  {
    var a := p.salt + ":" + Decimal.Print(p.memKiB);
    var b := q.salt + ":" + Decimal.Print(q.memKiB);
    LastColon(a, p.iters, b, q.iters);
    LastColon(p.salt, p.memKiB, q.salt, q.memKiB);
  }
}
