/**
 * The unlock as the sign-in page runs it: loops over the stored vaults that fill a token map,
 * rewrite locks in place and derive each key at most once.
 */
module TrustedDevice {
  import opened Wrappers
  import opened Crypto
  import opened EmailText
  import opened Ordering
  import opened VaultStores
  import opened Credentials
  import opened SignIn

  /** Keys already derived during one unlock, by the name their parameters are cached under. */
  class KekCache {
    const password: string
    var keks: map<string, Key>
    var derived: seq<KdfParams>

    ghost predicate Valid()
      reads this
    {
      && Distinct(derived)
      && (forall p :: CacheKey(p) in keks <==> p in derived)
      && (forall p :: p in derived ==> keks[CacheKey(p)] == Kek(password, p))
    }

    constructor (password: string)
      ensures Valid() && this.password == password && derived == []
    {
      this.password := password;
      keks, derived := map[], [];
    }

    /** The key for these parameters: the one a fresh derivation gives, derived only the first time. */
    method KekFor(p: KdfParams) returns (kek: Key)
      requires Valid()
      modifies this
      ensures Valid() && kek == Kek(password, p)
      ensures derived == if p in old(derived) then old(derived) else old(derived) + [p]
    {
      if CacheKey(p) in keks {
        return keks[CacheKey(p)];
      }
      kek := Kek(password, p);
      forall q | CacheKey(q) == CacheKey(p)
        ensures q == p
      {
        CacheKeyInjective(q, p);
      }
      keks := keks[CacheKey(p) := kek];
      derived := derived + [p];
    }
  }

  method SeedLocks(store: VaultStore, emailHash: string, replies: Replies)
    requires store.Valid()
    modifies store
    ensures store.Valid() && store.State() == Seed(old(store.State()), emailHash, replies)
  {
    hide Store.Valid, Store.AllVaultMetas, Store.SaveVaultCredentialLock;
    var metas := store.State().AllVaultMetas();
    var i := 0;
    while i < |metas|
      invariant 0 <= i <= |metas|
      invariant store.Valid()
      invariant SeedAll(store.State(), metas[i..], emailHash, replies) == Seed(old(store.State()), emailHash, replies)
    {
      var meta := metas[i];
      assert metas[i..][0] == meta && metas[i..][1..] == metas[i + 1..];
      i := i + 1;
      if meta.ownerTokenLock.Some? {
        continue;
      }
      var ownerToken := store.State().OwnerToken(meta.id);
      if !Usable(ownerToken) || HashEmailForLookup(meta.ownerAddress) != emailHash {
        continue;
      }
      if meta.id in replies.bundles {
        var _ := store.SaveVaultCredentialLock(meta.id, Candidate(replies.bundles[meta.id], emailHash));
      }
    }
    assert metas[i..] == [];
  }

  /** The parameters of the locks of a list of vaults. */
  ghost predicate ParamsOf(metas: seq<VaultMeta>, p: KdfParams) {
    exists m :: m in metas && m.ownerTokenLock.Some? && m.ownerTokenLock.value.params == p
  }

  lemma ParamsOfNext(metas: seq<VaultMeta>, i: nat, p: KdfParams)
    requires i < |metas| && metas[i].ownerTokenLock.Some?
    ensures ParamsOf(metas[..i + 1], p) <==> ParamsOf(metas[..i], p) || p == metas[i].ownerTokenLock.value.params
  {}

  /**
   * The opening loop. Cached keys or fresh ones, the outcome is the specification's; a finished
   * loop has derived exactly one key for each distinct parameter set among the vaults.
   */
  method OpenVaults(store: VaultStore, cache: KekCache, metas: seq<VaultMeta>, localId: VaultId, replies: Replies)
    returns (threw: bool, tokens: map<VaultId, string>, uploads: Uploads)
    requires store.Valid() && cache.Valid() && cache.derived == []
    requires forall m :: m in metas ==> m.ownerTokenLock.Some?
    modifies store, cache
    ensures store.Valid() && cache.Valid()
    ensures var o := Opening(store.State(), tokens, uploads);
            OpenAll(Opening(old(store.State()), map[], []), metas, localId, cache.password, replies)
            == if threw then Threw(o) else Continue(o)
    ensures !threw ==> forall p :: p in cache.derived <==> ParamsOf(metas, p)
  {
    hide Store.Valid, Store.SaveVaultCredentialLock, ParamsOf, Store.OwnerToken;
    tokens, uploads, threw := map[], [], false;
    var index := 0;
    ghost var start := Opening(store.State(), map[], []);
    assert metas[0..] == metas;
    NoParams(metas);
    while index < |metas|
      invariant 0 <= index <= |metas|
      invariant store.Valid() && cache.Valid()
      invariant OpenAll(Opening(store.State(), tokens, uploads), metas[index..], localId, cache.password, replies)
             == OpenAll(start, metas, localId, cache.password, replies)
      invariant forall p :: p in cache.derived <==> ParamsOf(metas[..index], p)
    {
      var meta := metas[index];
      var lock := meta.ownerTokenLock.value;
      assert metas[index..][0] == meta && metas[index..][1..] == metas[index + 1..];
      forall p
        ensures ParamsOf(metas[..index + 1], p) <==> ParamsOf(metas[..index], p) || p == lock.params
      {
        ParamsOfNext(metas, index, p);
      }
      var kek := cache.KekFor(lock.params);
      index := index + 1;
      var plain := Open(kek, lock.ownerTokenBlob);
      if plain.None? {
        if meta.id == localId {
          return true, tokens, uploads;
        }
        continue;
      }
      var decryptedToken := plain.value;
      var liveToken := store.State().OwnerToken(meta.id);
      if decryptedToken == PLACEHOLDER_OWNER_TOKEN && !Usable(liveToken) {
        continue;
      }
      if Usable(liveToken) && decryptedToken != liveToken.value {
        kek := cache.KekFor(lock.params);
        var repaired := Seal(kek, liveToken.value);
        uploads := uploads + [(meta.id, Bundle(lock.params, repaired))];
        if meta.id !in replies.resealed {
          return true, tokens, uploads;
        }
        var _ := store.SaveVaultCredentialLock(meta.id, lock.(ownerTokenBlob := repaired, validated := true));
        tokens := tokens[meta.id := liveToken.value];
        continue;
      }
      tokens := tokens[meta.id := decryptedToken];
    }
    assert metas[index..] == [] && metas[..index] == metas;
  }

  lemma NoParams(metas: seq<VaultMeta>)
    ensures forall p :: !ParamsOf(metas[..0], p)
  {}

  lemma MatchingLocked(s: Store, emailHash: string, localId: VaultId)
    requires s.Valid()
    ensures forall m :: m in Matching(s, emailHash, localId) ==> m.ownerTokenLock.Some?
  {}

  method RestoreTokens(store: VaultStore, localId: VaultId, password: string, emailHash: string, replies: Replies)
    returns (ok: bool, uploads: Uploads, derived: seq<KdfParams>)
    requires store.Valid()
    modifies store
    ensures store.Valid()
    ensures Restore(old(store.State()), localId, password, emailHash, replies) == SignedIn(store.State(), ok, uploads)
    ensures Distinct(derived)
    ensures ok ==> forall p :: p in derived <==> ParamsOf(Matching(old(store.State()), emailHash, localId), p)
  {
    hide Store.Valid, Matching, OpenAll, ParamsOf, Store.UnlockVaultCredentials, Store.Unlockable;
    MatchingLocked(store.State(), emailHash, localId);
    var matching := Matching(store.State(), emailHash, localId);
    var cache := new KekCache(password);
    var threw, tokens;
    threw, tokens, uploads := OpenVaults(store, cache, matching, localId, replies);
    derived := cache.derived;
    if threw || localId !in tokens || tokens[localId] == "" {
      return false, uploads, derived;
    }
    ghost var looped := store.State();
    ok := store.UnlockVaultCredentials(tokens);
    UnlockRefused(looped, tokens);
  }

  lemma UnlockRefused(s: Store, tokens: map<VaultId, string>)
    ensures !s.Unlockable(tokens) ==> s.UnlockVaultCredentials(tokens) == s
  {}

  /** The whole unlock, refining its specification; no key is derived twice. */
  method UnlockTrustedDevice(store: VaultStore, localId: VaultId, password: string, replies: Replies)
    returns (ok: bool, uploads: Uploads, derived: seq<KdfParams>)
    requires store.Valid()
    modifies store
    ensures store.Valid()
    ensures Unlock(old(store.State()), localId, password, replies) == SignedIn(store.State(), ok, uploads)
    ensures Distinct(derived)
    ensures ok ==>
              var emailHash := HashEmailForLookup(old(store.State()).metas[localId].ownerAddress);
              var seeded := Seed(old(store.State()), emailHash, replies);
              forall p :: p in derived <==> ParamsOf(Matching(seeded, emailHash, localId), p)
  {
    hide Store.Valid, Seed, Restore, Matching, ParamsOf;
    if !Offered(store.State(), localId, password) {
      return false, [], [];
    }
    var emailHash := HashEmailForLookup(store.metas[localId].ownerAddress);
    SeedLocks(store, emailHash, replies);
    var activeLock := store.State().LockOf(localId);
    if activeLock.None? || activeLock.value.ownerEmailHash != emailHash {
      return false, [], [];
    }
    ok, uploads, derived := RestoreTokens(store, localId, password, emailHash, replies);
  }
}
