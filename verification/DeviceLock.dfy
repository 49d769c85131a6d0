/** The inactivity lock: one pass over every vault on the device. */
module DeviceLock {
  import opened Wrappers
  import opened EmailText
  import opened VaultStores
  import opened Credentials

  /** What the pass does for one vault; a vault that is no password vault is left alone. */
  function LockOne(s: Store, meta: VaultMeta, replies: Replies): (r: Store)
    requires s.Valid()
    ensures r.Valid()
  {
    LocksKeepValidAll(s);
    if !Usable(s.OwnerToken(meta.id)) || !LooksLikeEmail(meta.ownerAddress) then s
    else if meta.ownerTokenLock.Some? then s.LockVaultCredential(meta.id, meta.ownerTokenLock.value)
    else if meta.id in replies.bundles then
      s.SaveVaultCredentialLock(meta.id,
        Candidate(replies.bundles[meta.id], HashEmailForLookup(meta.ownerAddress)))
    else s
  }

  lemma LocksKeepValidAll(s: Store)
    requires s.Valid()
    ensures forall id, lock :: s.SaveVaultCredentialLock(id, lock).Valid() && s.LockVaultCredential(id, lock).Valid()
  {
    forall id, lock
      ensures s.SaveVaultCredentialLock(id, lock).Valid() && s.LockVaultCredential(id, lock).Valid()
    {
      LocksKeepValid(s, id, lock);
    }
  }

  function LockAll(s: Store, metas: seq<VaultMeta>, replies: Replies): (r: Store)
    requires s.Valid()
    ensures r.Valid()
    decreases |metas|
  {
    if metas == [] then s else LockAll(LockOne(s, metas[0], replies), metas[1..], replies)
  }

  function LockPass(s: Store, replies: Replies): (r: Store)
    requires s.Valid()
    ensures r.Valid()
  {
    LockAll(s, s.AllVaultMetas(), replies)
  }

  /** The pass as the page runs it: a loop over the metas read before it started. */
  method LockDevice(store: VaultStore, replies: Replies)
    requires store.Valid()
    modifies store
    ensures store.Valid() && store.State() == LockPass(old(store.State()), replies)
  {
    hide Store.Valid, Store.AllVaultMetas, Store.SaveVaultCredentialLock, Store.LockVaultCredential;
    var metas := store.State().AllVaultMetas();
    var i := 0;
    while i < |metas|
      invariant 0 <= i <= |metas|
      invariant store.Valid()
      invariant LockAll(store.State(), metas[i..], replies) == LockPass(old(store.State()), replies)
    {
      var meta := metas[i];
      assert metas[i..][0] == meta && metas[i..][1..] == metas[i + 1..];
      var token := store.State().OwnerToken(meta.id);
      if Usable(token) && LooksLikeEmail(meta.ownerAddress) {
        if meta.ownerTokenLock.Some? {
          var _ := store.LockVaultCredential(meta.id, meta.ownerTokenLock.value);
        } else if meta.id in replies.bundles {
          var _ := store.SaveVaultCredentialLock(meta.id,
            Candidate(replies.bundles[meta.id], HashEmailForLookup(meta.ownerAddress)));
        }
      }
      i := i + 1;
    }
    assert metas[i..] == [];
  }

  // ----- what a pass does to each vault -----

  /** A vault the pass locks: a readable password vault whose lock is validated. */
  predicate PassLocks(s: Store, id: VaultId) {
    && id in s.metas
    && Usable(s.OwnerToken(id))
    && LooksLikeEmail(s.metas[id].ownerAddress)
    && HasValidatedLock(s, id)
  }

  /** A vault the pass caches a candidate lock for. */
  predicate PassSeeds(s: Store, id: VaultId, replies: Replies) {
    && id in s.metas
    && Usable(s.metas[id].ownerToken)
    && Usable(s.OwnerToken(id))
    && LooksLikeEmail(s.metas[id].ownerAddress)
    && s.metas[id].ownerTokenLock.None?
    && id in replies.bundles
  }

  /** The vault after the pass, told from the vault before it. */
  ghost predicate PassedVault(s: Store, r: Store, id: VaultId, replies: Replies) {
    if PassLocks(s, id) then
      id in r.metas && r.metas[id] == s.metas[id].(ownerToken := None) && id !in r.live
    else if PassSeeds(s, id, replies) then
      && id in r.metas
      && r.metas[id] == s.metas[id].(ownerTokenLock := Some(
           Candidate(replies.bundles[id], HashEmailForLookup(s.metas[id].ownerAddress))))
      && (id in r.live <==> id in s.live) && (id in s.live ==> r.live[id] == s.live[id])
    else SameVault(s, r, id)
  }

  lemma LockOneVault(s: Store, meta: VaultMeta, replies: Replies, id: VaultId)
    requires s.Valid() && meta.id in s.metas && s.metas[meta.id] == meta
    ensures if id == meta.id then PassedVault(s, LockOne(s, meta, replies), id, replies)
            else SameVault(s, LockOne(s, meta, replies), id)
  {
    if meta.ownerTokenLock.Some? {
      LockedStore(s, meta.id, meta.ownerTokenLock.value);
    } else if meta.id in replies.bundles {
      CachedStore(s, meta.id, Candidate(replies.bundles[meta.id], HashEmailForLookup(meta.ownerAddress)));
    }
    hide Store.Valid, Store.LockVaultCredential, Store.SaveVaultCredentialLock, LooksLikeEmail, HashEmailForLookup;
  }

  lemma {:induction false} LockAllVault(s: Store, metas: seq<VaultMeta>, replies: Replies, id: VaultId)
    requires s.Valid() && DistinctIds(metas)
    requires forall m :: m in metas ==> m.id in s.metas && s.metas[m.id] == m
    ensures if (exists m :: m in metas && m.id == id) then PassedVault(s, LockAll(s, metas, replies), id, replies)
            else SameVault(s, LockAll(s, metas, replies), id)
    decreases |metas|
  {
    hide Store.Valid, LockOne, PassedVault;
    if metas != [] {
      var next := LockOne(s, metas[0], replies);
      LockOneVault(s, metas[0], replies, id);
      forall m | m in metas[1..]
        ensures m.id in next.metas && next.metas[m.id] == m
      {
        LockOneVault(s, metas[0], replies, m.id);
      }
      LockAllVault(next, metas[1..], replies, id);
      PassedTransfers(s, next, LockAll(s, metas, replies), id, replies);
    }
  }

  lemma PassedTransfers(s: Store, mid: Store, r: Store, id: VaultId, replies: Replies)
    ensures SameVault(s, mid, id) && PassedVault(mid, r, id, replies) ==> PassedVault(s, r, id, replies)
    ensures PassedVault(s, mid, id, replies) && SameVault(mid, r, id) ==> PassedVault(s, r, id, replies)
  {}

  /** A pass locks exactly the readable password vaults with a validated lock, and seeds or skips the others. */
  lemma LockPassVault(s: Store, replies: Replies, id: VaultId)
    requires s.Valid()
    ensures PassedVault(s, LockPass(s, replies), id, replies)
  {
    AllMetasMembers(s);
    AllMetasDistinct(s);
    LockAllVault(s, s.AllVaultMetas(), replies, id);
    if id in s.metas {
      assert s.metas[id] in s.AllVaultMetas();
    }
  }

  /** A pass keeps the credentials sound and loses none, whatever the server answers. */
  lemma LockPassKeepsGood(s: Store, truths: Truths, replies: Replies)
    requires StoreGood(s, truths) && RepliesGood(replies, truths)
    ensures StoreGood(LockPass(s, replies), truths)
    ensures KeepsCredentials(s, LockPass(s, replies), {})
  {
    hide Store.Valid, TruthsGood, LockPass;
    var r := LockPass(s, replies);
    forall id
      ensures VaultGood(r, truths, id)
      ensures HasCredential(s, id) ==> HasCredential(r, id)
    {
      assert VaultGood(s, truths, id);
      LockPassVault(s, replies, id);
      PassedIsGood(s, r, truths, id, replies);
    }
  }

  lemma PassedIsGood(s: Store, r: Store, truths: Truths, id: VaultId, replies: Replies)
    requires VaultGood(s, truths, id) && RepliesGood(replies, truths) && PassedVault(s, r, id, replies)
    ensures VaultGood(r, truths, id)
    ensures HasCredential(s, id) ==> HasCredential(r, id)
  {}
}
