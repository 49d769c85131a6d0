/** A lock pass followed by an unlock, neither disturbed: which readable tokens come back. */
module LockAndUnlock {
  import opened Wrappers
  import opened Crypto
  import opened EmailText
  import opened VaultStores
  import opened Credentials
  import opened DeviceLock
  import opened SignIn

  /**
   * A lock pass followed by a successful unlock gives every readable token back, except those of
   * locked vaults sealed for another email or under another password; and no vault the unlock
   * opened keeps plaintext at rest.
   */
  lemma LockThenUnlock(s: Store, truths: Truths, lockReplies: Replies, localId: VaultId, password: string,
                       replies: Replies, emailHash: string, seeded: Store, id: VaultId)
    requires StoreGood(s, truths) && RepliesGood(lockReplies, truths) && RepliesGood(replies, truths)
    requires var locked := LockPass(s, lockReplies);
             && Offered(locked, localId, password)
             && SeededState(locked, localId, replies, emailHash, seeded)
             && Unlock(locked, localId, password, replies).ok
    ensures var t := Unlock(LockPass(s, lockReplies), localId, password, replies).store;
            && (s.OwnerToken(id).Some? ==>
                  (t.OwnerToken(id) == s.OwnerToken(id)
                   <==> !PassLocks(s, id) || OpenedBy(seeded, truths, id, emailHash, password)))
            && (OpenedBy(seeded, truths, id, emailHash, password) ==>
                  t.OwnerToken(id) == Some(truths[id].token) && id in t.metas && t.metas[id].ownerToken == None)
            && (PassLocks(s, id) ==> seeded.LockOf(id) == s.LockOf(id))
  {
    hide StoreGood, LockPass, Unlock, Seed, Store.Valid;
    StoreGoodValid(s, truths);
    var locked := LockPass(s, lockReplies);
    LockPassKeepsGood(s, truths, lockReplies);
    StoreGoodValid(locked, truths);
    LockPassVault(s, lockReplies, id);
    SeedVault(locked, emailHash, replies, id);
    UnlockOpensVault(locked, truths, localId, password, replies, emailHash, seeded, id);
    if s.OwnerToken(id).Some? {
      ReadableIsIssued(s, truths, id);
    }
    hide OpenedBy;
    PassKeepsToken(s, locked, id, lockReplies);
    SeedKeepsTokens(locked, emailHash, replies, id);
  }

  lemma StoreGoodValid(s: Store, truths: Truths)
    requires StoreGood(s, truths)
    ensures s.Valid()
  {}

  lemma PassKeepsToken(s: Store, r: Store, id: VaultId, replies: Replies)
    requires PassedVault(s, r, id, replies)
    ensures r.OwnerToken(id) == if PassLocks(s, id) then None else s.OwnerToken(id)
    ensures PassLocks(s, id) ==> r.LockOf(id) == s.LockOf(id) && r.LockOf(id).Some?
  {}

  /** Every vault on the device has a validated lock. */
  ghost predicate AllSealed(s: Store) {
    forall x :: x in s.metas ==> HasValidatedLock(s, x)
  }

  lemma {:induction false} NothingToSeed(s: Store, metas: seq<VaultMeta>, emailHash: string, replies: Replies)
    requires s.Valid() && forall m :: m in metas ==> m.ownerTokenLock.Some?
    ensures SeedAll(s, metas, emailHash, replies) == s
    decreases |metas|
  {
    if metas != [] {
      assert metas[0] in metas;
      NothingToSeed(s, metas[1..], emailHash, replies);
    }
  }

  lemma SealedIsSeeded(s: Store, emailHash: string, replies: Replies)
    requires s.Valid() && AllSealed(s)
    ensures Seed(s, emailHash, replies) == s
  {
    AllMetasMembers(s);
    forall m | m in s.AllVaultMetas()
      ensures m.ownerTokenLock.Some?
    {
      assert HasValidatedLock(s, m.id);
    }
    hide Store.Valid, Store.AllVaultMetas, SeedAll;
    NothingToSeed(s, s.AllVaultMetas(), emailHash, replies);
  }

  lemma SealedIsRepaired(s: Store, truths: Truths, emailHash: string, password: string, replies: Replies)
    requires StoreGood(s, truths) && AllSealed(s)
    ensures Repaired(s, truths, emailHash, password, replies)
  {
    forall x | OpenedBy(s, truths, x, emailHash, password)
      ensures !HoldsPlaceholder(s, x, password)
    {
      assert VaultGood(s, truths, x) && HasValidatedLock(s, x);
    }
    hide StoreGood, HoldsPlaceholder, OpenedBy;
  }

  /**
   * On a sound device on which every vault is sealed, the password of a vault that is sealed for its own
   * email opens it, whatever the server answers.
   */
  lemma RightPasswordOpens(s: Store, truths: Truths, id: VaultId, replies: Replies)
    requires StoreGood(s, truths) && RepliesGood(replies, truths) && AllSealed(s)
    requires id in s.metas && id != "" && s.metas[id].ownerAddress != "" && id in truths && truths[id].password != ""
    requires Matches(s, id, HashEmailForLookup(s.metas[id].ownerAddress))
    ensures var emailHash := HashEmailForLookup(s.metas[id].ownerAddress);
            && Offered(s, id, truths[id].password) && SeededState(s, id, replies, emailHash, s)
            && OpenedBy(s, truths, id, emailHash, truths[id].password)
            && Unlock(s, id, truths[id].password, replies).ok
  {
    var emailHash := HashEmailForLookup(s.metas[id].ownerAddress);
    StoreGoodValid(s, truths);
    SealedIsSeeded(s, emailHash, replies);
    SealedIsRepaired(s, truths, emailHash, truths[id].password, replies);
    hide StoreGood, Seed, Unlock, HashEmailForLookup, Store.Valid, RepliesGood, Repaired, KeepsCredentials, AllSealed;
    UnlockOutcome(s, truths, id, truths[id].password, replies, emailHash, s);
  }

  // ----- a device on which all this happens -----

  const PARAMS := KdfParams("salt", 65536, 3)
  const LOCK := LockedOwnerToken(PARAMS, Seal(Kek("pw", PARAMS), "tok"), HashEmailForLookup("o@x.org"), true)
  const SIGNED_IN := Store(
    map["v1" := VaultMeta("v1", "Ada", "o@x.org", "Ada", "2026", None, Some(LOCK), None)],
    ["v1"], map["v1" := "tok"], Some("v1"))
  const ISSUED: Truths := map["v1" := Truth("tok", "pw")]
  const SILENCE := Replies(map[], {})

  /**
   * An owner who is signed in, is locked out by a pass and signs in again while the server is silent
   * meets every premise of `SignIn.UnlockOpensVault` and of `LockThenUnlock`, and the pass does lock.
   */
  lemma OwnerComesBack() returns (locked: Store, emailHash: string, seeded: Store)
    ensures StoreGood(SIGNED_IN, ISSUED) && RepliesGood(SILENCE, ISSUED) && PassLocks(SIGNED_IN, "v1")
    ensures locked == LockPass(SIGNED_IN, SILENCE) && StoreGood(locked, ISSUED) && Offered(locked, "v1", "pw")
    ensures SeededState(locked, "v1", SILENCE, emailHash, seeded)
    ensures OpenedBy(seeded, ISSUED, "v1", emailHash, "pw")
    ensures Unlock(locked, "v1", "pw", SILENCE).ok
  {
    locked := LockedOut();
    seeded := locked;
    emailHash := HashEmailForLookup("o@x.org");
    RightPasswordOpens(locked, ISSUED, "v1", SILENCE);
    hide Store.Valid, StoreGood, LockPass, Unlock, HashEmailForLookup, OpenedBy, Offered, SeededState, PassLocks,
      SIGNED_IN, SILENCE;
  }

  /** The pass replaces the token by its lock. */
  lemma LockedOut() returns (locked: Store)
    ensures StoreGood(SIGNED_IN, ISSUED) && PassLocks(SIGNED_IN, "v1")
    ensures locked == LockPass(SIGNED_IN, SILENCE) && StoreGood(locked, ISSUED) && AllSealed(locked)
    ensures "v1" in locked.metas && locked.metas["v1"].ownerAddress == "o@x.org"
    ensures Matches(locked, "v1", HashEmailForLookup("o@x.org"))
  {
    SignedInIsGood();
    locked := LockPass(SIGNED_IN, SILENCE);
    LockPassKeepsGood(SIGNED_IN, ISSUED, SILENCE);
    forall x
      ensures x in locked.metas ==> x == "v1"
    {
      LockPassVault(SIGNED_IN, SILENCE, x);
    }
    LockPassVault(SIGNED_IN, SILENCE, "v1");
    hide Store.Valid, StoreGood, LockPass, LooksLikeEmail, HashEmailForLookup, Store.OwnerToken;
  }

  lemma SignedInIsGood()
    ensures StoreGood(SIGNED_IN, ISSUED) && SIGNED_IN.Valid() && PassLocks(SIGNED_IN, "v1")
  {
    PlainEmail();
    hide HashEmailForLookup, LooksLikeEmail;
  }
}
