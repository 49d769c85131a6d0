/** Adding an heir to an existing vault: the group id is back-filled, then the new share is saved. */
module AddHeir {
  import opened Wrappers
  import opened VaultStores
  import opened Credentials
  import opened CredentialRuns

  /** Only an absent group id is replaced by the fresh one; an empty one is kept. */
  function GroupIdFor(groupId: Option<string>, minted: string): string {
    if groupId.Some? then groupId.value else minted
  }

  /**
   * The end of the add-heir form. `minted` is a fresh group id, used when the sibling is not in a
   * group yet; `meta` is the new share as set up.
   */
  method SaveHeir(store: VaultStore, sibling: VaultId, groupId: Option<string>, minted: string, meta: VaultMeta)
    requires store.Valid()
    modifies store
    ensures store.Valid()
    ensures store.State() == HeirSaved(old(store.State()), sibling, groupId, minted, meta)
  {
    hide Store.Valid, Store.SaveVaultMeta;
    var gid := GroupIdFor(groupId, minted);
    if !Usable(groupId) && sibling in store.metas {
      store.SaveVaultMeta(store.metas[sibling].(groupId := Some(gid)));
    }
    store.SaveVaultMeta(meta.(groupId := Some(gid)));
    SaveActivates(store.State(), meta.id);
    store.SetActiveVaultId(Some(meta.id));
  }

  lemma SaveActivates(s: Store, id: VaultId)
    ensures s.Valid() ==> s.SetActive(Some(id)).Valid()
  {}

  function HeirSaved(s: Store, sibling: VaultId, groupId: Option<string>, minted: string, meta: VaultMeta): Store {
    var gid := GroupIdFor(groupId, minted);
    var filled := if Usable(groupId) then s else BackFilled(s, sibling, gid);
    filled.SaveVaultMeta(meta.(groupId := Some(gid))).SetActive(Some(meta.id))
  }

  /** A back-fill may move a token at rest into the session, but the vault reads the same token. */
  lemma BackFillKeepsTokens(s: Store, truths: Truths, sibling: VaultId, groupId: string)
    requires StoreGood(s, truths) && sibling in s.metas
    ensures var r := BackFilled(s, sibling, groupId);
            && sibling in r.metas
            && r.metas[sibling].(ownerToken := None) == s.metas[sibling].(ownerToken := None, groupId := Some(groupId))
            && r.OwnerToken(sibling) == s.OwnerToken(sibling)
            && forall id :: id != sibling ==> SameVault(s, r, id)
  {
    assert VaultGood(s, truths, sibling);
    assert s.metas[sibling].id == sibling;
    SavedStore(s, s.metas[sibling].(groupId := Some(groupId)));
    hide StoreGood, Store.SaveVaultMeta, LockGood;
  }

  /** Saving a share of a vault without a session token, and landing on it. */
  lemma NewShareSaved(s: Store, meta: VaultMeta)
    requires meta.id !in s.live && meta.id != "" && Usable(meta.ownerToken)
    ensures var r := s.SaveVaultMeta(meta).SetActive(Some(meta.id));
            && meta.id in r.metas && r.metas[meta.id].(ownerToken := None) == meta.(ownerToken := None)
            && r.active == Some(meta.id) && r.OwnerToken(meta.id) == meta.ownerToken
            && forall id :: id != meta.id ==> SameVault(s, r, id)
  {}

  lemma SameReads(s: Store, t: Store, id: VaultId)
    requires SameVault(s, t, id)
    ensures s.OwnerToken(id) == t.OwnerToken(id)
    ensures id in s.metas ==> id in t.metas && t.metas[id] == s.metas[id]
  {}

  lemma SameVaultChains(s: Store, filled: Store, t: Store, id: VaultId)
    requires filled == s || SameVault(s, filled, id)
    requires SameVault(filled, t, id)
    ensures SameVault(s, t, id)
  {}

  /**
   * Afterwards both shares carry one group id, the old one if there was any, and are otherwise as they
   * were; the device lands on the new one, the new share's token is readable, and the back-fill moved
   * but did not change the sibling's.
   */
  lemma SharesOneGroup(s: Store, truths: Truths, sibling: VaultId, groupId: Option<string>, minted: string,
                       meta: VaultMeta)
    requires StoreGood(s, truths) && sibling in s.metas && sibling != meta.id && meta.id != "" && meta.id !in s.live
    requires Usable(meta.ownerToken)
    requires Usable(groupId) ==> s.metas[sibling].groupId == groupId
    ensures var t := HeirSaved(s, sibling, groupId, minted, meta);
            && sibling in t.metas && meta.id in t.metas
            && (var gid := Some(if groupId.Some? then groupId.value else minted);
                && t.metas[sibling].(ownerToken := None) == s.metas[sibling].(ownerToken := None, groupId := gid)
                && t.metas[meta.id].(ownerToken := None) == meta.(ownerToken := None, groupId := gid))
            && t.active == Some(meta.id)
            && t.OwnerToken(meta.id) == meta.ownerToken
            && t.OwnerToken(sibling) == s.OwnerToken(sibling)
            && forall id :: id != sibling && id != meta.id ==> SameVault(s, t, id)
  {
    var gid := GroupIdFor(groupId, minted);
    var filled := if Usable(groupId) then s else BackFilled(s, sibling, gid);
    BackFillKeepsTokens(s, truths, sibling, gid);
    hide StoreGood, BackFilled, Store.SaveVaultMeta;
    assert meta.id !in filled.live by {
      assert filled == s || SameVault(s, filled, meta.id);
    }
    NewShareSaved(filled, meta.(groupId := Some(gid)));
    hide SameVault, Store.SetActive, Store.OwnerToken;
    var t := HeirSaved(s, sibling, groupId, minted, meta);
    assert SameVault(filled, t, sibling);
    SameReads(filled, t, sibling);
    forall id | id != sibling && id != meta.id
      ensures SameVault(s, t, id)
    {
      assert SameVault(filled, t, id);
      SameVaultChains(s, filled, t, id);
    }
  }
}
