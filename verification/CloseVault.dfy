/** Closing a whole vault: deleting every share on the server and forgetting it on the device. */
module CloseVault {
  import opened Wrappers
  import opened VaultStores

  /** How the server answered a delete; a share it no longer knows counts as deleted. */
  datatype Reply = Deleted | NotFound | Failed

  datatype Result = MissingCredential | Stopped(done: nat) | Emptied | Closed

  datatype Outcome = Outcome(store: Store, result: Result)

  /** The shares' answers, in the order they are asked. */
  type Answers = map<VaultId, Reply>

  predicate Gone(answers: Answers, id: VaultId) {
    id in answers && answers[id] != Failed
  }

  /** How many leading shares the server deleted or did not know. */
  function GonePrefix(shares: seq<VaultMeta>, answers: Answers): (k: nat)
    ensures k <= |shares|
    ensures forall i :: 0 <= i < k ==> shares[i].id in answers && answers[shares[i].id] in {Deleted, NotFound}
    ensures k < |shares| ==> shares[k].id !in answers || answers[shares[k].id] == Failed
  {
    if shares == [] || !Gone(answers, shares[0].id) then 0 else 1 + GonePrefix(shares[1..], answers)
  }

  function Ids(shares: seq<VaultMeta>): set<VaultId> {
    set m | m in shares :: m.id
  }

  ghost predicate AllUsable(s: Store, shares: seq<VaultMeta>) {
    forall i :: 0 <= i < |shares| ==> Usable(s.OwnerToken(shares[i].id))
  }

  /** The active id names a stored vault, and is null only when none is stored. */
  ghost predicate ActiveGood(s: Store) {
    && "" !in s.metas
    && (s.active.Some? ==> s.active.value in s.metas)
    && (s.active.None? ==> s.metas == map[])
  }

  /** Everything about the store but the active id and the key order, after forgetting some vaults. */
  ghost predicate Forgot(s: Store, t: Store, ids: set<VaultId>) {
    t.metas == s.metas - ids && t.live == s.live - ids
  }

  lemma RemoveActive(s: Store, id: VaultId)
    requires s.Valid()
    ensures Forgot(s, s.RemoveVaultMeta(id), {id})
    ensures ActiveGood(s) ==> ActiveGood(s.RemoveVaultMeta(id))
  {
    var t := s.RemoveVaultMeta(id);
    RemoveKeepsValid(s, id);
    if id in s.metas && s.active == Some(id) && t.order != [] {
      assert t.order[0] in t.order;
    }
    if t.order == [] {
      assert forall x :: x !in t.metas;
      assert t.metas == map[];
    }
  }

  lemma ForgotChain(s: Store, mid: Store, t: Store, a: set<VaultId>, b: set<VaultId>)
    requires Forgot(s, mid, a) && Forgot(mid, t, b)
    ensures Forgot(s, t, a + b)
  {}

  lemma IdsNext(shares: seq<VaultMeta>, i: nat)
    requires i < |shares|
    ensures Ids(shares[..i + 1]) == Ids(shares[..i]) + {shares[i].id}
  {}

  /** True when every share of the vault has a usable token on this device. */
  method Credentials(store: VaultStore, shares: seq<VaultMeta>) returns (complete: bool)
    ensures complete <==> AllUsable(store.State(), shares)
  {
    var i := 0;
    complete := true;
    while i < |shares|
      invariant 0 <= i <= |shares|
      invariant complete <==> forall j :: 0 <= j < i ==> Usable(store.State().OwnerToken(shares[j].id))
    {
      complete := complete && Usable(store.State().OwnerToken(shares[i].id));
      i := i + 1;
    }
  }

  /**
   * Closing removes nothing when a share lacks a token. Otherwise it forgets exactly the leading
   * shares the server deleted or did not know, and nothing else, and once everything is closed it
   * points at the oldest vault left. An active id that named a stored vault, or was null on an empty
   * device, does so afterwards.
   */
  method CloseShares(store: VaultStore, shares: seq<VaultMeta>, answers: Answers) returns (result: Result)
    requires store.Valid()
    modifies store
    ensures store.Valid()
    ensures ActiveGood(old(store.State())) ==> ActiveGood(store.State())
    ensures !AllUsable(old(store.State()), shares) ==>
              result == MissingCredential && store.State() == old(store.State())
    ensures AllUsable(old(store.State()), shares) ==>
              var k := GonePrefix(shares, answers);
              && Forgot(old(store.State()), store.State(), Ids(shares[..k]))
              && result == (if k < |shares| then Stopped(k) else if store.metas == map[] then Emptied else Closed)
              && (result == Closed ==>
                    store.State() == store.State().SetActive(Some(store.State().AllVaultMetas()[0].id)))
  {
    hide Store.Valid, Store.RemoveVaultMeta, ActiveGood, Forgot, Store.OwnerToken;
    var complete := Credentials(store, shares);
    if !complete {
      return MissingCredential;
    }
    var done := 0;
    ghost var start := store.State();
    ForgotNothing(start);
    assert shares[..0] == [];
    while done < |shares|
      invariant 0 <= done <= |shares|
      invariant store.Valid() && (ActiveGood(start) ==> ActiveGood(store.State()))
      invariant Forgot(start, store.State(), Ids(shares[..done]))
      invariant forall j :: 0 <= j < done ==> Gone(answers, shares[j].id)
    {
      if !Gone(answers, shares[done].id) {
        return Stopped(done);
      }
      ghost var before := store.State();
      RemoveActive(before, shares[done].id);
      IdsNext(shares, done);
      var _ := store.RemoveVaultMeta(shares[done].id);
      ForgotChain(start, before, store.State(), Ids(shares[..done]), {shares[done].id});
      done := done + 1;
    }
    assert shares[..done] == shares;
    var elsewhere := store.State().AllVaultMetas();
    NoMetasIff(store.State());
    if elsewhere == [] {
      return Emptied;
    }
    SetActiveTo(store.State(), elsewhere[0].id);
    SetActiveKeepsValid(store.State(), Some(elsewhere[0].id));
    store.SetActiveVaultId(Some(elsewhere[0].id));
    result := Closed;
  }

  lemma ForgotNothing(s: Store)
    ensures Forgot(s, s, Ids([]))
  {}

  lemma NoMetasIff(s: Store)
    requires s.Valid()
    ensures s.AllVaultMetas() == [] <==> s.metas == map[]
    ensures s.AllVaultMetas() != [] ==> s.AllVaultMetas()[0].id in s.metas
  {
    AllMetasMembers(s);
    assert forall id :: id in s.metas ==> s.metas[id] in s.AllVaultMetas();
    assert s.metas == map[] <==> forall id :: id !in s.metas;
    if s.AllVaultMetas() != [] {
      assert s.AllVaultMetas()[0] in s.AllVaultMetas();
    }
  }

  lemma SetActiveTo(s: Store, id: VaultId)
    requires id in s.metas
    ensures ActiveGood(s) ==> ActiveGood(s.SetActive(Some(id)))
    ensures s.SetActive(Some(id)).SetActive(Some(id)) == s.SetActive(Some(id))
    ensures s.SetActive(Some(id)).metas == s.metas && s.SetActive(Some(id)).live == s.live
    ensures forall start, ids :: Forgot(start, s, ids) ==> Forgot(start, s.SetActive(Some(id)), ids)
    ensures s.Valid() ==> s.SetActive(Some(id)).Valid() && s.SetActive(Some(id)).AllVaultMetas() == s.AllVaultMetas()
  {}
}
