/** What a recovery link costs on a device that already holds some of its vaults. */
module Stranding {
  import opened Wrappers
  import opened Crypto
  import opened EmailText
  import opened VaultStores
  import opened Credentials
  import opened Recovery
  import opened CredentialRuns
  import Ordering

  /**
   * A link with several shares strands a vault: the blob of its share holds the placeholder, and the
   * share comes up, that is, no older one fails to open.
   */
  ghost predicate Strands(bundles: seq<Recovered>, password: string, id: VaultId) {
    && password != "" && |bundles| > 1
    && exists r :: r in bundles && r.id == id && Unsealed(r, password) == Some(PLACEHOLDER_OWNER_TOKEN)
         && forall x :: x in bundles && OlderShare(x, r) ==> Unsealed(x, password).Some?
  }

  /** The same, by the order in which the shares come up. */
  ghost predicate StrandsAt(rs: seq<Recovered>, password: string, id: VaultId, k: int) {
    && 0 <= k < |rs| && rs[k].id == id && Unsealed(rs[k], password) == Some(PLACEHOLDER_OWNER_TOKEN)
    && forall i :: 0 <= i < k ==> Unsealed(rs[i], password).Some?
  }

  lemma StrandsInOrder(bundles: seq<Recovered>, password: string, id: VaultId)
    requires DistinctVaults(bundles) && RealIds(bundles, password) && password != "" && |bundles| > 1
    ensures Strands(bundles, password, id)
       <==> exists k :: StrandsAt(Ordering.Sort(bundles, RecoveredKey), password, id, k)
  {
    hide Ordering.Sort, Ordering.Sorted, Unsealed, OlderShare;
    var rs := Ordering.Sort(bundles, RecoveredKey);
    SortedBundles(bundles, password);
    Ordering.SortMembers(bundles, RecoveredKey);
    Ordering.SortSorted(bundles, RecoveredKey);
    assert ByAge(rs) by {
      forall i, k | 0 <= i < |rs| && 0 <= k < |rs|
        ensures OlderShare(rs[i], rs[k]) <==> i < k
      {
        SortedIsOlder(rs, i, k);
      }
    }
    hide Strands, StrandsAt, ByAge;
    if Strands(bundles, password, id) {
      ComesUp(bundles, rs, password, id);
    }
    ComesUpInOrder(bundles, rs, password, id);
  }

  /** Sorted by age. */
  ghost predicate ByAge(rs: seq<Recovered>) {
    forall i, k :: 0 <= i < |rs| && 0 <= k < |rs| ==> (OlderShare(rs[i], rs[k]) <==> i < k)
  }

  lemma ComesUp(bundles: seq<Recovered>, rs: seq<Recovered>, password: string, id: VaultId)
    requires ByAge(rs) && (forall x :: x in rs <==> x in bundles) && Strands(bundles, password, id)
    ensures exists k :: StrandsAt(rs, password, id, k)
  {
    hide Unsealed, OlderShare;
    var r :| r in bundles && r.id == id && Unsealed(r, password) == Some(PLACEHOLDER_OWNER_TOKEN)
             && forall x :: x in bundles && OlderShare(x, r) ==> Unsealed(x, password).Some?;
    assert r in rs;
    var k :| 0 <= k < |rs| && rs[k] == r;
    assert forall i :: 0 <= i < k ==> rs[i] in rs && OlderShare(rs[i], r);
    assert StrandsAt(rs, password, id, k);
  }

  lemma ComesUpInOrder(bundles: seq<Recovered>, rs: seq<Recovered>, password: string, id: VaultId)
    requires ByAge(rs) && (forall x :: x in rs <==> x in bundles) && password != "" && |bundles| > 1
    ensures (exists k :: StrandsAt(rs, password, id, k)) ==> Strands(bundles, password, id)
  {
    hide Unsealed, OlderShare;
    if k :| StrandsAt(rs, password, id, k) {
      assert rs[k] in rs;
      forall x | x in bundles && OlderShare(x, rs[k])
        ensures Unsealed(x, password).Some?
      {
        assert x in rs;
        var i :| 0 <= i < |rs| && rs[i] == x;
      }
    }
  }

  /** How many of the oldest shares open. */
  function OpenPrefix(rs: seq<Recovered>, password: string): (k: nat)
    ensures k <= |rs| && (forall i :: 0 <= i < k ==> Unsealed(rs[i], password).Some?)
    ensures k < |rs| ==> Unsealed(rs[k], password).None?
  {
    if rs == [] || Unsealed(rs[0], password).None? then 0 else 1 + OpenPrefix(rs[1..], password)
  }

  lemma StoredShareCredential(t: Store, r: Recovered, password: string, email: string, groupId: string)
    requires ShareStored(t, r, password, email, groupId) && Unsealed(r, password) != Some("")
    ensures HasCredential(t, r.id) <==> IsReal(r, password)
  {}

  lemma SameVaultCredential(s: Store, t: Store, id: VaultId)
    requires SameVault(s, t, id)
    ensures HasCredential(t, id) <==> HasCredential(s, id)
  {}

  /** Finished or cut short, a group recovery has stored exactly the shares that opened before the first failure. */
  lemma GroupStored(s: Store, bundles: seq<Recovered>, password: string, email: string, groupId: string)
    requires DistinctVaults(bundles) && RealIds(bundles, password) && bundles != []
    ensures var rs := Ordering.Sort(bundles, RecoveredKey);
            var k := OpenPrefix(rs, password);
            var o := OpenGroup(s, bundles, password, email, groupId);
            && (o.ok <==> k == |rs|)
            && (forall x :: x in rs[..k] ==> ShareStored(o.store, x, password, email, groupId))
            && (forall id :: (forall x :: x in rs[..k] ==> x.id != id) ==> SameVault(s, o.store, id))
  {
    hide ShareStored, SameVault, Unsealed, OpenGroup;
    var rs := Ordering.Sort(bundles, RecoveredKey);
    var k := OpenPrefix(rs, password);
    Ordering.SortMembers(bundles, RecoveredKey);
    if k < |rs| {
      GroupCut(s, bundles, k, password, email, groupId);
    } else {
      assert rs[..k] == rs;
      AllOpenSucceeds(s, bundles, password, email, groupId);
      GroupRecovered(s, bundles, password, email, groupId);
    }
  }

  lemma AllOpenSucceeds(s: Store, bundles: seq<Recovered>, password: string, email: string, groupId: string)
    requires DistinctVaults(bundles) && RealIds(bundles, password) && bundles != []
    requires forall x :: x in Ordering.Sort(bundles, RecoveredKey) ==> Unsealed(x, password).Some?
    ensures OpenGroup(s, bundles, password, email, groupId).ok
  {
    hide Unsealed, ShareStored, SameVault;
    var rs := Ordering.Sort(bundles, RecoveredKey);
    Ordering.SortMembers(bundles, RecoveredKey);
    SortedBundles(bundles, password);
    AddSharesVault(Landing(s, None, None), rs, password, email, groupId, "");
    assert rs[0].id != "";
  }

  /**
   * Exactly what a recovery costs: whether it succeeds, fails or is cut short, a vault that had a
   * credential keeps one unless the link strands it.
   */
  lemma RecoveryLosesIff(s: Store, bundles: seq<Recovered>, password: string, email: string, groupId: string,
                         id: VaultId)
    requires DistinctVaults(bundles) && RealIds(bundles, password) && HasCredential(s, id)
    ensures HasCredential(Recover(s, bundles, password, email, groupId).store, id) <==> !Strands(bundles, password, id)
  {
    var t := Recover(s, bundles, password, email, groupId).store;
    hide OpenGroup, Unsealed, HasCredential, ShareStored, SameVault;
    if password == "" || bundles == [] {
    } else if |bundles| == 1 {
      var r := bundles[0];
      VaultRecovered(s, r, password, email);
      SingleKeeps(s, r, password, email, id);
    } else {
      StrandsInOrder(bundles, password, id);
      GroupLosesIff(s, bundles, password, email, groupId, id);
      hide Strands, StrandsAt;
    }
  }

  /** The same for the group recovery, by the order in which the shares come up. */
  lemma GroupLosesIff(s: Store, bundles: seq<Recovered>, password: string, email: string, groupId: string,
                      id: VaultId)
    requires DistinctVaults(bundles) && RealIds(bundles, password) && bundles != [] && HasCredential(s, id)
    ensures HasCredential(OpenGroup(s, bundles, password, email, groupId).store, id)
       <==> !exists k :: StrandsAt(Ordering.Sort(bundles, RecoveredKey), password, id, k)
  {
    hide OpenGroup, Unsealed, HasCredential, ShareStored, SameVault, Ordering.Sort;
    var t := OpenGroup(s, bundles, password, email, groupId).store;
    var rs := Ordering.Sort(bundles, RecoveredKey);
    var k := OpenPrefix(rs, password);
    SortedBundles(bundles, password);
    Ordering.SortMembers(bundles, RecoveredKey);
    GroupStored(s, bundles, password, email, groupId);
    if i :| 0 <= i < k && rs[i].id == id {
      assert rs[..k][i] == rs[i];
      StoredShareCredential(t, rs[i], password, email, groupId);
      RealOrPlaceholder(rs[i], password);
      if Unsealed(rs[i], password) == Some(PLACEHOLDER_OWNER_TOKEN) {
        assert StrandsAt(rs, password, id, i);
      }
    } else {
      assert forall x :: x in rs[..k] ==> x.id != id;
      SameVaultCredential(s, t, id);
    }
  }

  lemma RealOrPlaceholder(r: Recovered, password: string)
    ensures Unsealed(r, password).Some? ==>
              (IsReal(r, password) <==> Unsealed(r, password) != Some(PLACEHOLDER_OWNER_TOKEN))
  {}

  lemma SingleKeeps(s: Store, r: Recovered, password: string, email: string, id: VaultId)
    requires r.id != "" && Unsealed(r, password) != Some("") && HasCredential(s, id)
    ensures HasCredential(OpenVault(s, r, password, email).store, id)
  {
    VaultRecovered(s, r, password, email);
    if id != r.id {
      SameVaultCredential(s, OpenVault(s, r, password, email).store, id);
    }
    hide OpenVault;
  }

  /** After a successful recovery the device holds a credential for a share exactly when its blob held a real token. */
  lemma PlaceholderSharesAreStranded(s: Store, bundles: seq<Recovered>, password: string, email: string,
                                     groupId: string, r: Recovered)
    requires DistinctVaults(bundles) && RealIds(bundles, password) && r in bundles
    requires Recover(s, bundles, password, email, groupId).ok
    ensures HasCredential(Recover(s, bundles, password, email, groupId).store, r.id) <==> IsReal(r, password)
  {
    hide OpenGroup, Unsealed;
    if |bundles| == 1 {
      VaultRecovered(s, r, password, email);
    } else {
      GroupRecovered(s, bundles, password, email, groupId);
      var i :| 0 <= i < |bundles| && bundles[i] == r;
      StoredShareCredential(OpenGroup(s, bundles, password, email, groupId).store, r, password, email, groupId);
    }
  }

  // ----- a device it happens on -----

  const PARAMS := KdfParams("salt", 65536, 3)
  const KEK := Kek("pw", PARAMS)

  /** Two heirs set up in one go; for the first the reseal of the token never reached the server. */
  const FIRST_DRAFT := Draft("v1", "Ada", "o@x.org", "Ada", "2026", Some("g0"))
  const SECOND_DRAFT := Draft("v2", "Bob", "o@x.org", "Bob", "2027", Some("g0"))
  const FIRST_SETUP := PasswordSetup(FIRST_DRAFT, "tok1", "pw", PARAMS, false, false)
  const SECOND_SETUP := PasswordSetup(SECOND_DRAFT, "tok2", "pw", PARAMS, true, true)

  /** What the recovery link returns for them: the newest ciphertext the server has of each. */
  const FIRST_SHARE := Recovered("v1", "Ada", "Ada", "2026", "active",
                                 Bundle(PARAMS, Seal(KEK, PLACEHOLDER_OWNER_TOKEN)))
  const SECOND_SHARE := Recovered("v2", "Bob", "Bob", "2027", "active", Bundle(PARAMS, Seal(KEK, "tok2")))
  const LINK := [FIRST_SHARE, SECOND_SHARE]

  lemma LinkSorted()
    ensures Ordering.Sort(LINK, RecoveredKey) == LINK
  {
    assert LINK[1..] == [SECOND_SHARE] && [SECOND_SHARE][1..] == [];
    assert Ordering.Sort([SECOND_SHARE], RecoveredKey) == [SECOND_SHARE];
    assert Ordering.TextLeq("2026", "2027") by {
      assert "2026"[1..] == "026" && "2027"[1..] == "027";
      assert "026"[1..] == "26" && "027"[1..] == "27";
      assert "26"[1..] == "6" && "27"[1..] == "7";
      assert Ordering.TextLeq("6", "7");
    }
    assert Ordering.KeyLeq(RecoveredKey(FIRST_SHARE), RecoveredKey(SECOND_SHARE));
    assert Ordering.Insert(FIRST_SHARE, [SECOND_SHARE], RecoveredKey) == LINK;
  }

  /** One heir set up: the device holds the token, the server only the placeholder. */
  lemma OneHeirSetUp() returns (w: World)
    ensures EMPTY_WORLD.store.Valid() && Enabled(EMPTY_WORLD, FIRST_SETUP) && w == Step(EMPTY_WORLD, FIRST_SETUP)
    ensures WorldGood(w) && w.truths == map["v1" := Truth("tok1", "pw")]
    ensures w.uploaded == map["v1" := {FIRST_SHARE.bundle}]
    ensures w.store.OwnerToken("v1") == Some("tok1") && HasCredential(w.store, "v1")
  {
    EmptyWorldIsGood();
    w := SetUp(EMPTY_WORLD, FIRST_DRAFT, "tok1", "pw", PARAMS, false, false);
    SetupIsGood(EMPTY_WORLD, FIRST_DRAFT, "tok1", "pw", PARAMS, false, false);
    SetupStores(EMPTY_WORLD, FIRST_DRAFT, "tok1", "pw", PARAMS, false, false);
    SetupUploads(EMPTY_WORLD, FIRST_DRAFT, "tok1", "pw", PARAMS, false, false);
    SetupTruths(EMPTY_WORLD, FIRST_DRAFT, "tok1", "pw", PARAMS, false, false);
    hide WorldGood, SetUp, Store.OwnerToken;
  }

  lemma SecondHeirSetUp(a: World) returns (w: World)
    requires WorldGood(a) && a.truths == map["v1" := Truth("tok1", "pw")]
    requires a.uploaded == map["v1" := {FIRST_SHARE.bundle}]
    requires a.store.OwnerToken("v1") == Some("tok1") && HasCredential(a.store, "v1")
    ensures a.store.Valid() && Enabled(a, SECOND_SETUP) && w == Step(a, SECOND_SETUP)
    ensures WorldGood(w) && "v1" in w.truths && w.truths["v1"] == Truth("tok1", "pw")
    ensures "v1" in w.uploaded && w.uploaded["v1"] == {FIRST_SHARE.bundle}
    ensures "v2" in w.uploaded && SECOND_SHARE.bundle in w.uploaded["v2"]
    ensures w.store.OwnerToken("v1") == Some("tok1") && HasCredential(w.store, "v1")
  {
    w := SetUp(a, SECOND_DRAFT, "tok2", "pw", PARAMS, true, true);
    StoreIsValid(a);
    SetupIsGood(a, SECOND_DRAFT, "tok2", "pw", PARAMS, true, true);
    SetupStores(a, SECOND_DRAFT, "tok2", "pw", PARAMS, true, true);
    SetupUploads(a, SECOND_DRAFT, "tok2", "pw", PARAMS, true, true);
    SetupTruths(a, SECOND_DRAFT, "tok2", "pw", PARAMS, true, true);
    hide WorldGood, SetUp, HasCredential, StoreGood, Store.Valid;
    SameVaultCredential(a.store, w.store, "v1");
  }

  lemma LinkFacts(s: Store)
    requires HasCredential(s, "v1")
    ensures DistinctVaults(LINK) && RealIds(LINK, "pw") && FIRST_SHARE in LINK
    ensures !IsReal(FIRST_SHARE, "pw") && Unsealed(FIRST_SHARE, "pw") == Some(PLACEHOLDER_OWNER_TOKEN)
    ensures Unsealed(SECOND_SHARE, "pw") == Some("tok2")
  {}

  const LAND := Activate(Some("v1"))

  /** Recovering the link is its two shares and the landing, one after the other. */
  lemma LinkIsShares(s: Store)
    ensures Recover(s, LINK, "pw", "o@x.org", "g1")
         == Outcome(s.SaveVaultMeta(Share(FIRST_SHARE, "pw", "o@x.org", "g1"))
                     .SaveVaultMeta(Share(SECOND_SHARE, "pw", "o@x.org", "g1")).SetActive(Some("v1")), true)
  {
    LinkSorted();
    LinkUnsealed();
    hide Store.SaveVaultMeta, Share, Unsealed, Ordering.Sort;
    var l0 := Landing(s, None, None);
    var l1 := AddShare(l0, FIRST_SHARE, "pw", "o@x.org", "g1");
    var l2 := AddShare(l1, SECOND_SHARE, "pw", "o@x.org", "g1");
    assert LINK[1..] == [SECOND_SHARE] && [SECOND_SHARE][1..] == [];
    assert AddShares(l2, [], "pw", "o@x.org", "g1") == (l2, true);
    assert AddShares(l1, [SECOND_SHARE], "pw", "o@x.org", "g1") == (l2, true);
    assert AddShares(l0, LINK, "pw", "o@x.org", "g1") == (l2, true);
  }

  lemma LinkUnsealed()
    ensures Unsealed(FIRST_SHARE, "pw") == Some(PLACEHOLDER_OWNER_TOKEN) && Unsealed(SECOND_SHARE, "pw") == Some("tok2")
  {}

  /** One event put before a possible run. */
  lemma RunFrom(w: World, e: Event, es: seq<Event>)
    requires WorldGood(w) && Enabled(w, e) && !LateFinish(w, e)
    requires WorldGood(Step(w, e)) && Possible(Step(w, e), es)
    ensures Possible(w, [e] + es) && RunAll(w, [e] + es) == RunAll(Step(w, e), es)
  {
    hide WorldGood, Enabled, Step, LateFinish;
    assert ([e] + es)[0] == e && ([e] + es)[1..] == es;
  }

  lemma NoEvents(w: World)
    requires WorldGood(w)
    ensures Possible(w, []) && RunAll(w, []) == w
  {}

  function ShareEvent(i: nat): Event {
    RecoverShare(LINK, i, "pw", "o@x.org", "g1")
  }

  /** On a device whose server has both ciphertexts the shares of the link come up and are saved. */
  lemma ShareStep(w: World, i: nat)
    requires WorldGood(w) && i < 2
    requires WasUploaded(w, "v1", FIRST_SHARE.bundle) && WasUploaded(w, "v2", SECOND_SHARE.bundle)
    ensures w.store.Valid() && Enabled(w, ShareEvent(i)) && !LateFinish(w, ShareEvent(i))
    ensures WorldGood(Step(w, ShareEvent(i)))
    ensures Step(w, ShareEvent(i)).store == w.store.SaveVaultMeta(Share(LINK[i], "pw", "o@x.org", "g1"))
    ensures Step(w, ShareEvent(i)).uploaded == w.uploaded
  {
    StoreIsValid(w);
    LinkSorted();
    LinkUnsealed();
    hide WorldGood, Store.SaveVaultMeta, Share, Unsealed, Ordering.Sort, Store.Valid;
    assert LINK[0] == FIRST_SHARE && LINK[1] == SECOND_SHARE;
    assert DistinctVaults(LINK);
    assert ShareComesUp(w, LINK, i, "pw");
    RecoverShareIsGood(w, LINK, i, "pw", "o@x.org", "g1");
  }

  lemma LandStep(w: World, id: VaultId)
    requires WorldGood(w)
    ensures w.store.Valid() && Enabled(w, Activate(Some(id))) && !LateFinish(w, Activate(Some(id)))
    ensures WorldGood(Step(w, Activate(Some(id))))
    ensures Step(w, Activate(Some(id))) == w.(store := w.store.SetActive(Some(id)))
  {
    StoreIsValid(w);
    ActivateIsGood(w, Some(id));
    hide WorldGood, Store.Valid, Store.SetActive;
  }

  lemma FirstShareHasNoToken()
    ensures Open(Kek("pw", FIRST_SHARE.bundle.params), FIRST_SHARE.bundle.ownerTokenBlob) != Some("tok1")
  {}

  lemma SetupRun() returns (w: World)
    ensures WorldGood(EMPTY_WORLD) && Possible(EMPTY_WORLD, [FIRST_SETUP, SECOND_SETUP])
    ensures w == RunAll(EMPTY_WORLD, [FIRST_SETUP, SECOND_SETUP])
    ensures WorldGood(w) && "v1" in w.truths && w.truths["v1"] == Truth("tok1", "pw")
    ensures "v1" in w.uploaded && w.uploaded["v1"] == {FIRST_SHARE.bundle}
    ensures "v2" in w.uploaded && SECOND_SHARE.bundle in w.uploaded["v2"]
    ensures w.store.OwnerToken("v1") == Some("tok1") && HasCredential(w.store, "v1")
  {
    EmptyWorldIsGood();
    var a := OneHeirSetUp();
    w := SecondHeirSetUp(a);
    hide WorldGood, Step, Enabled, HasCredential, Store.OwnerToken;
    NoEvents(w);
    RunFrom(a, SECOND_SETUP, []);
    RunFrom(EMPTY_WORLD, FIRST_SETUP, [SECOND_SETUP]);
    assert [FIRST_SETUP] + [SECOND_SETUP] == [FIRST_SETUP, SECOND_SETUP] && [SECOND_SETUP] + [] == [SECOND_SETUP];
  }

  lemma RecoveryRun(w: World)
    requires WorldGood(w)
    requires WasUploaded(w, "v1", FIRST_SHARE.bundle) && WasUploaded(w, "v2", SECOND_SHARE.bundle)
    ensures Possible(w, [ShareEvent(0), ShareEvent(1), LAND])
    ensures var end := RunAll(w, [ShareEvent(0), ShareEvent(1), LAND]);
            && end.store == Recover(w.store, LINK, "pw", "o@x.org", "g1").store
            && end.uploaded == w.uploaded
  {
    hide WorldGood, Enabled, Recover, Step, Store.Valid, Store.SaveVaultMeta;
    ShareStep(w, 0);
    var c := Step(w, ShareEvent(0));
    ShareStep(c, 1);
    var d := Step(c, ShareEvent(1));
    LandStep(d, "v1");
    LinkIsShares(w.store);
    NoEvents(Step(d, LAND));
    RunFrom(d, LAND, []);
    RunFrom(c, ShareEvent(1), [LAND]);
    RunFrom(w, ShareEvent(0), [ShareEvent(1), LAND]);
    assert [LAND] + [] == [LAND] && [ShareEvent(1)] + [LAND] == [ShareEvent(1), LAND]
        && [ShareEvent(0)] + [ShareEvent(1), LAND] == [ShareEvent(0), ShareEvent(1), LAND];
  }

  /**
   * A possible run from an empty device on which a group recovery loses the only copy of a token.
   * Two heirs are set up, the first without its reseal; the device holds the first vault's token,
   * and all the server ever got for it is the placeholder. The owner then redeems a link for both
   * on that very device: afterwards nothing on it, and nothing uploaded, gives the token back.
   */
  lemma StrandedRun() returns (w: World, end: World)
    ensures WorldGood(EMPTY_WORLD) && Possible(EMPTY_WORLD, [FIRST_SETUP, SECOND_SETUP])
    ensures w == RunAll(EMPTY_WORLD, [FIRST_SETUP, SECOND_SETUP])
    ensures w.store.OwnerToken("v1") == Some("tok1") && HasCredential(w.store, "v1")
    ensures "v1" in w.truths && w.truths["v1"].token == "tok1"
    ensures WorldGood(w) && Possible(w, [ShareEvent(0), ShareEvent(1), LAND])
    ensures end == RunAll(w, [ShareEvent(0), ShareEvent(1), LAND])
    ensures end.store == Recover(w.store, LINK, "pw", "o@x.org", "g1").store
    ensures !HasCredential(end.store, "v1")
    ensures "v1" in end.uploaded
    ensures forall b :: b in end.uploaded["v1"] ==> Open(Kek("pw", b.params), b.ownerTokenBlob) != Some("tok1")
  {
    w := SetupRun();
    RecoveryRun(w);
    LinkFacts(w.store);
    LinkIsShares(w.store);
    PlaceholderSharesAreStranded(w.store, LINK, "pw", "o@x.org", "g1", FIRST_SHARE);
    FirstShareHasNoToken();
    hide WorldGood, Recover, HasCredential, Store.OwnerToken, IsReal, Unsealed, RunAll, Possible, Open, DistinctVaults,
      RealIds, Store.SaveVaultMeta;
    end := RunAll(w, [ShareEvent(0), ShareEvent(1), LAND]);
  }
}
