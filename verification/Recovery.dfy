/** Recovering vaults on any device from a sign-in link: a single vault, or a whole heir group. */
module Recovery {
  import opened Wrappers
  import opened Crypto
  import opened EmailText
  import opened Ordering
  import opened VaultStores
  import opened Credentials

  /** One vault of a redeemed recovery link. */
  datatype Recovered = Recovered(
    id: VaultId, title: string, heirName: string, createdAt: string, status: string, bundle: Bundle)

  function RecoveredKey(r: Recovered): SortKey {
    SortKey(r.createdAt, r.id)
  }

  function Unsealed(r: Recovered, password: string): Option<string> {
    Open(Kek(password, r.bundle.params), r.bundle.ownerTokenBlob)
  }

  predicate IsReal(r: Recovered, password: string) {
    Unsealed(r, password).Some? && Unsealed(r, password).value != PLACEHOLDER_OWNER_TOKEN
  }

  /** The meta stored for a recovered vault; without a real token it carries neither token nor lock. */
  function RecoveredMeta(r: Recovered, email: string, token: Option<string>, groupId: Option<string>): VaultMeta {
    VaultMeta(r.id, r.title, email, r.heirName, r.createdAt, token,
              if Usable(token)
              then Some(OpenedLock(r, email))
              else None,
              groupId)
  }

  /** The lock of a vault whose blob has just been opened. */
  function OpenedLock(r: Recovered, email: string): LockedOwnerToken {
    LockedOwnerToken(r.bundle.params, r.bundle.ownerTokenBlob, HashEmailForLookup(email), true)
  }

  datatype Outcome = Outcome(store: Store, ok: bool)

  function OpenVault(s: Store, r: Recovered, password: string, email: string): Outcome {
    if !IsReal(r, password) then Outcome(s, false)
    else Outcome(s.SaveVaultMeta(RecoveredMeta(r, email, Unsealed(r, password), None)).SetActive(Some(r.id)), true)
  }

  /** Recovering the one vault of a link. */
  method RecoverVault(store: VaultStore, r: Recovered, password: string, email: string) returns (ok: bool)
    requires store.Valid()
    modifies store
    ensures store.Valid()
    ensures OpenVault(old(store.State()), r, password, email) == Outcome(store.State(), ok)
  {
    var ownerToken := Unsealed(r, password);
    if ownerToken.None? || ownerToken.value == PLACEHOLDER_OWNER_TOKEN {
      return false;
    }
    store.SaveVaultMeta(RecoveredMeta(r, email, ownerToken, None));
    SetActiveKeepsValid(store.State(), Some(r.id));
    store.SetActiveVaultId(Some(r.id));
    ok := true;
  }

  // ----- a whole group -----

  datatype Landing = Landing(store: Store, firstId: Option<VaultId>, firstLiveId: Option<VaultId>)

  function ShareToken(r: Recovered, password: string): Option<string> {
    if IsReal(r, password) then Unsealed(r, password) else None
  }

  function Share(r: Recovered, password: string, email: string, groupId: string): VaultMeta {
    RecoveredMeta(r, email, ShareToken(r, password), Some(groupId))
  }

  function AddShare(l: Landing, r: Recovered, password: string, email: string, groupId: string): Landing {
    Landing(l.store.SaveVaultMeta(Share(r, password, email, groupId)),
            if Usable(l.firstId) then l.firstId else Some(r.id),
            if !Usable(l.firstLiveId) && r.status != "claimed" then Some(r.id) else l.firstLiveId)
  }

  /** Shares are saved one by one; the first that does not open ends the recovery. */
  function AddShares(l: Landing, rs: seq<Recovered>, password: string, email: string, groupId: string): (Landing, bool)
    decreases |rs|
  {
    if rs == [] then (l, true)
    else if Unsealed(rs[0], password).None? then (l, false)
    else AddShares(AddShare(l, rs[0], password, email, groupId), rs[1..], password, email, groupId)
  }

  function OpenGroup(s: Store, bundles: seq<Recovered>, password: string, email: string, groupId: string): Outcome {
    var (l, allOpened) := AddShares(Landing(s, None, None), Sort(bundles, RecoveredKey), password, email, groupId);
    if !allOpened || !Usable(l.firstId) then Outcome(l.store, false)
    else Outcome(l.store.SetActive(if l.firstLiveId.Some? then l.firstLiveId else l.firstId), true)
  }

  /** The recovery loop of the page. */
  method RecoverGroup(store: VaultStore, bundles: seq<Recovered>, password: string, email: string, groupId: string)
    returns (ok: bool)
    requires store.Valid()
    modifies store
    ensures store.Valid()
    ensures OpenGroup(old(store.State()), bundles, password, email, groupId) == Outcome(store.State(), ok)
  {
    hide Store.Valid, Store.SaveVaultMeta, Sort;
    var firstId, firstLiveId: Option<VaultId> := None, None;
    var ordered := Sort(bundles, RecoveredKey);
    ghost var start := Landing(store.State(), None, None);
    var i := 0;
    assert ordered[0..] == ordered;
    while i < |ordered|
      invariant 0 <= i <= |ordered| && store.Valid()
      invariant AddShares(Landing(store.State(), firstId, firstLiveId), ordered[i..], password, email, groupId)
             == AddShares(start, ordered, password, email, groupId)
    {
      var v := ordered[i];
      assert ordered[i..][0] == v && ordered[i..][1..] == ordered[i + 1..];
      var unsealed := Unsealed(v, password);
      if unsealed.None? {
        return false;
      }
      var ownerToken := if unsealed.value == PLACEHOLDER_OWNER_TOKEN then None else unsealed;
      store.SaveVaultMeta(RecoveredMeta(v, email, ownerToken, Some(groupId)));
      if !Usable(firstId) {
        firstId := Some(v.id);
      }
      if !Usable(firstLiveId) && v.status != "claimed" {
        firstLiveId := Some(v.id);
      }
      i := i + 1;
    }
    if !Usable(firstId) {
      return false;
    }
    SetActiveKeepsValid(store.State(), if firstLiveId.Some? then firstLiveId else firstId);
    store.SetActiveVaultId(if firstLiveId.Some? then firstLiveId else firstId);
    ok := true;
  }

  // ----- one vault or several -----

  /** What a redeemed link does: nothing without a password or a vault, one vault by itself, more as a group. */
  function Recover(s: Store, bundles: seq<Recovered>, password: string, email: string, groupId: string): Outcome {
    if password == "" || bundles == [] then Outcome(s, false)
    else if |bundles| == 1 then OpenVault(s, bundles[0], password, email)
    else OpenGroup(s, bundles, password, email, groupId)
  }

  method RecoverLink(store: VaultStore, bundles: seq<Recovered>, password: string, email: string, groupId: string)
    returns (ok: bool)
    requires store.Valid()
    modifies store
    ensures store.Valid()
    ensures Recover(old(store.State()), bundles, password, email, groupId) == Outcome(store.State(), ok)
  {
    hide OpenGroup, OpenVault, Store.Valid;
    if password == "" {
      return false;
    }
    if |bundles| == 1 {
      ok := RecoverVault(store, bundles[0], password, email);
    } else if |bundles| > 1 {
      ok := RecoverGroup(store, bundles, password, email, groupId);
    } else {
      ok := false;
    }
  }

  /**
   * A single recovery succeeds exactly when the blob opens to a real token. Then the vault is
   * active and reads that token from the session, with only a validated lock at rest; otherwise
   * nothing at all has changed. No other vault changes either way.
   */
  lemma VaultRecovered(s: Store, r: Recovered, password: string, email: string)
    requires r.id != "" && Unsealed(r, password) != Some("")
    ensures var o := OpenVault(s, r, password, email);
            && (o.ok <==> Unsealed(r, password).Some?
                          && Unsealed(r, password) != Some("ghostkey-placeholder-owner-token-v1"))
            && (!o.ok ==> o.store == s)
            && (o.ok ==>
                  && r.id in o.store.metas
                  && o.store.metas[r.id]
                     == VaultMeta(r.id, r.title, email, r.heirName, r.createdAt, None,
                                  Some(LockedOwnerToken(r.bundle.params, r.bundle.ownerTokenBlob,
                                                        HashEmailForLookup(email), true)), None)
                  && o.store.OwnerToken(r.id) == Unsealed(r, password)
                  && o.store.active == Some(r.id))
            && (forall id :: id != r.id ==> SameVault(s, o.store, id))
  {
    if IsReal(r, password) {
      SavedStore(s, RecoveredMeta(r, email, Unsealed(r, password), None));
    }
    hide Store.SaveVaultMeta;
  }

  // ----- the order of the bundles does not matter -----

  ghost predicate DistinctVaults(rs: seq<Recovered>) {
    forall i, j :: 0 <= i < j < |rs| ==> rs[i].id != rs[j].id
  }

  /** Whatever order the server returned the bundles in, the recovery does the same. */
  lemma BundleOrderIsIrrelevant(s: Store, a: seq<Recovered>, b: seq<Recovered>,
                                password: string, email: string, groupId: string)
    requires multiset(a) == multiset(b) && DistinctVaults(a)
    ensures OpenGroup(s, a, password, email, groupId) == OpenGroup(s, b, password, email, groupId)
  {
    forall x, y | x in multiset(a) && y in multiset(a) && RecoveredKey(x) == RecoveredKey(y)
      ensures x == y
    {
      assert x in a && y in a;
    }
    SortForgetsOrder(a, b, RecoveredKey);
  }

  // ----- what a recovery leaves on the device -----

  /** The share as stored: its group, and its real token only in the session. */
  ghost predicate ShareStored(t: Store, r: Recovered, password: string, email: string, groupId: string) {
    && r.id in t.metas
    && t.metas[r.id]
       == VaultMeta(r.id, r.title, email, r.heirName, r.createdAt, None,
                    if IsReal(r, password) then Some(OpenedLock(r, email)) else None, Some(groupId))
    && (IsReal(r, password) ==> r.id in t.live && t.live[r.id] == Unsealed(r, password).value)
  }

  /** The first share nobody has claimed. */
  function FirstUnclaimed(rs: seq<Recovered>): Option<VaultId> {
    if rs == [] then None
    else if rs[0].status != "claimed" then Some(rs[0].id)
    else FirstUnclaimed(rs[1..])
  }

  /** Vault ids are never empty, and no vault's token is. */
  predicate RealIds(rs: seq<Recovered>, password: string) {
    forall i :: 0 <= i < |rs| ==> rs[i].id != "" && Unsealed(rs[i], password) != Some("")
  }

  lemma AddShareVault(l: Landing, r: Recovered, password: string, email: string, groupId: string, id: VaultId)
    requires r.id != "" && Unsealed(r, password).Some? && Unsealed(r, password) != Some("")
    ensures var next := AddShare(l, r, password, email, groupId).store;
            if id == r.id then ShareStored(next, r, password, email, groupId) else SameVault(l.store, next, id)
  {}

  lemma {:induction false} AddSharesVault(l: Landing, rs: seq<Recovered>, password: string, email: string,
                                          groupId: string, id: VaultId)
    requires DistinctVaults(rs) && RealIds(rs, password)
    ensures var (r, allOpened) := AddShares(l, rs, password, email, groupId);
            && (allOpened <==> forall x :: x in rs ==> Unsealed(x, password).Some?)
            && (allOpened ==>
                  && (forall x :: x in rs && x.id == id ==> ShareStored(r.store, x, password, email, groupId))
                  && ((forall x :: x in rs ==> x.id != id) ==> SameVault(l.store, r.store, id))
                  && r.firstId == (if Usable(l.firstId) || rs == [] then l.firstId else Some(rs[0].id))
                  && r.firstLiveId == (if Usable(l.firstLiveId) || FirstUnclaimed(rs).None? then l.firstLiveId
                                       else FirstUnclaimed(rs)))
    decreases |rs|
  {
    hide ShareStored, AddShare, Unsealed, SameVault;
    if rs != [] {
      assert rs == [rs[0]] + rs[1..];
      if Unsealed(rs[0], password).Some? {
        var next := AddShare(l, rs[0], password, email, groupId);
        AddShareFirsts(l, rs[0], password, email, groupId);
        AddShareVault(l, rs[0], password, email, groupId, id);
        AddSharesVault(next, rs[1..], password, email, groupId, id);
        var r := AddShares(next, rs[1..], password, email, groupId).0;
        SharesCompose(l.store, next.store, r.store, rs[0], password, email, groupId, id);
        FirstUnclaimedUsable(rs[1..], password);
      } else {
        assert rs[0] in rs;
      }
    } else {
      SameVaultRefl(l.store, id);
    }
  }

  lemma SameVaultRefl(s: Store, id: VaultId)
    ensures SameVault(s, s, id)
  {}

  lemma {:induction false} FirstUnclaimedUsable(rs: seq<Recovered>, password: string)
    requires RealIds(rs, password)
    ensures FirstUnclaimed(rs).Some? ==> Usable(FirstUnclaimed(rs))
  {
    if rs != [] {
      assert rs[0].id != "";
      FirstUnclaimedUsable(rs[1..], password);
    }
  }

  lemma AddShareFirsts(l: Landing, r: Recovered, password: string, email: string, groupId: string)
    ensures var next := AddShare(l, r, password, email, groupId);
            && next.firstId == (if Usable(l.firstId) then l.firstId else Some(r.id))
            && next.firstLiveId == (if !Usable(l.firstLiveId) && r.status != "claimed" then Some(r.id)
                                    else l.firstLiveId)
  {}

  lemma SharesCompose(s: Store, mid: Store, t: Store, x: Recovered, password: string, email: string,
                      groupId: string, id: VaultId)
    ensures SameVault(s, mid, id) && SameVault(mid, t, id) ==> SameVault(s, t, id)
    ensures id == x.id && ShareStored(mid, x, password, email, groupId) && SameVault(mid, t, id)
        ==> ShareStored(t, x, password, email, groupId)
  {}

  /** The oldest share nobody has claimed, or the oldest of all when every share is claimed. */
  ghost predicate OldestToLandOn(rs: seq<Recovered>, r: Recovered) {
    && r in rs
    && (r.status == "claimed" ==> forall x :: x in rs ==> x.status == "claimed")
    && forall x :: x in rs && x != r && (x.status == "claimed" ==> r.status == "claimed") ==> OlderShare(r, x)
  }

  /** Created before; on the same date the ids decide. */
  ghost predicate OlderShare(a: Recovered, b: Recovered) {
    Older(a.createdAt, a.id, b.createdAt, b.id)
  }

  lemma {:induction false} FirstUnclaimedIsOldest(rs: seq<Recovered>)
    requires Sorted(rs, RecoveredKey)
    ensures match FirstUnclaimed(rs)
            case None => forall x :: x in rs ==> x.status == "claimed"
            case Some(id) => exists r :: r in rs && r.id == id && r.status != "claimed"
                               && forall x :: x in rs && x.status != "claimed"
                                    ==> KeyLeq(RecoveredKey(r), RecoveredKey(x))
  {
    if rs != [] {
      assert rs == [rs[0]] + rs[1..];
      if rs[0].status == "claimed" {
        FirstUnclaimedIsOldest(rs[1..]);
        if FirstUnclaimed(rs).Some? {
          var r :| r in rs[1..] && r.id == FirstUnclaimed(rs).value && r.status != "claimed"
                   && forall x :: x in rs[1..] && x.status != "claimed" ==> KeyLeq(RecoveredKey(r), RecoveredKey(x));
          assert r in rs;
        }
      } else {
        KeyOrder(RecoveredKey(rs[0]), RecoveredKey(rs[0]));
        assert rs[0] in rs;
      }
    }
  }

  /**
   * A successful group recovery: every share is stored under the one group id, tokens appear
   * only where the blob held a real one and only in the session, all other vaults are untouched,
   * and the device lands on the oldest share not claimed, or on the oldest if all are claimed.
   */
  lemma GroupRecovered(s: Store, bundles: seq<Recovered>, password: string, email: string, groupId: string)
    requires DistinctVaults(bundles) && RealIds(bundles, password)
    requires OpenGroup(s, bundles, password, email, groupId).ok
    ensures var t := OpenGroup(s, bundles, password, email, groupId).store;
            && (forall x :: x in bundles ==> ShareStored(t, x, password, email, groupId))
            && (forall id :: (forall x :: x in bundles ==> x.id != id) ==> SameVault(s, t, id))
            && exists r :: OldestToLandOn(bundles, r) && t.active == Some(r.id)
  {
    hide ShareStored, SameVault, Sort, Sorted;
    var rs := Sort(bundles, RecoveredKey);
    SortMembers(bundles, RecoveredKey);
    SortSorted(bundles, RecoveredKey);
    SortedBundles(bundles, password);
    var (l, allOpened) := AddShares(Landing(s, None, None), rs, password, email, groupId);
    var t := OpenGroup(s, bundles, password, email, groupId).store;
    AddSharesVault(Landing(s, None, None), rs, password, email, groupId, "");
    ActiveIsNoVault(s, l.store, t, password, email, groupId);
    forall id | forall x :: x in bundles ==> x.id != id
      ensures SameVault(s, t, id)
    {
      AddSharesVault(Landing(s, None, None), rs, password, email, groupId, id);
    }
    forall x | x in bundles
      ensures ShareStored(t, x, password, email, groupId)
    {
      AddSharesVault(Landing(s, None, None), rs, password, email, groupId, x.id);
      assert x in rs;
    }
    var r := LandsOnLeast(rs);
    LeastIsOldest(rs, bundles, r);
    FirstUnclaimedUsable(rs, password);
  }

  lemma ActiveIsNoVault(s: Store, l: Store, t: Store, password: string, email: string, groupId: string)
    requires t == l.(active := t.active)
    ensures forall id :: SameVault(s, l, id) ==> SameVault(s, t, id)
    ensures forall x :: ShareStored(l, x, password, email, groupId) ==> ShareStored(t, x, password, email, groupId)
  {}

  lemma SortedBundles(bundles: seq<Recovered>, password: string)
    requires DistinctVaults(bundles) && RealIds(bundles, password)
    ensures DistinctVaults(Sort(bundles, RecoveredKey)) && RealIds(Sort(bundles, RecoveredKey), password)
  {
    SortMembers(bundles, RecoveredKey);
    SortDistinct(bundles, RecoveredKey);
    var rs := Sort(bundles, RecoveredKey);
    assert forall i :: 0 <= i < |rs| ==> rs[i] in bundles;
  }

  /** The share the sorted loop lands on, by key. */
  ghost predicate LeastToLandOn(rs: seq<Recovered>, r: Recovered) {
    && r in rs
    && (r.status == "claimed" ==> forall x :: x in rs ==> x.status == "claimed")
    && forall x :: x in rs && (x.status == "claimed" ==> r.status == "claimed")
         ==> KeyLeq(RecoveredKey(r), RecoveredKey(x))
  }

  lemma LandsOnLeast(rs: seq<Recovered>) returns (r: Recovered)
    requires rs != [] && Sorted(rs, RecoveredKey)
    ensures LeastToLandOn(rs, r)
    ensures r.id == if FirstUnclaimed(rs).Some? then FirstUnclaimed(rs).value else rs[0].id
  {
    FirstUnclaimedIsOldest(rs);
    hide KeyLeq;
    match FirstUnclaimed(rs)
    case Some(id) =>
      r :| r in rs && r.id == id && r.status != "claimed"
           && forall x :: x in rs && x.status != "claimed" ==> KeyLeq(RecoveredKey(r), RecoveredKey(x));
    case None =>
      KeyOrder(RecoveredKey(rs[0]), RecoveredKey(rs[0]));
      assert rs[0] in rs;
      r := rs[0];
  }

  lemma LeastIsOldest(rs: seq<Recovered>, bundles: seq<Recovered>, r: Recovered)
    requires LeastToLandOn(rs, r) && DistinctVaults(bundles) && (forall x :: x in rs <==> x in bundles)
    ensures OldestToLandOn(bundles, r)
  {
    hide Older, KeyLeq;
    forall x | x in bundles && x != r && (x.status == "claimed" ==> r.status == "claimed")
      ensures OlderShare(r, x)
    {
      KeyLeqIff(RecoveredKey(r), RecoveredKey(x));
    }
  }

  lemma {:induction false} SharesStop(l: Landing, rs: seq<Recovered>, k: nat, password: string, email: string,
                                      groupId: string)
    requires k < |rs| && Unsealed(rs[k], password).None?
    requires forall i :: 0 <= i < k ==> Unsealed(rs[i], password).Some?
    ensures AddShares(l, rs, password, email, groupId) == (AddShares(l, rs[..k], password, email, groupId).0, false)
    decreases |rs|
  {
    hide Unsealed, AddShare;
    if k > 0 {
      assert rs[..k][1..] == rs[1..][..k - 1];
      SharesStop(AddShare(l, rs[0], password, email, groupId), rs[1..], k - 1, password, email, groupId);
    }
  }

  /** A group recovery cut short at the `k`-th share in order. */
  lemma GroupCut(s: Store, bundles: seq<Recovered>, k: nat, password: string, email: string, groupId: string)
    requires DistinctVaults(bundles) && RealIds(bundles, password) && k < |bundles|
    requires var rs := Sort(bundles, RecoveredKey);
             && |rs| == |bundles| && Unsealed(rs[k], password).None?
             && forall i :: 0 <= i < k ==> Unsealed(rs[i], password).Some?
    ensures var rs := Sort(bundles, RecoveredKey);
            var o := OpenGroup(s, bundles, password, email, groupId);
            && !o.ok
            && (k == 0 ==> o.store == s)
            && (forall x :: x in rs[..k] ==> ShareStored(o.store, x, password, email, groupId))
            && (forall id :: (forall x :: x in rs[..k] ==> x.id != id) ==> SameVault(s, o.store, id))
  {
    hide ShareStored, SameVault, Sort, Unsealed, AddShare;
    var rs := Sort(bundles, RecoveredKey);
    SortedBundles(bundles, password);
    SharesStop(Landing(s, None, None), rs, k, password, email, groupId);
    forall x | x in rs[..k]
      ensures ShareStored(OpenGroup(s, bundles, password, email, groupId).store, x, password, email, groupId)
    {
      AddSharesVault(Landing(s, None, None), rs[..k], password, email, groupId, x.id);
    }
    forall id | forall x :: x in rs[..k] ==> x.id != id
      ensures SameVault(s, OpenGroup(s, bundles, password, email, groupId).store, id)
    {
      AddSharesVault(Landing(s, None, None), rs[..k], password, email, groupId, id);
    }
  }

  lemma SortedIsOlder(rs: seq<Recovered>, i: nat, k: nat)
    requires Sorted(rs, RecoveredKey) && DistinctVaults(rs) && i < |rs| && k < |rs|
    ensures OlderShare(rs[i], rs[k]) <==> i < k
  {
    KeyLeqIff(RecoveredKey(rs[i]), RecoveredKey(rs[k]));
    KeyLeqIff(RecoveredKey(rs[k]), RecoveredKey(rs[i]));
    hide Older, KeyLeq;
  }

  /** The shares before the `k`-th in order are those older than it. */
  lemma SortedPrefix(bundles: seq<Recovered>, k: nat, x: Recovered)
    requires var rs := Sort(bundles, RecoveredKey);
             Sorted(rs, RecoveredKey) && DistinctVaults(rs) && k < |rs| && x in rs
    ensures var rs := Sort(bundles, RecoveredKey);
            x in rs[..k] <==> OlderShare(x, rs[k])
  {
    hide Sort, Sorted, OlderShare;
    var rs := Sort(bundles, RecoveredKey);
    var i :| 0 <= i < |rs| && rs[i] == x;
    SortedIsOlder(rs, i, k);
    assert i < k ==> rs[..k][i] == x;
  }

  /**
   * A group recovery cut short by a share that does not open, while every older one does: exactly the
   * shares older than that one are stored, as in a finished recovery, and nothing else has changed. If
   * none is older, as under a wrong password, nothing is written.
   */
  lemma GroupStopped(s: Store, bundles: seq<Recovered>, f: Recovered, password: string, email: string, groupId: string)
    requires DistinctVaults(bundles) && RealIds(bundles, password) && f in bundles && Unsealed(f, password).None?
    requires forall x :: x in bundles && OlderShare(x, f) ==> Unsealed(x, password).Some?
    ensures var o := OpenGroup(s, bundles, password, email, groupId);
            && !o.ok
            && (forall x :: x in bundles && OlderShare(x, f) ==> ShareStored(o.store, x, password, email, groupId))
            && (forall id ::
                  (forall x :: x in bundles && OlderShare(x, f) ==> x.id != id) ==> SameVault(s, o.store, id))
            && ((forall x :: x in bundles ==> !OlderShare(x, f)) ==> o.store == s)
  {
    hide ShareStored, SameVault, Sort, Sorted, Unsealed, OlderShare, OpenGroup;
    var rs := Sort(bundles, RecoveredKey);
    SortedBundles(bundles, password);
    SortMembers(bundles, RecoveredKey);
    SortSorted(bundles, RecoveredKey);
    assert f in rs;
    var k :| 0 <= k < |rs| && rs[k] == f;
    forall x | x in bundles
      ensures x in rs[..k] <==> OlderShare(x, f)
    {
      SortedPrefix(bundles, k, x);
    }
    assert forall i :: 0 <= i < k ==> rs[i] in rs[..k] && rs[i] in bundles;
    GroupCut(s, bundles, k, password, email, groupId);
    if k > 0 {
      assert rs[0] in rs[..k];
      assert OlderShare(rs[0], f);
    }
  }
}
