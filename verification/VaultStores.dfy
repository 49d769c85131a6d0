/**
 * The vault metadata a device keeps: metas in local storage, live owner tokens in session
 * storage, and the id of the active vault.
 */
module VaultStores {
  import opened Wrappers
  import opened Crypto
  import opened EmailText
  import opened Ordering

  type VaultId = string

  /** The password-encrypted form of an owner token, with what is needed to derive its key. */
  datatype LockedOwnerToken = LockedOwnerToken(
    params: KdfParams, ownerTokenBlob: Blob, ownerEmailHash: string, validated: bool)

  datatype VaultMeta = VaultMeta(
    id: VaultId, title: string, ownerAddress: string, heirName: string, createdAt: string,
    ownerToken: Option<string>, ownerTokenLock: Option<LockedOwnerToken>, groupId: Option<string>)

  /** Present and not the empty string. */
  predicate Usable(token: Option<string>) {
    token.Some? && token.value != ""
  }

  predicate NoRepeats(s: seq<VaultId>) {
    forall i, j :: 0 <= i < j < |s| ==> s[i] != s[j]
  }

  function MetaKey(m: VaultMeta): SortKey {
    SortKey(m.createdAt, m.id)
  }

  function WithoutId(s: seq<VaultId>, id: VaultId): (r: seq<VaultId>)
    ensures forall x :: x in r <==> x in s && x != id
    ensures NoRepeats(s) ==> NoRepeats(r)
  {
    if s == [] then []
    else
      var r := WithoutId(s[1..], id);
      assert s == [s[0]] + s[1..];
      assert forall k :: 0 <= k < |r| ==> r[k] in r;
      if s[0] == id then r else [s[0]] + r
  }

  /** A meta after its token was decrypted: only the lock stays at rest, now validated. */
  function Validated(meta: VaultMeta): VaultMeta
    requires meta.ownerTokenLock.Some?
  {
    meta.(ownerToken := None, ownerTokenLock := Some(meta.ownerTokenLock.value.(validated := true)))
  }

  // ----- the stored values -----

  /** `order` is the insertion order of the stored object's keys. */
  datatype Store = Store(
    metas: map<VaultId, VaultMeta>, order: seq<VaultId>, live: map<VaultId, string>, active: Option<VaultId>) {

    ghost predicate Valid() {
      && NoRepeats(order)
      && (forall id :: id in order <==> id in metas)
      && (forall id :: id in metas ==> metas[id].id == id)
      && live.Keys <= metas.Keys
    }

    function Entries(): (s: seq<VaultMeta>)
      requires Valid()
      ensures forall m :: m in s <==> m.id in metas && metas[m.id] == m
    {
      var s := seq(|order|, i requires 0 <= i < |order| => metas[order[i]]);
      assert forall m: VaultMeta :: m.id in metas && metas[m.id] == m ==>
               exists i :: 0 <= i < |order| && order[i] == m.id && s[i] == m;
      s
    }

    /** Every vault on the device, oldest first. */
    function AllVaultMetas(): seq<VaultMeta>
      requires Valid()
    {
      Sort(Entries(), MetaKey)
    }

    function OwnerToken(id: VaultId): Option<string> {
      if id in live then Some(live[id])
      else if id in metas then metas[id].ownerToken
      else None
    }

    function LockOf(id: VaultId): Option<LockedOwnerToken> {
      if id in metas then metas[id].ownerTokenLock else None
    }

    predicate CanLocalUnlock(id: VaultId) {
      && id != ""
      && id in metas
      && (metas[id].ownerTokenLock.Some? || (OwnerToken(id).Some? && LooksLikeEmail(metas[id].ownerAddress)))
    }

    function Put(meta: VaultMeta): Store {
      this.(metas := metas[meta.id := meta],
            order := if meta.id in metas then order else order + [meta.id])
    }

    function SetActive(id: Option<VaultId>): Store {
      this.(active := if Usable(id) then id else None)
    }

    function SaveVaultMeta(meta: VaultMeta): Store {
      var put :=
        if Usable(meta.ownerToken) && meta.ownerTokenLock.Some? && meta.ownerTokenLock.value.validated
        then Put(meta.(ownerToken := None)).(live := live[meta.id := meta.ownerToken.value])
        else Put(meta);
      put.SetActive(Some(meta.id))
    }

    function SaveVaultCredentialLock(id: VaultId, lock: LockedOwnerToken): Store {
      if id in metas && Usable(metas[id].ownerToken)
      then this.(metas := metas[id := metas[id].(ownerTokenLock := Some(lock))])
      else this
    }

    predicate Lockable(id: VaultId, lock: LockedOwnerToken) {
      Usable(OwnerToken(id)) && lock.validated
    }

    function LockVaultCredential(id: VaultId, lock: LockedOwnerToken): Store
      requires Valid()
    {
      if Lockable(id, lock)
      then this.(metas := metas[id := metas[id].(ownerToken := None, ownerTokenLock := Some(lock))],
                 live := live - {id})
      else this
    }

    predicate Unlockable(tokens: map<VaultId, string>) {
      forall id :: id in tokens ==> LockOf(id).Some? && tokens[id] != ""
    }

    function UnlockedMetas(tokens: map<VaultId, string>): map<VaultId, VaultMeta>
      requires Unlockable(tokens)
    {
      map id | id in metas :: if id in tokens then Validated(metas[id]) else metas[id]
    }

    function UnlockVaultCredentials(tokens: map<VaultId, string>): Store {
      if Unlockable(tokens)
      then this.(metas := UnlockedMetas(tokens),
                 live := live + tokens)
      else this
    }

    function RemoveVaultMeta(id: VaultId): Store
      requires Valid()
    {
      if id !in metas then this
      else
        var rest := this.(metas := metas - {id}, order := WithoutId(order, id), live := live - {id});
        if active == Some(id)
        then rest.SetActive(if rest.order == [] then None else Some(rest.order[0]))
        else rest
    }

    /** Closing the tab drops session storage. */
    function CloseTab(): Store {
      this.(live := map[])
    }

    function FirstUnlockable(metas: seq<VaultMeta>): Option<VaultId> {
      if metas == [] then None
      else if CanLocalUnlock(metas[0].id) then Some(metas[0].id)
      else FirstUnlockable(metas[1..])
    }

    /** The vault this device should offer to unlock, preferring the active one. */
    function TrustedVaultId(): Option<VaultId>
      requires Valid()
    {
      if active.Some? && CanLocalUnlock(active.value) then active else FirstUnlockable(AllVaultMetas())
    }
  }

  const EMPTY_STORE := Store(map[], [], map[], None)

  // ----- what the operations keep -----

  lemma AllMetasMembers(s: Store)
    requires s.Valid()
    ensures forall m :: m in s.AllVaultMetas() <==> m.id in s.metas && s.metas[m.id] == m
    ensures Sorted(s.AllVaultMetas(), MetaKey)
  {
    SortMembers(s.Entries(), MetaKey);
    SortSorted(s.Entries(), MetaKey);
  }

  ghost predicate DistinctIds(metas: seq<VaultMeta>) {
    forall i, j :: 0 <= i < j < |metas| ==> metas[i].id != metas[j].id
  }

  lemma AllMetasDistinct(s: Store)
    requires s.Valid()
    ensures DistinctIds(s.AllVaultMetas())
  {
    AllMetasMembers(s);
    SortDistinct(s.Entries(), MetaKey);
    var all := s.AllVaultMetas();
    assert forall i :: 0 <= i < |all| ==> all[i] in all;
  }

  /** Every stored vault is listed exactly once, and none before an older one: creation dates decide, then ids. */
  lemma AllMetasOldestFirst(s: Store)
    requires s.Valid()
    ensures var all := s.AllVaultMetas();
            && (forall id :: id in s.metas <==> exists i :: 0 <= i < |all| && all[i].id == id)
            && (forall i :: 0 <= i < |all| ==> all[i].id in s.metas && s.metas[all[i].id] == all[i])
            && (forall i, j :: 0 <= i < j < |all| ==>
                  all[i].id != all[j].id && Older(all[i].createdAt, all[i].id, all[j].createdAt, all[j].id))
  {
    AllMetasMembers(s);
    AllMetasDistinct(s);
    hide Store.AllVaultMetas, Older;
    var all := s.AllVaultMetas();
    forall id | id in s.metas
      ensures exists i :: 0 <= i < |all| && all[i].id == id
    {
      assert s.metas[id] in all;
    }
    forall i, j | 0 <= i < j < |all|
      ensures Older(all[i].createdAt, all[i].id, all[j].createdAt, all[j].id)
    {
      KeyLeqIff(MetaKey(all[i]), MetaKey(all[j]));
    }
  }

  /** Nothing about one vault differs between two states of the store. */
  ghost predicate SameVault(s: Store, t: Store, id: VaultId) {
    && (id in s.metas <==> id in t.metas) && (id in s.metas ==> s.metas[id] == t.metas[id])
    && (id in s.live <==> id in t.live) && (id in s.live ==> s.live[id] == t.live[id])
  }

  lemma SaveKeepsValid(s: Store, meta: VaultMeta)
    requires s.Valid()
    ensures s.SaveVaultMeta(meta).Valid()
  {}

  lemma SetActiveKeepsValid(s: Store, id: Option<VaultId>)
    requires s.Valid()
    ensures s.SetActive(id).Valid()
  {}

  lemma RemoveKeepsValid(s: Store, id: VaultId)
    requires s.Valid()
    ensures s.RemoveVaultMeta(id).Valid()
  {}

  /** An id that is listed once is taken out, and the order of the others stays. */
  lemma {:induction false} WithoutOne(s: seq<VaultId>, id: VaultId) returns (k: nat)
    requires NoRepeats(s) && id in s
    ensures k < |s| && s[k] == id && WithoutId(s, id) == s[..k] + s[k + 1..]
  {
    assert s == [s[0]] + s[1..];
    if s[0] == id {
      k := 0;
      WithoutNone(s[1..], id);
    } else {
      var j := WithoutOne(s[1..], id);
      k := j + 1;
      assert s[..k] == [s[0]] + s[1..][..j] && s[k + 1..] == s[1..][j + 1..];
    }
  }

  lemma {:induction false} WithoutNone(s: seq<VaultId>, id: VaultId)
    requires id !in s
    ensures WithoutId(s, id) == s
  {
    if s != [] {
      WithoutNone(s[1..], id);
      assert s == [s[0]] + s[1..];
    }
  }

  /**
   * Removing a vault forgets it and nothing else. Only if it was the active one does the active id
   * move: to the vault stored first among those left, or to none when none is left.
   */
  lemma RemoveHandsOn(s: Store, id: VaultId)
    requires s.Valid() && id in s.metas && "" !in s.metas
    ensures var t := s.RemoveVaultMeta(id);
            && t.metas == s.metas - {id} && t.live == s.live - {id}
            && (exists k :: 0 <= k < |s.order| && s.order[k] == id && t.order == s.order[..k] + s.order[k + 1..])
            && (s.active != Some(id) ==> t.active == s.active)
            && (s.active == Some(id) ==>
                  if |s.order| == 1 then t.active == None
                  else t.active == Some(if s.order[0] == id then s.order[1] else s.order[0]))
  {
    var k := WithoutOne(s.order, id);
    hide WithoutId;
    if |s.order| > 1 {
      assert s.order[1] in s.order && s.order[0] in s.order && s.order[0] != s.order[1];
    }
  }

  lemma LocksKeepValid(s: Store, id: VaultId, lock: LockedOwnerToken)
    requires s.Valid()
    ensures s.SaveVaultCredentialLock(id, lock).Valid()
    ensures s.LockVaultCredential(id, lock).Valid()
  {}

  lemma UnlockKeepsValid(s: Store, tokens: map<VaultId, string>)
    requires s.Valid()
    ensures s.UnlockVaultCredentials(tokens).Valid()
  {}

  lemma {:induction false} FirstUnlockableFinds(s: Store, metas: seq<VaultMeta>)
    requires Sorted(metas, MetaKey)
    ensures match s.FirstUnlockable(metas)
            case None => forall m :: m in metas ==> !s.CanLocalUnlock(m.id)
            case Some(id) =>
              && s.CanLocalUnlock(id)
              && exists first :: first in metas && first.id == id
                   && forall m :: m in metas && s.CanLocalUnlock(m.id) ==> KeyLeq(MetaKey(first), MetaKey(m))
  {
    hide Store.CanLocalUnlock;
    if metas != [] {
      assert metas == [metas[0]] + metas[1..];
      FirstUnlockableFinds(s, metas[1..]);
      if s.CanLocalUnlock(metas[0].id) {
        KeyOrder(MetaKey(metas[0]), MetaKey(metas[0]));
        assert metas[0] in metas;
      } else if s.FirstUnlockable(metas[1..]).Some? {
        var first :| first in metas[1..] && first.id == s.FirstUnlockable(metas[1..]).value
                     && forall m :: m in metas[1..] && s.CanLocalUnlock(m.id) ==> KeyLeq(MetaKey(first), MetaKey(m));
        assert first in metas;
      }
    }
  }

  /**
   * Sign-in treats a device as new exactly when it holds no credential it could unlock. Otherwise
   * it offers the active vault if that can be unlocked, and else the oldest that can.
   */
  lemma TrustedIffSomeCredential(s: Store)
    requires s.Valid()
    ensures s.TrustedVaultId().Some? <==> exists id :: s.CanLocalUnlock(id)
    ensures s.TrustedVaultId().Some? ==>
              var id := s.TrustedVaultId().value;
              && s.CanLocalUnlock(id)
              && (s.active.Some? && s.CanLocalUnlock(s.active.value) ==> Some(id) == s.active)
              && (s.active != Some(id) ==>
                    forall x :: s.CanLocalUnlock(x) ==>
                      x == id || Older(s.metas[id].createdAt, id, s.metas[x].createdAt, x))
  {
    hide Store.AllVaultMetas, Sorted, Older;
    AllMetasMembers(s);
    FirstUnlockableFinds(s, s.AllVaultMetas());
    forall id | s.CanLocalUnlock(id)
      ensures s.TrustedVaultId().Some? && s.metas[id] in s.AllVaultMetas() && s.metas[id].id == id
    {
      assert s.metas[id] in s.AllVaultMetas();
    }
    if s.TrustedVaultId().Some? && s.active != s.TrustedVaultId() {
      var first := s.metas[s.TrustedVaultId().value];
      forall x | s.CanLocalUnlock(x)
        ensures x == first.id || Older(first.createdAt, first.id, s.metas[x].createdAt, x)
      {
        KeyLeqIff(MetaKey(first), MetaKey(s.metas[x]));
      }
    }
  }

  /** When a vault can be offered, told from what is stored; `core` is the owner's address without blanks around it. */
  lemma CanLocalUnlockIff(s: Store, id: VaultId, core: string)
    requires id in s.metas && IsCore(s.metas[id].ownerAddress, core)
    ensures s.CanLocalUnlock(id)
       <==> && id != ""
            && (|| s.metas[id].ownerTokenLock.Some?
                || ((id in s.live || s.metas[id].ownerToken.Some?)
                    && exists name, host, domain :: EmailPart(name) && EmailPart(host) && EmailPart(domain)
                         && core == name + "@" + host + "." + domain))
  {
    LooksLikeEmailIff(s.metas[id].ownerAddress, core);
    hide LooksLikeEmail, EmailPart, IsCore;
  }

  // ----- the storage module -----

  /** The storage both kinds of page code work on. */
  class VaultStore {
    var metas: map<VaultId, VaultMeta>
    var order: seq<VaultId>
    var live: map<VaultId, string>
    var active: Option<VaultId>

    function State(): Store
      reads this
    {
      Store(metas, order, live, active)
    }

    ghost predicate Valid()
      reads this
    {
      State().Valid()
    }

    constructor ()
      ensures Valid() && State() == EMPTY_STORE
    {
      metas, order, live, active := map[], [], map[], None;
    }

    method SetActiveVaultId(id: Option<VaultId>)
      modifies this`active
      ensures State() == old(State()).SetActive(id)
      ensures active == if id == Some("") then None else id
    {
      if id.Some? && id.value != "" {
        active := id;
      } else {
        active := None;
      }
    }

    method WriteMeta(meta: VaultMeta)
      modifies this`metas, this`order
      ensures State() == old(State()).Put(meta)
    {
      if meta.id !in metas {
        order := order + [meta.id];
      }
      metas := metas[meta.id := meta];
    }

    method SaveVaultMeta(meta: VaultMeta)
      requires Valid()
      modifies this
      ensures Valid() && State() == old(State()).SaveVaultMeta(meta)
      ensures active == if meta.id == "" then None else Some(meta.id)
      ensures if && meta.ownerToken.Some? && meta.ownerToken.value != ""
                 && meta.ownerTokenLock.Some? && meta.ownerTokenLock.value.validated
              then metas == old(metas)[meta.id := meta.(ownerToken := None)]
                   && live == old(live)[meta.id := meta.ownerToken.value]
              else metas == old(metas)[meta.id := meta] && live == old(live)
    {
      SaveKeepsValid(State(), meta);
      if Usable(meta.ownerToken) && meta.ownerTokenLock.Some? && meta.ownerTokenLock.value.validated {
        live := live[meta.id := meta.ownerToken.value];
        WriteMeta(meta.(ownerToken := None));
      } else {
        WriteMeta(meta);
      }
      SetActiveVaultId(Some(meta.id));
    }

    method SaveVaultCredentialLock(id: VaultId, lock: LockedOwnerToken) returns (saved: bool)
      requires Valid()
      modifies this`metas
      ensures Valid() && State() == old(State()).SaveVaultCredentialLock(id, lock)
      ensures saved <==> id in old(metas) && old(metas)[id].ownerToken.Some? && old(metas)[id].ownerToken.value != ""
      ensures metas == if saved then old(metas)[id := old(metas)[id].(ownerTokenLock := Some(lock))] else old(metas)
    {
      if id !in metas || !Usable(metas[id].ownerToken) {
        return false;
      }
      metas := metas[id := metas[id].(ownerTokenLock := Some(lock))];
      saved := true;
    }

    method LockVaultCredential(id: VaultId, lock: LockedOwnerToken) returns (locked: bool)
      requires Valid()
      modifies this`metas, this`live
      ensures Valid() && State() == old(State()).LockVaultCredential(id, lock)
      ensures locked <==> lock.validated && old(State()).OwnerToken(id).Some? && old(State()).OwnerToken(id).value != ""
      ensures !locked ==> metas == old(metas) && live == old(live)
      ensures locked ==>
                && id in old(metas) && live == old(live) - {id}
                && metas == old(metas)[id := old(metas)[id].(ownerToken := None, ownerTokenLock := Some(lock))]
    {
      if !Usable(State().OwnerToken(id)) || !lock.validated {
        return false;
      }
      live := live - {id};
      metas := metas[id := metas[id].(ownerToken := None, ownerTokenLock := Some(lock))];
      locked := true;
    }

    /** The check before any write: every token is for a vault with an encrypted form, and not empty. */
    method TokensFit(tokens: map<VaultId, string>) returns (fit: bool)
      ensures fit <==> State().Unlockable(tokens)
    {
      var ids := tokens.Keys;
      while ids != {}
        invariant ids <= tokens.Keys
        invariant forall id :: id in tokens && id !in ids ==> State().LockOf(id).Some? && tokens[id] != ""
        decreases |ids|
      {
        var id :| id in ids;
        if id !in metas || metas[id].ownerTokenLock.None? || tokens[id] == "" {
          return false;
        }
        ids := ids - {id};
      }
      fit := true;
    }

    /** The metas as they are to be written: the vaults of the tokens keep only a validated lock. */
    method UnlockedMetas(tokens: map<VaultId, string>) returns (r: map<VaultId, VaultMeta>)
      requires State().Unlockable(tokens)
      ensures r == State().UnlockedMetas(tokens)
    {
      r := metas;
      var ids := tokens.Keys;
      while ids != {}
        invariant ids <= tokens.Keys && r.Keys == metas.Keys
        invariant forall id :: id in metas ==>
                    r[id] == if id in tokens && id !in ids then Validated(metas[id]) else metas[id]
        decreases |ids|
      {
        var id :| id in ids;
        r := r[id := Validated(r[id])];
        ids := ids - {id};
      }
    }

    /** All-or-nothing: every token is checked before the first one is written. */
    method UnlockVaultCredentials(tokens: map<VaultId, string>) returns (unlocked: bool)
      requires Valid()
      modifies this`metas, this`live
      ensures Valid() && State() == old(State()).UnlockVaultCredentials(tokens)
      ensures unlocked <==> old(State()).Unlockable(tokens)
      ensures unlocked <==> forall id :: id in tokens ==> old(State()).LockOf(id).Some? && tokens[id] != ""
      ensures if unlocked then live == old(live) + tokens else metas == old(metas) && live == old(live)
    {
      unlocked := TokensFit(tokens);
      if !unlocked {
        return;
      }
      var unlockedMetas := UnlockedMetas(tokens);
      live, metas := live + tokens, unlockedMetas;
    }

    method RemoveVaultMeta(id: VaultId) returns (removed: bool)
      requires Valid()
      modifies this
      ensures Valid() && State() == old(State()).RemoveVaultMeta(id)
      ensures removed <==> id in old(metas)
    {
      RemoveKeepsValid(State(), id);
      if id !in metas {
        return false;
      }
      metas := metas - {id};
      order := WithoutId(order, id);
      live := live - {id};
      if active == Some(id) {
        SetActiveVaultId(if order == [] then None else Some(order[0]));
      }
      removed := true;
    }
  }
}
