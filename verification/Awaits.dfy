/**
 * Lock passes and unlocks cut at every point where the page waits: what one turn of their loops does
 * to the storage, and what a late answer does. Between any two of these steps anything else may run.
 */
module Awaits {
  import opened Wrappers
  import opened Crypto
  import opened EmailText
  import opened VaultStores
  import opened Credentials
  import opened DeviceLock
  import opened SignIn

  /** An answer to a request for a vault's bundle: none when the call failed. */
  type Answer = Option<Bundle>

  // ----- lock passes -----

  /** A pass under way: the metas it read at its start and has not come to, and the vault it asked about. */
  datatype Pass = Pass(rest: seq<VaultMeta>, asked: Option<VaultMeta>) {
    predicate AtTurn() {
      asked.None? && rest != []
    }
  }

  function PassBegins(s: Store): Pass
    requires s.Valid()
  {
    Pass(s.AllVaultMetas(), None)
  }

  /** One turn of the pass, up to its request. */
  function PassTurn(s: Store, p: Pass): (r: (Store, Pass))
    requires s.Valid() && p.AtTurn()
  {
    var meta, rest := p.rest[0], p.rest[1..];
    if !Usable(s.OwnerToken(meta.id)) || !LooksLikeEmail(meta.ownerAddress) then (s, Pass(rest, None))
    else if meta.ownerTokenLock.Some? then
      (s.LockVaultCredential(meta.id, meta.ownerTokenLock.value), Pass(rest, None))
    else (s, Pass(rest, Some(meta)))
  }

  /** The answer arrives: a bundle is cached as a candidate lock, whatever has happened meanwhile. */
  function PassReply(s: Store, p: Pass, answer: Answer): (Store, Pass)
    requires p.asked.Some?
  {
    var meta := p.asked.value;
    (match answer
     case None => s
     case Some(b) => s.SaveVaultCredentialLock(meta.id, Candidate(b, HashEmailForLookup(meta.ownerAddress))),
     Pass(p.rest, None))
  }

  // ----- unlocks -----

  /** A repair waiting for the server: the vault, its live token, and the new ciphertext. */
  datatype Repair = Repair(meta: VaultMeta, liveToken: string, blob: Blob)

  /**
   * Where an unlock stands. `late` is no variable of the page but history: the vaults whose lock
   * was last written by an answer holding only the placeholder, since the unlock read its vaults.
   */
  datatype Phase =
    | Seeding(toSeed: seq<VaultMeta>, asked: Option<VaultMeta>)
    | Trying(rest: seq<VaultMeta>, repair: Option<Repair>, tokens: map<VaultId, string>, late: set<VaultId>)

  datatype Unlocking = Unlocking(localId: VaultId, password: string, emailHash: string, phase: Phase)

  function UnlockBegins(s: Store, localId: VaultId, password: string): Unlocking
    requires s.Valid() && Offered(s, localId, password)
  {
    Unlocking(localId, password, HashEmailForLookup(s.metas[localId].ownerAddress), Seeding(s.AllVaultMetas(), None))
  }

  /** One turn of the seeding loop, up to its request. */
  function SeedTurn(s: Store, u: Unlocking): Unlocking
    requires u.phase.Seeding? && u.phase.asked.None? && u.phase.toSeed != []
  {
    var meta, rest := u.phase.toSeed[0], u.phase.toSeed[1..];
    if meta.ownerTokenLock.Some? then u.(phase := Seeding(rest, None))
    else if !Usable(s.OwnerToken(meta.id)) || HashEmailForLookup(meta.ownerAddress) != u.emailHash
    then u.(phase := Seeding(rest, None))
    else u.(phase := Seeding(rest, Some(meta)))
  }

  function SeedReply(s: Store, u: Unlocking, answer: Answer): (Store, Unlocking)
    requires u.phase.Seeding? && u.phase.asked.Some?
  {
    (match answer
     case None => s
     case Some(b) => s.SaveVaultCredentialLock(u.phase.asked.value.id, Candidate(b, u.emailHash)),
     u.(phase := Seeding(u.phase.toSeed, None)))
  }

  /** Seeding is over: the active vault's lock is checked and the matching vaults are read, or the unlock ends. */
  function ReadMatching(s: Store, u: Unlocking): Option<Unlocking>
    requires s.Valid() && u.phase == Seeding([], None)
  {
    if s.LockOf(u.localId).None? || s.LockOf(u.localId).value.ownerEmailHash != u.emailHash then None
    else Some(u.(phase := Trying(Matching(s, u.emailHash, u.localId), None, map[], {})))
  }

  /** What one turn comes to: the unlock goes on, or an exception ends it. */
  datatype Turned = Goes(at: Unlocking) | Ends

  /** One turn of the opening loop, up to the request for a repair. */
  function TryTurn(s: Store, u: Unlocking): Turned
    requires u.phase.Trying? && u.phase.repair.None? && u.phase.rest != []
    requires u.phase.rest[0].ownerTokenLock.Some?
  {
    var meta := u.phase.rest[0];
    var next := u.phase.(rest := u.phase.rest[1..]);
    match Decrypted(meta, u.password)
    case None => if meta.id == u.localId then Ends else Goes(u.(phase := next))
    case Some(decrypted) =>
      var liveToken := s.OwnerToken(meta.id);
      if decrypted == PLACEHOLDER_OWNER_TOKEN && !Usable(liveToken) then Goes(u.(phase := next))
      else if Usable(liveToken) && decrypted != liveToken.value then
        var blob := Seal(Kek(u.password, meta.ownerTokenLock.value.params), liveToken.value);
        Goes(u.(phase := next.(repair := Some(Repair(meta, liveToken.value, blob)))))
      else Goes(u.(phase := next.(tokens := next.tokens[meta.id := decrypted])))
  }

  function RepairLock(r: Repair): LockedOwnerToken
    requires r.meta.ownerTokenLock.Some?
  {
    r.meta.ownerTokenLock.value.(ownerTokenBlob := r.blob, validated := true)
  }

  /** The server has stored the repaired ciphertext. */
  function RepairReply(s: Store, u: Unlocking): (Store, Unlocking)
    requires u.phase.Trying? && u.phase.repair.Some? && u.phase.repair.value.meta.ownerTokenLock.Some?
  {
    var r := u.phase.repair.value;
    (s.SaveVaultCredentialLock(r.meta.id, RepairLock(r)),
     u.(phase := u.phase.(repair := None, tokens := u.phase.tokens[r.meta.id := r.liveToken])))
  }

  /** The one restoring write is made, and every opened token accepted. */
  predicate Accepted(s: Store, u: Unlocking) {
    && u.phase.Trying?
    && u.localId in u.phase.tokens && u.phase.tokens[u.localId] != ""
    && s.Unlockable(u.phase.tokens)
  }

  function Finish(s: Store, u: Unlocking): Store
    requires u.phase.Trying?
  {
    if Accepted(s, u) then s.UnlockVaultCredentials(u.phase.tokens) else s
  }

  // ----- undisturbed, the steps are the loops -----

  function AnswerFor(replies: Replies, id: VaultId): Answer {
    if id in replies.bundles then Some(replies.bundles[id]) else None
  }

  /** A turn of the pass and the answer to its request, with nothing in between, is one round of its loop. */
  lemma PassTurnIsLockOne(s: Store, p: Pass, replies: Replies)
    requires s.Valid() && p.AtTurn()
    ensures var (t, q) := PassTurn(s, p);
            (if q.asked.Some? then PassReply(t, q, AnswerFor(replies, q.asked.value.id)) else (t, q))
            == (LockOne(s, p.rest[0], replies), Pass(p.rest[1..], None))
  {
    hide Store.Valid, Store.LockVaultCredential, Store.SaveVaultCredentialLock;
  }

  lemma SeedTurnIsSeedOne(s: Store, u: Unlocking, replies: Replies)
    requires s.Valid() && u.phase.Seeding? && u.phase.asked.None? && u.phase.toSeed != []
    ensures var v := SeedTurn(s, u);
            (if v.phase.asked.Some? then SeedReply(s, v, AnswerFor(replies, v.phase.asked.value.id)) else (s, v))
            == (SeedOne(s, u.phase.toSeed[0], u.emailHash, replies), u.(phase := Seeding(u.phase.toSeed[1..], None)))
  {
    hide Store.Valid, Store.SaveVaultCredentialLock;
  }

  /** The same for the opening loop; a refused repair ends it. */
  lemma TryTurnIsOpenOne(s: Store, u: Unlocking, replies: Replies, uploads: Uploads)
    requires u.phase.Trying? && u.phase.repair.None? && u.phase.rest != []
    requires u.phase.rest[0].ownerTokenLock.Some?
    ensures var o := OpenOne(Opening(s, u.phase.tokens, uploads), u.phase.rest[0], u.localId, u.password, replies);
            match TryTurn(s, u)
            case Ends => o.Threw? && o.at.store == s
            case Goes(v) =>
              if v.phase.repair.None? then
                o.Continue? && o.at.store == s
                && v == u.(phase := u.phase.(rest := u.phase.rest[1..], tokens := o.at.tokens))
              else if v.phase.repair.value.meta.id !in replies.resealed then o.Threw? && o.at.store == s
              else
                && o.Continue?
                && RepairReply(s, v)
                   == (o.at.store, u.(phase := u.phase.(rest := u.phase.rest[1..], tokens := o.at.tokens)))
  {
    hide Store.SaveVaultCredentialLock;
  }

  // ----- from beginning to end -----

  /** A whole pass with nothing in between. */
  function PassAlone(s: Store, p: Pass, replies: Replies): Store
    requires s.Valid() && p.asked.None?
    decreases |p.rest|
  {
    if p.rest == [] then s
    else
      PassTurnIsLockOne(s, p, replies);
      var (t, q) := PassTurn(s, p);
      var (after, next) := if q.asked.Some? then PassReply(t, q, AnswerFor(replies, q.asked.value.id)) else (t, q);
      PassAlone(after, next, replies)
  }

  lemma {:induction false} PassAloneIsLockAll(s: Store, p: Pass, replies: Replies)
    requires s.Valid() && p.asked.None?
    ensures PassAlone(s, p, replies) == LockAll(s, p.rest, replies)
    decreases |p.rest|
  {
    hide Store.Valid, PassTurn, PassReply, LockOne;
    if p.rest != [] {
      PassTurnIsLockOne(s, p, replies);
      PassAloneIsLockAll(LockOne(s, p.rest[0], replies), Pass(p.rest[1..], None), replies);
    }
  }

  /** A pass begun and carried through undisturbed is the lock pass. */
  lemma PassAloneIsLockPass(s: Store, replies: Replies)
    requires s.Valid()
    ensures PassAlone(s, PassBegins(s), replies) == LockPass(s, replies)
  {
    PassAloneIsLockAll(s, PassBegins(s), replies);
  }

  function SeedAlone(s: Store, u: Unlocking, replies: Replies): (Store, Unlocking)
    requires s.Valid() && u.phase.Seeding? && u.phase.asked.None?
    decreases |u.phase.toSeed|
  {
    if u.phase.toSeed == [] then (s, u)
    else
      SeedTurnIsSeedOne(s, u, replies);
      var v := SeedTurn(s, u);
      var (t, next) :=
        if v.phase.asked.Some? then SeedReply(s, v, AnswerFor(replies, v.phase.asked.value.id)) else (s, v);
      SeedAlone(t, next, replies)
  }

  lemma {:induction false} SeedAloneIsSeedAll(s: Store, u: Unlocking, replies: Replies)
    requires s.Valid() && u.phase.Seeding? && u.phase.asked.None?
    ensures SeedAlone(s, u, replies)
         == (SeedAll(s, u.phase.toSeed, u.emailHash, replies), u.(phase := Seeding([], None)))
    decreases |u.phase.toSeed|
  {
    hide Store.Valid, SeedTurn, SeedReply, SeedOne;
    if u.phase.toSeed != [] {
      SeedTurnIsSeedOne(s, u, replies);
      SeedAloneIsSeedAll(SeedOne(s, u.phase.toSeed[0], u.emailHash, replies),
                         u.(phase := Seeding(u.phase.toSeed[1..], None)), replies);
    }
  }

  /** The opening loop with nothing in between, until it is through or an exception ends it. */
  function TryAlone(s: Store, u: Unlocking, replies: Replies): (Store, Option<Unlocking>)
    requires u.phase.Trying? && u.phase.repair.None? && forall m :: m in u.phase.rest ==> m.ownerTokenLock.Some?
    decreases |u.phase.rest|
  {
    if u.phase.rest == [] then (s, Some(u))
    else
      TryTurnIsOpenOne(s, u, replies, []);
      match TryTurn(s, u)
      case Ends => (s, None)
      case Goes(v) =>
        if v.phase.repair.None? then TryAlone(s, v, replies)
        else if v.phase.repair.value.meta.id !in replies.resealed then (s, None)
        else
          var (t, next) := RepairReply(s, v);
          TryAlone(t, next, replies)
  }

  lemma {:induction false} TryAloneIsOpenAll(s: Store, u: Unlocking, replies: Replies, uploads: Uploads)
    requires u.phase.Trying? && u.phase.repair.None? && forall m :: m in u.phase.rest ==> m.ownerTokenLock.Some?
    ensures var p := OpenAll(Opening(s, u.phase.tokens, uploads), u.phase.rest, u.localId, u.password, replies);
            TryAlone(s, u, replies)
            == (p.at.store, if p.Threw? then None else Some(u.(phase := u.phase.(rest := [], tokens := p.at.tokens))))
    decreases |u.phase.rest|
  {
    hide TryTurn, RepairReply, OpenOne;
    if u.phase.rest != [] {
      TryTurnIsOpenOne(s, u, replies, uploads);
      var o := OpenOne(Opening(s, u.phase.tokens, uploads), u.phase.rest[0], u.localId, u.password, replies);
      if o.Continue? {
        TryAloneIsOpenAll(o.at.store, u.(phase := u.phase.(rest := u.phase.rest[1..], tokens := o.at.tokens)), replies,
                          o.at.uploads);
      }
    }
  }

  /** The read and all that follows it, with nothing in between: what is left, and whether the unlock succeeds. */
  function OpenAlone(s: Store, u: Unlocking, replies: Replies): (Store, bool)
    requires s.Valid() && u.phase == Seeding([], None)
  {
    MatchingMembers(s, u.emailHash, u.localId);
    match ReadMatching(s, u)
    case None => (s, false)
    case Some(v) =>
      match TryAlone(s, v, replies)
      case (t, None) => (t, false)
      case (t, Some(w)) =>
        TryAloneIsOpenAll(s, v, replies, []);
        (Finish(t, w), Accepted(t, w))
  }

  lemma OpenAloneIsRestore(s: Store, u: Unlocking, replies: Replies)
    requires s.Valid() && u.phase == Seeding([], None)
    ensures var r := Restore(s, u.localId, u.password, u.emailHash, replies);
            OpenAlone(s, u, replies)
            == if s.LockOf(u.localId).None? || s.LockOf(u.localId).value.ownerEmailHash != u.emailHash then (s, false)
               else (r.store, r.ok)
  {
    MatchingMembers(s, u.emailHash, u.localId);
    TryAloneIsOpenAll(s, u.(phase := Trying(Matching(s, u.emailHash, u.localId), None, map[], {})), replies, []);
    hide Store.Valid, Matching, TryAlone, OpenAll, Store.UnlockVaultCredentials, Store.LockOf, Store.Unlockable;
  }

  /** A whole unlock with nothing in between. */
  function UnlockAlone(s: Store, localId: VaultId, password: string, replies: Replies): (Store, bool)
    requires s.Valid() && Offered(s, localId, password)
  {
    SeedAloneIsSeedAll(s, UnlockBegins(s, localId, password), replies);
    var (seeded, u) := SeedAlone(s, UnlockBegins(s, localId, password), replies);
    OpenAlone(seeded, u, replies)
  }

  /** An unlock begun and carried through undisturbed is the unlock. */
  lemma UnlockAloneIsUnlock(s: Store, localId: VaultId, password: string, replies: Replies)
    requires s.Valid() && Offered(s, localId, password)
    ensures var r := Unlock(s, localId, password, replies);
            UnlockAlone(s, localId, password, replies) == (r.store, r.ok)
  {
    var u := UnlockBegins(s, localId, password);
    SeedAloneIsSeedAll(s, u, replies);
    OpenAloneIsRestore(Seed(s, u.emailHash, replies), u.(phase := Seeding([], None)), replies);
    hide Store.Valid, OpenAlone, SeedAlone, SeedAll, Restore, HashEmailForLookup;
  }
}
