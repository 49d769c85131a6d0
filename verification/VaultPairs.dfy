/** Receive and change descriptors built from the two chains of the same keys. */
module VaultPairs {
  import opened Wrappers
  import opened Tapscript
  import opened Miniscript
  import opened Grammar
  import opened Descriptors
  import opened Keys
  import opened VaultScripts

  /** A key with its origin, before a chain is chosen. */
  datatype KeyOrigin = KeyOrigin(fingerprint: string, path: string, xpub: string) {
    function Fragment(chain: Chain): string {
      DescriptorKeyFragment(fingerprint, path, xpub, chain)
    }

    function Tagged(): string {
      OriginTagged(fingerprint, path, xpub)
    }

    predicate Clean() {
      CleanKey(fingerprint) && CleanKey(path) && CleanKey(xpub)
    }
  }

  function WithoutChain(e: Expr<string>): Expr<string> {
    MapKeys(e, FragmentToOriginTaggedXpub)
  }

  lemma FragmentFacts(k: KeyOrigin, chain: Chain)
    requires k.Clean()
    ensures CleanKey(k.Fragment(chain)) && FragmentToOriginTaggedXpub(k.Fragment(chain)) == k.Tagged()
  {
    FragmentIsClean(k.fingerprint, k.path, k.xpub, chain);
    SiblingOwnerBranch(k.fingerprint, k.path, k.xpub, chain, chain);
  }

  /** Fragments of one chain stand for different keys. */
  predicate ChainReadsApart(keys: seq<KeyOrigin>, chain: Chain, read: KeyReader) {
    ReadApart(seq(|keys|, i requires 0 <= i < |keys| => keys[i].Fragment(chain)), read)
  }

  /**
   * A pair of the two chains of the same keys: refused for its timelock, or because a key is
   * malformed or repeated on a chain, and for nothing else. Otherwise both texts parse, and to the
   * same policy: without the chain index both are the tree over the origin-tagged keys.
   */
  lemma PairHasOnePolicy(owner: KeyOrigin, heir: KeyOrigin, n: U32, read: KeyReader)
    requires owner.Clean() && heir.Clean() && read(UNSPENDABLE_NUMS_XONLY).Some?
    ensures var r := BuildDescriptorPair(owner.Fragment(External), owner.Fragment(Internal),
                                         heir.Fragment(External), heir.Fragment(Internal), n, read);
            if n == 0 || n % 0x1_0000 != n then r == Err(InvalidTimelock(n))
            else if !ChainReadsApart([owner, heir], External, read) || !ChainReadsApart([owner, heir], Internal, read)
            then r.Err? && r.error.InvalidDescriptor?
            else
              && r.Ok?
              && ParseDescriptor(r.value.external, read).Ok? && ParseDescriptor(r.value.internal, read).Ok?
              && WithoutChain(ParseDescriptor(r.value.external, read).value.leaf)
                 == WithoutChain(ParseDescriptor(r.value.internal, read).value.leaf)
                 == StandardTree(owner.Tagged(), heir.Tagged(), n)
  {
    hide ParseDescriptor, BuildDescriptorString, CleanKey, DescriptorKeyFragment, FragmentToOriginTaggedXpub,
      ChainReadsApart;
    TimelockAcceptedIff(n);
    if ValidateTimelock(n).None? {
      StandardChain(owner, heir, n, External, read);
      StandardChain(owner, heir, n, Internal, read);
    } else {
      RefusedTimelock(DescriptorParams(owner.Fragment(External), heir.Fragment(External), n));
    }
  }

  lemma RefusedTimelock(p: DescriptorParams)
    requires ValidateTimelock(p.timelockBlocks).Some?
    ensures BuildDescriptorString(p) == Err(InvalidTimelock(p.timelockBlocks))
  {}

  lemma StandardChain(owner: KeyOrigin, heir: KeyOrigin, n: U32, chain: Chain, read: KeyReader)
    requires owner.Clean() && heir.Clean() && ValidateTimelock(n).None? && read(UNSPENDABLE_NUMS_XONLY).Some?
    ensures var built := BuildDescriptorString(DescriptorParams(owner.Fragment(chain), heir.Fragment(chain), n));
            && built.Ok?
            && ParseDescriptor(built.value, read)
               == (if ChainReadsApart([owner, heir], chain, read)
                   then Ok(Tr(UNSPENDABLE_NUMS_XONLY, StandardTree(owner.Fragment(chain), heir.Fragment(chain), n)))
                   else Err(InvalidDescriptor(built.value)))
            && WithoutChain(StandardTree(owner.Fragment(chain), heir.Fragment(chain), n))
               == StandardTree(owner.Tagged(), heir.Tagged(), n)
  {
    var p := DescriptorParams(owner.Fragment(chain), heir.Fragment(chain), n);
    FragmentFacts(owner, chain);
    FragmentFacts(heir, chain);
    BuiltParsesBack(p, read);
    CleanRefusedIff(p, read);
    var keys := [owner, heir];
    assert seq(2, i requires 0 <= i < |keys| => keys[i].Fragment(chain)) == p.Keys();
    hide ParseDescriptor, CleanKey, DescriptorKeyFragment, FragmentToOriginTaggedXpub, ReadApart;
    MapStandard(p.ownerKey, p.heirKey, n, FragmentToOriginTaggedXpub);
  }

  lemma MapStandard<K, L>(owner: K, heir: K, n: nat, f: K -> L)
    ensures MapKeys(StandardTree(owner, heir, n), f) == StandardTree(f(owner), f(heir), n)
  {
    assert MapKeys(V(Pk(heir)), f) == V(Pk(f(heir)));
    assert MapKeys(AndV(V(Pk(heir)), Older(n)), f) == AndV(V(Pk(f(heir))), Older(n));
  }

  // ----- guardian vaults -----

  datatype GuardianKeys = GuardianKeys(owner: KeyOrigin, heir: KeyOrigin, guardian1: KeyOrigin, guardian2: KeyOrigin) {
    function All(): seq<KeyOrigin> {
      [owner, heir, guardian1, guardian2]
    }

    predicate Clean() {
      owner.Clean() && heir.Clean() && guardian1.Clean() && guardian2.Clean()
    }

    function Params(chain: Chain, n: U32, unlock: Option<U32>): GuardianDescriptorParams {
      GuardianDescriptorParams(owner.Fragment(chain), heir.Fragment(chain),
                               guardian1.Fragment(chain), guardian2.Fragment(chain), n, unlock)
    }

    function TaggedTree(n: U32, unlock: Option<U32>): Expr<string> {
      GuardianTree(owner.Tagged(), heir.Tagged(), guardian1.Tagged(), guardian2.Tagged(), n, unlock)
    }
  }

  /** The same for guardian vaults; the timelock is checked before the unlock height, and both before the keys. */
  lemma GuardianPairHasOnePolicy(k: GuardianKeys, n: U32, unlock: Option<U32>, read: KeyReader)
    requires k.Clean() && read(UNSPENDABLE_NUMS_XONLY).Some?
    ensures var r := BuildGuardianDescriptorPair(
                       k.owner.Fragment(External), k.owner.Fragment(Internal),
                       k.heir.Fragment(External), k.heir.Fragment(Internal),
                       k.guardian1.Fragment(External), k.guardian1.Fragment(Internal),
                       k.guardian2.Fragment(External), k.guardian2.Fragment(Internal), n, unlock, read);
            if n == 0 || n % 0x1_0000 != n then r == Err(InvalidTimelock(n))
            else if unlock.Some? && (unlock.value == 0 || unlock.value >= LOCKTIME_THRESHOLD) then
              r == Err(InvalidUnlockHeight(unlock.value))
            else if !ChainReadsApart(k.All(), External, read) || !ChainReadsApart(k.All(), Internal, read) then
              r.Err? && r.error.InvalidDescriptor?
            else
              && r.Ok?
              && ParseDescriptor(r.value.external, read).Ok? && ParseDescriptor(r.value.internal, read).Ok?
              && WithoutChain(ParseDescriptor(r.value.external, read).value.leaf)
                 == WithoutChain(ParseDescriptor(r.value.internal, read).value.leaf)
                 == k.TaggedTree(n, unlock)
  {
    hide ParseDescriptor, BuildGuardianDescriptorString, CleanKey, DescriptorKeyFragment, FragmentToOriginTaggedXpub,
      ChainReadsApart;
    var p := k.Params(External, n, unlock);
    GuardianAcceptedIff(p);
    if p.Validate().None? {
      GuardianChain(k, n, unlock, External, read);
      GuardianChain(k, n, unlock, Internal, read);
    } else {
      RefusedGuardian(p);
    }
  }

  lemma AcceptedGuardian(p: GuardianDescriptorParams)
    requires p.Validate().None?
    ensures BuildGuardianDescriptorString(p).Ok?
  {}

  lemma RefusedGuardian(p: GuardianDescriptorParams)
    requires p.Validate().Some?
    ensures BuildGuardianDescriptorString(p) == Err(p.Validate().value)
  {}

  lemma GuardianChainKeys(k: GuardianKeys, n: U32, unlock: Option<U32>, chain: Chain, read: KeyReader)
    ensures ChainReadsApart(k.All(), chain, read) <==> ReadApart(k.Params(chain, n, unlock).Keys(), read)
  {
    hide ReadApart;
    var keys := k.All();
    assert seq(4, i requires 0 <= i < |keys| => keys[i].Fragment(chain)) == k.Params(chain, n, unlock).Keys();
  }

  lemma GuardianChain(k: GuardianKeys, n: U32, unlock: Option<U32>, chain: Chain, read: KeyReader)
    requires k.Clean() && k.Params(chain, n, unlock).Validate().None? && read(UNSPENDABLE_NUMS_XONLY).Some?
    ensures var p := k.Params(chain, n, unlock);
            var built := BuildGuardianDescriptorString(p);
            && built.Ok?
            && ParseDescriptor(built.value, read)
               == (if ChainReadsApart(k.All(), chain, read) then Ok(Tr(UNSPENDABLE_NUMS_XONLY, p.Tree()))
                   else Err(InvalidDescriptor(built.value)))
            && WithoutChain(p.Tree()) == k.TaggedTree(n, unlock)
  {
    hide ParseDescriptor, BuildGuardianDescriptorString, CleanKey, DescriptorKeyFragment, FragmentToOriginTaggedXpub,
      ReadApart, ChainReadsApart, GuardianTree;
    var p := k.Params(chain, n, unlock);
    FragmentFacts(k.owner, chain);
    FragmentFacts(k.heir, chain);
    FragmentFacts(k.guardian1, chain);
    FragmentFacts(k.guardian2, chain);
    GuardianBuiltParsesBack(p, read);
    GuardianCleanRefusedIff(p, read);
    GuardianChainKeys(k, n, unlock, chain, read);
    AcceptedGuardian(p);
    MapGuardian(p.ownerKey, p.heirKey, p.guardian1Key, p.guardian2Key, n, unlock, FragmentToOriginTaggedXpub);
  }

  lemma MapGuardian<K, L>(owner: K, heir: K, g1: K, g2: K, n: nat, unlock: Option<nat>, f: K -> L)
    ensures MapKeys(GuardianTree(owner, heir, g1, g2, n, unlock), f)
         == GuardianTree(f(owner), f(heir), f(g1), f(g2), n, unlock)
  {
    assert MapKeys(S(Pk(g2)), f) == S(Pk(f(g2)));
    assert MapKeys(GuardianOr(g1, g2), f) == GuardianOr(f(g1), f(g2));
    var gated := Gated(g1, g2, unlock);
    if unlock.Some? {
      assert MapKeys<K, L>(V(After(unlock.value)), f) == V(After(unlock.value));
    }
    assert MapKeys(gated, f) == Gated(f(g1), f(g2), unlock);
    assert MapKeys<K, L>(V(Older(n)), f) == V(Older(n));
    var locked := AndV(V(Older(n)), gated);
    assert MapKeys(locked, f) == AndV(V(Older(n)), Gated(f(g1), f(g2), unlock));
    assert MapKeys(V(Pk(heir)), f) == V(Pk(f(heir)));
    assert MapKeys(AndV(V(Pk(heir)), locked), f) == AndV(V(Pk(f(heir))), MapKeys(locked, f));
  }
}
