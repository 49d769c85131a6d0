/**
 * From the printed text to the chain: the texts a pair builder returns, parsed and with their keys
 * derived, are the very leaves the coins of the vault are locked with, on both chains.
 */
module DescriptorToChain {
  import opened Wrappers
  import opened Tapscript
  import opened Miniscript
  import opened Grammar
  import opened Keys
  import opened Descriptors
  import opened VaultPairs
  import opened Blockchain

  /** What a key expression derives to at an index of its chain. */
  type KeyDeriver = (string, nat) -> XOnly

  function ForChain(pair: DescriptorPair, chain: Chain): string {
    match chain
    case External => pair.external
    case Internal => pair.internal
  }

  function AtIndex(derive: KeyDeriver, index: nat): string -> XOnly {
    k => derive(k, index)
  }

  /** The leaf a wallet derives at an index from descriptor text. */
  function LeafFromText(text: string, index: nat, derive: KeyDeriver, read: KeyReader): Option<Expr<XOnly>> {
    match ParseDescriptor(text, read)
    case Err(_) => None
    case Ok(d) =>
      if d.internalKey == UNSPENDABLE_NUMS_XONLY then Some(MapKeys(d.leaf, AtIndex(derive, index))) else None
  }

  lemma ParsedLeaf(text: string, index: nat, derive: KeyDeriver, read: KeyReader, leaf: Expr<string>)
    requires ParseDescriptor(text, read) == Ok(Tr(UNSPENDABLE_NUMS_XONLY, leaf))
    ensures LeafFromText(text, index, derive, read) == Some(MapKeys(leaf, AtIndex(derive, index)))
  {
    hide ParseDescriptor;
  }

  /** The parameters a pair is built from: one set a chain, with one timelock. */
  datatype PairParams = PairParams(external: DescriptorParams, internal: DescriptorParams) {
    function On(chain: Chain): DescriptorParams {
      match chain
      case External => external
      case Internal => internal
    }

    predicate Good(read: KeyReader) {
      && external.Validate().None? && external.timelockBlocks == internal.timelockBlocks
      && external.CleanKeys() && ReadApart(external.Keys(), read)
      && internal.CleanKeys() && ReadApart(internal.Keys(), read)
      && read(UNSPENDABLE_NUMS_XONLY).Some?
    }

    function Build(read: KeyReader): Result<DescriptorPair, Error> {
      BuildDescriptorPair(external.ownerKey, internal.ownerKey, external.heirKey, internal.heirKey,
                          external.timelockBlocks, read)
    }

    function Vault(derive: KeyDeriver, outputKey: Address -> XOnly): Vault {
      (a: Address) =>
        var p := On(a.chain);
        Derived(outputKey(a), derive(p.ownerKey, a.index), derive(p.heirKey, a.index), p.timelockBlocks, HeirAlone)
    }
  }

  datatype GuardianPairParams = GuardianPairParams(
    external: GuardianDescriptorParams, internal: GuardianDescriptorParams) {

    function On(chain: Chain): GuardianDescriptorParams {
      match chain
      case External => external
      case Internal => internal
    }

    predicate Good(read: KeyReader) {
      && external.Validate().None?
      && external.timelockBlocks == internal.timelockBlocks && external.unlockHeight == internal.unlockHeight
      && external.CleanKeys() && ReadApart(external.Keys(), read)
      && internal.CleanKeys() && ReadApart(internal.Keys(), read)
      && read(UNSPENDABLE_NUMS_XONLY).Some?
    }

    function Build(read: KeyReader): Result<DescriptorPair, Error> {
      BuildGuardianDescriptorPair(
        external.ownerKey, internal.ownerKey, external.heirKey, internal.heirKey,
        external.guardian1Key, internal.guardian1Key, external.guardian2Key, internal.guardian2Key,
        external.timelockBlocks, external.unlockHeight, read)
    }

    function Vault(derive: KeyDeriver, outputKey: Address -> XOnly): Vault {
      (a: Address) =>
        var p := On(a.chain);
        Derived(outputKey(a), derive(p.ownerKey, a.index), derive(p.heirKey, a.index), p.timelockBlocks,
                WithGuardian(derive(p.guardian1Key, a.index), derive(p.guardian2Key, a.index), p.unlockHeight))
    }
  }

  /** At every address the text of its chain gives the leaf of the vault. */
  lemma StandardTextIsLeaf(p: PairParams, derive: KeyDeriver, outputKey: Address -> XOnly, read: KeyReader, a: Address)
    requires p.Good(read)
    ensures p.Build(read).Ok? && p.Vault(derive, outputKey)(a).Valid()
    ensures LeafFromText(ForChain(p.Build(read).value, a.chain), a.index, derive, read)
         == Some(p.Vault(derive, outputKey)(a).Leaf())
  {
    var q := p.On(a.chain);
    PairIntendedIff(p.external, p.internal, read);
    StandardLeaf(p, derive, outputKey, a);
    hide ParseDescriptor, BuildDescriptorPair, CleanKey, MapKeys, ReadApart, PairParams.Vault, LeafFromText,
      StandardTree;
    ParsedLeaf(ForChain(p.Build(read).value, a.chain), a.index, derive, read, q.Tree());
  }

  lemma StandardLeaf(p: PairParams, derive: KeyDeriver, outputKey: Address -> XOnly, a: Address)
    requires p.external.Validate().None? && p.external.timelockBlocks == p.internal.timelockBlocks
    ensures p.Vault(derive, outputKey)(a).Valid()
    ensures MapKeys(p.On(a.chain).Tree(), AtIndex(derive, a.index)) == p.Vault(derive, outputKey)(a).Leaf()
  {
    var q := p.On(a.chain);
    MapStandard(q.ownerKey, q.heirKey, q.timelockBlocks, AtIndex(derive, a.index));
    hide MapKeys;
  }

  lemma GuardianTextIsLeaf(p: GuardianPairParams, derive: KeyDeriver, outputKey: Address -> XOnly,
                           read: KeyReader, a: Address)
    requires p.Good(read)
    ensures p.Build(read).Ok? && p.Vault(derive, outputKey)(a).Valid()
    ensures LeafFromText(ForChain(p.Build(read).value, a.chain), a.index, derive, read)
         == Some(p.Vault(derive, outputKey)(a).Leaf())
  {
    var q := p.On(a.chain);
    GuardianPairIntendedIff(p.external, p.internal, read);
    GuardianLeaf(p, derive, outputKey, a);
    hide ParseDescriptor, BuildGuardianDescriptorPair, CleanKey, MapKeys, ReadApart, GuardianPairParams.Vault,
      LeafFromText, GuardianTree;
    ParsedLeaf(ForChain(p.Build(read).value, a.chain), a.index, derive, read, q.Tree());
  }

  lemma GuardianLeaf(p: GuardianPairParams, derive: KeyDeriver, outputKey: Address -> XOnly, a: Address)
    requires p.external.Validate().None?
    requires p.external.timelockBlocks == p.internal.timelockBlocks
    requires p.external.unlockHeight == p.internal.unlockHeight
    ensures p.Vault(derive, outputKey)(a).Valid()
    ensures MapKeys(p.On(a.chain).Tree(), AtIndex(derive, a.index)) == p.Vault(derive, outputKey)(a).Leaf()
  {
    var q := p.On(a.chain);
    MapGuardian(q.ownerKey, q.heirKey, q.guardian1Key, q.guardian2Key, q.timelockBlocks, q.unlockHeight,
                AtIndex(derive, a.index));
    hide MapKeys, GuardianTree;
  }

  lemma GuardianTerms(p: GuardianPairParams, derive: KeyDeriver, outputKey: Address -> XOnly, read: KeyReader,
                      at: Address, confirmed: nat, height: nat, keys: set<XOnly>)
    requires p.Good(read)
    ensures var d, q := p.Vault(derive, outputKey)(at), p.On(at.chain);
            && d.outputKey == outputKey(at) && d.owner == derive(q.ownerKey, at.index)
            && (d.ClaimKeys(keys)
                <==> derive(q.heirKey, at.index) in keys
                     && (derive(q.guardian1Key, at.index) in keys || derive(q.guardian2Key, at.index) in keys))
            && (d.ClaimHeight(confirmed) <= height
                <==> confirmed + p.external.timelockBlocks <= height
                     && (p.external.unlockHeight.Some? ==> p.external.unlockHeight.value < height))
  {
    hide ReadApart, CleanKey;
  }

  /**
   * What the guardian builder promises, from its texts to every block: a coin at any address,
   * locked by the leaf read from the text of its chain, can be spent by a set of keys in the block
   * at `st.height` exactly when the owner is among them, or the heir with a guardian is and the
   * coin has aged past both locks.
   */
  lemma GuardianTextPromise(p: GuardianPairParams, derive: KeyDeriver, outputKey: Address -> XOnly, read: KeyReader,
                            st: State, medianTime: nat, c: CoinId, keys: set<XOnly>)
    requires p.Good(read) && c in st.coins && outputKey(st.coins[c].at) !in keys
    ensures var v, at := p.Vault(derive, outputKey), st.coins[c].at;
            var q := p.On(at.chain);
            && p.Build(read).Ok?
            && LeafFromText(ForChain(p.Build(read).value, at.chain), at.index, derive, read) == Some(v(at).Leaf())
            && (SpendableBy(v, st, medianTime, c, keys)
                <==> || derive(q.ownerKey, at.index) in keys
                     || (&& derive(q.heirKey, at.index) in keys
                         && (derive(q.guardian1Key, at.index) in keys || derive(q.guardian2Key, at.index) in keys)
                         && st.coins[c].height + p.external.timelockBlocks <= st.height
                         && (p.external.unlockHeight.Some? ==> p.external.unlockHeight.value < st.height)))
  {
    var v := p.Vault(derive, outputKey);
    forall a: Address
      ensures v(a).Valid()
    {
      GuardianTextIsLeaf(p, derive, outputKey, read, a);
    }
    GuardianTextIsLeaf(p, derive, outputKey, read, st.coins[c].at);
    GuardianTerms(p, derive, outputKey, read, st.coins[c].at, st.coins[c].height, st.height, keys);
    SpendableExactly(v, st, medianTime, c, keys);
    hide LeafFromText, SpendableBy, GuardianPairParams.Good, GuardianPairParams.Build, GuardianPairParams.Vault,
      Derived.ClaimKeys, Derived.ClaimHeight, Derived.Leaf;
  }

  /** The same for the standard builder: the owner at any time, the heir alone after the timelock. */
  lemma StandardTextPromise(p: PairParams, derive: KeyDeriver, outputKey: Address -> XOnly, read: KeyReader,
                            st: State, medianTime: nat, c: CoinId, keys: set<XOnly>)
    requires p.Good(read) && c in st.coins && outputKey(st.coins[c].at) !in keys
    ensures var v, at := p.Vault(derive, outputKey), st.coins[c].at;
            var q := p.On(at.chain);
            && p.Build(read).Ok?
            && LeafFromText(ForChain(p.Build(read).value, at.chain), at.index, derive, read) == Some(v(at).Leaf())
            && (SpendableBy(v, st, medianTime, c, keys)
                <==> || derive(q.ownerKey, at.index) in keys
                     || (derive(q.heirKey, at.index) in keys
                         && st.coins[c].height + p.external.timelockBlocks <= st.height))
  {
    var v := p.Vault(derive, outputKey);
    forall a: Address
      ensures v(a).Valid()
    {
      StandardTextIsLeaf(p, derive, outputKey, read, a);
    }
    StandardTextIsLeaf(p, derive, outputKey, read, st.coins[c].at);
    SpendableExactly(v, st, medianTime, c, keys);
    hide LeafFromText, SpendableBy, PairParams.Good, PairParams.Build;
  }
}
