/**
 * Vault descriptors: the parameters the builders accept, the text they print, and the
 * spending tree that text stands for.
 */
module Descriptors {
  import opened Wrappers
  import opened Miniscript
  import opened Grammar
  import Decimal

  /** The unspendable internal key of BIP 341, "Constructing and spending Taproot outputs". */
  const UNSPENDABLE_NUMS_XONLY: string :=
    "50929b74c1a04954" + "b78b4b6035e97a5e" + "078a5a0f28ec96d5" + "47bfee9ace803ac0"

  const MAX_CSV_BLOCKS: nat := 0xFFFF
  const MAX_CLTV_HEIGHT: nat := 500_000_000

  type U32 = n: nat | n <= 0xFFFF_FFFF

  datatype Error =
    | InvalidTimelock(blocks: U32)
    | InvalidUnlockHeight(height: U32)
    | InvalidDescriptor(text: string)

  // ----- spending trees -----

  /** The owner at any time, or the heir after `n` blocks. */
  function StandardTree<K>(owner: K, heir: K, n: nat): Expr<K> {
    OrD(Pk(owner), AndV(V(Pk(heir)), Older(n)))
  }

  function GuardianOr<K>(guardian1: K, guardian2: K): Expr<K> {
    OrB(Pk(guardian1), S(Pk(guardian2)))
  }

  function Gated<K>(guardian1: K, guardian2: K, unlock: Option<nat>): Expr<K> {
    match unlock
    case None => GuardianOr(guardian1, guardian2)
    case Some(h) => AndV(V(After(h)), GuardianOr(guardian1, guardian2))
  }

  /** The owner at any time, or the heir with one guardian after `n` blocks and above the unlock height. */
  function GuardianTree<K>(owner: K, heir: K, guardian1: K, guardian2: K, n: nat, unlock: Option<nat>): Expr<K> {
    OrD(Pk(owner), AndV(V(Pk(heir)), AndV(V(Older(n)), Gated(guardian1, guardian2, unlock))))
  }

  // ----- parameters -----

  function ValidateTimelock(blocks: U32): Option<Error> {
    if blocks == 0 || blocks > MAX_CSV_BLOCKS then Some(InvalidTimelock(blocks)) else None
  }

  datatype DescriptorParams = DescriptorParams(ownerKey: string, heirKey: string, timelockBlocks: U32) {
    function Validate(): Option<Error> {
      ValidateTimelock(timelockBlocks)
    }

    function Tree(): Expr<string> {
      StandardTree(ownerKey, heirKey, timelockBlocks)
    }

    function Keys(): seq<string> {
      [ownerKey, heirKey]
    }

    predicate CleanKeys() {
      CleanKey(ownerKey) && CleanKey(heirKey)
    }
  }

  datatype GuardianDescriptorParams = GuardianDescriptorParams(
    ownerKey: string, heirKey: string, guardian1Key: string, guardian2Key: string,
    timelockBlocks: U32, unlockHeight: Option<U32>) {

    function Validate(): Option<Error> {
      match ValidateTimelock(timelockBlocks)
      case Some(e) => Some(e)
      case None =>
        match unlockHeight
        case Some(h) => if h == 0 || h >= MAX_CLTV_HEIGHT then Some(InvalidUnlockHeight(h)) else None
        case None => None
    }

    function Tree(): Expr<string> {
      GuardianTree(ownerKey, heirKey, guardian1Key, guardian2Key, timelockBlocks, unlockHeight)
    }

    function Keys(): seq<string> {
      [ownerKey, heirKey, guardian1Key, guardian2Key]
    }

    predicate CleanKeys() {
      CleanKey(ownerKey) && CleanKey(heirKey) && CleanKey(guardian1Key) && CleanKey(guardian2Key)
    }
  }

  // ----- printing -----

  function BuildDescriptorString(p: DescriptorParams): Result<string, Error> {
    match p.Validate()
    case Some(e) => Err(e)
    case None =>
      Ok("tr(" + UNSPENDABLE_NUMS_XONLY + ",or_d(pk(" + p.ownerKey + "),and_v(v:pk(" + p.heirKey + "),older("
         + Decimal.Print(p.timelockBlocks) + "))))")
  }

  function BuildGuardianDescriptorString(p: GuardianDescriptorParams): Result<string, Error> {
    match p.Validate()
    case Some(e) => Err(e)
    case None =>
      var guardianOr := "or_b(pk(" + p.guardian1Key + "),s:pk(" + p.guardian2Key + "))";
      var gated := match p.unlockHeight
                   case Some(h) => "and_v(v:after(" + Decimal.Print(h) + ")," + guardianOr + ")"
                   case None => guardianOr;
      Ok("tr(" + UNSPENDABLE_NUMS_XONLY + ",or_d(pk(" + p.ownerKey + "),and_v(v:pk(" + p.heirKey
         + "),and_v(v:older(" + Decimal.Print(p.timelockBlocks) + ")," + gated + "))))")
  }

  // ----- parsing -----

  /** How the library reads one key expression: what key it stands for, or none if it is malformed. */
  type KeyReader = string -> Option<string>

  /** Every text reads as a key, and no two as the same key. */
  predicate ReadApart(keys: seq<string>, read: KeyReader) {
    && (forall i :: 0 <= i < |keys| ==> read(keys[i]).Some?)
    && (forall i, j :: 0 <= i < j < |keys| ==> read(keys[i]) != read(keys[j]))
  }

  /** For the two keys of a standard vault, and the four of a guardian vault. */
  lemma ReadApartIff(a: string, b: string, c: string, d: string, read: KeyReader)
    ensures ReadApart([a, b], read) <==> read(a).Some? && read(b).Some? && read(a) != read(b)
    ensures ReadApart([a, b, c, d], read)
       <==> && read(a).Some? && read(b).Some? && read(c).Some? && read(d).Some?
            && read(a) != read(b) && read(a) != read(c) && read(a) != read(d)
            && read(b) != read(c) && read(b) != read(d) && read(c) != read(d)
  {
    var two, four := [a, b], [a, b, c, d];
    assert two[0] == a && two[1] == b;
    assert four[0] == a && four[1] == b && four[2] == c && four[3] == d;
  }

  /**
   * A descriptor must read as a tree whose leaf is well typed, and whose keys are well formed and
   * not repeated within the leaf.
   */
  function ParseDescriptor(s: string, read: KeyReader): Result<Descriptor, Error> {
    match ReadDescriptor(s)
    case None => Err(InvalidDescriptor(s))
    case Some(d) =>
      if ValidLeaf(d.leaf) && read(d.internalKey).Some? && ReadApart(KeysOf(d.leaf), read) then Ok(d)
      else Err(InvalidDescriptor(s))
  }

  datatype DescriptorPair = DescriptorPair(external: string, internal: string)

  /** Both texts must have been built, the receive one first, and both must parse. */
  function CheckedPair(external: Result<string, Error>, internal: Result<string, Error>,
                       read: KeyReader): Result<DescriptorPair, Error> {
    match external
    case Err(e) => Err(e)
    case Ok(ext) =>
      match internal
      case Err(e) => Err(e)
      case Ok(int_) =>
        match ParseDescriptor(ext, read)
        case Err(e) => Err(e)
        case Ok(_) =>
          match ParseDescriptor(int_, read)
          case Err(e) => Err(e)
          case Ok(_) => Ok(DescriptorPair(ext, int_))
  }

  function BuildDescriptorPair(ownerExternal: string, ownerInternal: string,
                               heirExternal: string, heirInternal: string,
                               timelockBlocks: U32, read: KeyReader): Result<DescriptorPair, Error> {
    CheckedPair(BuildDescriptorString(DescriptorParams(ownerExternal, heirExternal, timelockBlocks)),
                BuildDescriptorString(DescriptorParams(ownerInternal, heirInternal, timelockBlocks)), read)
  }

  function BuildGuardianDescriptorPair(
      ownerExternal: string, ownerInternal: string, heirExternal: string, heirInternal: string,
      guardian1External: string, guardian1Internal: string, guardian2External: string, guardian2Internal: string,
      timelockBlocks: U32, unlockHeight: Option<U32>, read: KeyReader): Result<DescriptorPair, Error> {
    CheckedPair(
      BuildGuardianDescriptorString(GuardianDescriptorParams(
        ownerExternal, heirExternal, guardian1External, guardian2External, timelockBlocks, unlockHeight)),
      BuildGuardianDescriptorString(GuardianDescriptorParams(
        ownerInternal, heirInternal, guardian1Internal, guardian2Internal, timelockBlocks, unlockHeight)), read)
  }

  // ----- what the text means -----

  lemma PkText(k: string)
    ensures Print(Pk(k)) == "pk(" + k + ")"
  {}

  lemma OrDText(k: string, claim: Expr<string>)
    ensures Print(OrD(Pk(k), claim)) == "or_d(pk(" + k + ")," + Print(claim) + ")"
  {}

  /** The claim branch opens with the heir's key; `rest` is what the heir needs besides. */
  lemma ClaimText(heir: string, rest: Expr<string>)
    ensures Print(AndV(V(Pk(heir)), rest)) == "and_v(v:pk(" + heir + ")," + Print(rest) + ")"
  {
    PkText(heir);
    assert Print(V(Pk(heir))) == "v:" + ("pk(" + heir + ")");
  }

  lemma VerifiedTimelockText(lock: Expr<string>, head: string, n: nat, rest: Expr<string>)
    requires (lock == Older(n) && head == "older(") || (lock == After(n) && head == "after(")
    ensures Print(AndV(V(lock), rest)) == "and_v(v:" + head + Decimal.Print(n) + ")," + Print(rest) + ")"
  {
    hide Decimal.Print;
    assert Print(lock) == head + (Decimal.Print(n) + ")");
    assert Print(V(lock)) == "v:" + Print(lock);
    JoinTimelock(head, Decimal.Print(n), Print(rest));
  }

  lemma JoinTimelock(head: string, n: string, rest: string)
    ensures "and_v(" + Arguments("v:" + (head + (n + ")")), rest) == "and_v(v:" + head + n + ")," + rest + ")"
  {}

  lemma GuardianOrText(g1: string, g2: string)
    ensures Print(GuardianOr(g1, g2)) == "or_b(pk(" + g1 + "),s:pk(" + g2 + "))"
  {
    PkText(g1);
    PkText(g2);
    assert Print(S(Pk(g2))) == "s:" + ("pk(" + g2 + ")");
  }

  lemma AroundLeaf(nums: string, o: string, h: string, tail: string)
    ensures "tr(" + nums + "," + ("or_d(pk(" + o + ")," + ("and_v(v:pk(" + h + ")," + tail + ")") + ")") + ")"
         == "tr(" + nums + ",or_d(pk(" + o + "),and_v(v:pk(" + h + ")," + tail + ")))"
  {}

  /** The standard builder's text is the print of its spending tree. */
  lemma BuiltIsPrinted(p: DescriptorParams)
    requires p.Validate().None?
    ensures BuildDescriptorString(p) == Ok(PrintDescriptor(Tr(UNSPENDABLE_NUMS_XONLY, p.Tree())))
  {
    hide Print, Decimal.Print;
    var o, h, n := p.ownerKey, p.heirKey, Decimal.Print(p.timelockBlocks);
    OrDText(o, AndV(V(Pk(h)), Older(p.timelockBlocks)));
    ClaimText(h, Older(p.timelockBlocks));
    OlderText(p.timelockBlocks);
    AroundLeaf(UNSPENDABLE_NUMS_XONLY, o, h, "older(" + n + ")");
    StandardTail("tr(" + UNSPENDABLE_NUMS_XONLY + ",or_d(pk(" + o + "),and_v(v:pk(" + h, n);
  }

  lemma OlderText(n: nat)
    ensures Print(Older(n)) == "older(" + Decimal.Print(n) + ")"
  {}

  lemma StandardTail(front: string, n: string)
    ensures front + ")," + ("older(" + n + ")") + ")))" == front + "),older(" + n + "))))"
  {}

  /** The guardian builder's text is the print of its spending tree, with or without an unlock height. */
  lemma GuardianBuiltIsPrinted(p: GuardianDescriptorParams)
    requires p.Validate().None?
    ensures BuildGuardianDescriptorString(p) == Ok(PrintDescriptor(Tr(UNSPENDABLE_NUMS_XONLY, p.Tree())))
  {
    hide Print, Decimal.Print;
    var o, h, n := p.ownerKey, p.heirKey, Decimal.Print(p.timelockBlocks);
    var g1, g2 := p.guardian1Key, p.guardian2Key;
    var gated := Gated(g1, g2, p.unlockHeight);
    GuardianOrText(g1, g2);
    match p.unlockHeight {
      case None =>
      case Some(height) =>
        VerifiedTimelockText(After(height), "after(", height, GuardianOr(g1, g2));
        JoinAfter(Decimal.Print(height));
    }
    var locked := AndV(V(Older(p.timelockBlocks)), gated);
    OrDText(o, AndV(V(Pk(h)), locked));
    ClaimText(h, locked);
    VerifiedTimelockText(Older(p.timelockBlocks), "older(", p.timelockBlocks, gated);
    AroundLeaf(UNSPENDABLE_NUMS_XONLY, o, h, Print(locked));
    GuardianTail("tr(" + UNSPENDABLE_NUMS_XONLY + ",or_d(pk(" + o + "),and_v(v:pk(" + h, n, Print(gated));
  }

  lemma JoinAfter(n: string)
    ensures "and_v(v:" + "after(" + n == "and_v(v:after(" + n
  {}

  lemma GuardianTail(front: string, n: string, gated: string)
    ensures front + ")," + ("and_v(v:" + "older(" + n + ")," + gated + ")") + ")))"
         == front + "),and_v(v:older(" + n + ")," + gated + "))))"
  {}

  // ----- the builders' trees -----

  /** The standard tree is a well-typed leaf for every timelock the builder accepts. */
  lemma StandardTyped<K>(owner: K, heir: K, n: nat)
    requires TimelockOperand(n)
    ensures ValidLeaf(StandardTree(owner, heir, n))
  {
    assert TypeOf(V(Pk(heir))) == Some(Ty(VType, false, true, false, false));
    assert TypeOf(AndV(V(Pk(heir)), Older(n))) == Some(Ty(B, false, true, false, false));
  }

  lemma GatedTyped<K>(guardian1: K, guardian2: K, unlock: Option<nat>)
    requires unlock.Some? ==> TimelockOperand(unlock.value)
    ensures ValidLeaf(Gated(guardian1, guardian2, unlock))
  {
    assert TypeOf(S(Pk(guardian2))) == Some(Ty(W, false, false, true, true));
    assert TypeOf(GuardianOr(guardian1, guardian2)) == Some(Ty(B, false, false, true, true));
    match unlock
    case None =>
    case Some(h) => assert TypeOf<K>(V(After(h))) == Some(Ty(VType, true, false, false, false));
  }

  /** The guardian tree is a well-typed leaf, with or without the unlock height. */
  lemma GuardianTyped<K>(owner: K, heir: K, guardian1: K, guardian2: K, n: nat, unlock: Option<nat>)
    requires TimelockOperand(n) && (unlock.Some? ==> TimelockOperand(unlock.value))
    ensures ValidLeaf(GuardianTree(owner, heir, guardian1, guardian2, n, unlock))
  {
    var gated := Gated(guardian1, guardian2, unlock);
    GatedTyped(guardian1, guardian2, unlock);
    assert TypeOf<K>(V(Older(n))) == Some(Ty(VType, true, false, false, false));
    assert ValidLeaf(AndV(V(Older(n)), gated));
    assert TypeOf(V(Pk(heir))) == Some(Ty(VType, false, true, false, false));
    assert ValidLeaf(AndV(V(Pk(heir)), AndV(V(Older(n)), gated)));
  }

  lemma TreePrintable(p: DescriptorParams)
    ensures Printable(p.Tree()) <==> p.CleanKeys()
  {
    hide CleanKey;
    assert Printable(V(Pk(p.heirKey))) <==> CleanKey(p.heirKey);
    assert Printable(AndV(V(Pk(p.heirKey)), Older(p.timelockBlocks))) <==> CleanKey(p.heirKey);
  }

  lemma GuardianTreePrintable(p: GuardianDescriptorParams)
    ensures Printable(p.Tree()) <==> p.CleanKeys()
  {
    hide CleanKey;
    var or := GuardianOr(p.guardian1Key, p.guardian2Key);
    var gated := Gated(p.guardian1Key, p.guardian2Key, p.unlockHeight);
    var locked := AndV(V(Older(p.timelockBlocks)), gated);
    assert Printable(S(Pk(p.guardian2Key))) <==> CleanKey(p.guardian2Key);
    assert Printable(or) <==> CleanKey(p.guardian1Key) && CleanKey(p.guardian2Key);
    match p.unlockHeight {
      case None =>
      case Some(h) => assert Printable(V(After(h)));
    }
    assert Printable(gated) <==> Printable(or);
    assert Printable(V(Older(p.timelockBlocks)));
    assert Printable(locked) <==> Printable(gated);
    assert Printable(V(Pk(p.heirKey))) <==> CleanKey(p.heirKey);
    assert Printable(AndV(V(Pk(p.heirKey)), locked)) <==> CleanKey(p.heirKey) && Printable(locked);
  }

  lemma CleanJoin(a: string, b: string)
    requires CleanKey(a) && CleanKey(b)
    ensures CleanKey(a + b)
  {}

  lemma NumsIsClean()
    ensures CleanKey(UNSPENDABLE_NUMS_XONLY)
  {
    CleanJoin("50929b74c1a04954", "b78b4b6035e97a5e");
    CleanJoin("50929b74c1a04954" + "b78b4b6035e97a5e", "078a5a0f28ec96d5");
    CleanJoin("50929b74c1a04954" + "b78b4b6035e97a5e" + "078a5a0f28ec96d5", "47bfee9ace803ac0");
  }

  lemma ParsedIsPrintable(s: string)
    ensures ReadDescriptor(s).Some? ==> Printable(ReadDescriptor(s).value.leaf)
  {
    if ReadDescriptor(s).Some? {
      var (_, rest) := ReadKey(s[3..]).value;
      ReadIsPrintable(Expect(',', rest).value);
    }
  }

  lemma ReadsPrinted(leaf: Expr<string>)
    ensures var d := Tr(UNSPENDABLE_NUMS_XONLY, leaf);
            ReadDescriptor(PrintDescriptor(d)) == Some(d) <==> Printable(leaf)
  {
    hide CleanKey;
    var d := Tr(UNSPENDABLE_NUMS_XONLY, leaf);
    NumsIsClean();
    if Printable(leaf) {
      ReadPrintedDescriptor(d);
    }
    ParsedIsPrintable(PrintDescriptor(d));
  }

  /** The text of a standard vault reads as exactly its tree if and only if its keys hold no delimiter. */
  lemma BuiltReadsBack(p: DescriptorParams)
    requires p.Validate().None?
    ensures ReadDescriptor(BuildDescriptorString(p).value) == Some(Tr(UNSPENDABLE_NUMS_XONLY, p.Tree()))
       <==> p.CleanKeys()
  {
    hide ReadDescriptor, PrintDescriptor, CleanKey, Print;
    BuiltIsPrinted(p);
    TreePrintable(p);
    ReadsPrinted(p.Tree());
  }

  lemma GuardianBuiltReadsBack(p: GuardianDescriptorParams)
    requires p.Validate().None?
    ensures ReadDescriptor(BuildGuardianDescriptorString(p).value) == Some(Tr(UNSPENDABLE_NUMS_XONLY, p.Tree()))
       <==> p.CleanKeys()
  {
    hide ReadDescriptor, PrintDescriptor, CleanKey, Print;
    GuardianBuiltIsPrinted(p);
    GuardianTreePrintable(p);
    ReadsPrinted(p.Tree());
  }

  lemma TreeKeys(p: DescriptorParams)
    ensures KeysOf(p.Tree()) == p.Keys()
  {
    assert KeysOf(V(Pk(p.heirKey))) == [p.heirKey];
    assert KeysOf(AndV(V(Pk(p.heirKey)), Older(p.timelockBlocks))) == [p.heirKey];
  }

  lemma GuardianTreeKeys(p: GuardianDescriptorParams)
    ensures KeysOf(p.Tree()) == p.Keys()
  {
    var or := GuardianOr(p.guardian1Key, p.guardian2Key);
    var gated := Gated(p.guardian1Key, p.guardian2Key, p.unlockHeight);
    assert KeysOf(S(Pk(p.guardian2Key))) == [p.guardian2Key];
    assert KeysOf(or) == [p.guardian1Key, p.guardian2Key];
    if p.unlockHeight.Some? {
      assert KeysOf<string>(V(After(p.unlockHeight.value))) == [];
    }
    assert KeysOf(gated) == [p.guardian1Key, p.guardian2Key];
    assert KeysOf<string>(V(Older(p.timelockBlocks))) == [];
    var locked := AndV(V(Older(p.timelockBlocks)), gated);
    assert KeysOf(locked) == [p.guardian1Key, p.guardian2Key];
    assert KeysOf(V(Pk(p.heirKey))) == [p.heirKey];
    assert KeysOf(AndV(V(Pk(p.heirKey)), locked)) == [p.heirKey, p.guardian1Key, p.guardian2Key];
  }

  /**
   * The text of a standard vault parses to exactly the intended tree, keys and timelock, if and
   * only if both key fragments are free of commas and parentheses and stand for different keys.
   */
  lemma BuiltParsesBack(p: DescriptorParams, read: KeyReader)
    requires p.Validate().None? && read(UNSPENDABLE_NUMS_XONLY).Some?
    ensures ParseDescriptor(BuildDescriptorString(p).value, read) == Ok(Tr(UNSPENDABLE_NUMS_XONLY, p.Tree()))
       <==> p.CleanKeys() && ReadApart(p.Keys(), read)
  {
    hide ReadDescriptor, BuildDescriptorString, CleanKey, ReadApart;
    BuiltReadsBack(p);
    StandardTyped(p.ownerKey, p.heirKey, p.timelockBlocks);
    TreeKeys(p);
  }

  lemma GuardianBuiltParsesBack(p: GuardianDescriptorParams, read: KeyReader)
    requires p.Validate().None? && read(UNSPENDABLE_NUMS_XONLY).Some?
    ensures ParseDescriptor(BuildGuardianDescriptorString(p).value, read) == Ok(Tr(UNSPENDABLE_NUMS_XONLY, p.Tree()))
       <==> p.CleanKeys() && ReadApart(p.Keys(), read)
  {
    hide ReadDescriptor, BuildGuardianDescriptorString, CleanKey, ReadApart;
    GuardianBuiltReadsBack(p);
    GuardianTyped(p.ownerKey, p.heirKey, p.guardian1Key, p.guardian2Key, p.timelockBlocks, p.unlockHeight);
    GuardianTreeKeys(p);
  }

  /** The text with clean keys is refused exactly when its keys are malformed or repeated. */
  lemma CleanRefusedIff(p: DescriptorParams, read: KeyReader)
    requires p.Validate().None? && read(UNSPENDABLE_NUMS_XONLY).Some? && p.CleanKeys()
    ensures var s := BuildDescriptorString(p).value;
            ParseDescriptor(s, read) == Err(InvalidDescriptor(s)) <==> !ReadApart(p.Keys(), read)
  {
    hide ReadDescriptor, BuildDescriptorString, CleanKey, ReadApart;
    BuiltReadsBack(p);
    StandardTyped(p.ownerKey, p.heirKey, p.timelockBlocks);
    TreeKeys(p);
  }

  lemma GuardianCleanRefusedIff(p: GuardianDescriptorParams, read: KeyReader)
    requires p.Validate().None? && read(UNSPENDABLE_NUMS_XONLY).Some? && p.CleanKeys()
    ensures var s := BuildGuardianDescriptorString(p).value;
            ParseDescriptor(s, read) == Err(InvalidDescriptor(s)) <==> !ReadApart(p.Keys(), read)
  {
    hide ReadDescriptor, BuildGuardianDescriptorString, CleanKey, ReadApart;
    GuardianBuiltReadsBack(p);
    GuardianTyped(p.ownerKey, p.heirKey, p.guardian1Key, p.guardian2Key, p.timelockBlocks, p.unlockHeight);
    GuardianTreeKeys(p);
  }

  // ----- pairs of arbitrary fragments -----

  /**
   * For arbitrary fragments and an accepted timelock, the pair is built and both its texts parse to
   * the intended trees if and only if on each chain the fragments hold no delimiter and stand for
   * different keys. The builder's own check that both texts parse is not enough for that.
   */
  lemma PairIntendedIff(p: DescriptorParams, q: DescriptorParams, read: KeyReader)
    requires p.Validate().None? && p.timelockBlocks == q.timelockBlocks && read(UNSPENDABLE_NUMS_XONLY).Some?
    ensures var r := BuildDescriptorPair(p.ownerKey, q.ownerKey, p.heirKey, q.heirKey, p.timelockBlocks, read);
            (&& r.Ok?
             && ParseDescriptor(r.value.external, read) == Ok(Tr(UNSPENDABLE_NUMS_XONLY, p.Tree()))
             && ParseDescriptor(r.value.internal, read) == Ok(Tr(UNSPENDABLE_NUMS_XONLY, q.Tree())))
            <==> p.CleanKeys() && q.CleanKeys() && ReadApart(p.Keys(), read) && ReadApart(q.Keys(), read)
  {
    BuiltParsesBack(p, read);
    BuiltParsesBack(q, read);
    hide ParseDescriptor, CleanKey, ReadApart;
    assert BuildDescriptorString(p).Ok? && BuildDescriptorString(q).Ok?;
    hide BuildDescriptorString;
  }

  lemma GuardianPairIntendedIff(p: GuardianDescriptorParams, q: GuardianDescriptorParams, read: KeyReader)
    requires p.Validate().None? && read(UNSPENDABLE_NUMS_XONLY).Some?
    requires p.timelockBlocks == q.timelockBlocks && p.unlockHeight == q.unlockHeight
    ensures var r := BuildGuardianDescriptorPair(
                       p.ownerKey, q.ownerKey, p.heirKey, q.heirKey, p.guardian1Key, q.guardian1Key,
                       p.guardian2Key, q.guardian2Key, p.timelockBlocks, p.unlockHeight, read);
            (&& r.Ok?
             && ParseDescriptor(r.value.external, read) == Ok(Tr(UNSPENDABLE_NUMS_XONLY, p.Tree()))
             && ParseDescriptor(r.value.internal, read) == Ok(Tr(UNSPENDABLE_NUMS_XONLY, q.Tree())))
            <==> p.CleanKeys() && q.CleanKeys() && ReadApart(p.Keys(), read) && ReadApart(q.Keys(), read)
  {
    GuardianBuiltParsesBack(p, read);
    GuardianBuiltParsesBack(q, read);
    hide ParseDescriptor, CleanKey, ReadApart;
    assert BuildGuardianDescriptorString(p).Ok? && BuildGuardianDescriptorString(q).Ok?;
    hide BuildGuardianDescriptorString;
  }

  /** Fragments with delimiters in them: the owner's closes its own `pk` and opens another expression. */
  function UncleanParams(a: string, b: string, d: string, n: U32): DescriptorParams {
    DescriptorParams(a + "),and_v(v:or_d(pk(" + b, d + "),older(1))", n)
  }

  /** What their text says: another policy altogether, over the keys `a`, `b` and `d`. */
  function UncleanTree(a: string, b: string, d: string, n: nat): Expr<string> {
    OrD(Pk(a), AndV(V(OrD(Pk(b), AndV(V(Pk(d)), Older(1)))), Older(n)))
  }

  lemma UncleanText(a: string, b: string, d: string, n: U32)
    requires ValidateTimelock(n).None?
    ensures BuildDescriptorString(UncleanParams(a, b, d, n))
         == Ok(PrintDescriptor(Tr(UNSPENDABLE_NUMS_XONLY, UncleanTree(a, b, d, n))))
  {
    hide Print, Decimal.Print;
    var front, m := "tr(" + UNSPENDABLE_NUMS_XONLY + ",or_d(pk(", Decimal.Print(n);
    UncleanClaimText(a, b, d, n);
    OneText();
    UncleanTail(front + (a + "),and_v(v:or_d(pk(" + b) + "),and_v(v:pk(" + (d + "),older(1))"), m);
    UncleanMiddle(front, a, b, d, "),older(" + m + "))))");
    UncleanOuter(front + a, "or_d(pk(" + b + "),and_v(v:pk(" + d + "),older(1))", m);
    UncleanWhole(UNSPENDABLE_NUMS_XONLY, a, Print(UncleanTree(a, b, d, n).right));
  }

  lemma UncleanInnerText(b: string, d: string)
    ensures Print(StandardTree(b, d, 1)) == "or_d(pk(" + b + "),and_v(v:pk(" + d + "),older(1))" + ")"
  {
    hide Print;
    OrDText(b, AndV(V(Pk(d)), Older(1)));
    ClaimText(d, Older(1));
    OlderText(1);
    OneText();
    UncleanInner(b, d);
  }

  lemma UncleanClaimText(a: string, b: string, d: string, n: nat)
    ensures Print(UncleanTree(a, b, d, n).right)
         == "and_v(v:" + ("or_d(pk(" + b + "),and_v(v:pk(" + d + "),older(1))" + ")") + ","
            + ("older(" + Decimal.Print(n) + ")") + ")"
    ensures Print(UncleanTree(a, b, d, n)) == "or_d(pk(" + a + ")," + Print(UncleanTree(a, b, d, n).right) + ")"
  {
    hide Print, Decimal.Print;
    UncleanInnerText(b, d);
    OlderText(n);
    VerifiedText(StandardTree(b, d, 1), Older(n));
    OrDText(a, AndV(V(StandardTree(b, d, 1)), Older(n)));
  }

  lemma VerifiedText(x: Expr<string>, rest: Expr<string>)
    ensures Print(AndV(V(x), rest)) == "and_v(v:" + Print(x) + "," + Print(rest) + ")"
  {
    assert Print(V(x)) == "v:" + Print(x);
  }

  lemma OneText()
    ensures Decimal.Print(1) == "1"
  {}

  lemma UncleanInner(b: string, d: string)
    ensures "or_d(pk(" + b + ")," + ("and_v(v:pk(" + d + ")," + "older(1)" + ")") + ")"
         == "or_d(pk(" + b + "),and_v(v:pk(" + d + "),older(1)))"
  {}

  lemma UncleanMiddle(front: string, a: string, b: string, d: string, tail: string)
    ensures front + (a + "),and_v(v:or_d(pk(" + b) + "),and_v(v:pk(" + (d + "),older(1))") + tail
         == front + a + "),and_v(v:" + ("or_d(pk(" + b + "),and_v(v:pk(" + d + "),older(1))") + tail
  {}

  lemma UncleanOuter(front: string, inner: string, n: string)
    ensures front + "),and_v(v:" + inner + ("),older(" + n + "))))")
         == front + ")," + ("and_v(v:" + (inner + ")") + "," + ("older(" + n + ")") + ")") + "))"
  {}

  lemma UncleanTail(front: string, n: string)
    ensures front + "),older(" + n + "))))" == front + ("),older(" + n + "))))")
  {}

  lemma UncleanWhole(nums: string, a: string, claim: string)
    ensures "tr(" + nums + "," + ("or_d(pk(" + a + ")," + claim + ")") + ")"
         == "tr(" + nums + ",or_d(pk(" + a + ")," + claim + "))"
  {}

  lemma UncleanTyped(a: string, b: string, d: string, n: nat)
    requires TimelockOperand(n)
    ensures ValidLeaf(UncleanTree(a, b, d, n)) && KeysOf(UncleanTree(a, b, d, n)) == [a, b, d]
  {
    var inner := StandardTree(b, d, 1);
    StandardTyped(b, d, 1);
    assert TypeOf(V(inner)).Some? && TypeOf(V(inner)).value.base == VType;
    assert TypeOf<string>(Older(n)) == Some(Ty(B, true, false, false, false));
    assert KeysOf(V(Pk(d))) == [d];
    assert KeysOf(AndV(V(Pk(d)), Older(1))) == [d];
    assert KeysOf(inner) == [b, d];
    assert KeysOf(V(inner)) == [b, d];
    assert ValidLeaf(AndV(V(inner), Older(n)));
    assert KeysOf(AndV(V(inner), Older(n))) == [b, d];
  }

  /**
   * Fragments the pair builder accepts although its texts do not say what was asked for: for every
   * choice of different clean keys both texts parse, to the other policy.
   */
  lemma UncleanPairMisparses(a: string, b: string, d: string, e: string, f: string, g: string, n: U32, read: KeyReader)
    requires ValidateTimelock(n).None? && read(UNSPENDABLE_NUMS_XONLY).Some?
    requires CleanKey(a) && CleanKey(b) && CleanKey(d) && ReadApart([a, b, d], read)
    requires CleanKey(e) && CleanKey(f) && CleanKey(g) && ReadApart([e, f, g], read)
    ensures var p, q := UncleanParams(a, b, d, n), UncleanParams(e, f, g, n);
            var r := BuildDescriptorPair(p.ownerKey, q.ownerKey, p.heirKey, q.heirKey, n, read);
            && r.Ok?
            && ParseDescriptor(r.value.external, read) == Ok(Tr(UNSPENDABLE_NUMS_XONLY, UncleanTree(a, b, d, n)))
            && ParseDescriptor(r.value.internal, read) == Ok(Tr(UNSPENDABLE_NUMS_XONLY, UncleanTree(e, f, g, n)))
            && UncleanTree(a, b, d, n) != p.Tree() && UncleanTree(e, f, g, n) != q.Tree()
  {
    UncleanParses(a, b, d, n, read);
    UncleanParses(e, f, g, n, read);
    hide ParseDescriptor, BuildDescriptorString, CleanKey, ReadApart;
  }

  lemma UncleanParses(a: string, b: string, d: string, n: U32, read: KeyReader)
    requires ValidateTimelock(n).None? && read(UNSPENDABLE_NUMS_XONLY).Some?
    requires CleanKey(a) && CleanKey(b) && CleanKey(d) && ReadApart([a, b, d], read)
    ensures var built := BuildDescriptorString(UncleanParams(a, b, d, n));
            && built.Ok?
            && ParseDescriptor(built.value, read) == Ok(Tr(UNSPENDABLE_NUMS_XONLY, UncleanTree(a, b, d, n)))
            && UncleanTree(a, b, d, n) != UncleanParams(a, b, d, n).Tree()
  {
    hide PrintDescriptor, ReadDescriptor, BuildDescriptorString, CleanKey, ReadApart;
    UncleanText(a, b, d, n);
    UncleanTyped(a, b, d, n);
    UncleanPrintable(a, b, d, n);
    ReadsPrinted(UncleanTree(a, b, d, n));
  }

  lemma UncleanPrintable(a: string, b: string, d: string, n: U32)
    requires CleanKey(a) && CleanKey(b) && CleanKey(d)
    ensures Printable(UncleanTree(a, b, d, n))
  {
    hide CleanKey;
    var claim := AndV(V(Pk(d)), Older(1));
    assert Printable(V(Pk(d)));
    assert Printable(claim);
    assert Printable(OrD(Pk(b), claim));
    assert Printable(V(OrD(Pk(b), claim)));
    assert Printable(AndV(V(OrD(Pk(b), claim)), Older(n)));
  }

  // ----- distinct vaults -----

  /** Two different vaults never share a descriptor text. */
  lemma DistinctVaultsDistinctText(p: DescriptorParams, q: DescriptorParams)
    requires p.CleanKeys() && q.CleanKeys()
    requires BuildDescriptorString(p).Ok? && BuildDescriptorString(p) == BuildDescriptorString(q)
    ensures p == q
  {
    hide ReadDescriptor, CleanKey, Decimal.Print;
    BuiltReadsBack(p);
    BuiltReadsBack(q);
  }

  lemma DistinctGuardianVaultsDistinctText(p: GuardianDescriptorParams, q: GuardianDescriptorParams)
    requires p.CleanKeys() && q.CleanKeys()
    requires BuildGuardianDescriptorString(p).Ok?
    requires BuildGuardianDescriptorString(p) == BuildGuardianDescriptorString(q)
    ensures p == q
  {
    hide ReadDescriptor, CleanKey, Decimal.Print;
    GuardianBuiltReadsBack(p);
    GuardianBuiltReadsBack(q);
    assert p.Tree() == q.Tree();
    assert Gated(p.guardian1Key, p.guardian2Key, p.unlockHeight)
        == Gated(q.guardian1Key, q.guardian2Key, q.unlockHeight);
  }

  /** A standard vault and a guardian vault never share a descriptor text either. */
  lemma StandardIsNotGuardian(p: DescriptorParams, q: GuardianDescriptorParams)
    requires p.CleanKeys() && q.CleanKeys() && BuildDescriptorString(p).Ok?
    ensures BuildDescriptorString(p) != BuildGuardianDescriptorString(q)
  {
    hide ReadDescriptor, CleanKey, Decimal.Print;
    if q.Validate().None? {
      BuiltReadsBack(p);
      GuardianBuiltReadsBack(q);
    }
  }

  /** Every text built, of either family, starts with the NUMS key of BIP 341 as its internal key. */
  lemma BuiltOnNums(p: DescriptorParams, q: GuardianDescriptorParams)
    ensures var nums := "50929b74c1a04954" + "b78b4b6035e97a5e" + "078a5a0f28ec96d5" + "47bfee9ace803ac0";
            var start := "tr(" + nums + ",";
            && (BuildDescriptorString(p).Ok? ==> start <= BuildDescriptorString(p).value)
            && (BuildGuardianDescriptorString(q).Ok? ==> start <= BuildGuardianDescriptorString(q).value)
  {
    assert UNSPENDABLE_NUMS_XONLY
        == "50929b74c1a04954" + "b78b4b6035e97a5e" + "078a5a0f28ec96d5" + "47bfee9ace803ac0";
    hide Decimal.Print, UNSPENDABLE_NUMS_XONLY;
  }
}
