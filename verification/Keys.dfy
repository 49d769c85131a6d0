/** Key fragments of vault descriptors, and the origin-tagged key a sibling vault is built from. */
module Keys {
  import opened Wrappers
  import opened Grammar
  import Decimal

  datatype Network = Bitcoin | Testnet | Signet | Regtest

  datatype Chain = External | Internal {
    function Index(): nat {
      match this
      case External => 0
      case Internal => 1
    }
  }

  /** BIP 86 account path; the display form has no leading `m/`. */
  function VaultAccountPath(network: Network): string {
    "86'/" + Decimal.Print(if network == Bitcoin then 0 else 1) + "'/0'"
  }

  function WithoutMaster(path: string): string {
    if "m/" <= path then path[2..] else path
  }

  /** The key with its origin: `[fingerprint/path]xpub`. */
  function OriginTagged(fingerprint: string, path: string, xpub: string): string {
    "[" + fingerprint + "/" + WithoutMaster(path) + "]" + xpub
  }

  function DescriptorKeyFragment(fingerprint: string, path: string, xpub: string, chain: Chain): string {
    "[" + fingerprint + "/" + WithoutMaster(path) + "]" + xpub + "/" + Decimal.Print(chain.Index()) + "/*"
  }

  // ----- stripping the chain -----

  /** The text the pattern `/\d+/\*$` matches. */
  predicate ChainSuffix(s: string) {
    |s| >= 4 && s[0] == '/' && Decimal.AllDigits(s[1..|s| - 2]) && s[|s| - 2..] == "/*"
  }

  /** A slash, one or more digits, a slash and a star. */
  lemma ChainSuffixIff(s: string)
    ensures ChainSuffix(s) <==> exists digits :: digits != "" && Decimal.AllDigits(digits) && s == "/" + digits + "/*"
  {
    if ChainSuffix(s) {
      var digits := s[1..|s| - 2];
      assert s == "/" + digits + "/*";
      assert digits != "";
    }
    if digits :| digits != "" && Decimal.AllDigits(digits) && s == "/" + digits + "/*" {
      assert s[1..|s| - 2] == digits && s[|s| - 2..] == "/*";
    }
  }

  /** Where the leftmost match of the pattern at or after `i` starts. */
  function FindSuffix(s: string, i: nat): (r: Option<nat>)
    requires i <= |s|
    ensures r.Some? ==> i <= r.value <= |s| && ChainSuffix(s[r.value..])
    ensures forall j :: i <= j <= |s| && (r.None? || j < r.value) ==> !ChainSuffix(s[j..])
    decreases |s| - i
  {
    if ChainSuffix(s[i..]) then Some(i)
    else if i == |s| then None
    else FindSuffix(s, i + 1)
  }

  /** Drops the receive-path suffix of a key fragment, if it has one. */
  function FragmentToOriginTaggedXpub(fragment: string): string {
    match FindSuffix(fragment, 0)
    case None => fragment
    case Some(i) => fragment[..i]
  }

  /** A text that does not end in a chain suffix is left as it is. */
  lemma StripsNothingElse(s: string)
    requires forall i :: 0 <= i <= |s| ==> !ChainSuffix(s[i..])
    ensures FragmentToOriginTaggedXpub(s) == s
  {}

  /** At most one position of a text starts a chain suffix. */
  lemma SuffixIsUnique(s: string, i: nat, j: nat)
    requires i < j <= |s| && ChainSuffix(s[j..])
    ensures !ChainSuffix(s[i..])
  {
    var digits := s[i..][1..|s| - i - 2];
    assert digits[j - i - 1] == s[j];
    assert s[j..][0] == s[j];
  }

  /** Stripping removes exactly a chain suffix: whatever stands before it comes back unchanged. */
  lemma StripAppended(base: string, index: nat)
    ensures FragmentToOriginTaggedXpub(base + "/" + Decimal.Print(index) + "/*") == base
  {
    var suffix := "/" + Decimal.Print(index) + "/*";
    var s := base + "/" + Decimal.Print(index) + "/*";
    assert s == base + suffix;
    assert s[|base|..] == suffix;
    assert suffix[1..|suffix| - 2] == Decimal.Print(index);
    assert ChainSuffix(s[|base|..]);
    forall i | 0 <= i < |base|
      ensures !ChainSuffix(s[i..])
    {
      SuffixIsUnique(s, i, |base|);
    }
    assert s[..|base|] == base;
  }

  /**
   * From a printed owner fragment of either chain the stripped key is the origin-tagged xpub,
   * and appending the two chains again gives both of the owner's fragments: a sibling vault
   * built from it has the same owner branch.
   */
  lemma SiblingOwnerBranch(fingerprint: string, path: string, xpub: string, from: Chain, chain: Chain)
    ensures var tagged := FragmentToOriginTaggedXpub(DescriptorKeyFragment(fingerprint, path, xpub, from));
            && tagged == OriginTagged(fingerprint, path, xpub)
            && tagged + "/" + Decimal.Print(chain.Index()) + "/*"
               == DescriptorKeyFragment(fingerprint, path, xpub, chain)
  {
    StripAppended(OriginTagged(fingerprint, path, xpub), from.Index());
  }

  /** A fragment carries no delimiter when its parts do not. */
  lemma FragmentIsClean(fingerprint: string, path: string, xpub: string, chain: Chain)
    requires CleanKey(fingerprint) && CleanKey(path) && CleanKey(xpub)
    ensures CleanKey(DescriptorKeyFragment(fingerprint, path, xpub, chain))
  {
    var index := Decimal.Print(chain.Index());
    assert forall i :: 0 <= i < |index| ==> Decimal.IsDigit(index[i]);
    assert forall c :: Decimal.IsDigit(c) ==> !Delimiter(c);
  }

  /** Account paths: free of delimiters, without the leading `m/`, and telling mainnet from all test networks. */
  lemma AccountPaths(a: Network, b: Network)
    ensures CleanKey(VaultAccountPath(a)) && WithoutMaster(VaultAccountPath(a)) == VaultAccountPath(a)
    ensures VaultAccountPath(a) == VaultAccountPath(b) <==> (a == Bitcoin <==> b == Bitcoin)
  {
    var x, y := if a == Bitcoin then 0 else 1, if b == Bitcoin then 0 else 1;
    var p, q := Decimal.Print(x), Decimal.Print(y);
    assert p == [Decimal.DigitChar(x)] && q == [Decimal.DigitChar(y)];
    assert VaultAccountPath(a)[4] == p[0] && VaultAccountPath(b)[4] == q[0];
    assert VaultAccountPath(a)[0] != 'm';
  }

  /** Mainnet has coin type 0 and the test networks 1. */
  lemma AccountPathText(network: Network)
    ensures VaultAccountPath(network) == if network == Bitcoin then "86'/0'/0'" else "86'/1'/0'"
  {
    assert Decimal.Print(0) == "0" && Decimal.Print(1) == "1";
  }

  /** What a fragment looks like, with or without `m/` before its path: receiving is chain 0, change 1. */
  lemma FragmentText(fingerprint: string, path: string, xpub: string, withMaster: bool)
    requires !("m/" <= path)
    ensures var p := if withMaster then "m/" + path else path;
            && DescriptorKeyFragment(fingerprint, p, xpub, External)
               == "[" + fingerprint + "/" + path + "]" + xpub + "/0/*"
            && DescriptorKeyFragment(fingerprint, p, xpub, Internal)
               == "[" + fingerprint + "/" + path + "]" + xpub + "/1/*"
  {
    assert Decimal.Print(0) == "0" && Decimal.Print(1) == "1";
    assert ("m/" + path)[..2] == "m/" && ("m/" + path)[2..] == path;
    hide Decimal.Print;
    assert WithoutMaster(if withMaster then "m/" + path else path) == path;
  }
}
