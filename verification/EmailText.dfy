/** The text an owner's email is compared by on the device. */
module EmailText {

  /** White space and line ends, as `trim` of ECMA-262 removes them. */
  predicate Blank(c: char) {
    || '\t' <= c <= '\r' || c == ' ' || c == '\U{a0}' || c == '\U{1680}' || '\U{2000}' <= c <= '\U{200a}'
    || c == '\U{2028}' || c == '\U{2029}' || c == '\U{202f}' || c == '\U{205f}' || c == '\U{3000}'
    || c == '\U{feff}'
  }

  /** By code point: ECMA-262, WhiteSpace and LineTerminator. */
  lemma BlankIff(c: char)
    ensures Blank(c)
       <==> c as int in {9, 10, 11, 12, 13, 32, 0xA0, 0x1680, 0x2000, 0x2001, 0x2002, 0x2003, 0x2004, 0x2005, 0x2006,
                         0x2007, 0x2008, 0x2009, 0x200A, 0x2028, 0x2029, 0x202F, 0x205F, 0x3000, 0xFEFF}
  {}

  function TrimLeft(s: string): string {
    if s != "" && Blank(s[0]) then TrimLeft(s[1..]) else s
  }

  function TrimRight(s: string): string {
    if s != "" && Blank(s[|s| - 1]) then TrimRight(s[..|s| - 1]) else s
  }

  function Trim(s: string): string {
    TrimRight(TrimLeft(s))
  }

  function LowerChar(c: char): char {
    if 'A' <= c <= 'Z' then (c as int + 32) as char else c
  }

  function Lower(s: string): string {
    if s == "" then "" else [LowerChar(s[0])] + Lower(s[1..])
  }

  /** The lookup hash, symbolically: equal exactly for emails that normalise to the same text. */
  function HashEmailForLookup(email: string): string {
    Lower(Trim(email))
  }

  predicate LineBreak(c: char) {
    c == '\n' || c == '\r' || c == '\U{2028}' || c == '\U{2029}'
  }

  /** The pattern `^.+@.+\..+$` over a whole text. */
  predicate MatchesEmail(s: string) {
    && (forall i :: 0 <= i < |s| ==> !LineBreak(s[i]))
    && exists at, dot :: 0 < at && at + 1 < dot < |s| - 1 && s[at] == '@' && s[dot] == '.'
  }

  predicate LooksLikeEmail(address: string) {
    MatchesEmail(Trim(address))
  }

  lemma {:induction false} TrimRightKeepsFront(s: string)
    ensures TrimRight(s) <= s
    ensures TrimRight(s) == "" || !Blank(TrimRight(s)[|TrimRight(s)| - 1])
    decreases |s|
  {
    if s != "" && Blank(s[|s| - 1]) {
      TrimRightKeepsFront(s[..|s| - 1]);
    }
  }

  lemma {:induction false} TrimLeftFront(s: string)
    ensures TrimLeft(s) == "" || !Blank(TrimLeft(s)[0])
    decreases |s|
  {
    if s != "" && Blank(s[0]) {
      TrimLeftFront(s[1..]);
    }
  }

  /** An email is hashed the same before and after it was trimmed for storage. */
  lemma TrimmedEmailSameHash(email: string)
    ensures HashEmailForLookup(Trim(email)) == HashEmailForLookup(email)
  {
    var left := TrimLeft(email);
    TrimLeftFront(email);
    TrimRightKeepsFront(left);
    var t := Trim(email);
    if t != "" {
      assert t[0] == left[0];
    }
    assert TrimLeft(t) == t && TrimRight(t) == t;
  }

  // ----- which emails match -----

  /** Everything before `l` and from `r` on is blank, and nothing blank stands at the ends of what is between. */
  predicate CutsAt(email: string, l: int, r: int) {
    && 0 <= l <= r <= |email|
    && (forall i :: 0 <= i < l ==> Blank(email[i]))
    && (forall i :: r <= i < |email| ==> Blank(email[i]))
    && (l < r ==> !Blank(email[l]) && !Blank(email[r - 1]))
  }

  /** `core` is `email` without the blanks around it. */
  ghost predicate IsCore(email: string, core: string) {
    exists l, r :: CutsAt(email, l, r) && core == email[l..r]
  }

  /** The same character, or the upper and the lower case of one ASCII letter. */
  predicate SameUpToCase(a: char, b: char) {
    a == b || ('A' <= a <= 'Z' && b as int - a as int == 32) || ('A' <= b <= 'Z' && a as int - b as int == 32)
  }

  lemma {:induction false} TrimLeftCuts(s: string) returns (l: nat)
    ensures l <= |s| && TrimLeft(s) == s[l..] && forall i :: 0 <= i < l ==> Blank(s[i])
  {
    l := 0;
    if s != "" && Blank(s[0]) {
      var k := TrimLeftCuts(s[1..]);
      l := k + 1;
      assert forall i :: 1 <= i < l ==> s[i] == s[1..][i - 1];
    }
  }

  lemma {:induction false} TrimRightCuts(s: string) returns (r: nat)
    ensures r <= |s| && TrimRight(s) == s[..r] && forall i :: r <= i < |s| ==> Blank(s[i])
    decreases |s|
  {
    r := |s|;
    if s != "" && Blank(s[|s| - 1]) {
      r := TrimRightCuts(s[..|s| - 1]);
    }
  }

  /** Trimming leaves the core. */
  lemma TrimIsCore(email: string)
    ensures IsCore(email, Trim(email))
  {
    var l := TrimLeftCuts(email);
    var left := TrimLeft(email);
    var r := TrimRightCuts(left);
    TrimLeftFront(email);
    TrimRightKeepsFront(left);
    assert Trim(email) == email[l..l + r];
    assert forall i :: l + r <= i < |email| ==> email[i] == left[i - l];
    assert CutsAt(email, l, l + r);
  }

  lemma OneCut(email: string, l: nat, r: nat, m: nat, n: nat)
    requires CutsAt(email, l, r) && CutsAt(email, m, n)
    ensures email[l..r] == email[m..n]
  {
    hide Blank;
    if l < r || m < n {
      assert l == m && r == n;
    }
  }

  /** A text has one core. */
  lemma OneCore(email: string, a: string, b: string)
    requires IsCore(email, a) && IsCore(email, b)
    ensures a == b
  {
    hide Blank;
    var l, r :| CutsAt(email, l, r) && a == email[l..r];
    var m, n :| CutsAt(email, m, n) && b == email[m..n];
    OneCut(email, l, r, m, n);
  }

  lemma {:induction false} SameLower(a: string, b: string)
    ensures Lower(a) == Lower(b) <==> |a| == |b| && forall i :: 0 <= i < |a| ==> SameUpToCase(a[i], b[i])
  {
    if a != "" && b != "" {
      SameLower(a[1..], b[1..]);
      SameHead(LowerChar(a[0]), Lower(a[1..]), LowerChar(b[0]), Lower(b[1..]));
      assert |a| == |b| ==> forall i :: 1 <= i < |a| ==> a[i] == a[1..][i - 1] && b[i] == b[1..][i - 1];
      assert |a| == |b| ==> forall i :: 0 <= i < |a| - 1 ==> a[1..][i] == a[i + 1] && b[1..][i] == b[i + 1];
    }
  }

  lemma SameHead(c: char, s: string, d: char, t: string)
    ensures [c] + s == [d] + t <==> c == d && s == t
  {
    if [c] + s == [d] + t {
      assert ([c] + s)[0] == c && ([d] + t)[0] == d;
      assert ([c] + s)[1..] == s && ([d] + t)[1..] == t;
    }
  }

  /**
   * Two emails are filed together if and only if, without the blanks around them, they have the same
   * length and differ at most in the case of ASCII letters.
   */
  lemma SameHashIff(a: string, b: string, coreA: string, coreB: string)
    requires IsCore(a, coreA) && IsCore(b, coreB)
    ensures HashEmailForLookup(a) == HashEmailForLookup(b)
       <==> |coreA| == |coreB| && forall i :: 0 <= i < |coreA| ==> SameUpToCase(coreA[i], coreB[i])
  {
    TrimIsCore(a);
    TrimIsCore(b);
    OneCore(a, coreA, Trim(a));
    OneCore(b, coreB, Trim(b));
    SameLower(Trim(a), Trim(b));
  }

  /** Case and surrounding blanks of any kind do not matter. */
  lemma SameOwner()
    ensures HashEmailForLookup("\t Alice@X.org\r\n\U{a0}\U{feff}") == "alice@x.org"
  {
    var email, core := "\t Alice@X.org\r\n\U{a0}\U{feff}", "Alice@X.org";
    assert email[2..13] == core;
    assert CutsAt(email, 2, 13);
    TrimIsCore(email);
    OneCore(email, core, Trim(email));
    LowerAt(core, "alice@x.org");
  }

  lemma {:induction false} LowerAt(s: string, t: string)
    requires |s| == |t| && forall i :: 0 <= i < |s| ==> LowerChar(s[i]) == t[i]
    ensures Lower(s) == t
  {
    if s != "" {
      LowerAt(s[1..], t[1..]);
    }
  }

  /** A plain email has nothing to trim, and is one. */
  lemma PlainEmail()
    ensures Trim("o@x.org") == "o@x.org" && LooksLikeEmail("o@x.org")
  {
    var s := "o@x.org";
    assert !Blank(s[0]) && !Blank(s[6]);
    assert TrimLeft(s) == s && TrimRight(s) == s;
    assert s[1] == '@' && s[3] == '.';
  }

  /** Text that can stand in a part of an email: not empty, and without line breaks. */
  predicate EmailPart(s: string) {
    s != "" && forall i :: 0 <= i < |s| ==> s[i] !in "\n\r\U{2028}\U{2029}"
  }

  /** An address counts as an email if and only if it is, but for blanks around it, `name@host.domain`. */
  lemma LooksLikeEmailIff(address: string, core: string)
    requires IsCore(address, core)
    ensures LooksLikeEmail(address)
       <==> exists name, host, domain :: EmailPart(name) && EmailPart(host) && EmailPart(domain)
              && core == name + "@" + host + "." + domain
  {
    TrimIsCore(address);
    OneCore(address, core, Trim(address));
    hide IsCore, EmailPart, MatchesEmail;
    if MatchesEmail(core) {
      var name, host, domain := MatchParts(core);
    }
    if name, host, domain :| EmailPart(name) && EmailPart(host) && EmailPart(domain)
                             && core == name + "@" + host + "." + domain {
      PartsMatch(name, host, domain);
    }
  }

  lemma MatchParts(s: string) returns (name: string, host: string, domain: string)
    requires MatchesEmail(s)
    ensures EmailPart(name) && EmailPart(host) && EmailPart(domain) && s == name + "@" + host + "." + domain
  {
    var at, dot :| 0 < at && at + 1 < dot < |s| - 1 && s[at] == '@' && s[dot] == '.';
    name, host, domain := s[..at], s[at + 1..dot], s[dot + 1..];
    assert s == s[..at] + [s[at]] + s[at + 1..dot] + [s[dot]] + s[dot + 1..];
  }

  lemma PartsMatch(name: string, host: string, domain: string)
    requires EmailPart(name) && EmailPart(host) && EmailPart(domain)
    ensures MatchesEmail(name + "@" + host + "." + domain)
  {
    var s := name + "@" + host + "." + domain;
    var at, dot := |name|, |name| + 1 + |host|;
    assert s[at] == '@' && s[dot] == '.';
    forall i | 0 <= i < |s|
      ensures !LineBreak(s[i])
    {
      if i < at {
        assert s[i] == name[i];
      } else if at < i < dot {
        assert s[i] == host[i - at - 1];
      } else if dot < i {
        assert s[i] == domain[i - dot - 1];
      }
    }
  }
}
