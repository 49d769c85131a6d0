/** The one-off passphrase of a heir envelope: words drawn by rejection sampling. */
module Passphrase {
  import opened Wrappers
  import opened Division

  /** The number of values one draw can take. */
  const DRAWS: nat := 0x1_0000_0000

  type Draw = d: nat | d < DRAWS witness 0

  /** The largest multiple of the list size: draws at or above it are rejected. */
  function Limit(n: nat): nat
    requires n > 0
  {
    DRAWS / n * n
  }

  /** The word indices a tape of draws yields, in order. */
  function Picks(tape: seq<Draw>, n: nat): (r: seq<nat>)
    requires n > 0
    ensures |r| <= |tape| && forall i :: 0 <= i < |r| ==> r[i] < n
  {
    if tape == [] then []
    else
      var d := tape[|tape| - 1];
      Picks(tape[..|tape| - 1], n) + if d < Limit(n) then [d % n] else []
  }

  function Words(indices: seq<nat>, wordlist: seq<string>): (r: seq<string>)
    requires forall i :: 0 <= i < |indices| ==> indices[i] < |wordlist|
    ensures |r| == |indices| && forall i :: 0 <= i < |r| ==> r[i] == wordlist[indices[i]]
  {
    seq(|indices|, i requires 0 <= i < |indices| => wordlist[indices[i]])
  }

  function Hyphenated(words: seq<string>): string {
    if words == [] then ""
    else if |words| == 1 then words[0]
    else words[0] + "-" + Hyphenated(words[1..])
  }

  lemma {:induction false} PicksPrefix(tape: seq<Draw>, k: nat, n: nat)
    requires n > 0 && k <= |tape|
    ensures Picks(tape[..k], n) <= Picks(tape, n)
    decreases |tape|
  {
    if k < |tape| {
      var init := tape[..|tape| - 1];
      PicksPrefix(init, k, n);
      assert init[..k] == tape[..k];
    } else {
      assert tape[..k] == tape;
    }
  }

  /**
   * The sampling loop over a tape of random draws. Once the tape has yielded enough accepted
   * draws the passphrase is made of the first ones, in order; a shorter tape yields none.
   */
  method GeneratePassphrase(tape: seq<Draw>, wordlist: seq<string>, words: nat) returns (r: Option<string>)
    requires 0 < |wordlist| <= DRAWS
    ensures if words <= |Picks(tape, |wordlist|)|
            then r == Some(Hyphenated(Words(Picks(tape, |wordlist|)[..words], wordlist)))
            else r == None
  {
    var n := |wordlist|;
    var max := DRAWS / n * n;
    var out: seq<string> := [];
    var read := 0;
    while |out| < words
      invariant 0 <= read <= |tape| && |out| <= words
      invariant out == Words(Picks(tape[..read], n), wordlist)
      decreases |tape| - read
    {
      if read == |tape| {
        assert tape[..read] == tape;
        return None;
      }
      var draw := tape[read];
      assert tape[..read + 1][..read] == tape[..read] && tape[..read + 1][read] == draw;
      read := read + 1;
      if draw >= max {
        continue;
      }
      out := out + [wordlist[draw % n]];
    }
    PicksPrefix(tape, read, n);
    assert Picks(tape[..read], n) == Picks(tape, n)[..words];
    r := Some(Hyphenated(out));
  }

  /** The pieces of a text between its hyphens. */
  function BetweenHyphens(s: string): (r: seq<string>)
    ensures r != []
  {
    if s == "" then [""]
    else
      var rest := BetweenHyphens(s[1..]);
      if s[0] == '-' then [""] + rest else [[s[0]] + rest[0]] + rest[1..]
  }

  lemma {:induction false} OneWord(w: string, rest: string)
    requires '-' !in w
    ensures BetweenHyphens(w) == [w]
    ensures BetweenHyphens(w + "-" + rest) == [w] + BetweenHyphens(rest)
  {
    var s := w + "-" + rest;
    if w == "" {
      assert s[1..] == rest;
    } else {
      OneWord(w[1..], rest);
      assert s[1..] == w[1..] + "-" + rest;
      assert [w[0]] + w[1..] == w;
    }
  }

  /** The words can be read off the passphrase, between its hyphens. */
  lemma {:induction false} WordsReadBack(words: seq<string>)
    requires forall i :: 0 <= i < |words| ==> '-' !in words[i]
    ensures BetweenHyphens(Hyphenated(words)) == if words == [] then [""] else words
  {
    if words == [] {
    } else if |words| == 1 {
      OneWord(words[0], "");
      assert words == [words[0]];
    } else {
      WordsReadBack(words[1..]);
      OneWord(words[0], Hyphenated(words[1..]));
      assert words == [words[0]] + words[1..];
    }
  }

  // ----- no index is favoured -----

  /** The draws below a bound that give index `i`. */
  function Hits(bound: nat, n: nat, i: nat): set<int>
    requires n > 0
  {
    set d | 0 <= d < bound && d % n == i
  }

  /** One more full round of draws adds exactly one hit. */
  lemma HitsNextRound(q: nat, n: nat, i: nat)
    requires i < n
    ensures Hits(q * n + n, n, i) == Hits(q * n, n, i) + {q * n + i}
    ensures q * n + i !in Hits(q * n, n, i)
  {
    var start := q * n;
    forall d
      ensures d in Hits(start + n, n, i) <==> d in Hits(start, n, i) || d == start + i
    {
      if start <= d < start + n {
        DivMod(n, q, d - start);
      }
    }
  }

  lemma {:induction false} HitsCount(q: nat, n: nat, i: nat)
    requires i < n
    ensures |Hits(q * n, n, i)| == q
  {
    if q == 0 {
      assert Hits(q * n, n, i) == {};
    } else {
      HitsCount(q - 1, n, i);
      HitsNextRound(q - 1, n, i);
      assert (q - 1) * n + n == q * n;
    }
  }

  /** The accepted draws that pick a given index. */
  function AcceptedFor(n: nat, i: nat): set<int>
    requires n > 0
  {
    set d | 0 <= d < DRAWS && d < Limit(n) && d % n == i
  }

  /** For every list size each index has exactly the same number of accepted draws. */
  lemma DrawsAreUniform(n: nat, i: nat)
    requires 0 < n <= 0x1_0000_0000 && i < n
    ensures |AcceptedFor(n, i)| == 0x1_0000_0000 / n > 0
  {
    var q := DRAWS / n;
    assert q * n <= DRAWS;
    HitsCount(q, n, i);
    assert AcceptedFor(n, i) == Hits(q * n, n, i);
  }
}
