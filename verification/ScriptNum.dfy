/**
 * Script numbers: the little-endian, sign-and-magnitude byte strings Bitcoin Script
 * computes with, and the truth value of a stack element.
 */
module ScriptNum {

  type Byte = n: nat | n < 256

  type Bytes = seq<Byte>

  function EncodeMagnitude(n: nat): Bytes {
    if n == 0 then [] else [n % 256] + EncodeMagnitude(n / 256)
  }

  function DecodeMagnitude(b: Bytes): nat {
    if b == [] then 0 else b[0] + 256 * DecodeMagnitude(b[1..])
  }

  /** The minimal push of a non-negative number: a zero byte is added when the sign bit would be set. */
  function Encode(n: nat): Bytes {
    var m := EncodeMagnitude(n);
    if m != [] && m[|m| - 1] >= 128 then m + [0] else m
  }

  /** The number a stack element stands for; the top bit of the last byte is the sign. */
  function Decode(b: Bytes): int {
    if b == [] then 0
    else if b[|b| - 1] >= 128 then -(DecodeMagnitude(b[|b| - 1 := b[|b| - 1] - 128]) as int)
    else DecodeMagnitude(b)
  }

  /** CastToBool: some byte is non-zero, and the element is not negative zero. */
  predicate Truthy(b: Bytes) {
    exists i :: 0 <= i < |b| && b[i] != 0 && !(i == |b| - 1 && b[i] == 128)
  }

  lemma {:induction false} MagnitudeRoundTrip(n: nat)
    ensures DecodeMagnitude(EncodeMagnitude(n)) == n
    ensures n != 0 ==> EncodeMagnitude(n) != [] && EncodeMagnitude(n)[|EncodeMagnitude(n)| - 1] != 0
  {
    if n != 0 {
      MagnitudeRoundTrip(n / 256);
      assert EncodeMagnitude(n)[1..] == EncodeMagnitude(n / 256);
    }
  }

  lemma {:induction false} MagnitudeWithZero(b: Bytes)
    ensures DecodeMagnitude(b + [0]) == DecodeMagnitude(b)
  {
    if b == [] {
      assert DecodeMagnitude([0]) == 0 + 256 * DecodeMagnitude([]);
    } else {
      assert (b + [0])[1..] == b[1..] + [0];
      MagnitudeWithZero(b[1..]);
    }
  }

  /** A pushed number reads back as itself and is true exactly when it is not zero. */
  lemma RoundTrip(n: nat)
    ensures Decode(Encode(n)) == n
    ensures Truthy(Encode(n)) <==> n != 0
  {
    var m := EncodeMagnitude(n);
    MagnitudeRoundTrip(n);
    if n != 0 {
      var last := |m| - 1;
      if m[last] >= 128 {
        MagnitudeWithZero(m);
        assert Encode(n)[last] != 0;
      } else {
        assert Encode(n)[last] != 0 && Encode(n)[last] != 128;
      }
    }
  }

  lemma {:induction false} MagnitudeZeroIff(b: Bytes)
    ensures DecodeMagnitude(b) == 0 <==> forall i :: 0 <= i < |b| ==> b[i] == 0
  {
    if b != [] {
      MagnitudeZeroIff(b[1..]);
      assert forall i :: 1 <= i < |b| ==> b[i] == b[1..][i - 1];
      assert forall i :: 0 <= i < |b| - 1 ==> b[1..][i] == b[i + 1];
    }
  }

  /** An element is true exactly when the number it stands for is not zero; negative zero is zero. */
  lemma TruthyIff(b: Bytes)
    ensures Truthy(b) <==> Decode(b) != 0
  {
    if b != [] {
      var last := |b| - 1;
      if b[last] >= 128 {
        var m := b[last := b[last] - 128];
        MagnitudeZeroIff(m);
        assert forall i :: 0 <= i < last ==> m[i] == b[i];
        assert m[last] == b[last] - 128;
      } else {
        MagnitudeZeroIff(b);
      }
    }
  }

  function Power256(k: nat): nat {
    if k == 0 then 1 else 256 * Power256(k - 1)
  }

  lemma {:induction false} MagnitudeLength(n: nat, k: nat)
    requires n < Power256(k)
    ensures |EncodeMagnitude(n)| <= k
  {
    if n != 0 {
      MagnitudeLength(n / 256, k - 1);
    }
  }

  /** Every 32-bit number fits the five bytes the timelock opcodes read. */
  lemma TimelockOperandFits(n: nat)
    requires n < 0x1_0000_0000
    ensures |Encode(n)| <= 5
  {
    assert Power256(4) == 0x1_0000_0000 by {
      assert Power256(1) == 256;
      assert Power256(2) == 65536;
      assert Power256(3) == 16777216;
    }
    MagnitudeLength(n, 4);
  }

  // ----- minimal pushes -----

  lemma {:induction false} MagnitudeBelow(b: Bytes)
    ensures DecodeMagnitude(b) < Power256(|b|)
    ensures b != [] && b[|b| - 1] < 128 ==> DecodeMagnitude(b) < 128 * Power256(|b| - 1)
  {
    if |b| > 1 {
      MagnitudeBelow(b[1..]);
    }
  }

  /** A magnitude whose last byte is at least 128 does not fit seven bits of that byte. */
  lemma {:induction false} MagnitudeAtLeast(n: nat)
    requires n > 0
    ensures var m := EncodeMagnitude(n);
            && m != [] && n >= Power256(|m| - 1)
            && (m[|m| - 1] >= 128 ==> n >= 128 * Power256(|m| - 1))
  {
    MagnitudeRoundTrip(n);
    if n >= 256 {
      MagnitudeAtLeast(n / 256);
    }
  }

  lemma {:induction false} PowersGrow(j: nat, k: nat)
    requires j <= k
    ensures 0 < Power256(j) <= Power256(k)
  {
    if j < k {
      PowersGrow(j, k - 1);
    } else if j > 0 {
      PowersGrow(j - 1, j - 1);
    }
  }

  lemma {:induction false} SameMagnitude(a: Bytes, b: Bytes)
    requires |a| == |b| && DecodeMagnitude(a) == DecodeMagnitude(b)
    ensures a == b
  {
    if a != [] {
      assert a[0] == DecodeMagnitude(a) % 256 && b[0] == DecodeMagnitude(b) % 256;
      SameMagnitude(a[1..], b[1..]);
      assert a == [a[0]] + a[1..] && b == [b[0]] + b[1..];
    }
  }

  lemma ReadsPositive(b: Bytes)
    requires Decode(b) > 0
    ensures b != [] && b[|b| - 1] < 128 && DecodeMagnitude(b) == Decode(b)
  {}

  lemma NoneShorter(n: nat, b: Bytes)
    requires n > 0 && b != [] && b[|b| - 1] < 128 && DecodeMagnitude(b) == n
    ensures |Encode(n)| <= |b|
  {
    MagnitudeBelow(b);
    MagnitudeAtLeast(n);
    hide EncodeMagnitude, DecodeMagnitude, Power256;
    if |b| < |EncodeMagnitude(n)| {
      PowersGrow(|b|, |EncodeMagnitude(n)| - 1);
    }
  }

  /** The push is minimal: no element that reads as the number is shorter, and none as short is another. */
  lemma EncodeIsShortest(n: nat, b: Bytes)
    requires Decode(b) == n
    ensures |Encode(n)| <= |b|
    ensures |Encode(n)| == |b| && n > 0 ==> Encode(n) == b
  {
    RoundTrip(n);
    if n > 0 {
      ReadsPositive(b);
      ReadsPositive(Encode(n));
      NoneShorter(n, b);
      hide Encode, Decode, DecodeMagnitude;
      if |Encode(n)| == |b| {
        SameMagnitude(Encode(n), b);
      }
    }
  }
}
