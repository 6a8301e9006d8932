/**
 * The test vectors of RFC 4648, section 10, for `Base32.Encode`, proved by
 * writing both the input bytes and the expected five-bit groups as numbers.
 */
module Base32Vectors {
  import opened Base32

  /** The number whose base-`2^w` digits are `vs`, most significant first. */
  function Radix(vs: seq<nat>, w: nat): nat {
    if vs == [] then 0 else vs[0] * Pow2(w * (|vs| - 1)) + Radix(vs[1..], w)
  }

  /** Two bit strings of one length that denote the same number are equal. */
  lemma EqualByValue(p: seq<bool>, q: seq<bool>)
    requires |p| == |q| && BitsValue(p) == BitsValue(q)
    ensures p == q
  {
    NatBitsOfBitsValue(p);
    NatBitsOfBitsValue(q);
  }

  lemma {:induction false} UngroupValue(vs: seq<nat>, w: nat)
    requires w > 0
    requires forall i :: 0 <= i < |vs| ==> vs[i] < Pow2(w)
    ensures BitsValue(Ungroup(vs, w)) == Radix(vs, w)
  {
    if vs != [] {
      UngroupValue(vs[1..], w);
      BitsValueAppend(NatBits(vs[0], w), Ungroup(vs[1..], w));
      BitsValueOfNatBits(vs[0], w);
    }
  }

  lemma {:induction false} ZerosValue(n: nat)
    ensures BitsValue(Zeros(n)) == 0
  {
    if n > 0 {
      assert Zeros(n)[..n - 1] == Zeros(n - 1);
      ZerosValue(n - 1);
    }
  }

  /** The padded bits of `data` are the five-bit groups `vs` when both denote the same number. */
  lemma PaddedBits(data: seq<Byte>, pad: nat, vs: seq<nat>)
    requires forall i :: 0 <= i < |vs| ==> vs[i] < 32
    requires 8 * |data| + pad == 5 * |vs|
    requires Radix(data, 8) * Pow2(pad) == Radix(vs, 5)
    ensures BytesToBits(data) + Zeros(pad) == Ungroup(vs, 5)
  {
    var bits := BytesToBits(data);
    assert Pow2(8) == 256 && Pow2(5) == 32;
    UngroupValue(data, 8);
    UngroupValue(vs, 5);
    ZerosValue(pad);
    BitsValueAppend(bits, Zeros(pad));
    EqualByValue(bits + Zeros(pad), Ungroup(vs, 5));
  }

  /** `Encode(data)` from its five-bit groups `vs`, its `pad` zero bits and its `fill` '=' signs. */
  lemma EncodeByGroups(data: seq<Byte>, pad: nat, vs: seq<nat>, fill: nat)
    requires forall i :: 0 <= i < |vs| ==> vs[i] < 32
    requires Shortfall(8 * |data|, 5) == pad && 8 * |data| + pad == 5 * |vs| && Shortfall(|vs|, 8) == fill
    requires Radix(data, 8) * Pow2(pad) == Radix(vs, 5)
    ensures Encode(data) == Symbols(vs) + Repeat('=', fill)
  {
    PaddedBits(data, pad, vs);
    assert Pow2(5) == 32;
    GroupsUngroup(vs, 5);
  }

  // The groups of "f", "fo" and "foo", worked out digit by digit.

  lemma GroupsF()
    ensures Radix([102], 8) * Pow2(2) == Radix([12, 24], 5)
  {
    assert Pow2(0) == 1 && Pow2(2) == 4 && Pow2(5) == 32 && Pow2(8) == 256;
    assert Radix([102], 8) == 102;
    assert Radix([24], 5) == 24;
    assert Radix([12, 24], 5) == 408;
  }

  lemma GroupsFo()
    ensures Radix([102, 111], 8) * Pow2(4) == Radix([12, 25, 23, 16], 5)
  {
    assert Pow2(0) == 1 && Pow2(4) == 16 && Pow2(5) == 32 && Pow2(8) == 256 && Pow2(10) == 1024 && Pow2(15) == 32768;
    assert Radix([111], 8) == 111;
    assert Radix([102, 111], 8) == 26223;
    assert Radix([16], 5) == 16;
    assert Radix([23, 16], 5) == 752;
    assert Radix([25, 23, 16], 5) == 26352;
    assert Radix([12, 25, 23, 16], 5) == 419568;
  }

  lemma GroupsFoo()
    ensures Radix([102, 111, 111], 8) * Pow2(1) == Radix([12, 25, 23, 22, 30], 5)
  {
    assert Pow2(0) == 1 && Pow2(1) == 2 && Pow2(5) == 32 && Pow2(8) == 256 && Pow2(10) == 1024;
    assert Pow2(15) == 32768 && Pow2(16) == 65536 && Pow2(20) == 1048576;
    assert Radix([111], 8) == 111;
    assert Radix([111, 111], 8) == 28527;
    assert Radix([102, 111, 111], 8) == 6713199;
    assert Radix([30], 5) == 30;
    assert Radix([22, 30], 5) == 734;
    assert Radix([23, 22, 30], 5) == 24286;
    assert Radix([25, 23, 22, 30], 5) == 843486;
    assert Radix([12, 25, 23, 22, 30], 5) == 13426398;
  }

  /** RFC 4648, section 10: BASE32("") = "". */
  lemma EncodeVectorEmpty()
    ensures Encode([]) == ""
  {
    assert Groups([], 5) == [];
  }

  /** RFC 4648, section 10: BASE32("f") = "MY======". */
  lemma EncodeVectorF()
    ensures Encode([102]) == "MY======"
  {
    GroupsF();
    EncodeByGroups([102], 2, [12, 24], 6);
    assert Symbols([12, 24]) == "MY";
  }

  /** RFC 4648, section 10: BASE32("fo") = "MZXQ====". */
  lemma EncodeVectorFo()
    ensures Encode([102, 111]) == "MZXQ===="
  {
    GroupsFo();
    EncodeByGroups([102, 111], 4, [12, 25, 23, 16], 4);
    assert Symbols([12, 25, 23, 16]) == "MZXQ";
  }

  /** RFC 4648, section 10: BASE32("foo") = "MZXW6===". */
  lemma EncodeVectorFoo()
    ensures Encode([102, 111, 111]) == "MZXW6==="
  {
    GroupsFoo();
    EncodeByGroups([102, 111, 111], 1, [12, 25, 23, 22, 30], 3);
    assert Symbols([12, 25, 23, 22, 30]) == "MZXW6";
  }
}
