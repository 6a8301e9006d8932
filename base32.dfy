/**
 * The base32 encoding of RFC 4648, section 6, stated over bit strings,
 * together with the two string operations the task key generator applies
 * to its output: `str.replace` and `str.lower`.
 */
module Base32 {

  type Byte = x: nat | x < 256

  function Pow2(n: nat): (p: nat)
    ensures p >= 1
  {
    if n == 0 then 1 else 2 * Pow2(n - 1)
  }

  /** The number a bit string denotes, most significant bit first. */
  function BitsValue(bits: seq<bool>): (v: nat)
    ensures v < Pow2(|bits|)
    decreases |bits|
  {
    if bits == [] then 0
    else 2 * BitsValue(bits[..|bits| - 1]) + (if bits[|bits| - 1] then 1 else 0)
  }

  /** The low `n` bits of `v`, most significant first. */
  function NatBits(v: nat, n: nat): (bits: seq<bool>)
    ensures |bits| == n
  {
    if n == 0 then [] else NatBits(v / 2, n - 1) + [v % 2 == 1]
  }

  function Zeros(n: nat): (z: seq<bool>)
    ensures |z| == n && forall i :: 0 <= i < n ==> !z[i]
  {
    seq(n, _ => false)
  }

  /** `n` is a multiple of `w`, stated without multiplication. */
  predicate Multiple(n: nat, w: nat)
    requires w > 0
    decreases n
  {
    n == 0 || (n >= w && Multiple(n - w, w))
  }

  /** The values of the consecutive `w`-bit groups of `bits`. */
  function Groups(bits: seq<bool>, w: nat): (vs: seq<nat>)
    requires w > 0 && Multiple(|bits|, w)
    ensures w * |vs| == |bits|
    ensures forall i :: 0 <= i < |vs| ==> vs[i] < Pow2(w)
    decreases |bits|
  {
    if bits == [] then [] else [BitsValue(bits[..w])] + Groups(bits[w..], w)
  }

  /** Each value written as `w` bits, one after another. */
  function Ungroup(vs: seq<nat>, w: nat): (bits: seq<bool>)
    requires w > 0
    ensures |bits| == w * |vs| && Multiple(|bits|, w)
  {
    if vs == [] then [] else NatBits(vs[0], w) + Ungroup(vs[1..], w)
  }

  /** The bits of a byte string, eight per byte, most significant first. */
  function BytesToBits(data: seq<Byte>): (bits: seq<bool>)
    ensures |bits| == 8 * |data|
  {
    Ungroup(data, 8)
  }

  /** RFC 4648, section 6, Table 3: 0..25 are 'A'..'Z', 26..31 are '2'..'7'. */
  function Symbol(v: nat): char
    requires v < 32
  {
    if v < 26 then ('A' as int + v) as char else ('2' as int + (v - 26)) as char
  }

  function Symbols(vs: seq<nat>): (s: string)
    requires forall i :: 0 <= i < |vs| ==> vs[i] < 32
    ensures |s| == |vs|
  {
    seq(|vs|, i requires 0 <= i < |vs| => Symbol(vs[i]))
  }

  function Repeat(c: char, n: nat): (s: string)
    ensures |s| == n && forall i :: 0 <= i < n ==> s[i] == c
  {
    seq(n, _ => c)
  }

  /** How many units complete `n` to a multiple of `w`. */
  function Shortfall(n: nat, w: nat): (k: nat)
    requires w > 0
    ensures k < w
  {
    (w - n % w) % w
  }

  /**
   * Base32 (RFC 4648, section 6): the input bits are taken five at a time,
   * the last group completed with zero bits, each group is written as one
   * symbol of Table 3, and '=' completes the output to a multiple of eight
   * characters.
   */
  function Encode(data: seq<Byte>): string {
    var bits := BytesToBits(data);
    PaddedToFive(|bits|);
    var groups := Groups(bits + Zeros(Shortfall(|bits|, 5)), 5);
    Symbols(groups) + Repeat('=', Shortfall(|groups|, 8))
  }

  /** `s.replace(pattern, replacement)`: non-overlapping occurrences, left to right. */
  function Replace(s: string, pattern: string, replacement: string): string
    requires |pattern| > 0
    decreases |s|
  {
    if |s| < |pattern| then s
    else if s[..|pattern|] == pattern then replacement + Replace(s[|pattern|..], pattern, replacement)
    else [s[0]] + Replace(s[1..], pattern, replacement)
  }

  function LowerChar(c: char): char {
    if 'A' <= c <= 'Z' then (c as int + 32) as char else c
  }

  /** `s.lower()` on ASCII letters. */
  function Lower(s: string): (r: string)
    ensures |r| == |s|
  {
    seq(|s|, i requires 0 <= i < |s| => LowerChar(s[i]))
  }

  // ---------------------------------------------------------------------
  // Bit-string facts

  /** Writing a number as `n` bits and reading it back gives the number. */
  lemma {:induction false} BitsValueOfNatBits(v: nat, n: nat)
    requires v < Pow2(n)
    ensures BitsValue(NatBits(v, n)) == v
  {
    if n > 0 {
      BitsValueOfNatBits(v / 2, n - 1);
      var bits := NatBits(v, n);
      assert bits[..n - 1] == NatBits(v / 2, n - 1);
    }
  }

  /** Reading a bit string as a number and writing it back gives the bits. */
  lemma {:induction false} NatBitsOfBitsValue(bits: seq<bool>)
    ensures NatBits(BitsValue(bits), |bits|) == bits
    decreases |bits|
  {
    if bits != [] {
      var n := |bits|;
      NatBitsOfBitsValue(bits[..n - 1]);
      assert bits == bits[..n - 1] + [bits[n - 1]];
    }
  }

  /** The value of a concatenation: the prefix shifted left past the suffix. */
  lemma {:induction false} BitsValueAppend(p: seq<bool>, q: seq<bool>)
    ensures BitsValue(p + q) == BitsValue(p) * Pow2(|q|) + BitsValue(q)
    decreases |q|
  {
    if q == [] {
      assert p + q == p;
    } else {
      var m := |q|;
      var q', l := q[..m - 1], if q[m - 1] then 1 else 0;
      assert (p + q)[..|p + q| - 1] == p + q';
      assert BitsValue(p + q) == 2 * BitsValue(p + q') + l;
      assert BitsValue(q) == 2 * BitsValue(q') + l;
      BitsValueAppend(p, q');
      ShiftLeftOnce(BitsValue(p), Pow2(m - 1));
    }
  }

  /** Kept apart so that the nonlinear step is proved without the context above. */
  lemma ShiftLeftOnce(a: nat, e: nat)
    ensures a * (2 * e) == 2 * (a * e)
  {
  }

  /** `w * k` is a multiple of `w`. */
  lemma {:induction false} MultipleTimes(w: nat, k: nat)
    requires w > 0
    ensures Multiple(w * k, w)
  {
    if k > 0 {
      MultipleTimes(w, k - 1);
      assert w * k - w == w * (k - 1);
    }
  }

  /** Completing `n` bits with `Shortfall(n, 5)` zero bits gives whole 5-bit groups. */
  lemma {:induction false} PaddedToFive(n: nat)
    ensures Multiple(n + Shortfall(n, 5), 5)
  {
    if n == 0 {
    } else if n <= 5 {
      assert n + Shortfall(n, 5) == 5;
      assert Multiple(0, 5);
    } else {
      PaddedToFive(n - 5);
    }
  }

  /** Splitting into groups and writing the groups back out gives the bits. */
  lemma {:induction false} UngroupGroups(bits: seq<bool>, w: nat)
    requires w > 0 && Multiple(|bits|, w)
    ensures Ungroup(Groups(bits, w), w) == bits
    decreases |bits|
  {
    if bits != [] {
      var head, tail := bits[..w], bits[w..];
      assert Multiple(|tail|, w);
      var gs := Groups(bits, w);
      assert gs[0] == BitsValue(head) && gs[1..] == Groups(tail, w);
      assert Ungroup(gs, w) == NatBits(BitsValue(head), w) + Ungroup(Groups(tail, w), w);
      NatBitsOfBitsValue(head);
      UngroupGroups(tail, w);
      assert bits == head + tail;
    }
  }

  /** Writing values out as `w`-bit groups and reading the groups gives the values. */
  lemma {:induction false} GroupsUngroup(vs: seq<nat>, w: nat)
    requires w > 0
    requires forall i :: 0 <= i < |vs| ==> vs[i] < Pow2(w)
    ensures Groups(Ungroup(vs, w), w) == vs
  {
    if vs != [] {
      var bits := Ungroup(vs, w);
      BitsValueOfNatBits(vs[0], w);
      assert bits[..w] == NatBits(vs[0], w);
      assert bits[w..] == Ungroup(vs[1..], w);
      GroupsUngroup(vs[1..], w);
    }
  }

  /** Writing out a concatenation is concatenating the write-outs. */
  lemma {:induction false} UngroupAppend(us: seq<nat>, vs: seq<nat>, w: nat)
    requires w > 0
    ensures Ungroup(us + vs, w) == Ungroup(us, w) + Ungroup(vs, w)
  {
    if us != [] {
      assert (us + vs)[1..] == us[1..] + vs;
      UngroupAppend(us[1..], vs, w);
    } else {
      assert us + vs == vs;
    }
  }

  /** Grouping a concatenation of whole groups is concatenating the groupings. */
  lemma {:induction false} GroupsAppend(p: seq<bool>, q: seq<bool>, w: nat)
    requires w > 0 && Multiple(|p|, w) && Multiple(|q|, w)
    ensures Multiple(|p + q|, w)
    ensures Groups(p + q, w) == Groups(p, w) + Groups(q, w)
    decreases |p|
  {
    if p == [] {
      assert p + q == q;
    } else {
      var tail := p[w..];
      assert Multiple(|tail|, w);
      assert (p + q)[..w] == p[..w];
      assert (p + q)[w..] == tail + q;
      GroupsAppend(tail, q, w);
      assert Groups(p, w) == [BitsValue(p[..w])] + Groups(tail, w);
      assert Groups(p + q, w) == [BitsValue(p[..w])] + Groups(tail + q, w);
    }
  }

  /** `Replace` leaves a string alone up to a suffix that is exactly the pattern, when the rest has no '='. */
  lemma {:induction false} ReplaceTrailingPadding(s: string)
    requires forall i :: 0 <= i < |s| ==> s[i] != '='
    ensures Replace(s + "======", "======", "") == s
    decreases |s|
  {
    if s == [] {
      assert s + "======" == "======";
    } else {
      var t := s + "======";
      assert t[0] == s[0] != '=';
      assert t[..6] != "======";
      assert t[1..] == s[1..] + "======";
      ReplaceTrailingPadding(s[1..]);
    }
  }
}
