/**
 * Positional notation in an arbitrary base: the arithmetic shared by the
 * base-62 text form and the 16-byte big-endian form of a Spotify id.
 * Digit sequences are written most significant first (`BeValue`) or least
 * significant first (`LeValue`, the order of the digit buffer in `ToBase62`).
 */
module Positional {

  /** An octet: a digit in base 256. */
  type byte = x: nat | x < 256

  function Pow(base: nat, e: nat): (p: nat)
    ensures base > 0 ==> p > 0
  {
    if e == 0 then 1 else base * Pow(base, e - 1)
  }

  /** Every digit is a valid digit of `base`. */
  predicate DigitsBelow(ds: seq<nat>, base: nat) {
    forall k :: 0 <= k < |ds| ==> ds[k] < base
  }

  /** The value of a most-significant-first digit string (Horner's rule, read left to right). */
  function BeValue(base: nat, ds: seq<nat>): nat {
    if |ds| == 0 then 0 else BeValue(base, ds[..|ds| - 1]) * base + ds[|ds| - 1]
  }

  /** The value of a least-significant-first digit string. */
  function LeValue(base: nat, ds: seq<nat>): nat {
    if |ds| == 0 then 0 else ds[0] + base * LeValue(base, ds[1..])
  }

  /** The `count` lowest digits of `n`, most significant first. */
  function BeDigits(base: nat, n: nat, count: nat): (ds: seq<nat>)
    requires base > 0
    ensures |ds| == count && DigitsBelow(ds, base)
    decreases count
  {
    if count == 0 then [] else BeDigits(base, n / base, count - 1) + [n % base]
  }

  function Reversed<T>(s: seq<T>): (r: seq<T>)
    ensures |r| == |s|
  {
    if |s| == 0 then [] else [s[|s| - 1]] + Reversed(s[..|s| - 1])
  }

  lemma {:induction false} ReversedAt<T>(s: seq<T>, k: nat)
    requires k < |s|
    ensures Reversed(s)[k] == s[|s| - 1 - k]
  {
    if k > 0 {
      ReversedAt(s[..|s| - 1], k - 1);
    }
  }

  lemma {:induction false} PowMonotone(base: nat, a: nat, b: nat)
    requires base > 0 && a <= b
    ensures Pow(base, a) <= Pow(base, b)
  {
    if a < b {
      PowMonotone(base, a, b - 1);
      assert Pow(base, b) == base * Pow(base, b - 1);
    }
  }

  /** A digit string of length n is worth less than base^n. */
  lemma {:induction false} BeValueBound(base: nat, ds: seq<nat>)
    requires DigitsBelow(ds, base)
    ensures BeValue(base, ds) < Pow(base, |ds|)
  {
    if |ds| > 0 {
      var init := ds[..|ds| - 1];
      assert DigitsBelow(init, base);
      BeValueBound(base, init);
      var v := BeValue(base, init);
      var p := Pow(base, |init|);
      MulLe(v + 1, p, base);
      DistribRight(v, 1, base);
      assert Pow(base, |ds|) == base * p;
    }
  }

  lemma MulLe(a: nat, b: nat, c: nat)
    requires a <= b
    ensures a * c <= b * c
  {
    var d := b - a;
    assert b * c == a * c + d * c;
  }

  lemma DivisionIdentity(n: nat, base: nat)
    requires base > 0
    ensures n == (n / base) * base + n % base && n % base < base
  {
  }

  lemma Distrib(p: nat, a: nat, b: nat)
    ensures p * (a + b) == p * a + p * b
  {
  }

  lemma DistribRight(a: nat, b: nat, p: nat)
    ensures (a + b) * p == a * p + b * p
  {
  }

  lemma Assoc(p: nat, a: nat, b: nat)
    ensures (p * a) * b == p * (a * b)
  {
  }

  lemma Rotate(a: nat, b: nat, c: nat)
    ensures a * (b * c) == b * (a * c)
  {
  }

  /** Two quotient-remainder splits of the same number with the smaller quotient first agree. */
  lemma SplitUnique(base: nat, q1: nat, r1: nat, q2: nat, r2: nat)
    requires r1 < base && r2 < base && q1 <= q2
    requires q1 * base + r1 == q2 * base + r2
    ensures q1 == q2 && r1 == r2
  {
    if q1 < q2 {
      assert (q1 + 1) * base == q1 * base + base;
      MulLe(q1 + 1, q2, base);
    }
  }

  /** Euclidean division is unique: q and r are the quotient and remainder of q * base + r. */
  lemma DivMod(n: nat, base: nat, q: nat, r: nat)
    requires base > 0 && r < base && n == q * base + r
    ensures n / base == q && n % base == r
  {
    var q', r' := n / base, n % base;
    DivisionIdentity(n, base);
    if q' <= q {
      SplitUnique(base, q', r', q, r);
    } else {
      SplitUnique(base, q, r, q', r');
    }
  }

  /** Dividing a number below p * base by base leaves a number below p. */
  lemma QuotientBound(n: nat, base: nat, p: nat)
    requires base > 0 && n < p * base
    ensures n / base < p
  {
    var q := n / base;
    assert q * base <= n;
    if q >= p {
      MulLe(p, q, base);
    }
  }

  /** Reading back the digits of n gives n, when n fits in `count` digits. */
  lemma {:induction false} BeDigitsValue(base: nat, n: nat, count: nat)
    requires base > 0 && n < Pow(base, count)
    ensures BeValue(base, BeDigits(base, n, count)) == n
    decreases count
  {
    if count > 0 {
      var q, r := n / base, n % base;
      var init := BeDigits(base, q, count - 1);
      var ds := init + [r];
      assert ds == BeDigits(base, n, count);
      assert ds[..count - 1] == init;
      assert Pow(base, count) == Pow(base, count - 1) * base;
      QuotientBound(n, base, Pow(base, count - 1));
      BeDigitsValue(base, q, count - 1);
      assert BeValue(base, ds) == BeValue(base, init) * base + r;
      DivisionIdentity(n, base);
      assert BeValue(base, init) == q;
      assert BeValue(base, ds) == q * base + r;
    } else {
      assert Pow(base, 0) == 1;
      assert BeDigits(base, n, 0) == [];
    }
  }

  /** A digit string is the digit expansion of its own value: the representation is unique. */
  lemma {:induction false} BeDigitsUnique(base: nat, ds: seq<nat>)
    requires base > 0 && DigitsBelow(ds, base)
    ensures BeDigits(base, BeValue(base, ds), |ds|) == ds
  {
    if |ds| > 0 {
      var init := ds[..|ds| - 1];
      var last := ds[|ds| - 1];
      assert DigitsBelow(init, base);
      BeDigitsUnique(base, init);
      var n := BeValue(base, ds);
      assert n == BeValue(base, init) * base + last;
      DivMod(n, base, BeValue(base, init), last);
      assert ds == init + [last];
    }
  }

  lemma {:induction false} LeValueSnoc(base: nat, xs: seq<nat>, x: nat)
    ensures LeValue(base, xs + [x]) == LeValue(base, xs) + Pow(base, |xs|) * x
  {
    if |xs| > 0 {
      var tail := xs[1..];
      assert (xs + [x])[1..] == tail + [x];
      LeValueSnoc(base, tail, x);
      var v, p := LeValue(base, tail), Pow(base, |tail|);
      assert LeValue(base, xs + [x]) == xs[0] + base * (v + p * x);
      Distrib(base, v, p * x);
      Assoc(base, p, x);
      assert Pow(base, |xs|) == base * p;
    }
  }

  lemma {:induction false} BeValuePrepend(base: nat, x: nat, ys: seq<nat>)
    ensures BeValue(base, [x] + ys) == x * Pow(base, |ys|) + BeValue(base, ys)
  {
    if |ys| > 0 {
      var init := ys[..|ys| - 1];
      var last := ys[|ys| - 1];
      assert ([x] + ys)[..|ys|] == [x] + init;
      BeValuePrepend(base, x, init);
      var p, v := Pow(base, |init|), BeValue(base, init);
      assert BeValue(base, [x] + ys) == (x * p + v) * base + last;
      DistribRight(x * p, v, base);
      Assoc(x, p, base);
      assert Pow(base, |ys|) == base * p;
      assert BeValue(base, ys) == v * base + last;
    }
  }

  /** Reversing a least-significant-first string gives the most-significant-first string of the same value. */
  lemma {:induction false} BeValueReversed(base: nat, ds: seq<nat>)
    ensures BeValue(base, Reversed(ds)) == LeValue(base, ds)
  {
    if |ds| > 0 {
      var init := ds[..|ds| - 1];
      var last := ds[|ds| - 1];
      BeValueReversed(base, init);
      BeValuePrepend(base, last, Reversed(init));
      LeValueSnoc(base, init, last);
      assert ds == init + [last];
    }
  }

  lemma {:induction false} LeValueReversed(base: nat, ds: seq<nat>)
    ensures LeValue(base, Reversed(ds)) == BeValue(base, ds)
  {
    if |ds| > 0 {
      var init := ds[..|ds| - 1];
      LeValueReversed(base, init);
      assert Reversed(ds)[1..] == Reversed(init);
    }
  }

  /** Trailing zero digits of a least-significant-first string add nothing. */
  lemma {:induction false} LeValueZeroTail(base: nat, ds: seq<nat>, i: nat)
    requires i <= |ds|
    requires forall k :: i <= k < |ds| ==> ds[k] == 0
    ensures LeValue(base, ds) == LeValue(base, ds[..i])
    decreases |ds|
  {
    if i < |ds| {
      var init := ds[..|ds| - 1];
      assert init[..i] == ds[..i];
      LeValueZeroTail(base, init, i);
      LeValueSnoc(base, init, 0);
      assert ds == init + [0];
      assert LeValue(base, ds) == LeValue(base, init) + Pow(base, |init|) * 0;
    } else {
      assert ds[..i] == ds;
    }
  }

  lemma {:induction false} PowAdd(base: nat, a: nat, b: nat)
    ensures Pow(base, a + b) == Pow(base, a) * Pow(base, b)
    decreases b
  {
    if b > 0 {
      PowAdd(base, a, b - 1);
      var pa, pb := Pow(base, a), Pow(base, b - 1);
      assert Pow(base, a + b) == base * (pa * pb);
      assert Pow(base, b) == base * pb;
      Rotate(pa, base, pb);
    }
  }

  /** Dividing by a, then by b, is dividing by a * b. */
  lemma DivDiv(n: nat, a: nat, b: nat)
    requires a > 0 && b > 0
    ensures n / (a * b) == (n / a) / b
  {
    var q := n / a;
    DivisionIdentity(n, a);
    DivisionIdentity(q, b);
    var r1, q2, r2 := n % a, q / b, q % b;
    assert n == (q2 * b + r2) * a + r1;
    assert n == q2 * (a * b) + (r2 * a + r1);
    MulLe(r2, b - 1, a);
    assert (b - 1) * a == a * b - a;
    DivMod(n, a * b, q2, r2 * a + r1);
  }

  /** Reversing bytes and then reading them as digits is reversing the digits. */
  lemma ReversedBytes(bytes: seq<byte>, digits: seq<nat>)
    requires bytes == digits
    ensures Reversed(bytes) == Reversed(digits)
  {
    forall k | 0 <= k < |bytes| ensures Reversed(bytes)[k] == Reversed(digits)[k] {
      ReversedAt(bytes, k);
      ReversedAt(digits, k);
    }
  }

  /** `Array.Reverse` / `Span.Reverse`: reverses a buffer in place. */
  method ReverseInPlace<T>(a: array<T>)
    modifies a
    ensures a[..] == Reversed(old(a[..]))
  {
    ghost var s := a[..];
    var n := a.Length;
    var i := 0;
    while i < n / 2
      invariant 0 <= i <= n / 2
      invariant forall k :: 0 <= k < i ==> a[k] == s[n - 1 - k] && a[n - 1 - k] == s[k]
      invariant forall k :: i <= k < n - i ==> a[k] == s[k]
    {
      a[i], a[n - 1 - i] := a[n - 1 - i], a[i];
      i := i + 1;
    }
    forall k | 0 <= k < n
      ensures a[k] == Reversed(s)[k]
    {
      ReversedAt(s, k);
    }
  }
}
