/** Ring buffers: an array that is overwritten in rotation, and the sequence of
    most recent values that it stands for.  Also sums and means of sequences. */
module Ring {

  /** The last `n` elements of `s`, or all of them. */
  function Last<T>(s: seq<T>, n: nat): (r: seq<T>)
    ensures |r| == if |s| <= n then |s| else n
  {
    if |s| <= n then s else s[|s| - n..]
  }

  /** The contents of a ring, oldest first. */
  function Unroll<T>(buf: seq<T>, idx: nat, filled: bool): seq<T>
    requires idx <= |buf|
  {
    if filled then buf[idx..] + buf[..idx] else buf[..idx]
  }

  function Next(idx: nat, size: nat): nat
    requires idx < size
  {
    (idx + 1) % size
  }

  lemma {:induction false} NextCases(idx: nat, size: nat)
    requires idx < size
    ensures Next(idx, size) == if idx + 1 == size then 0 else idx + 1
  {
    if idx + 1 < size {
      assert (idx + 1) % size == idx + 1;
    }
  }

  /** Overwriting the slot at `idx` keeps exactly the most recent values. */
  lemma {:induction false} Push<T>(buf: seq<T>, idx: nat, filled: bool, x: T)
    requires idx < |buf|
    ensures var next := Next(idx, |buf|);
      && next < |buf|
      && Unroll(buf[idx := x], next, filled || next == 0) == Last(Unroll(buf, idx, filled) + [x], |buf|)
  {
    NextCases(idx, |buf|);
    var next := Next(idx, |buf|);
    var was := Unroll(buf, idx, filled);
    if filled {
      assert Last(was + [x], |buf|) == was[1..] + [x];
    } else {
      assert Last(was + [x], |buf|) == was + [x];
    }
  }

  lemma {:induction false} LastPush<T>(s: seq<T>, x: T, n: nat)
    ensures Last(Last(s, n) + [x], n) == Last(s + [x], n)
  {
  }

  // ----- sums and means

  function Sum(s: seq<real>): real {
    if s == [] then 0.0 else Sum(s[..|s| - 1]) + s[|s| - 1]
  }

  function Mean(s: seq<real>): real
    requires s != []
  {
    Sum(s) / |s| as real
  }

  lemma {:induction false} SumConcat(a: seq<real>, b: seq<real>)
    ensures Sum(a + b) == Sum(a) + Sum(b)
  {
    if b == [] {
      assert a + b == a;
    } else {
      assert (a + b)[..|a + b| - 1] == a + b[..|b| - 1];
      SumConcat(a, b[..|b| - 1]);
    }
  }

  /** Summing the slots in array order sums the recent values. */
  lemma {:induction false} SumUnroll(buf: seq<real>, idx: nat, filled: bool)
    requires idx <= |buf|
    ensures Sum(Unroll(buf, idx, filled)) == Sum(buf[..if filled then |buf| else idx])
  {
    if filled {
      SumConcat(buf[idx..], buf[..idx]);
      SumConcat(buf[..idx], buf[idx..]);
      assert buf[..idx] + buf[idx..] == buf[..|buf|];
    }
  }

  lemma {:induction false} SumAtLeast(s: seq<real>, lo: real)
    requires forall i | 0 <= i < |s| :: lo <= s[i]
    ensures |s| as real * lo <= Sum(s)
  {
    if s != [] {
      var init := s[..|s| - 1];
      SumAtLeast(init, lo);
      assert |s| as real * lo == |init| as real * lo + lo;
    }
  }

  lemma {:induction false} Quotient(x: real, n: real, lo: real)
    requires n > 0.0 && n * lo <= x
    ensures x / n >= lo
  {
    assert x / n - lo == (x - n * lo) / n;
  }

  lemma {:induction false} MeanAtLeast(s: seq<real>, lo: real)
    requires s != [] && forall i | 0 <= i < |s| :: lo <= s[i]
    ensures Mean(s) >= lo
  {
    SumAtLeast(s, lo);
    Quotient(Sum(s), |s| as real, lo);
  }

  lemma {:induction false} SumBelow(s: seq<real>, hi: real)
    requires s != [] && forall i | 0 <= i < |s| :: s[i] < hi
    ensures Sum(s) < |s| as real * hi
  {
    var init := s[..|s| - 1];
    if init == [] {
      assert Sum(s) == s[0];
    } else {
      SumBelow(init, hi);
      assert |s| as real * hi == |init| as real * hi + hi;
    }
  }

  lemma {:induction false} QuotientBelow(x: real, n: real, hi: real)
    requires n > 0.0 && x < n * hi
    ensures x / n < hi
  {
    assert hi - x / n == (n * hi - x) / n;
  }

  lemma {:induction false} MeanBelow(s: seq<real>, hi: real)
    requires s != [] && forall i | 0 <= i < |s| :: s[i] < hi
    ensures Mean(s) < hi
  {
    SumBelow(s, hi);
    QuotientBelow(Sum(s), |s| as real, hi);
  }

  function MeanOrZero(s: seq<real>): real {
    if s == [] then 0.0 else Mean(s)
  }

  lemma {:induction false} DivideBack(x: real, d: real)
    requires d > 0.0
    ensures x * d / d == x
  {
  }

  lemma {:induction false} DivideSum(a: real, b: real, d: real)
    requires d > 0.0
    ensures (a * d + b) / d == a + b / d
  {
    assert (a + b / d) * d == a * d + b;
    DivideBack(a + b / d, d);
  }

  lemma {:induction false} MeanStep(sum: real, mean: real, n: real, x: real)
    requires n >= 0.0 && sum == mean * n
    ensures (sum + x) / (n + 1.0) == mean + (x - mean) / (n + 1.0)
  {
    assert sum + x == mean * (n + 1.0) + (x - mean);
    DivideSum(mean, x - mean, n + 1.0);
  }

  /** Updating a mean by one more value, without keeping the values. */
  lemma {:induction false} MeanUpdate(s: seq<real>, x: real)
    ensures var n := |s + [x]| as real;
      Mean(s + [x]) == MeanOrZero(s) + (x - MeanOrZero(s)) / n
  {
    assert (s + [x])[..|s|] == s;
    MeanStep(Sum(s), MeanOrZero(s), |s| as real, x);
  }
}
