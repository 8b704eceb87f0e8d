/** Primality by trial division over 6k-1 and 6k+1, and the primes of a
    half-open range. */
module Prime {

  /** n has no divisor strictly between 1 and itself. */
  predicate IsPrimeNumber(n: int) {
    n >= 2 && forall d :: 2 <= d < n ==> n % d != 0
  }

  lemma {:induction false} MulMono(a: int, b: int, c: int)
    requires a >= 0 && b <= c
    ensures a * b <= a * c
  {
    assert a * c - a * b == a * (c - b);
  }

  /** A multiple of k leaves no remainder. */
  lemma {:induction false} ModMultiple(k: int, x: int)
    requires k > 0
    ensures (k * x) % k == 0
  {
    var q := (k * x) / k;
    var r := (k * x) % k;
    assert k * x == k * q + r;
    assert k * (x - q) == r;
    if x - q >= 1 {
      MulMono(k, 1, x - q);
    } else if x - q <= -1 {
      MulMono(k, x - q, -1);
    }
  }

  /** A divisor of a divisor is a divisor. */
  lemma {:induction false} DivisorOfDivisor(n: int, d: int, k: int)
    requires n > 0 && d > 0 && k > 0 && n % d == 0 && d % k == 0
    ensures n % k == 0
  {
    var q := n / d;
    var m := d / k;
    assert n == d * q;
    assert d == k * m;
    assert n == k * (m * q) by {
      assert n == (k * m) * q;
    }
    ModMultiple(k, m * q);
  }

  /** A divisor at or above `i` has a cofactor below `i` once `i * i > n`. */
  lemma {:induction false} SmallCofactor(n: int, d: int, i: int)
    requires 2 <= d < n && n % d == 0 && i >= 2 && d >= i && i * i > n
    ensures var c := n / d; 2 <= c < i && n % c == 0
  {
    var c := n / d;
    assert n == d * c;
    if c <= 0 {
      MulMono(d, c, 0);
    }
    if c >= i {
      MulMono(c, i, d);
      MulMono(i, i, c);
    }
    ModMultiple(c, d);
    assert c * d == n;
  }

  /** A number that `k` does not divide has no multiple of `k` as divisor. */
  lemma {:induction false} NoMultipleDivides(n: int, k: int, x: int)
    requires n > 0 && k > 0 && x > 0 && n % k != 0
    ensures n % (k * x) != 0
  {
    if n % (k * x) == 0 {
      MulMono(k, 1, x);
      ModMultiple(k, x);
      DivisorOfDivisor(n, k * x, k);
    }
  }

  /** No divisor in [2, k). */
  predicate NoDivisorBelow(n: int, k: int) {
    forall d :: 2 <= d < k ==> n % d != 0
  }

  /** Of the six numbers from a 6k-1, only the 6k-1 and the 6k+1 can divide
      a number that 2 and 3 do not divide. */
  lemma {:induction false} SkipsNonCandidates(n: int, i: int, t: nat)
    requires n > 0 && n % 2 != 0 && n % 3 != 0 && i == 6 * t + 5
    requires n % i != 0 && n % (i + 2) != 0
    ensures forall d :: i <= d < i + 6 ==> n % d != 0
  {
    forall d | i <= d < i + 6 ensures n % d != 0 {
      if d == i + 1 {
        assert d == 2 * (3 * t + 3);
        NoMultipleDivides(n, 2, 3 * t + 3);
      } else if d == i + 3 {
        assert d == 2 * (3 * t + 4);
        NoMultipleDivides(n, 2, 3 * t + 4);
      } else if d == i + 4 {
        assert d == 3 * (2 * t + 3);
        NoMultipleDivides(n, 3, 2 * t + 3);
      } else if d == i + 5 {
        assert d == 2 * (3 * t + 5);
        NoMultipleDivides(n, 2, 3 * t + 5);
      }
    }
  }

  /** No divisor below `i` and `i * i > n` leave no divisor at all. */
  lemma {:induction false} NoDivisorBelowRoot(n: int, i: int)
    requires n >= 2 && i >= 2 && i * i > n
    requires NoDivisorBelow(n, i)
    ensures IsPrimeNumber(n)
  {
    forall d | 2 <= d < n ensures n % d != 0 {
      if d >= i && n % d == 0 {
        SmallCofactor(n, d, i);
      }
    }
  }

  /** One round of the loop (`i` is 6t + 5): with no divisor below `i` and
      neither `i` nor `i + 2` dividing, there is none below `i + 6`. */
  lemma {:induction false} NextCandidates(n: int, i: int, t: nat)
    requires n > 3 && n % 2 != 0 && n % 3 != 0 && i == 6 * t + 5
    requires NoDivisorBelow(n, i)
    requires n % i != 0 && n % (i + 2) != 0
    ensures NoDivisorBelow(n, i + 6)
  {
    SkipsNonCandidates(n, i, t);
  }

  /** While `i * i <= n`, both candidates `i` and `i + 2` lie below `n`. */
  lemma {:induction false} CandidatesBelow(n: int, i: int)
    requires i >= 5 && i * i <= n
    ensures i + 2 < n
  {
    MulMono(i, 3, i);
  }

  /** A divisor strictly between 1 and `n` makes `n` composite. */
  lemma {:induction false} Composite(n: int, d: int)
    requires 2 <= d < n && n % d == 0
    ensures !IsPrimeNumber(n)
  {
  }

  /** `is_prime` */
  method IsPrime(n: int) returns (b: bool)
    ensures b == IsPrimeNumber(n)
  {
    SmallCases(n);
    if n <= 1 {
      return false;
    }
    if n <= 3 {
      return true;
    }
    if n % 2 == 0 || n % 3 == 0 {
      return false;
    }
    var i := 5;
    ghost var t: nat := 0;
    assert NoDivisorBelow(n, 5);
    while i * i <= n
      invariant i == 6 * t + 5
      invariant NoDivisorBelow(n, i)
      decreases n - i
    {
      CandidatesBelow(n, i);
      if n % i == 0 {
        Composite(n, i);
        return false;
      }
      if n % (i + 2) == 0 {
        Composite(n, i + 2);
        return false;
      }
      NextCandidates(n, i, t);
      i := i + 6;
      t := t + 1;
    }
    NoDivisorBelowRoot(n, i);
    return true;
  }

  predicate StrictlyAscending(s: seq<int>) {
    forall j, k :: 0 <= j < k < |s| ==> s[j] < s[k]
  }

  /** `primes_in_range`: the primes in [start, end), in order. */
  function PrimesInRange(start: int, end: int): (r: seq<int>)
    ensures forall x :: x in r <==> start <= x < end && IsPrimeNumber(x)
    ensures StrictlyAscending(r)
    ensures forall j :: 0 <= j < |r| ==> start <= r[j]
    decreases end - start
  {
    if start >= end then []
    else
      var rest := PrimesInRange(start + 1, end);
      if IsPrimeNumber(start) then [start] + rest else rest
  }

  /** An empty or reversed range has no primes. */
  lemma {:induction false} EmptyRange(start: int, end: int)
    requires start >= end
    ensures PrimesInRange(start, end) == []
  {
  }

  /** The small cases `is_prime` decides before its loop. */
  lemma {:induction false} SmallCases(n: int)
    ensures n <= 1 ==> !IsPrimeNumber(n)
    ensures IsPrimeNumber(2) && IsPrimeNumber(3)
    ensures n > 3 && (n % 2 == 0 || n % 3 == 0) ==> !IsPrimeNumber(n)
  {
  }
}
