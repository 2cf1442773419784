/** Facts about Euclidean division on naturals, which the solver does not find alone. */
module Arith {

  lemma MulMono(a: int, b: int, k: int)
    requires a <= b && k >= 0
    ensures a * k <= b * k
  {
  }

  /** Quotient and remainder are the only pair with `n == q * k + r` and `0 <= r < k`. */
  lemma DivModUnique(n: int, k: int, q: int, r: int)
    requires k > 0 && 0 <= r < k && n == q * k + r
    ensures n / k == q && n % k == r
  {
    var q', r' := n / k, n % k;
    assert n == q' * k + r';
    if q' < q {
      MulMono(q' + 1, q, k);
      assert false;
    } else if q < q' {
      MulMono(q + 1, q', k);
      assert false;
    }
  }

  /** Taking `k` away from `n` takes one from the quotient and keeps the remainder. */
  lemma DivStep(n: nat, k: nat)
    requires 0 < k <= n
    ensures (n - k) % k == n % k
    ensures (n - k) / k + 1 == n / k
  {
    var q, r := (n - k) / k, (n - k) % k;
    assert n - k == q * k + r;
    assert n == (q + 1) * k + r;
    DivModUnique(n, k, q + 1, r);
  }

  lemma DivSmall(n: nat, k: nat)
    requires n < k
    ensures n / k == 0 && n % k == n
  {
    DivModUnique(n, k, 0, n);
  }

  lemma DivLe(n: nat, k: nat)
    requires k > 0
    ensures n / k <= n
  {
    var q := n / k;
    assert n == q * k + n % k;
    MulMono(1, k, q);
  }

  lemma DivMul(n: nat, k: nat)
    requires k > 0
    ensures (n * k) / k == n && (n * k) % k == 0
  {
    DivModUnique(n * k, k, n, 0);
  }

  lemma DivModIdentity(n: nat, k: nat)
    requires k > 0
    ensures n == (n / k) * k + n % k && 0 <= n % k < k && n / k >= 0
  {
  }

  /** Dividing by two or more shrinks every positive number. */
  lemma DivShrinks(n: nat, k: nat)
    requires k >= 2 && n >= 1
    ensures n / k < n
  {
    var q := n / k;
    DivModIdentity(n, k);
    if q >= n {
      MulMono(n, q, k);
      MulMono(1, k, n);
      assert false;
    }
  }
}
