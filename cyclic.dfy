/** Index arithmetic shared by the step slider and the hero slideshow: move forward or back
    by one over n positions, wrapping at both ends. Both operands of `%` are non-negative
    here, so the script's truncating `%` and Dafny's agree. */
module Cyclic {

  /** `(i + 1) % n`. */
  function Next(i: nat, n: nat): (j: nat)
    requires i < n
    ensures j < n
    ensures i < n - 1 ==> j == i + 1
    ensures i == n - 1 ==> j == 0
  {
    (i + 1) % n
  }

  /** `(i - 1 + n) % n`. */
  function Back(i: nat, n: nat): (j: nat)
    requires i < n
    ensures j < n
    ensures 0 < i ==> j == i - 1
    ensures i == 0 ==> j == n - 1
  {
    (i - 1 + n) % n
  }

  /** Next and Back undo each other. */
  lemma NextBackInverse(i: nat, n: nat)
    requires i < n
    ensures Back(Next(i, n), n) == i
    ensures Next(Back(i, n), n) == i
  {
  }

  /** `k` applications of Next, as `setInterval(showNextSlide, ...)` performs. */
  function Advance(i: nat, n: nat, k: nat): (j: nat)
    requires i < n
    ensures j < n
  {
    if k == 0 then i else Next(Advance(i, n, k - 1), n)
  }

  /** k steps forward land on `(i + k) % n`. */
  lemma {:induction false} AdvanceShifts(i: nat, n: nat, k: nat)
    requires i < n
    ensures Advance(i, n, k) == (i + k) % n
  {
    if k > 0 {
      AdvanceShifts(i, n, k - 1);
      var p := (i + k - 1) % n;
      assert Advance(i, n, k) == (p + 1) % n;
      ModStep(i + k - 1, n);
    }
  }

  /** Division by a positive n is unique: the quotient and remainder are determined. */
  lemma ModUnique(a: int, n: int, q: int, r: int)
    requires 0 < n && 0 <= r < n && a == q * n + r
    ensures a % n == r
  {
    var q', r' := a / n, a % n;
    assert a == q' * n + r';
    var d := q - q';
    assert d * n == r' - r by {
      assert q * n - q' * n == (q - q') * n;
    }
    if d >= 1 {
      assert d * n >= 1 * n by { MulMonotone(d, 1, n); }
    } else if d <= -1 {
      assert (-d) * n >= 1 * n by { MulMonotone(-d, 1, n); }
    }
  }

  lemma MulMonotone(a: int, b: int, n: int)
    requires a >= b && n > 0
    ensures a * n >= b * n
  {
    assert a * n - b * n == (a - b) * n;
  }

  lemma ModStep(a: nat, n: nat)
    requires 0 < n
    ensures (a % n + 1) % n == (a + 1) % n
  {
    var q, r := a / n, a % n;
    assert a == q * n + r;
    if r + 1 < n {
      ModUnique(a + 1, n, q, r + 1);
      ModUnique(r + 1, n, 0, r + 1);
    } else {
      assert a + 1 == (q + 1) * n + 0;
      ModUnique(a + 1, n, q + 1, 0);
      ModUnique(r + 1, n, 1, 0);
    }
  }

  /** After n steps every position is back where it started. */
  lemma FullCycle(i: nat, n: nat)
    requires i < n
    ensures Advance(i, n, n) == i
  {
    AdvanceShifts(i, n, n);
    ModUnique(i + n, n, 1, i);
  }
}
