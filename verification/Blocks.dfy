/** Rows cut into blocks of r: the source's `//`, `%` and `*` with one divisor, kept recursive so that a proof names
    the arithmetic facts it uses. AsOperators says these are the operators themselves. */
module Blocks {

  /** q * r: the first row of block q. */
  function Off(q: nat, r: nat): nat {
    if q == 0 then 0 else Off(q - 1, r) + r
  }

  /** n // r: how many complete blocks n rows make. */
  function Count(n: nat, r: nat): nat
    requires 0 < r
  {
    if n < r then 0 else 1 + Count(n - r, r)
  }

  /** n % r. */
  function Rem(n: nat, r: nat): (m: nat)
    requires 0 < r
    ensures m < r
  {
    if n < r then n else Rem(n - r, r)
  }

  lemma {:induction false} OffIsMul(q: nat, r: nat)
    ensures Off(q, r) == q * r
  {
    if q > 0 {
      OffIsMul(q - 1, r);
    }
  }

  lemma QuotientUnique(n: int, r: int, q: int, m: int)
    requires 0 <= m < r && n == q * r + m
    ensures n / r == q && n % r == m
  {
    var d := n / r - q;
    assert d * r == n / r * r - q * r;
    assert d >= 1 ==> d * r >= r;
    assert d <= -1 ==> d * r <= -r;
  }

  lemma {:induction false} Split(n: nat, r: nat)
    requires 0 < r
    ensures Off(Count(n, r), r) + Rem(n, r) == n
  {
    if n >= r {
      Split(n - r, r);
    }
  }

  lemma DivMod(n: nat, r: nat)
    requires 0 < r
    ensures Count(n, r) == n / r && Rem(n, r) == n % r
  {
    Split(n, r);
    OffIsMul(Count(n, r), r);
    QuotientUnique(n, r, Count(n, r), Rem(n, r));
  }

  lemma {:induction false} AsOperators(n: nat, r: nat)
    requires 0 < r
    ensures Count(n, r) == n / r && Rem(n, r) == n % r && Off(n, r) == n * r
  {
    OffIsMul(n, r);
    DivMod(n, r);
  }

  lemma {:induction false} Unique(q: nat, m: nat, r: nat)
    requires m < r
    ensures Count(Off(q, r) + m, r) == q && Rem(Off(q, r) + m, r) == m
  {
    if q > 0 {
      Unique(q - 1, m, r);
    }
  }

  lemma {:induction false} OffAdd(a: nat, b: nat, r: nat)
    ensures Off(a + b, r) == Off(a, r) + Off(b, r)
  {
    if b > 0 {
      OffAdd(a, b - 1, r);
    }
  }

  lemma OneBlock(r: nat)
    ensures Off(0, r) == 0 && Off(1, r) == r
    ensures 0 < r ==> Count(0, r) == 0 && Rem(0, r) == 0
  {
  }

  lemma {:induction false} OffMonotone(a: nat, b: nat, r: nat)
    requires a <= b
    ensures Off(a, r) <= Off(b, r)
  {
    if a < b {
      OffMonotone(a, b - 1, r);
    }
  }

  lemma {:induction false} CountMonotone(a: nat, b: nat, r: nat)
    requires 0 < r && a <= b
    ensures Count(a, r) <= Count(b, r)
  {
    if r <= a {
      CountMonotone(a - r, b - r, r);
    }
  }

  /** Block q is complete within n rows exactly when q is below the count. */
  lemma Fits(q: nat, n: nat, r: nat)
    requires 0 < r
    ensures q <= Count(n, r) <==> Off(q, r) <= n
  {
    Split(n, r);
    if q <= Count(n, r) {
      OffMonotone(q, Count(n, r), r);
    } else {
      OffMonotone(Count(n, r) + 1, q, r);
    }
  }

  /** Adding rows: the counts add up over the remainder. */
  lemma Extend(n: nat, m: nat, r: nat)
    requires 0 < r
    ensures Count(n + m, r) == Count(n, r) + Count(Rem(n, r) + m, r)
    ensures Rem(n + m, r) == Rem(Rem(n, r) + m, r)
  {
    var t := Rem(n, r) + m;
    Split(n, r);
    Split(t, r);
    OffAdd(Count(n, r), Count(t, r), r);
    Unique(Count(n, r) + Count(t, r), Rem(t, r), r);
  }

  /** A multiple of a multiple of r is a multiple of r. */
  lemma {:induction false} MultipleOfMultiple(b: nat, block: nat, r: nat)
    requires 0 < r && 0 < block && Rem(block, r) == 0 && Rem(b, block) == 0
    ensures Rem(b, r) == 0
  {
    if b >= block {
      MultipleOfMultiple(b - block, block, r);
      Extend(b - block, block, r);
    }
  }
}
