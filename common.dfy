/**
 * Small shared definitions: an optional value (for the record fields that
 * may be absent) and the rounded percentage that every dashboard shows.
 */
module Common {

  /** A value that may be absent, as an optional property of a stored record. */
  datatype Option<T> = None | Some(value: T)

  /**
   * `Math.round((part / whole) * 100)` for non-negative integers, as
   * integer arithmetic: the nearest integer to 100 * part / whole, with
   * halves rounded up.
   */
  function RoundPercent(part: nat, whole: nat): (r: nat)
    requires whole > 0
    ensures part == 0 ==> r == 0
    ensures part <= whole ==> r <= 100
    ensures part == whole ==> r == 100
  {
    RoundPercentCaps(part, whole);
    Quotient(200 * part + whole, 2 * whole)
  }

  /** The rounding is to the nearest integer, halves up: r - 1/2 <= 100 * part / whole < r + 1/2. */
  lemma RoundPercentNearest(part: nat, whole: nat)
    requires whole > 0
    ensures var r := RoundPercent(part, whole);
      (2 * r - 1) * whole <= 200 * part < (2 * r + 1) * whole
  {
    var n, d := 200 * part + whole, 2 * whole;
    var r := Quotient(n, d);
    QuotientBounds(n, d);
    assert r * d == 2 * r * whole;
    assert (r + 1) * d == 2 * r * whole + 2 * whole;
    assert (2 * r - 1) * whole == 2 * r * whole - whole;
    assert (2 * r + 1) * whole == 2 * r * whole + whole;
  }

  lemma RoundPercentCaps(part: nat, whole: nat)
    requires whole > 0
    ensures var r := Quotient(200 * part + whole, 2 * whole);
      && (part == 0 ==> r == 0)
      && (part <= whole ==> r <= 100)
      && (part == whole ==> r == 100)
  {
    var n, d := 200 * part + whole, 2 * whole;
    var r := Quotient(n, d);
    QuotientBounds(n, d);
    if part == 0 && r >= 1 {
      MulMono(1, r, d);
    }
    if part <= whole {
      assert n < 101 * d;
      if r >= 101 {
        MulMono(101, r, d);
      }
    }
    if part == whole {
      assert n == 100 * d + whole;
      if r < 100 {
        MulMono(r + 1, 100, d);
      }
    }
  }

  /**
   * Division of naturals by repeated subtraction. Its value is pinned down
   * by `QuotientBounds`; unlike the built-in operator it does not bring
   * non-linear division facts into every proof that mentions a percentage.
   */
  function Quotient(n: nat, d: nat): nat
    requires d > 0
    decreases n
  {
    if n < d then 0 else 1 + Quotient(n - d, d)
  }

  /** `Quotient(n, d)` is the largest q with q * d <= n. */
  lemma {:induction false} QuotientBounds(n: nat, d: nat)
    requires d > 0
    ensures Quotient(n, d) * d <= n < (Quotient(n, d) + 1) * d
    decreases n
  {
    if n >= d {
      QuotientBounds(n - d, d);
      var q := Quotient(n - d, d);
      assert (q + 1) * d == q * d + d;
      assert (q + 2) * d == q * d + 2 * d;
    }
  }

  /** Any q with q * d <= n < (q + 1) * d is the quotient. */
  lemma QuotientIs(n: nat, d: nat, q: nat)
    requires d > 0 && q * d <= n < (q + 1) * d
    ensures Quotient(n, d) == q
  {
    var k := Quotient(n, d);
    QuotientBounds(n, d);
    if k < q {
      MulMono(k + 1, q, d);
    } else if k > q {
      MulMono(q + 1, k, d);
    }
  }

  lemma MulMono(a: nat, b: nat, c: nat)
    requires a <= b
    ensures a * c <= b * c
  {
  }
}
