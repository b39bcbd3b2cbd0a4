/** Exact decimal amounts and the two-fractional-digit rule. */
module Money {

  /** The amount written with two fractional digits: k cents. */
  function Cents(k: int): real
  {
    k as real / 100.0
  }

  /**
   * The decimal expansion of `v` has no digit after the second fractional
   * place, i.e. `v` is a whole number of cents.
   */
  predicate AtMostTwoDecimals(v: real)
  {
    (v * 100.0).Floor as real == v * 100.0
  }

  /** The two-decimal rule accepts exactly the whole numbers of cents. */
  lemma TwoDecimalsAreCents(v: real)
    ensures AtMostTwoDecimals(v) <==> exists k :: v == Cents(k)
  {
    if AtMostTwoDecimals(v) {
      assert v == Cents((v * 100.0).Floor);
    }
    if exists k :: v == Cents(k) {
      var k :| v == Cents(k);
      assert v * 100.0 == k as real;
    }
  }

  /** Sums and differences of whole cents are whole cents. */
  lemma TwoDecimalsClosed(a: real, b: real)
    requires AtMostTwoDecimals(a) && AtMostTwoDecimals(b)
    ensures AtMostTwoDecimals(a + b) && AtMostTwoDecimals(a - b)
  {
    var ka, kb := (a * 100.0).Floor, (b * 100.0).Floor;
    assert a * 100.0 == ka as real && b * 100.0 == kb as real;
    assert (a + b) * 100.0 == a * 100.0 + b * 100.0;
    assert (a - b) * 100.0 == a * 100.0 - b * 100.0;
    assert ((ka + kb) as real).Floor == ka + kb;
    assert ((ka - kb) as real).Floor == ka - kb;
  }

  /** 10.99 is accepted and 10.999 rejected (no silent rounding). */
  lemma PrecisionBoundary()
    ensures AtMostTwoDecimals(10.99)
    ensures !AtMostTwoDecimals(10.999)
    ensures AtMostTwoDecimals(0.0)
  {
    assert 10.99 * 100.0 == 1099.0;
    assert 10.999 * 100.0 == 1099.9;
    assert (1099.9).Floor == 1099;
  }
}
