/** Checked money arithmetic in minor units. */
module Money {
  import opened Basics
  import opened Sums

  const BASIS: int64 := 10000
  const HALF: int64 := 5000

  function CheckedMultiply(left: int64, right: int64): (r: Result<int64>)
    ensures left >= 0 && right >= 0 ==> (r.Ok? <==> left * right <= MAX64)
    ensures r.Ok? ==> left >= 0 && right >= 0 && r.value == left * right
    ensures r.Err? ==> r.error == MoneyOverflow
  {
    if left < 0 || right < 0 then Err(MoneyOverflow)
    else if right != 0 && left > MAX64 / right then
      QuotientBound(left, right);
      Err(MoneyOverflow)
    else
      if right != 0 then QuotientBound(left, right); Ok(left * right) else Ok(0)
  }

  lemma QuotientBound(left: int, right: int)
    requires left >= 0 && right > 0
    ensures left > MAX64 / right <==> left * right > MAX64
  {
    var q, m := MAX64 / right, MAX64 % right;
    assert MAX64 == q * right + m && 0 <= m < right;
    if left > q {
      assert left * right >= (q + 1) * right;
    } else {
      assert left * right <= q * right;
    }
    assert left * right >= 0;
  }

  function CheckedAdd(left: int64, right: int64): (r: Result<int64>)
    ensures left >= 0 && right >= 0 ==> (r.Ok? <==> left + right <= MAX64)
    ensures r.Ok? ==> left >= 0 && right >= 0 && r.value == left + right
    ensures r.Err? ==> r.error == MoneyOverflow
  {
    if left < 0 || right < 0 || left > MAX64 - right then Err(MoneyOverflow) else Ok(left + right)
  }

  function TaxAmount(subtotal: int64, basisPoints: int64): Result<int64> {
    if basisPoints < 0 || basisPoints > BASIS then Err(InvalidCommand) else
    var weighted :- CheckedMultiply(subtotal, basisPoints);
    var rounded :- CheckedAdd(weighted, HALF);
    Ok(rounded / BASIS)
  }

  /**
   * The tax is the exact tax rounded half up, never more than the subtotal, and it fails
   * exactly when the rate is out of range or the weighted amount leaves int64.
   */
  lemma TaxRounding(subtotal: int64, rate: int64)
    requires subtotal >= 0
    ensures TaxAmount(subtotal, rate).Ok? <==> 0 <= rate <= BASIS && subtotal * rate + HALF <= MAX64
    ensures TaxAmount(subtotal, rate).Ok? ==>
      var tax := TaxAmount(subtotal, rate).value;
      && 0 <= tax <= subtotal
      && -HALF < BASIS * tax - subtotal * rate <= HALF
  {
    if 0 <= rate <= BASIS {
      assert subtotal * rate >= 0;
      if subtotal * rate + HALF <= MAX64 {
        var tax := (subtotal * rate + HALF) / BASIS;
        assert subtotal * rate <= subtotal * BASIS;
        assert BASIS * tax <= subtotal * BASIS + HALF;
      }
    }
  }

  lemma TaxMonotone(subtotal: int64, rate: int64, subtotal': int64, rate': int64)
    requires 0 <= subtotal <= subtotal' && 0 <= rate <= rate'
    requires TaxAmount(subtotal', rate').Ok?
    ensures TaxAmount(subtotal, rate).Ok?
    ensures TaxAmount(subtotal, rate).value <= TaxAmount(subtotal', rate').value
  {
    TaxRounding(subtotal', rate');
    ProductMonotone(subtotal, rate, subtotal', rate');
    TaxRounding(subtotal, rate);
  }

  lemma ProductMonotone(a: int, b: int, a': int, b': int)
    requires 0 <= a <= a' && 0 <= b <= b'
    ensures 0 <= a * b <= a' * b'
  {
    assert a * b <= a' * b;
    assert a' * b <= a' * b';
  }

  /** Rounding drift over the lines of one sale taxed at one rate. */
  lemma {:induction false} TaxDrift(subtotals: seq<int64>, taxes: seq<int64>, rate: int64)
    requires |taxes| == |subtotals| > 0
    requires forall i :: 0 <= i < |taxes| ==> subtotals[i] >= 0 && TaxAmount(subtotals[i], rate) == Ok(taxes[i])
    ensures -HALF * |taxes| < BASIS * Total(taxes) - rate * Total(subtotals) <= HALF * |taxes|
  {
    var n := |taxes| - 1;
    TaxRounding(subtotals[n], rate);
    if n > 0 {
      TaxDrift(subtotals[..n], taxes[..n], rate);
    } else {
      assert subtotals[..n] == [] && taxes[..n] == [];
    }
    DriftStep(n, rate, Total(taxes[..n]), Total(subtotals[..n]), taxes[n], subtotals[n]);
  }

  lemma DriftStep(n: nat, rate: int, taxes: int, subtotals: int, tax: int, subtotal: int)
    requires n == 0 ==> taxes == 0 && subtotals == 0
    requires n > 0 ==> -HALF * n < BASIS * taxes - rate * subtotals <= HALF * n
    requires -HALF < BASIS * tax - subtotal * rate <= HALF
    ensures -HALF * (n + 1) < BASIS * (taxes + tax) - rate * (subtotals + subtotal) <= HALF * (n + 1)
  {
    assert rate * (subtotals + subtotal) == rate * subtotals + subtotal * rate;
  }

  function Total(amounts: seq<int64>): int {
    Sum(amounts, (x: int64) => x)
  }
}
