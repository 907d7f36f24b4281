/** The average price shown above the listing. Prices are mathematical reals. */
module Pricing {
  import opened Catalog

  /** `products.reduce((sum, item) => sum + item.price, 0)`: a left fold. */
  function SumPrices(ps: seq<Product>): real
    decreases |ps|
  {
    if |ps| == 0 then 0.0 else SumPrices(ps[..|ps| - 1]) + ps[|ps| - 1].price
  }

  /** `avgPrice(products)`: 0 for no products, else the arithmetic mean. */
  function AvgPrice(ps: seq<Product>): (avg: real)
    ensures |ps| == 0 ==> avg == 0.0
    ensures |ps| > 0 ==> avg * (|ps| as real) == SumPrices(ps)
  {
    if |ps| == 0 then 0.0 else SumPrices(ps) / (|ps| as real)
  }

  lemma {:induction false} SumPricesBounds(ps: seq<Product>, lo: real, hi: real)
    requires forall i :: 0 <= i < |ps| ==> lo <= ps[i].price <= hi
    ensures (|ps| as real) * lo <= SumPrices(ps) <= (|ps| as real) * hi
    decreases |ps|
  {
    if |ps| > 0 {
      var init := ps[..|ps| - 1];
      assert forall i :: 0 <= i < |init| ==> init[i] == ps[i];
      SumPricesBounds(init, lo, hi);
    }
  }

  /** The mean lies between the cheapest and the dearest product. */
  lemma AvgPriceWithinBounds(ps: seq<Product>, lo: real, hi: real)
    requires |ps| > 0
    requires forall i :: 0 <= i < |ps| ==> lo <= ps[i].price <= hi
    ensures lo <= AvgPrice(ps) <= hi
  {
    SumPricesBounds(ps, lo, hi);
    var n := |ps| as real;
    var avg := AvgPrice(ps);
    assert avg * n == SumPrices(ps);
    assert n * lo <= n * avg <= n * hi;
  }

  /** The mean of products that all cost the same is that price. */
  lemma AvgPriceOfUniform(ps: seq<Product>, x: real)
    requires |ps| > 0
    requires forall i :: 0 <= i < |ps| ==> ps[i].price == x
    ensures AvgPrice(ps) == x
  {
    AvgPriceWithinBounds(ps, x, x);
  }

  /** The reduce loop of `avgPrice`, accumulating left to right. */
  method ComputeAvgPrice(ps: seq<Product>) returns (avg: real)
    ensures avg == AvgPrice(ps)
    ensures |ps| == 0 ==> avg == 0.0
    ensures |ps| > 0 ==> avg * (|ps| as real) == SumPrices(ps)
  {
    if |ps| == 0 {
      return 0.0;
    }
    var sum := 0.0;
    var i := 0;
    while i < |ps|
      invariant 0 <= i <= |ps|
      invariant sum == SumPrices(ps[..i])
    {
      assert ps[..i + 1][..i] == ps[..i];
      sum := sum + ps[i].price;
      i := i + 1;
    }
    assert ps[..i] == ps;
    avg := sum / (|ps| as real);
  }
}
