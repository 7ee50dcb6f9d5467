/** Snapping limit prices to the minimum price variation (execution/pricing.py). */
module Pricing {

  datatype Side = Buy | Sell

  function Tick(price: real): (t: real)
    ensures t > 0.0
  {
    if price >= 1.0 then 0.01 else 0.0001
  }

  function Floor(x: real): int { x.Floor }

  function Ceiling(x: real): int { -((-x).Floor) }

  function RoundToTick(price: real, side: Side): real {
    var units := price / Tick(price);
    (if side.Sell? then Floor(units) else Ceiling(units)) as real * Tick(price)
  }

  predicate OnGrid(r: real, n: int, tick: real) {
    r == n as real * tick
  }

  /** The snapped price is on the grid, less than one tick away, and never less marketable than
      the caller asked for: sells only move down, buys only up. */
  lemma RoundToTickIsMarketable(price: real, side: Side)
    ensures var r := RoundToTick(price, side);
            && (exists n: int :: OnGrid(r, n, Tick(price)))
            && (side.Sell? ==> price - Tick(price) < r <= price)
            && (side.Buy? ==> price <= r < price + Tick(price))
  {
    var t := Tick(price);
    var units := price / t;
    assert units * t == price;
    var n := if side.Sell? then Floor(units) else Ceiling(units);
    var gap := units - n as real;
    assert OnGrid(RoundToTick(price, side), n, t);
    assert n as real * t == price - gap * t;
    if side.Sell? {
      assert 0.0 <= gap < 1.0;
    } else {
      assert -1.0 < gap <= 0.0;
    }
    assert -t < gap * t < t;
  }

  /** Rounding down the units an amount pays for. */
  lemma WholeUnits(amount: real, price: real)
    requires price > 0.0
    ensures var n := Floor(amount / price);
            && n as real * price <= amount < (n + 1) as real * price
            && (price <= amount <==> n >= 1)
  {
    var x := amount / price;
    var n := Floor(x);
    assert x * price == amount;
    var more := (n + 1) as real;
    assert n as real <= x < more && (n >= 1 <==> x >= 1.0);
    Times(n as real, x, price);
    Times(x, more, price);
    Times(1.0, x, price);
    Times(x, 1.0, price);
    assert amount < more * price;
  }

  lemma Times(x: real, y: real, price: real)
    requires price > 0.0
    ensures x <= y ==> x * price <= y * price
    ensures x < y ==> x * price < y * price
  {
  }
}
