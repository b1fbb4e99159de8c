/** One rung of the production chain ("Accelerator Mk.N") and its geometric price curve. */
module Generators {
  import opened Numeric

  /** `amount` is the fractional quantity owned; `bought` counts units ever
      purchased and alone drives the price; `production` compounds per purchase. */
  datatype Generator = Generator(
    id: int,
    name: string,
    baseCost: real,
    costMult: real,
    amount: real,
    bought: nat,
    production: real)

  /** Every purchase multiplies a generator's production by 1.1. */
  const PurchaseBonus: real := 11.0 / 10.0

  /** Number of generator tiers in a fresh game. */
  const TierCount: nat := 8

  /** A fresh, unbought generator. */
  function Fresh(id: int, name: string, baseCost: real, costMult: real): Generator {
    Generator(id, name, baseCost, costMult, 0.0, 0, 1.0)
  }

  /** The eight tiers of `getInitialState`, cheapest first. */
  function InitialGenerators(): (r: seq<Generator>)
    ensures |r| == TierCount
    ensures forall j :: 0 <= j < |r| ==>
      r[j].id == j && r[j].baseCost > 0.0 && r[j].costMult > 1.0 &&
      r[j].amount == 0.0 && r[j].bought == 0 && r[j].production == 1.0
    ensures forall j :: 0 < j < |r| ==> r[j - 1].baseCost < r[j].baseCost
  {
    [ Fresh(0, "Accelerator Mk.1", 10.0, 15.0 / 10.0),
      Fresh(1, "Accelerator Mk.2", 100.0, 18.0 / 10.0),
      Fresh(2, "Accelerator Mk.3", 1000.0, 22.0 / 10.0),
      Fresh(3, "Accelerator Mk.4", 10000.0, 3.0),
      Fresh(4, "Accelerator Mk.5", 1000000.0, 4.0),
      Fresh(5, "Accelerator Mk.6", 100000000.0, 6.0),
      Fresh(6, "Accelerator Mk.7", 10000000000.0, 10.0),
      Fresh(7, "Accelerator Mk.8", 1000000000000.0, 15.0) ]
  }

  /** `getCost`: the price of the next unit, `baseCost * costMult^bought`. */
  function Cost(g: Generator): real {
    g.baseCost * Pow(g.costMult, g.bought)
  }

  /** The generator after one unit is paid for. */
  function Purchased(g: Generator): Generator {
    g.(amount := g.amount + 1.0, bought := g.bought + 1, production := g.production * PurchaseBonus)
  }

  /** What the "no infinite loop" comment of `buyMaxGenerator` (script.js:160) relies on:
      a positive base price that never shrinks. */
  predicate Priced(g: Generator) {
    g.baseCost > 0.0 && g.costMult >= 1.0
  }

  /** The price never drops below the base price. */
  lemma CostAtLeastBase(g: Generator)
    requires Priced(g)
    ensures Cost(g) >= g.baseCost
  {
    PowAtLeastOne(g.costMult, g.bought);
    MulMonotone(1.0, Pow(g.costMult, g.bought), g.baseCost);
  }

  /** With a growth ratio above one, the price is strictly increasing in `bought`. */
  lemma CostStrictlyIncreasing(g: Generator, m: nat, n: nat)
    requires g.baseCost > 0.0 && g.costMult > 1.0 && m < n
    ensures Cost(g.(bought := m)) < Cost(g.(bought := n))
  {
    PowStrictlyIncreasing(g.costMult, m, n);
    MulStrict(Pow(g.costMult, m), Pow(g.costMult, n), g.baseCost);
  }

  /** Each purchase multiplies the next price by exactly `costMult`. */
  lemma PurchasedCost(g: Generator)
    ensures Cost(Purchased(g)) == Cost(g) * g.costMult
  {
    assert Pow(g.costMult, g.bought + 1) == g.costMult * Pow(g.costMult, g.bought);
  }

  /** Total price of the next `n` units bought one after another. */
  function Spent(g: Generator, n: nat): real
    decreases n
  {
    if n == 0 then 0.0 else Spent(g, n - 1) + Cost(g.(bought := g.bought + n - 1))
  }

  /** `n` purchases in a row: amount and bought rise by `n`, production is
      multiplied by 1.1^n, everything else is kept. */
  function PurchasedTimes(g: Generator, n: nat): (r: Generator)
    decreases n
  {
    if n == 0 then g else Purchased(PurchasedTimes(g, n - 1))
  }

  lemma {:induction false} PurchasedTimesClosedForm(g: Generator, n: nat)
    ensures PurchasedTimes(g, n) == g.(amount := g.amount + n as real,
                                       bought := g.bought + n,
                                       production := g.production * Pow(PurchaseBonus, n))
    decreases n
  {
    if n > 0 {
      PurchasedTimesClosedForm(g, n - 1);
      assert g.production * Pow(PurchaseBonus, n - 1) * PurchaseBonus
          == g.production * (PurchaseBonus * Pow(PurchaseBonus, n - 1));
    }
  }

  /** Buying `m` units and then `n` more is the same as buying `m + n` units. */
  lemma PurchasedTimesCompose(g: Generator, m: nat, n: nat)
    ensures PurchasedTimes(PurchasedTimes(g, m), n) == PurchasedTimes(g, m + n)
  {
    PurchasedTimesClosedForm(g, m);
    PurchasedTimesClosedForm(PurchasedTimes(g, m), n);
    PurchasedTimesClosedForm(g, m + n);
    PowAdd(PurchaseBonus, m, n);
    assert g.production * Pow(PurchaseBonus, m) * Pow(PurchaseBonus, n)
        == g.production * (Pow(PurchaseBonus, m) * Pow(PurchaseBonus, n));
  }

  /** Buying `n` units from a priced generator costs at least `n` base prices. */
  lemma {:induction false} SpentAtLeast(g: Generator, n: nat)
    requires Priced(g)
    ensures Spent(g, n) >= n as real * g.baseCost
    decreases n
  {
    if n > 0 {
      SpentAtLeast(g, n - 1);
      CostAtLeastBase(g.(bought := g.bought + n - 1));
    }
  }
}
