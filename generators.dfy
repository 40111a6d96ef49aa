/** The seven generator tiers of the clicker: their catalogue, the exponential
    price curve, the click bonus granted by auto clickers and the passive
    production rate. Bytes and production are exact reals here. */
module Generators {

  /** Growth factor of the price curve: with n units owned a tier costs
      ceil(base cost * 1.15^n), recomputed from the base cost on each purchase. */
  const PriceGrowth: real := 1.15

  /** Units of tier i - 1 that must be owned before tier i unlocks. */
  const UnlockThreshold: nat := 5

  datatype Generator = Generator(
    id: nat,
    name: string,
    baseCost: nat,
    cost: nat,
    count: nat,
    baseProduction: real,
    unlocked: bool)

  /** The generator table of a fresh game, in tier order. */
  const Catalogue: seq<Generator> := [
    Generator(0, "Auto Clicker", 10, 10, 0, 0.1, true),
    Generator(1, "Byte Compiler", 50, 50, 0, 0.5, false),
    Generator(2, "Data Miner", 250, 250, 0, 2.0, false),
    Generator(3, "Quantum Computer", 1000, 1000, 0, 10.0, false),
    Generator(4, "AI Cluster", 5000, 5000, 0, 50.0, false),
    Generator(5, "Quantum Network", 25000, 25000, 0, 250.0, false),
    Generator(6, "Digital Dimension", 100000, 100000, 0, 1000.0, false)
  ]

  /** x to the power n. */
  function Pow(x: real, n: nat): (r: real)
    ensures x >= 1.0 ==> r >= 1.0
  {
    if n == 0 then 1.0 else x * Pow(x, n - 1)
  }

  /** The least integer not below x. */
  function Ceil(x: real): (r: int)
    ensures x <= r as real < x + 1.0
  {
    -((-x).Floor)
  }

  /** Price of a generator of the given base cost once `count` units are owned. */
  function CostAt(baseCost: nat, count: nat): (r: nat)
    ensures baseCost <= r
    ensures count == 0 ==> r == baseCost
  {
    var p := Pow(PriceGrowth, count);
    assert baseCost as real <= baseCost as real * p;
    Ceil(baseCost as real * p)
  }

  /** Once 15% of the base cost is at least one byte, every purchase raises the
      price by at least one byte: the price strictly increases with the count. */
  lemma CostRises(baseCost: nat, count: nat)
    requires 7 <= baseCost
    ensures CostAt(baseCost, count) < CostAt(baseCost, count + 1)
  {
    var b, p := baseCost as real, Pow(PriceGrowth, count);
    assert Pow(PriceGrowth, count + 1) == PriceGrowth * p;
    assert b * p + 0.15 * b * p == b * (PriceGrowth * p);
    assert 0.15 * b * p >= 1.0 by {
      assert 0.15 * b >= 1.05;
      assert p >= 1.0;
    }
  }

  /** With n units owned the price is at least the base cost plus n bytes. */
  lemma {:induction false} CostAtLeastLinear(baseCost: nat, count: nat)
    requires 7 <= baseCost
    ensures baseCost + count <= CostAt(baseCost, count)
  {
    if count > 0 {
      CostAtLeastLinear(baseCost, count - 1);
      CostRises(baseCost, count - 1);
    }
  }

  /** Extra bytes per click: 0.1 for every full ten auto clickers (tier 0). */
  function ClickMultiplier(gs: seq<Generator>): (r: real)
    requires |gs| > 0
    ensures 0.0 <= r
    ensures (10.0 * r).Floor as real == 10.0 * r
    ensures 10.0 * r <= gs[0].count as real / 10.0 < 10.0 * r + 1.0
  {
    var k, c := gs[0].count / 10, gs[0].count as real;
    assert k as real <= c / 10.0 < k as real + 1.0 by {
      assert (k * 10) as real <= c < (k * 10 + 10) as real;
    }
    assert 10.0 * (k as real * 0.1) == k as real && (k as real).Floor == k;
    k as real * 0.1
  }

  /** Bytes gained by one click. */
  function ClickYield(gs: seq<Generator>): (r: real)
    requires |gs| > 0
    ensures r >= 1.0
    ensures r - 1.0 == ClickMultiplier(gs)
  {
    1.0 + ClickMultiplier(gs)
  }

  /** Bytes per second produced by the units of one generator. */
  function Output(g: Generator): real
  {
    g.count as real * g.baseProduction
  }

  /** Bytes per second produced by all generators, summed from the first tier
      to the last as the source's reduce does. */
  function Rate(gs: seq<Generator>): real
  {
    if gs == [] then 0.0 else Rate(gs[..|gs| - 1]) + Output(gs[|gs| - 1])
  }

  predicate NonNegativeProduction(gs: seq<Generator>)
  {
    forall i :: 0 <= i < |gs| ==> gs[i].baseProduction >= 0.0
  }

  lemma {:induction false} RateNonNegative(gs: seq<Generator>)
    requires NonNegativeProduction(gs)
    ensures Rate(gs) >= 0.0
  {
    if gs != [] {
      var n := |gs|;
      assert NonNegativeProduction(gs[..n - 1]);
      RateNonNegative(gs[..n - 1]);
      assert gs[n - 1].baseProduction >= 0.0;
    }
  }

  /** The rate is linear in each generator: replacing one generator changes
      the rate by exactly the difference of the two outputs. */
  lemma {:induction false} RateReplace(gs: seq<Generator>, i: nat, g: Generator)
    requires i < |gs|
    ensures Rate(gs[i := g]) == Rate(gs) - Output(gs[i]) + Output(g)
  {
    var n := |gs|;
    if i == n - 1 {
      assert gs[i := g][..n - 1] == gs[..n - 1];
    } else {
      assert gs[i := g][..n - 1] == gs[..n - 1][i := g];
      RateReplace(gs[..n - 1], i, g);
    }
  }

  /** The rate depends only on each generator's output: prices and unlock
      flags do not enter it. */
  lemma {:induction false} RateOfSameOutputs(gs: seq<Generator>, hs: seq<Generator>)
    requires |gs| == |hs|
    requires forall i :: 0 <= i < |gs| ==> Output(gs[i]) == Output(hs[i])
    ensures Rate(gs) == Rate(hs)
  {
    if gs != [] {
      var n := |gs|;
      RateOfSameOutputs(gs[..n - 1], hs[..n - 1]);
      assert Output(gs[n - 1]) == Output(hs[n - 1]);
    }
  }

  /** Every catalogue tier has a positive production and a base cost of at
      least ten bytes. */
  lemma CatalogueFacts()
    ensures |Catalogue| == 7
    ensures forall i :: 0 <= i < |Catalogue| ==>
      Catalogue[i].id == i && Catalogue[i].count == 0 &&
      Catalogue[i].cost == Catalogue[i].baseCost && 10 <= Catalogue[i].baseCost &&
      Catalogue[i].baseProduction > 0.0 && Catalogue[i].unlocked == (i == 0)
  {
  }
}
