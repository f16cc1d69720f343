// The cost curve of businesses and the income rates derived from a player's
// holdings: passive income per second and the value of one manual click.

module Rates {
  import opened Catalog

  /** Each unit of a business makes the next one 15% dearer. */
  const COST_GROWTH: real := 1.15
  /** A manual click is worth 5% of a second of passive income (at least 1). */
  const CLICK_SHARE: real := 0.05

  function Pow(x: real, n: nat): (p: real)
    ensures x >= 1.0 ==> p >= 1.0
  {
    if n == 0 then 1.0 else x * Pow(x, n - 1)
  }

  function Max(a: real, b: real): real {
    if a >= b then a else b
  }

  lemma AtLeastOneProduct(a: real, b: real, c: real)
    requires a >= 1.0 && b >= 1.0 && c >= 1.0
    ensures a * b * c >= 1.0
  {
    assert a * b >= 1.0 * b;
    assert a * b * c >= 1.0 * c;
  }

  // ---------------------------------------------------------------------
  // Cost curve
  // ---------------------------------------------------------------------

  /** Price of the next unit of a business of which `count` are owned:
      floor(baseCost * 1.15^count). */
  function BusinessCost(baseCost: nat, count: nat): (cost: int)
    ensures 0 <= cost
    ensures count == 0 ==> cost == baseCost
  {
    (baseCost as real * Pow(COST_GROWTH, count)).Floor
  }

  lemma CostStep(baseCost: nat, n: nat)
    ensures BusinessCost(baseCost, n) <= BusinessCost(baseCost, n + 1)
  {
    var x := baseCost as real * Pow(COST_GROWTH, n);
    assert baseCost as real * Pow(COST_GROWTH, n + 1) == x * COST_GROWTH;
    assert x >= 0.0;
  }

  /** The price never falls as more units are bought. */
  lemma {:induction false} CostMonotone(baseCost: nat, m: nat, n: nat)
    requires m <= n
    ensures BusinessCost(baseCost, m) <= BusinessCost(baseCost, n)
  {
    if m < n {
      CostMonotone(baseCost, m, n - 1);
      CostStep(baseCost, n - 1);
    }
  }

  /** With a base cost of at least 7 every purchase raises the price by at
      least 1: the 15% step is then worth at least 1.05 before truncation. */
  lemma CostStrictlyIncreasing(baseCost: nat, n: nat)
    requires baseCost >= 7
    ensures BusinessCost(baseCost, n) < BusinessCost(baseCost, n + 1)
  {
    var p := Pow(COST_GROWTH, n);
    var x := baseCost as real * p;
    assert x >= baseCost as real by {
      assert p >= 1.0;
    }
    assert baseCost as real * Pow(COST_GROWTH, n + 1) == x + 0.15 * x;
  }

  /** Every catalog business gets strictly dearer with each unit bought. */
  lemma CatalogCostsStrictlyIncrease(b: Business, n: nat)
    requires b in BUSINESSES
    ensures BusinessCost(b.baseCost, n) < BusinessCost(b.baseCost, n + 1)
  {
    CatalogFacts();
    CostStrictlyIncreasing(b.baseCost, n);
  }

  /** The bound in CostStrictlyIncreasing matters: a business costing 1 keeps
      its price after the first purchase. */
  lemma CostCanStallForCheapBusinesses()
    ensures BusinessCost(1, 0) == BusinessCost(1, 1) == 1
  {
    assert Pow(COST_GROWTH, 1) == 1.15;
  }

  // ---------------------------------------------------------------------
  // Passive income and click value
  // ---------------------------------------------------------------------

  /** The number of units of business `id` owned; an absent key counts 0. */
  function Count(counts: map<string, nat>, id: string): nat {
    if id in counts then counts[id] else 0
  }

  /** Sum over the business list of base income times units owned. */
  function BaseIncome(counts: map<string, nat>, cat: seq<Business>): nat {
    if cat == [] then 0
    else
      var b := cat[|cat| - 1];
      BaseIncome(counts, cat[..|cat| - 1]) + b.baseIncome * Count(counts, b.id)
  }

  /** With nothing owned there is no base income. */
  lemma {:induction false} BaseIncomeOfNothing(counts: map<string, nat>, cat: seq<Business>)
    requires forall b :: b in cat ==> Count(counts, b.id) == 0
    ensures BaseIncome(counts, cat) == 0
  {
    if cat != [] {
      BaseIncomeOfNothing(counts, cat[..|cat| - 1]);
    }
  }

  /** Counts held under an identifier that is not in the list earn nothing. */
  lemma {:induction false} BaseIncomeIgnoresUnknownIds(counts: map<string, nat>, cat: seq<Business>, id: string, c: nat)
    requires id !in BusinessIds(cat)
    ensures BaseIncome(counts[id := c], cat) == BaseIncome(counts, cat)
  {
    if cat != [] {
      var init := cat[..|cat| - 1];
      assert BusinessIds(init) <= BusinessIds(cat);
      assert cat[|cat| - 1] in cat;
      BaseIncomeIgnoresUnknownIds(counts, init, id, c);
    }
  }

  /** The first upgrade of the list carrying `id`, as a linear search does. */
  function FindUpgrade(id: string, cat: seq<Upgrade>): (r: Option<Upgrade>)
    ensures r.Some? ==> r.value in cat && r.value.id == id
    ensures r.None? <==> forall u :: u in cat ==> u.id != id
    ensures r.Some? ==> exists i :: 0 <= i < |cat| && cat[i] == r.value && forall j :: 0 <= j < i ==> cat[j].id != id
  {
    if cat == [] then None
    else if cat[0].id == id then Some(cat[0])
    else
      var r := FindUpgrade(id, cat[1..]);
      assert r.Some? ==> exists i :: 0 <= i < |cat| && cat[i] == r.value && forall j :: 0 <= j < i ==> cat[j].id != id by {
        if r.Some? {
          var i :| 0 <= i < |cat[1..]| && cat[1..][i] == r.value && forall j :: 0 <= j < i ==> cat[1..][j].id != id;
          assert cat[i + 1] == r.value;
          forall j | 0 <= j < i + 1
            ensures cat[j].id != id
          {
            if j > 0 {
              assert cat[j] == cat[1..][j - 1];
            }
          }
        }
      }
      r
  }

  /** What one owned upgrade id contributes to the multiplier of `kind`:
      its own multiplier if it is a known upgrade of that kind, 1 otherwise. */
  function Factor(id: string, kind: Kind, cat: seq<Upgrade>): real {
    match FindUpgrade(id, cat)
    case Some(u) => if u.kind == kind then u.mult else 1.0
    case None => 1.0
  }

  /** Product of `f` over a list of ids, folded from the left. */
  function ProductOf(ids: seq<string>, f: string -> real): real {
    if ids == [] then 1.0 else ProductOf(ids[..|ids| - 1], f) * f(ids[|ids| - 1])
  }

  /** The factor function of one kind of upgrade. */
  function FactorOf(kind: Kind, cat: seq<Upgrade>): string -> real {
    id => Factor(id, kind, cat)
  }

  /** Product of the factors of the owned upgrade ids, in ownership order. */
  function Multiplier(ids: seq<string>, kind: Kind, cat: seq<Upgrade>): real {
    ProductOf(ids, FactorOf(kind, cat))
  }

  /** Upgrades never reduce income: a product of factors of at least 1. */
  lemma {:induction false} ProductAtLeastOne(ids: seq<string>, f: string -> real)
    requires forall id :: f(id) >= 1.0
    ensures ProductOf(ids, f) >= 1.0
  {
    if ids != [] {
      ProductAtLeastOne(ids[..|ids| - 1], f);
      var m := ProductOf(ids[..|ids| - 1], f);
      var x := f(ids[|ids| - 1]);
      assert m * x >= 1.0 * x;
    }
  }

  lemma MultiplierAtLeastOne(ids: seq<string>, kind: Kind, cat: seq<Upgrade>)
    requires MultipliersAtLeastOne(cat)
    ensures Multiplier(ids, kind, cat) >= 1.0
  {
    ProductAtLeastOne(ids, FactorOf(kind, cat));
  }

  lemma ProductSnoc(ids: seq<string>, id: string, f: string -> real)
    ensures ProductOf(ids + [id], f) == ProductOf(ids, f) * f(id)
  {
    assert (ids + [id])[..|ids|] == ids;
  }

  lemma Rearrange(a: real, b: real, c: real)
    ensures (a * b) * c == (a * c) * b
  {
  }

  /** Removing a position before the last one commutes with dropping the last. */
  lemma RemoveBeforeLast(ids: seq<string>, k: nat)
    requires k < |ids| - 1
    ensures ids[..|ids| - 1][k] == ids[k]
    ensures ids[..k] + ids[k + 1..]
         == (ids[..|ids| - 1][..k] + ids[..|ids| - 1][k + 1..]) + [ids[|ids| - 1]]
  {
  }

  /** Taking one id out of the list divides its factor out of the product. */
  lemma {:induction false} ProductRemove(ids: seq<string>, k: nat, f: string -> real)
    requires k < |ids|
    ensures ProductOf(ids, f) == ProductOf(ids[..k] + ids[k + 1..], f) * f(ids[k])
  {
    var n := |ids| - 1;
    var rest := ids[..k] + ids[k + 1..];
    if k == n {
      assert rest == ids[..n];
    } else {
      var init := ids[..n];
      ProductRemove(init, k, f);
      var restInit := init[..k] + init[k + 1..];
      RemoveBeforeLast(ids, k);
      ProductSnoc(restInit, ids[n], f);
      var a, fk, fn := ProductOf(restInit, f), f(ids[k]), f(ids[n]);
      Rearrange(a, fk, fn);
      calc {
        ProductOf(ids, f);
        ProductOf(init, f) * fn;
        (a * fk) * fn;
        (a * fn) * fk;
        ProductOf(restInit + [ids[n]], f) * fk;
        ProductOf(rest, f) * fk;
      }
    }
  }

  /** In two lists with the same elements, the last id of one sits at some
      position `k` of the other, and what remains on both sides matches. */
  lemma MatchLast(ids: seq<string>, other: seq<string>) returns (k: nat)
    requires ids != [] && multiset(ids) == multiset(other)
    ensures k < |other| && other[k] == ids[|ids| - 1]
    ensures multiset(ids[..|ids| - 1]) == multiset(other[..k] + other[k + 1..])
  {
    var n := |ids| - 1;
    var x := ids[n];
    assert ids == ids[..n] + [x];
    assert x in multiset(other);
    k :| 0 <= k < |other| && other[k] == x;
    var rest := other[..k] + other[k + 1..];
    assert other == other[..k] + [x] + other[k + 1..];
    calc {
      multiset(ids[..n]) + multiset{x};
      multiset(ids);
      multiset(other);
      multiset(other[..k]) + multiset{x} + multiset(other[k + 1..]);
      multiset(rest) + multiset{x};
    }
    assert multiset(ids[..n]) == multiset(ids) - multiset{x};
    assert multiset(rest) == multiset(other) - multiset{x};
  }

  /** A product does not depend on the order of the ids. */
  lemma {:induction false} ProductOrderIndependent(ids: seq<string>, other: seq<string>, f: string -> real)
    requires multiset(ids) == multiset(other)
    ensures ProductOf(ids, f) == ProductOf(other, f)
  {
    if ids != [] {
      var k := MatchLast(ids, other);
      var rest := other[..k] + other[k + 1..];
      ProductOrderIndependent(ids[..|ids| - 1], rest, f);
      ProductRemove(other, k, f);
    } else {
      assert |other| == |multiset(other)| == 0;
    }
  }

  /** The multiplier does not depend on the order in which upgrades were bought. */
  lemma MultiplierOrderIndependent(ids: seq<string>, other: seq<string>, kind: Kind, cat: seq<Upgrade>)
    requires multiset(ids) == multiset(other)
    ensures Multiplier(ids, kind, cat) == Multiplier(other, kind, cat)
  {
    ProductOrderIndependent(ids, other, FactorOf(kind, cat));
  }

  /** Owning an id that is not in the upgrade list changes no multiplier. */
  lemma UnknownUpgradeHasNoEffect(ids: seq<string>, id: string, kind: Kind, cat: seq<Upgrade>)
    requires forall u :: u in cat ==> u.id != id
    ensures Multiplier(ids + [id], kind, cat) == Multiplier(ids, kind, cat)
  {
    assert (ids + [id])[..|ids|] == ids;
  }

  /** 1 + 5% per angel investor (the per-angel rate is stored in the state). */
  function AngelBonus(angels: nat, prestigeMult: real): (bonus: real)
    ensures prestigeMult >= 0.0 ==> bonus >= 1.0
  {
    1.0 + angels as real * prestigeMult
  }

  /** Passive income per second: base income, times the global multipliers
      of owned upgrades, times the angel bonus. */
  function PassiveIncome(shop: Shop, counts: map<string, nat>, upgrades: seq<string>, angels: nat, prestigeMult: real): real {
    BaseIncome(counts, shop.businesses) as real * Multiplier(upgrades, Global, shop.upgrades)
      * AngelBonus(angels, prestigeMult)
  }

  /** The value of one manual click: max(1, 5% of passive income), times
      the click multipliers, times the angel bonus once more. */
  function ClickValue(shop: Shop, counts: map<string, nat>, upgrades: seq<string>, angels: nat, prestigeMult: real): real {
    var passive := PassiveIncome(shop, counts, upgrades, angels, prestigeMult);
    Max(1.0, passive * CLICK_SHARE) * Multiplier(upgrades, Click, shop.upgrades) * AngelBonus(angels, prestigeMult)
  }

  /** With multipliers of at least 1 and a non-negative angel rate, every
      click is worth at least 1. */
  lemma ClickValueAtLeastOne(shop: Shop, counts: map<string, nat>, upgrades: seq<string>, angels: nat, prestigeMult: real)
    requires MultipliersAtLeastOne(shop.upgrades) && prestigeMult >= 0.0
    ensures ClickValue(shop, counts, upgrades, angels, prestigeMult) >= 1.0
  {
    var passive := PassiveIncome(shop, counts, upgrades, angels, prestigeMult);
    MultiplierAtLeastOne(upgrades, Click, shop.upgrades);
    AtLeastOneProduct(Max(1.0, passive * CLICK_SHARE), Multiplier(upgrades, Click, shop.upgrades), AngelBonus(angels, prestigeMult));
  }

  /** Passive income is never negative, so time never costs money. */
  lemma PassiveIncomeNonNegative(shop: Shop, counts: map<string, nat>, upgrades: seq<string>, angels: nat, prestigeMult: real)
    requires MultipliersAtLeastOne(shop.upgrades) && prestigeMult >= 0.0
    ensures PassiveIncome(shop, counts, upgrades, angels, prestigeMult) >= 0.0
  {
    MultiplierAtLeastOne(upgrades, Global, shop.upgrades);
    var b := BaseIncome(counts, shop.businesses) as real;
    var g := Multiplier(upgrades, Global, shop.upgrades);
    assert b * g >= 0.0;
    assert b * g * AngelBonus(angels, prestigeMult) >= 0.0;
  }

  /** No business owned means no passive income, whatever the upgrades and angels. */
  lemma PassiveIncomeOfNothing(shop: Shop, counts: map<string, nat>, upgrades: seq<string>, angels: nat, prestigeMult: real)
    requires forall b :: b in shop.businesses ==> Count(counts, b.id) == 0
    ensures PassiveIncome(shop, counts, upgrades, angels, prestigeMult) == 0.0
  {
    BaseIncomeOfNothing(counts, shop.businesses);
  }

  /** Once 5% of passive income reaches 1, the angel bonus enters the click
      value squared: once through passive income and once more explicitly. */
  lemma ClickValueAppliesAngelBonusTwice(shop: Shop, counts: map<string, nat>, upgrades: seq<string>, angels: nat, prestigeMult: real)
    requires PassiveIncome(shop, counts, upgrades, angels, prestigeMult) * CLICK_SHARE >= 1.0
    ensures var bonus := AngelBonus(angels, prestigeMult);
            ClickValue(shop, counts, upgrades, angels, prestigeMult)
            == CLICK_SHARE * BaseIncome(counts, shop.businesses) as real
               * Multiplier(upgrades, Global, shop.upgrades) * Multiplier(upgrades, Click, shop.upgrades)
               * (bonus * bonus)
  {
    var b := BaseIncome(counts, shop.businesses) as real;
    var g := Multiplier(upgrades, Global, shop.upgrades);
    var c := Multiplier(upgrades, Click, shop.upgrades);
    var bonus := AngelBonus(angels, prestigeMult);
    assert ClickValue(shop, counts, upgrades, angels, prestigeMult) == (b * g * bonus * CLICK_SHARE) * c * bonus;
  }

  /** Businesses past position `i` that are not owned add nothing. */
  lemma {:induction false} BaseIncomeOfPrefix(counts: map<string, nat>, cat: seq<Business>, i: nat)
    requires i <= |cat|
    requires forall j :: i <= j < |cat| ==> Count(counts, cat[j].id) == 0
    ensures BaseIncome(counts, cat) == BaseIncome(counts, cat[..i])
  {
    if i < |cat| {
      var init := cat[..|cat| - 1];
      assert init[..i] == cat[..i];
      BaseIncomeOfPrefix(counts, init, i);
    } else {
      assert cat[..i] == cat;
    }
  }

  lemma ExampleBaseIncome()
    ensures BaseIncome(map["lemonade" := 100], BUSINESSES) == 100
  {
    BaseIncomeOfPrefix(map["lemonade" := 100], BUSINESSES, 1);
    assert BUSINESSES[..1][..0] == [];
  }

  lemma ExampleLookups()
    ensures FindUpgrade("auto_1", UPGRADES) == Some(UPGRADES[1])
    ensures FindUpgrade("auto_2", UPGRADES) == Some(UPGRADES[3])
  {
    assert UPGRADES[1..][0] == UPGRADES[1];
    assert UPGRADES[1..][1..][1..][0] == UPGRADES[3];
  }

  lemma ExampleFactors()
    ensures Factor("auto_1", Global, UPGRADES) == 1.2
    ensures Factor("auto_2", Global, UPGRADES) == 1.5
  {
    ExampleLookups();
  }

  lemma MultiplierOfPair(a: string, b: string, kind: Kind, cat: seq<Upgrade>)
    ensures Multiplier([a, b], kind, cat) == Factor(a, kind, cat) * Factor(b, kind, cat)
  {
    var f := FactorOf(kind, cat);
    ProductSnoc([], a, f);
    ProductSnoc([a], b, f);
    assert [] + [a] == [a];
    assert [a] + [b] == [a, b];
  }

  lemma ExampleMultiplier()
    ensures Multiplier(["auto_1", "auto_2"], Global, UPGRADES) == 1.2 * 1.5
  {
    ExampleFactors();
    MultiplierOfPair("auto_1", "auto_2", Global, UPGRADES);
  }

  /** Worked example: 100 lemonade stands with both global upgrades (1.2 and
      1.5) and no angels earn 180 per second. */
  lemma PassiveIncomeExample()
    ensures PassiveIncome(SHOP, map["lemonade" := 100], ["auto_1", "auto_2"], 0, 0.05) == 180.0
  {
    ExampleBaseIncome();
    ExampleMultiplier();
  }

  /** The engine's first loop: base income summed over the business catalog. */
  method SumBaseIncome(counts: map<string, nat>, cat: seq<Business>) returns (income: nat)
    ensures income == BaseIncome(counts, cat)
  {
    income := 0;
    for i := 0 to |cat|
      invariant income == BaseIncome(counts, cat[..i])
    {
      var b := cat[i];
      assert cat[..i + 1][..i] == cat[..i];
      income := income + b.baseIncome * Count(counts, b.id);
    }
    assert cat[..|cat|] == cat;
  }

  /** The engine's second loop: one pass over the owned upgrade ids, looking
      each up and folding its multiplier into the global or click product. */
  method AccumulateMultipliers(upgrades: seq<string>, cat: seq<Upgrade>) returns (globalMult: real, clickMult: real)
    ensures globalMult == Multiplier(upgrades, Global, cat)
    ensures clickMult == Multiplier(upgrades, Click, cat)
  {
    globalMult, clickMult := 1.0, 1.0;
    for j := 0 to |upgrades|
      invariant globalMult == Multiplier(upgrades[..j], Global, cat)
      invariant clickMult == Multiplier(upgrades[..j], Click, cat)
    {
      assert upgrades[..j + 1][..j] == upgrades[..j];
      match FindUpgrade(upgrades[j], cat)
      case Some(u) =>
        if u.kind == Global {
          globalMult := globalMult * u.mult;
        } else if u.kind == Click {
          clickMult := clickMult * u.mult;
        }
      case None =>
    }
    assert upgrades[..|upgrades|] == upgrades;
  }

  /** The rate computation as the engine runs it: base income, the upgrade
      multipliers, then the angel bonus on passive income and on the click. */
  method CalculateRates(shop: Shop, counts: map<string, nat>, upgrades: seq<string>, angels: nat, prestigeMult: real)
    returns (passive: real, click: real)
    ensures passive == PassiveIncome(shop, counts, upgrades, angels, prestigeMult)
    ensures click == ClickValue(shop, counts, upgrades, angels, prestigeMult)
  {
    var income := SumBaseIncome(counts, shop.businesses);
    var globalMult, clickMult := AccumulateMultipliers(upgrades, shop.upgrades);
    var angelBonus := 1.0 + angels as real * prestigeMult;
    assert angelBonus == AngelBonus(angels, prestigeMult);
    passive := income as real * globalMult * angelBonus;
    assert passive == PassiveIncome(shop, counts, upgrades, angels, prestigeMult);
    var baseClick := Max(1.0, passive * CLICK_SHARE);
    click := baseClick * clickMult * angelBonus;
  }
}
