// The static catalog of the game: the business lines a player can buy any
// number of, and the one-off upgrades that multiply income.

module Catalog {

  datatype Option<T> = None | Some(value: T)

  /** A business line: its price at count 0 and the income per second of one unit. */
  datatype Business = Business(id: string, name: string, baseCost: nat, baseIncome: nat)

  /** What an upgrade multiplies: the value of a manual click, or all passive income. */
  datatype Kind = Click | Global

  /** A one-off research purchase. */
  datatype Upgrade = Upgrade(id: string, name: string, cost: nat, kind: Kind, mult: real)

  const BUSINESSES: seq<Business> := [
    Business("lemonade", "Lemonade Stand", 15, 1),
    Business("dropship", "Dropshipping Store", 150, 8),
    Business("web_agency", "Web Agency", 1500, 45),
    Business("crypto_farm", "Crypto Farm", 12000, 200),
    Business("ai_startup", "AI SaaS Unicorn", 150000, 1200),
    Business("quantum", "Quantum Server", 2500000, 15000),
    Business("mars_colony", "Mars Colony", 45000000, 120000)
  ]

  const UPGRADES: seq<Upgrade> := [
    Upgrade("click_1", "Mechanical Keyboard", 500, Click, 2.0),
    Upgrade("auto_1", "Outsource Labor", 2500, Global, 1.2),
    Upgrade("click_2", "Neural Link", 50000, Click, 5.0),
    Upgrade("auto_2", "Tax Loopholes", 1000000, Global, 1.5),
    Upgrade("synergy_1", "Market Monopoly", 50000000, Global, 2.0)
  ]

  /** A catalog: the business lines and the upgrades on offer. */
  datatype Shop = Shop(businesses: seq<Business>, upgrades: seq<Upgrade>)

  const SHOP: Shop := Shop(BUSINESSES, UPGRADES)

  /** The identifiers of a business list. */
  function BusinessIds(cat: seq<Business>): set<string> {
    set b | b in cat :: b.id
  }

  /** No multiplier in the upgrade list shrinks income. */
  predicate MultipliersAtLeastOne(cat: seq<Upgrade>) {
    forall u :: u in cat ==> u.mult >= 1.0
  }

  /** Every business in the list costs at least `bound` at count 0. */
  predicate BaseCostsAtLeast(cat: seq<Business>, bound: nat) {
    forall b :: b in cat ==> b.baseCost >= bound
  }

  /** Facts about the shipped catalog that the rate and cost lemmas rely on. */
  lemma CatalogFacts()
    ensures MultipliersAtLeastOne(UPGRADES)
    ensures BaseCostsAtLeast(BUSINESSES, 15)
    ensures forall i, j :: 0 <= i < j < |BUSINESSES| ==> BUSINESSES[i].id != BUSINESSES[j].id
    ensures forall i, j :: 0 <= i < j < |UPGRADES| ==> UPGRADES[i].id != UPGRADES[j].id
  {
  }
}
