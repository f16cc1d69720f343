// The player's state and the engine's transitions on it, as functions from
// the old state to the new one: accrual over elapsed time (with the sampled
// history the analytics chart is drawn from), manual work, purchases and the
// prestige reset. The class in game.dfy performs the same transitions in
// place and is proved against these functions.

module Economy {
  import opened Catalog
  import opened Rates
  import opened Angels

  /** Income bonus per angel investor. */
  const PRESTIGE_MULT: real := 0.05
  /** The history keeps at most this many samples. */
  const HISTORY_CAP: nat := 100
  /** A new sample needs a game time more than this many seconds past the last one. */
  const SAMPLE_GAP: int := 2

  /** A snapshot of everything the game keeps for a player. */
  datatype State = State(
    money: real,                    // spendable balance
    lifetime: real,                 // everything earned in this run
    startTime: real,                // wall-clock start of this run
    lastTick: real,                 // wall-clock time of the last accrual
    businesses: map<string, nat>,   // units owned per business id
    upgrades: seq<string>,          // ids of owned upgrades, in purchase order
    angels: nat,                    // prestige units
    prestigeMult: real,             // bonus per angel
    historyTime: seq<int>,          // game second of each chart sample
    historyValue: seq<real>         // money at each chart sample
  )

  datatype Error = InsufficientFunds | AlreadyOwned | NothingToClaim

  datatype Result<T> = Ok(value: T) | Err(error: Error)

  /** Every catalog business at count 0. */
  function ZeroCounts(): map<string, nat> {
    map id | id in BusinessIds(BUSINESSES) :: 0
  }

  /** The state of a new game started at `now`. */
  function NewGame(now: real): State {
    State(0.0, 0.0, now, now, ZeroCounts(), [], 0, PRESTIGE_MULT, [], [])
  }

  function Passive(s: State): real {
    PassiveIncome(SHOP, s.businesses, s.upgrades, s.angels, s.prestigeMult)
  }

  function Click(s: State): real {
    ClickValue(SHOP, s.businesses, s.upgrades, s.angels, s.prestigeMult)
  }

  predicate StrictlyIncreasing(t: seq<int>) {
    forall i, j :: 0 <= i < j < |t| ==> t[i] < t[j]
  }

  predicate NoDuplicates(ids: seq<string>) {
    forall i, j :: 0 <= i < j < |ids| ==> ids[i] != ids[j]
  }

  /** What every reachable state satisfies. Money is never negative and never
      more than lifetime earnings, since every credit goes to both and every
      purchase debits money alone. */
  predicate Inv(s: State) {
    && 0.0 <= s.money <= s.lifetime
    && s.prestigeMult == PRESTIGE_MULT
    && BusinessIds(BUSINESSES) <= s.businesses.Keys
    && NoDuplicates(s.upgrades)
    && |s.historyTime| == |s.historyValue| <= HISTORY_CAP
    && StrictlyIncreasing(s.historyTime)
  }

  lemma NewGameInv(now: real)
    ensures Inv(NewGame(now))
  {
  }

  // ---------------------------------------------------------------------
  // Accrual over time
  // ---------------------------------------------------------------------

  /** Conversion of a float to an integer, which drops the fraction towards zero. */
  function Truncate(x: real): (i: int)
    ensures 0.0 <= x ==> i as real <= x < i as real + 1.0
    ensures x < 0.0 ==> i as real - 1.0 < x <= i as real
  {
    if x >= 0.0 then x.Floor else -((-x).Floor)
  }

  /** Whether a sample at game second `t` is taken: always into an empty
      history, otherwise only more than two seconds after the last one. */
  predicate TakesSample(times: seq<int>, t: int) {
    times == [] || t > times[|times| - 1] + SAMPLE_GAP
  }

  /** The history after offering it the sample (t, v): appended when taken,
      and the oldest sample dropped once there are more than 100. */
  function Sample(times: seq<int>, values: seq<real>, t: int, v: real): (r: (seq<int>, seq<real>))
    ensures !TakesSample(times, t) ==> r == (times, values)
    ensures TakesSample(times, t) && |times| < HISTORY_CAP ==> r == (times + [t], values + [v])
    ensures TakesSample(times, t) && |times| >= HISTORY_CAP ==> r.0 == times[1..] + [t]
    ensures TakesSample(times, t) && |times| == |values| >= HISTORY_CAP ==> r.1 == values[1..] + [v]
  {
    if TakesSample(times, t) then
      var times', values' := times + [t], values + [v];
      if |times'| > HISTORY_CAP then (times'[1..], values'[1..]) else (times', values')
    else
      (times, values)
  }

  /** Sampling keeps the history within 100 samples, the two lists of equal
      length, and the sample times strictly increasing. */
  lemma SampleKeepsHistoryValid(times: seq<int>, values: seq<real>, t: int, v: real)
    requires |times| == |values| <= HISTORY_CAP && StrictlyIncreasing(times)
    ensures var r := Sample(times, values, t, v);
            |r.0| == |r.1| <= HISTORY_CAP && StrictlyIncreasing(r.0)
  {
    if TakesSample(times, t) {
      var grown := times + [t];
      assert StrictlyIncreasing(grown) by {
        forall i, j | 0 <= i < j < |grown|
          ensures grown[i] < grown[j]
        {
          if j == |times| && i < |times| {
            assert times[i] <= times[|times| - 1];
          }
        }
      }
      if |grown| > HISTORY_CAP {
        assert grown[1..] == times[1..] + [t];
      }
    }
  }

  /** Advancing the clock to `now` at the state's own passive income. */
  function Tick(s: State, now: real): State {
    TickAt(s, now, Passive(s))
  }

  /** Advancing the clock to `now` at income `rate` per second: with elapsed
      time delta > 0, rate times delta is credited to both balances and a
      history sample of the new balance is offered; otherwise nothing
      happens. */
  function TickAt(s: State, now: real, rate: real): (r: State)
    ensures now <= s.lastTick ==> r == s
    ensures now > s.lastTick ==> r.lastTick == now
    ensures now > s.lastTick ==> r.money == s.money + rate * (now - s.lastTick)
    ensures now > s.lastTick ==>
              (r.historyTime, r.historyValue) == Sample(s.historyTime, s.historyValue, Truncate(now - s.startTime), r.money)
    ensures r.lifetime - s.lifetime == r.money - s.money
    ensures r.businesses == s.businesses && r.upgrades == s.upgrades
    ensures r.angels == s.angels && r.prestigeMult == s.prestigeMult && r.startTime == s.startTime
  {
    if now <= s.lastTick then s
    else Accrue(s, now, rate * (now - s.lastTick))
  }

  /** Crediting `earnings` at time `now`: both balances grow by it, the clock
      moves to `now`, and the new balance is offered to the history. */
  function Accrue(s: State, now: real, earnings: real): (r: State)
    ensures r.money == s.money + earnings && r.lifetime == s.lifetime + earnings
    ensures r.lastTick == now
    ensures (r.historyTime, r.historyValue)
         == Sample(s.historyTime, s.historyValue, Truncate(now - s.startTime), r.money)
    ensures r == s.(money := r.money, lifetime := r.lifetime, lastTick := now,
                    historyTime := r.historyTime, historyValue := r.historyValue)
  {
    var money := s.money + earnings;
    var history := Sample(s.historyTime, s.historyValue, Truncate(now - s.startTime), money);
    s.(money := money, lifetime := s.lifetime + earnings, lastTick := now,
       historyTime := history.0, historyValue := history.1)
  }

  /** Passive income depends only on holdings: businesses, upgrades, angels
      and the bonus per angel. */
  lemma PassiveDependsOnHoldings(s: State, t: State)
    requires s.businesses == t.businesses && s.upgrades == t.upgrades
    requires s.angels == t.angels && s.prestigeMult == t.prestigeMult
    ensures Passive(s) == Passive(t)
  {
  }

  /** A second tick at the same instant changes nothing. */
  lemma TickIdempotent(s: State, now: real)
    ensures Tick(Tick(s, now), now) == Tick(s, now)
  {
    var mid := Tick(s, now);
    assert TickAt(mid, now, Passive(mid)) == mid;
  }

  /** Earning at one rate over two adjacent spans earns the same as over
      their union. */
  lemma SplitEarnings(p: real, a: real, b: real, c: real)
    ensures p * (b - a) + p * (c - b) == p * (c - a)
  {
  }

  /** At a fixed rate, two ticks earn what one tick to the later instant earns. */
  lemma TickAtAdditive(s: State, t1: real, t2: real, rate: real)
    requires t1 <= t2
    ensures TickAt(TickAt(s, t1, rate), t2, rate).money == TickAt(s, t2, rate).money
    ensures TickAt(TickAt(s, t1, rate), t2, rate).lifetime == TickAt(s, t2, rate).lifetime
    ensures TickAt(TickAt(s, t1, rate), t2, rate).lastTick == TickAt(s, t2, rate).lastTick
  {
    if t1 > s.lastTick {
      SplitEarnings(rate, s.lastTick, t1, t2);
    }
  }

  /** Accrual depends only on elapsed time, not on how often the clock is
      read: two ticks earn what one tick to the later instant earns. */
  lemma TickAdditive(s: State, t1: real, t2: real)
    requires t1 <= t2
    ensures Tick(Tick(s, t1), t2).money == Tick(s, t2).money
    ensures Tick(Tick(s, t1), t2).lifetime == Tick(s, t2).lifetime
    ensures Tick(Tick(s, t1), t2).lastTick == Tick(s, t2).lastTick
  {
    var p := Passive(s);
    var mid := TickAt(s, t1, p);
    PassiveDependsOnHoldings(mid, s);
    TickAtAdditive(s, t1, t2, p);
  }

  /** Accrual keeps the invariant whenever the credit is not negative. */
  lemma AccrueKeepsInv(s: State, now: real, earnings: real)
    requires Inv(s) && earnings >= 0.0
    ensures Inv(Accrue(s, now, earnings))
  {
    SampleKeepsHistoryValid(s.historyTime, s.historyValue, Truncate(now - s.startTime), s.money + earnings);
  }

  /** A tick at a non-negative rate keeps the invariant. */
  lemma TickAtKeepsInv(s: State, now: real, rate: real)
    requires Inv(s) && rate >= 0.0
    ensures Inv(TickAt(s, now, rate))
  {
    if now > s.lastTick {
      var earnings := rate * (now - s.lastTick);
      assert earnings >= 0.0;
      AccrueKeepsInv(s, now, earnings);
      assert TickAt(s, now, rate) == Accrue(s, now, earnings);
    }
  }

  lemma TickKeepsInv(s: State, now: real)
    requires Inv(s)
    ensures Inv(Tick(s, now))
  {
    CatalogFacts();
    PassiveIncomeNonNegative(SHOP, s.businesses, s.upgrades, s.angels, s.prestigeMult);
    TickAtKeepsInv(s, now, Passive(s));
  }

  // ---------------------------------------------------------------------
  // Manual work
  // ---------------------------------------------------------------------

  /** One press of the work button credits the click value to both balances. */
  function Work(s: State): (r: State)
    ensures r.money - s.money == r.lifetime - s.lifetime == Click(s)
    ensures r == s.(money := r.money, lifetime := r.lifetime)
  {
    var c := Click(s);
    s.(money := s.money + c, lifetime := s.lifetime + c)
  }

  /** Every click earns at least 1. */
  lemma WorkEarnsAtLeastOne(s: State)
    requires s.prestigeMult >= 0.0
    ensures Work(s).money >= s.money + 1.0
    ensures Work(s).lifetime >= s.lifetime + 1.0
  {
    CatalogFacts();
    ClickValueAtLeastOne(SHOP, s.businesses, s.upgrades, s.angels, s.prestigeMult);
  }

  lemma WorkKeepsInv(s: State)
    requires Inv(s)
    ensures Inv(Work(s))
  {
    WorkEarnsAtLeastOne(s);
  }

  // ---------------------------------------------------------------------
  // Purchases
  // ---------------------------------------------------------------------

  /** Price of the next unit of catalog business `k` (an absent count is 0). */
  function NextCost(s: State, k: nat): int
    requires k < |BUSINESSES|
  {
    BusinessCost(BUSINESSES[k].baseCost, Count(s.businesses, BUSINESSES[k].id))
  }

  /** Buying one unit of catalog business `k`: refused when money is short
      of the price; otherwise the price is paid and the count goes up by one. */
  function BuyBusiness(s: State, k: nat): (r: Result<State>)
    requires k < |BUSINESSES| && BUSINESSES[k].id in s.businesses
    ensures r.Err? <==> s.money < NextCost(s, k) as real
    ensures r.Err? ==> r.error == InsufficientFunds
    ensures r.Ok? ==> r.value.money == s.money - NextCost(s, k) as real >= 0.0
    ensures r.Ok? ==> Count(r.value.businesses, BUSINESSES[k].id) == Count(s.businesses, BUSINESSES[k].id) + 1
    ensures r.Ok? ==> forall id :: id != BUSINESSES[k].id ==> Count(r.value.businesses, id) == Count(s.businesses, id)
    ensures r.Ok? ==> r.value.businesses.Keys == s.businesses.Keys
    ensures r.Ok? ==> r.value == s.(money := r.value.money, businesses := r.value.businesses)
  {
    var id := BUSINESSES[k].id;
    var cost := NextCost(s, k);
    if s.money >= cost as real then
      Ok(s.(money := s.money - cost as real, businesses := s.businesses[id := s.businesses[id] + 1]))
    else
      Err(InsufficientFunds)
  }

  lemma BuyBusinessKeepsInv(s: State, k: nat)
    requires Inv(s) && k < |BUSINESSES|
    ensures BUSINESSES[k].id in s.businesses
    ensures BuyBusiness(s, k).Ok? ==> Inv(BuyBusiness(s, k).value)
  {
    assert BUSINESSES[k] in BUSINESSES;
  }

  /** Worked example: a new game with 15 in cash buys its first lemonade
      stand, leaving 0 in cash, and the second stand costs 17. */
  lemma FirstLemonadeStandExample(now: real)
    ensures var s := NewGame(now).(money := 15.0, lifetime := 15.0);
            && BUSINESSES[0].id in s.businesses
            && BuyBusiness(s, 0).Ok?
            && BuyBusiness(s, 0).value.money == 0.0
            && Count(BuyBusiness(s, 0).value.businesses, "lemonade") == 1
            && NextCost(BuyBusiness(s, 0).value, 0) == 17
  {
    var s := NewGame(now).(money := 15.0, lifetime := 15.0);
    assert BUSINESSES[0] in BUSINESSES;
    assert BUSINESSES[0].id in s.businesses;
    var r := BuyBusiness(s, 0).value;
    assert Count(r.businesses, "lemonade") == 1;
    assert Pow(COST_GROWTH, 1) == 1.15;
  }

  /** Researching catalog upgrade `k`: refused when already owned, else when
      money is short of its cost; otherwise the cost is paid and the id is
      added once. */
  function BuyUpgrade(s: State, k: nat): (r: Result<State>)
    requires k < |UPGRADES|
    ensures r.Err? <==> UPGRADES[k].id in s.upgrades || s.money < UPGRADES[k].cost as real
    ensures r.Err? ==> (r.error == AlreadyOwned <==> UPGRADES[k].id in s.upgrades)
    ensures r.Err? ==> r.error in {AlreadyOwned, InsufficientFunds}
    ensures r.Ok? ==> r.value.money == s.money - UPGRADES[k].cost as real >= 0.0
    ensures r.Ok? ==> r.value.upgrades == s.upgrades + [UPGRADES[k].id]
    ensures r.Ok? ==> r.value == s.(money := r.value.money, upgrades := r.value.upgrades)
  {
    var u := UPGRADES[k];
    if u.id in s.upgrades then Err(AlreadyOwned)
    else if s.money < u.cost as real then Err(InsufficientFunds)
    else Ok(s.(money := s.money - u.cost as real, upgrades := s.upgrades + [u.id]))
  }

  /** Upgrades are never owned twice. */
  lemma BuyUpgradeKeepsInv(s: State, k: nat)
    requires Inv(s) && k < |UPGRADES|
    ensures BuyUpgrade(s, k).Ok? ==> Inv(BuyUpgrade(s, k).value)
  {
    var r := BuyUpgrade(s, k);
    if r.Ok? {
      var ids := r.value.upgrades;
      forall i, j | 0 <= i < j < |ids|
        ensures ids[i] != ids[j]
      {
        if j == |s.upgrades| {
          assert s.upgrades[i] in s.upgrades;
        }
      }
    }
  }

  // ---------------------------------------------------------------------
  // Prestige
  // ---------------------------------------------------------------------

  /** Selling the company: refused when no angel is claimable; otherwise a
      new game starts at `now` holding all angels the lifetime earnings are
      worth and the upgrades owned so far. */
  function ClaimPrestige(s: State, now: real): (r: Result<State>)
    ensures r.Err? <==> PotentialAngels(s.lifetime) <= s.angels
    ensures r.Err? ==> r.error == NothingToClaim
    ensures r.Ok? ==> r.value.angels == PotentialAngels(s.lifetime) > s.angels
    ensures r.Ok? ==> r.value.upgrades == s.upgrades
    ensures r.Ok? ==> r.value.money == 0.0 && r.value.lifetime == 0.0
    ensures r.Ok? ==> r.value.businesses == ZeroCounts() && r.value.historyTime == [] && r.value.historyValue == []
    ensures r.Ok? ==> r.value.startTime == now && r.value.lastTick == now
    ensures r.Ok? ==> r.value.prestigeMult == PRESTIGE_MULT
  {
    var claimable := Claimable(s.lifetime, s.angels);
    if claimable > 0 then
      Ok(NewGame(now).(angels := s.angels + claimable, upgrades := s.upgrades))
    else
      Err(NothingToClaim)
  }

  /** When nothing can be claimed, lifetime earnings are still short of the
      claim threshold (angels + 1)^2 * 1_000_000 of the angels held. */
  lemma NothingToClaimMeansBelowNextAngel(s: State, now: real)
    requires ClaimPrestige(s, now).Err?
    ensures s.lifetime < ClaimThreshold(s.angels) as real
  {
    ClaimableIffThreshold(s.lifetime, s.angels);
  }

  lemma ClaimPrestigeKeepsInv(s: State, now: real)
    requires Inv(s)
    ensures ClaimPrestige(s, now).Ok? ==> Inv(ClaimPrestige(s, now).value)
  {
  }

  // ---------------------------------------------------------------------
  // Sessions
  // ---------------------------------------------------------------------

  /** What a player can do between two page refreshes. */
  datatype Action =
    | Advance(now: real)
    | ManualWork
    | PurchaseBusiness(business: nat)
    | PurchaseUpgrade(upgrade: nat)
    | Prestige(at: real)

  predicate Offered(a: Action) {
    match a
    case PurchaseBusiness(k) => k < |BUSINESSES|
    case PurchaseUpgrade(k) => k < |UPGRADES|
    case _ => true
  }

  /** The state after one action; a refused action leaves the state as it was. */
  function Step(s: State, a: Action): (r: State)
    requires Inv(s) && Offered(a)
    ensures Inv(r)
    ensures r.angels >= s.angels
  {
    match a
    case Advance(now) =>
      TickKeepsInv(s, now);
      Tick(s, now)
    case ManualWork =>
      WorkKeepsInv(s);
      Work(s)
    case PurchaseBusiness(k) =>
      BuyBusinessKeepsInv(s, k);
      var r := BuyBusiness(s, k);
      if r.Ok? then r.value else s
    case PurchaseUpgrade(k) =>
      BuyUpgradeKeepsInv(s, k);
      var r := BuyUpgrade(s, k);
      if r.Ok? then r.value else s
    case Prestige(now) =>
      ClaimPrestigeKeepsInv(s, now);
      var r := ClaimPrestige(s, now);
      if r.Ok? then r.value else s
  }

  /** The state after a whole sequence of actions. */
  function Run(s: State, actions: seq<Action>): State
    requires Inv(s) && forall a :: a in actions ==> Offered(a)
    decreases |actions|
  {
    if actions == [] then s else Run(Step(s, actions[0]), actions[1..])
  }

  /** Across any session the invariant holds (bounded, ordered history; no
      duplicate upgrades; 0 <= money <= lifetime) and angels never decrease. */
  lemma {:induction false} RunKeepsInv(s: State, actions: seq<Action>)
    requires Inv(s) && forall a :: a in actions ==> Offered(a)
    ensures Inv(Run(s, actions))
    ensures Run(s, actions).angels >= s.angels
    decreases |actions|
  {
    if actions != [] {
      assert actions[0] in actions;
      var next := Step(s, actions[0]);
      assert forall a :: a in actions[1..] ==> a in actions;
      RunKeepsInv(next, actions[1..]);
    }
  }
}
