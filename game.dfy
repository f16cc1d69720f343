// The player's game state as the engine keeps it: one mutable object whose
// fields the clock tick and the button handlers update in place. Each
// method is proved to perform exactly the transition of the same name in
// economy.dfy, and to keep the state invariant Inv.

module Game {
  import opened Catalog
  import opened Rates
  import opened Angels
  import opened Economy

  /** What a button handler reports: the action happened, or why it was refused. */
  datatype Outcome = Done | Refused(error: Error)

  class GameState {
    var money: real
    var lifetime: real
    var startTime: real
    var lastTick: real
    var businesses: map<string, nat>
    var upgrades: seq<string>
    var angels: nat
    var prestigeMult: real
    var historyTime: seq<int>
    var historyValue: seq<real>

    /** The fields as one value. */
    ghost function Snapshot(): State
      reads this
    {
      State(money, lifetime, startTime, lastTick, businesses, upgrades,
            angels, prestigeMult, historyTime, historyValue)
    }

    ghost predicate Valid()
      reads this
    {
      Inv(Snapshot())
    }

    /** A new game whose clock starts at `now`. */
    constructor (now: real)
      ensures Snapshot() == NewGame(now)
      ensures Valid()
    {
      money, lifetime := 0.0, 0.0;
      startTime, lastTick := now, now;
      businesses := ZeroCounts();
      upgrades := [];
      angels, prestigeMult := 0, PRESTIGE_MULT;
      historyTime, historyValue := [], [];
    }

    /** Fold the time elapsed since the last tick into the balances and
        offer the chart a sample. */
    method ProcessTick(now: real)
      requires Valid()
      modifies this
      ensures Valid()
      ensures Snapshot() == Tick(old(Snapshot()), now)
    {
      TickKeepsInv(Snapshot(), now);
      var delta := now - lastTick;
      if delta > 0.0 {
        var passive, _ := CalculateRates(SHOP, businesses, upgrades, angels, prestigeMult);
        Credit(now, passive);
      }
    }

    /** Credit `rate` times the time elapsed up to `now` to both balances,
        move the clock to `now`, and offer the new balance to the history,
        which keeps at most 100 samples more than two game seconds apart. */
    method Credit(now: real, rate: real)
      requires now > lastTick
      modifies this
      ensures Snapshot() == TickAt(old(Snapshot()), now, rate)
    {
      ghost var before := Snapshot();
      var earnings := rate * (now - lastTick);
      money := money + earnings;
      lifetime := lifetime + earnings;
      lastTick := now;
      var gameTime := Truncate(now - startTime);
      if historyTime == [] || gameTime > historyTime[|historyTime| - 1] + SAMPLE_GAP {
        historyTime := historyTime + [gameTime];
        historyValue := historyValue + [money];
        if |historyTime| > HISTORY_CAP {
          historyTime := historyTime[1..];
          historyValue := historyValue[1..];
        }
      }
      assert (historyTime, historyValue)
          == Sample(before.historyTime, before.historyValue, gameTime, money);
      assert Snapshot() == Accrue(before, now, earnings);
      assert TickAt(before, now, rate) == Accrue(before, now, earnings);
    }

    /** The manual work button. */
    method ManualWork()
      requires Valid()
      modifies this
      ensures Valid()
      ensures Snapshot() == Work(old(Snapshot()))
    {
      var _, click := CalculateRates(SHOP, businesses, upgrades, angels, prestigeMult);
      money := money + click;
      lifetime := lifetime + click;
      WorkKeepsInv(old(Snapshot()));
    }

    /** The buy button of catalog business `k`. */
    method BuyBusiness(k: nat) returns (outcome: Outcome)
      requires Valid() && k < |BUSINESSES|
      modifies this
      ensures BUSINESSES[k].id in old(businesses)
      ensures Valid()
      ensures match Economy.BuyBusiness(old(Snapshot()), k)
              case Ok(next) => outcome == Done && Snapshot() == next
              case Err(e) => outcome == Refused(e) && Snapshot() == old(Snapshot())
    {
      BuyBusinessKeepsInv(Snapshot(), k);
      var b := BUSINESSES[k];
      var cost := BusinessCost(b.baseCost, Count(businesses, b.id));
      if money >= cost as real {
        money := money - cost as real;
        businesses := businesses[b.id := businesses[b.id] + 1];
        outcome := Done;
      } else {
        outcome := Refused(InsufficientFunds);
      }
    }

    /** The research button of catalog upgrade `k`. */
    method BuyUpgrade(k: nat) returns (outcome: Outcome)
      requires Valid() && k < |UPGRADES|
      modifies this
      ensures Valid()
      ensures match Economy.BuyUpgrade(old(Snapshot()), k)
              case Ok(next) => outcome == Done && Snapshot() == next
              case Err(e) => outcome == Refused(e) && Snapshot() == old(Snapshot())
    {
      BuyUpgradeKeepsInv(Snapshot(), k);
      var u := UPGRADES[k];
      if u.id in upgrades {
        outcome := Refused(AlreadyOwned);
      } else if money < u.cost as real {
        outcome := Refused(InsufficientFunds);
      } else {
        money := money - u.cost as real;
        upgrades := upgrades + [u.id];
        outcome := Done;
      }
    }

    /** The sell-company button: a new game object carrying the angels and
        the upgrades, or this object untouched when nothing is claimable. */
    method Prestige(now: real) returns (outcome: Outcome, next: GameState)
      requires Valid()
      ensures next.Valid()
      ensures match ClaimPrestige(Snapshot(), now)
              case Ok(s) => outcome == Done && fresh(next) && next.Snapshot() == s
              case Err(e) => outcome == Refused(e) && next == this
    {
      ClaimPrestigeKeepsInv(Snapshot(), now);
      var potential := PotentialAngels(lifetime);
      var claimable := if potential > angels then potential - angels else 0;
      if claimable > 0 {
        var newAngels := angels + claimable;
        next := new GameState(now);
        next.angels := newAngels;
        next.upgrades := upgrades;
        outcome := Done;
      } else {
        next := this;
        outcome := Refused(NothingToClaim);
      }
    }
  }
}
