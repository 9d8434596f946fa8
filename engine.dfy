/**
 * The running game: `gameState` as an object whose fields the handlers
 * update in place, and whose upgrade entries live in an array that purchases
 * and events rewrite element by element. Each method is proved to leave the
 * object in the state the corresponding function of Economy or Events
 * computes from the old state, and to keep the object sound.
 */
module Engine {
  import opened Numbers
  import opened Catalog
  import opened Economy
  import opened Events

  class Game {
    var waterPoints: real
    var perClick: real
    var upgrades: array<Upgrade>
    var difficulty: Difficulty

    /** The value the object currently stands for. */
    function Snapshot(): State
      reads this, upgrades
    {
      State(waterPoints, perClick, upgrades[..], difficulty)
    }

    ghost predicate Valid()
      reads this, upgrades
    {
      Sound(Snapshot())
    }

    /** The `gameState` literal: no drops, one drop per click, no upgrades yet. */
    constructor ()
      ensures Valid() && fresh(upgrades)
      ensures Snapshot() == Initial()
    {
      waterPoints, perClick := 0.0, 1.0;
      upgrades := new Upgrade[0];
      difficulty := Easy;
    }

    /**
     * `startGame(mode)`: builds a fresh upgrade array from the catalog and
     * reports whether the event system starts (only Hard has a positive
     * event chance).
     */
    method StartGame(mode: Difficulty) returns (eventsStarted: bool)
      requires Valid()
      modifies this
      ensures Valid() && fresh(upgrades)
      ensures Snapshot() == Start(old(Snapshot()), mode)
      ensures eventsStarted <==> mode == Hard
    {
      var setting := SettingFor(mode);
      difficulty := mode;
      var items := Items();
      upgrades := new Upgrade[|items|](i requires 0 <= i < |items| => NewEntry(items[i], setting.costMult));
      assert upgrades[..] == StartUpgrades(mode);
      eventsStarted := setting.eventChance > 0.0;
      StartKeepsSound(old(Snapshot()), mode);
    }

    /** The droplet's click handler. */
    method Click()
      requires Valid()
      modifies this
      ensures Valid() && upgrades == old(upgrades)
      ensures Snapshot() == RegisterClick(old(Snapshot()))
      ensures waterPoints == old(waterPoints) + perClick
    {
      waterPoints := waterPoints + perClick;
    }

    /** One run of the one-second loop body. */
    method Tick()
      requires Valid()
      modifies this
      ensures Valid() && upgrades == old(upgrades)
      ensures Snapshot() == IncomeTick(old(Snapshot()))
      ensures waterPoints == old(waterPoints) + PassiveIncome(upgrades[..])
    {
      var passive := PassiveIncome(upgrades[..]);
      PassiveIncomeNonNegative(Snapshot());
      if passive > 0.0 {
        waterPoints := waterPoints + passive;
      }
    }

    /** `buyUpgrade(key)`: silently does nothing for an unknown key or an unaffordable cost. */
    method BuyUpgrade(key: string)
      requires Valid()
      modifies this, upgrades
      ensures Valid() && upgrades == old(upgrades)
      ensures Snapshot() == Purchase(old(Snapshot()), key)
    {
      PurchaseKeepsSound(Snapshot(), key);
      var found := FindKey(upgrades[..], key);
      if found.None? {
        return;
      }
      var i := found.value;
      var u := upgrades[i];
      if waterPoints >= u.cost {
        waterPoints := waterPoints - u.cost;
        var n := u.count + 1;
        if u.item.kind.Click? {
          perClick := perClick + u.increment;
        }
        upgrades[i] := u.(count := n, cost := CostAfter(u.item, n));
      }
    }

    /** `forEach(u => u.cost *= f)` or `/= d`, in place. */
    method ScaleAllCosts(sc: Scale)
      requires Valid() && Positive(sc)
      modifies upgrades
      ensures Valid()
      ensures upgrades[..] == ScaleCosts(old(upgrades[..]), sc)
    {
      ScaleCostsKeepsSound(Snapshot(), sc);
      for i := 0 to upgrades.Length
        invariant forall j :: 0 <= j < i ==> upgrades[j] == old(upgrades[j]).(cost := Rescale(old(upgrades[j]).cost, sc))
        invariant forall j :: i <= j < upgrades.Length ==> upgrades[j] == old(upgrades[j])
      {
        upgrades[i] := upgrades[i].(cost := Rescale(upgrades[i].cost, sc));
      }
    }

    /** `forEach(u => { if (u.type === 'idle') u.increment *= f; })` or `/= d`, in place. */
    method ScaleAllIdleIncrements(sc: Scale)
      requires Valid() && Positive(sc)
      modifies upgrades
      ensures Valid()
      ensures upgrades[..] == ScaleIdleIncrements(old(upgrades[..]), sc)
    {
      ScaleIdleKeepsSound(Snapshot(), sc);
      for i := 0 to upgrades.Length
        invariant forall j :: 0 <= j < i ==> upgrades[j] == RescaleIfIdle(old(upgrades[j]), sc)
        invariant forall j :: i <= j < upgrades.Length ==> upgrades[j] == old(upgrades[j])
      {
        if upgrades[i].item.kind.Idle? {
          upgrades[i] := upgrades[i].(increment := Rescale(upgrades[i].increment, sc));
        }
      }
    }

    /** Broken Pump's effect: the `pick`-th owned idle upgrade loses a unit and is marked. */
    method BreakPump(pick: nat)
      requires Valid() && PickOk(upgrades[..], pick)
      modifies upgrades
      ensures Valid()
      ensures upgrades[..] == Break(old(upgrades[..]), pick)
    {
      EffectKeepsSound(BrokenPump, pick, Snapshot());
      var victims := Victims(upgrades[..]);
      if |victims| == 0 {
        return;
      }
      var v := victims[pick];
      upgrades[v] := upgrades[v].(count := upgrades[v].count - 1, tempLoss := true);
    }

    /** Broken Pump's revert: the first marked upgrade gets its unit back and loses the mark. */
    method RepairPump()
      requires Valid()
      modifies upgrades
      ensures Valid()
      ensures upgrades[..] == Repair(old(upgrades[..]))
    {
      RevertKeepsSound(BrokenPump, Snapshot());
      var lost := FindFlagged(upgrades[..]);
      if lost.Some? {
        var i := lost.value;
        upgrades[i] := upgrades[i].(count := upgrades[i].count + 1, tempLoss := false);
      }
    }

    /** `event.effect()`. */
    method ApplyEffect(e: Event, pick: nat)
      requires Valid()
      requires e == BrokenPump ==> PickOk(upgrades[..], pick)
      modifies this, upgrades
      ensures Valid() && upgrades == old(upgrades)
      ensures Snapshot() == Effect(e, pick, old(Snapshot()))
    {
      EffectKeepsSound(e, pick, Snapshot());
      match e {
        case Rainstorm => perClick := perClick * 2.0;
        case CharityDrive => ScaleAllCosts(Times(0.75));
        case VolunteerSurge => ScaleAllIdleIncrements(Times(3.0));
        case MiracleWell => waterPoints := waterPoints + waterPoints * 0.05;
        case Drought => ScaleAllIdleIncrements(Over(2.0));
        case BrokenPump => BreakPump(pick);
        case SupplyShortage => ScaleAllCosts(Times(1.3));
        case ContaminatedSource => waterPoints := waterPoints * 0.9;
      }
    }

    /** The revert timer's callback: `if (event.revert) event.revert()`. */
    method RevertEffect(e: Event)
      requires Valid()
      modifies this, upgrades
      ensures Valid() && upgrades == old(upgrades)
      ensures Snapshot() == Revert(e, old(Snapshot()))
    {
      RevertKeepsSound(e, Snapshot());
      match e {
        case Rainstorm => perClick := perClick / 2.0;
        case CharityDrive => ScaleAllCosts(Over(0.75));
        case VolunteerSurge => ScaleAllIdleIncrements(Over(3.0));
        case MiracleWell =>
        case Drought => ScaleAllIdleIncrements(Times(2.0));
        case BrokenPump => RepairPump();
        case SupplyShortage => ScaleAllCosts(Over(1.3));
        case ContaminatedSource =>
      }
    }

    /**
     * `triggerRandomEvent()` given the two values `Math.random()` returned:
     * `roll` picks the event, `victimRoll` Broken Pump's victim. Returns the
     * event so that the caller can schedule its revert after `RevertDelay`.
     */
    method TriggerRandomEvent(roll: real, victimRoll: real) returns (e: Event)
      requires Valid()
      requires 0.0 <= roll < 1.0 && 0.0 <= victimRoll < 1.0
      modifies this, upgrades
      ensures Valid() && upgrades == old(upgrades)
      ensures e == AllEvents()[RollIndex(roll, |AllEvents()|)]
      ensures Snapshot() == Effect(e, VictimPick(old(upgrades[..]), victimRoll), old(Snapshot()))
    {
      var events := AllEvents();
      e := events[RollIndex(roll, |events|)];
      var pick := VictimPick(upgrades[..], victimRoll);
      ApplyEffect(e, pick);
    }
  }
}
