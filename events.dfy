/**
 * The random-event catalog of Hard mode (`positiveEvents` followed by
 * `negativeEvents`): each event's `effect` and, for the timed ones, its
 * `revert`, as functions on the economy state. Which event fires and which
 * Broken Pump victim is hit are chosen by the caller; when the revert runs is
 * the caller's business too.
 *
 * The revert of every timed event undoes its effect exactly in exact
 * arithmetic; with JavaScript doubles, `x * 0.75 / 0.75` may differ from `x`
 * in the last bit, which this model does not track.
 */
module Events {
  import opened Wrappers
  import opened Numbers
  import opened Catalog
  import opened Economy

  datatype Event =
    | Rainstorm           // perClick ×2 for 15 s
    | CharityDrive        // every cost ×0.75 for 20 s
    | VolunteerSurge      // every idle increment ×3 for 10 s
    | MiracleWell         // +5 % of the balance, instant
    | Drought             // every idle increment ÷2 for 20 s
    | BrokenPump          // one owned idle upgrade loses a unit for 15 s
    | SupplyShortage      // every cost ×1.3 for 30 s
    | ContaminatedSource  // −10 % of the balance, instant

  /** `[...positiveEvents, ...negativeEvents]`. */
  function AllEvents(): seq<Event>
  {
    [Rainstorm, CharityDrive, VolunteerSurge, MiracleWell,
     Drought, BrokenPump, SupplyShortage, ContaminatedSource]
  }

  /** Every event occurs exactly once in the list the roll indexes. */
  lemma AllEventsListsEachOnce(e: Event)
    ensures |AllEvents()| == 8
    ensures exists i :: 0 <= i < 8 && AllEvents()[i] == e
    ensures forall i, j :: 0 <= i < j < 8 ==> AllEvents()[i] != AllEvents()[j]
  {
    match e
    case Rainstorm => assert AllEvents()[0] == e;
    case CharityDrive => assert AllEvents()[1] == e;
    case VolunteerSurge => assert AllEvents()[2] == e;
    case MiracleWell => assert AllEvents()[3] == e;
    case Drought => assert AllEvents()[4] == e;
    case BrokenPump => assert AllEvents()[5] == e;
    case SupplyShortage => assert AllEvents()[6] == e;
    case ContaminatedSource => assert AllEvents()[7] == e;
  }

  /** The `duration` property, in milliseconds; the instant events have none. */
  function Duration(e: Event): Option<nat>
  {
    match e
    case Rainstorm => Some(15000)
    case CharityDrive => Some(20000)
    case VolunteerSurge => Some(10000)
    case MiracleWell => None
    case Drought => Some(20000)
    case BrokenPump => Some(15000)
    case SupplyShortage => Some(30000)
    case ContaminatedSource => None
  }

  /** Whether the event has a `revert`; in this catalog exactly the timed ones do. */
  predicate HasRevert(e: Event)
  {
    !(e.MiracleWell? || e.ContaminatedSource?)
  }

  /** `event.duration || 15000`: when the revert timer fires. */
  function RevertDelay(e: Event): (ms: nat)
    ensures HasRevert(e) <==> Duration(e).Some?
    ensures Duration(e).Some? ==> ms == Duration(e).value
    ensures Duration(e).None? ==> ms == 15000
    ensures 10000 <= ms <= 30000
  {
    match Duration(e)
    case Some(d) => d
    case None => 15000
  }

  // ------------------------------------------------------------- rescaling

  /** `x *= factor` or `x /= divisor`. */
  datatype Scale = Times(factor: real) | Over(divisor: real)

  predicate Positive(sc: Scale)
  {
    match sc
    case Times(f) => f > 0.0
    case Over(d) => d > 0.0
  }

  function Rescale(x: real, sc: Scale): (r: real)
    requires Positive(sc)
    ensures x > 0.0 ==> r > 0.0
  {
    match sc
    case Times(f) => x * f
    case Over(d) => x / d
  }

  /** The operation a revert applies: division undoes multiplication and vice versa. */
  function Inverse(sc: Scale): Scale
  {
    match sc
    case Times(f) => Over(f)
    case Over(d) => Times(d)
  }

  lemma RescaleInverse(x: real, sc: Scale)
    requires Positive(sc)
    ensures Positive(Inverse(sc)) && Rescale(Rescale(x, sc), Inverse(sc)) == x
  {
  }

  /** `upgrades.forEach(u => u.cost *= f)` (or `/=`). */
  function ScaleCosts(us: seq<Upgrade>, sc: Scale): seq<Upgrade>
    requires Positive(sc)
  {
    seq(|us|, i requires 0 <= i < |us| => us[i].(cost := Rescale(us[i].cost, sc)))
  }

  /** `if (u.type === 'idle') u.increment *= f` (or `/=`) on one entry. */
  function RescaleIfIdle(u: Upgrade, sc: Scale): Upgrade
    requires Positive(sc)
  {
    if u.item.kind == Idle then u.(increment := Rescale(u.increment, sc)) else u
  }

  /** `upgrades.forEach(u => { if (u.type === 'idle') u.increment *= f; })` (or `/=`). */
  function ScaleIdleIncrements(us: seq<Upgrade>, sc: Scale): seq<Upgrade>
    requires Positive(sc)
  {
    seq(|us|, i requires 0 <= i < |us| => RescaleIfIdle(us[i], sc))
  }

  /** Rescaling the costs and then applying the inverse rescaling restores every entry. */
  lemma {:induction false} ScaleCostsRoundTrip(us: seq<Upgrade>, sc: Scale)
    requires Positive(sc)
    ensures Positive(Inverse(sc)) && ScaleCosts(ScaleCosts(us, sc), Inverse(sc)) == us
  {
    RescaleInverse(1.0, sc);
    var ws := ScaleCosts(ScaleCosts(us, sc), Inverse(sc));
    forall i | 0 <= i < |us|
      ensures ws[i] == us[i]
    {
      RescaleInverse(us[i].cost, sc);
    }
  }

  /** Rescaling the idle increments and then the inverse restores every entry. */
  lemma {:induction false} ScaleIdleRoundTrip(us: seq<Upgrade>, sc: Scale)
    requires Positive(sc)
    ensures Positive(Inverse(sc)) && ScaleIdleIncrements(ScaleIdleIncrements(us, sc), Inverse(sc)) == us
  {
    RescaleInverse(1.0, sc);
    var ws := ScaleIdleIncrements(ScaleIdleIncrements(us, sc), Inverse(sc));
    forall i | 0 <= i < |us|
      ensures ws[i] == us[i]
    {
      RescaleInverse(us[i].increment, sc);
    }
  }

  // ------------------------------------------------------------ Broken Pump

  /** The filter `u.type === 'idle' && u.count > 0`. */
  predicate IsVictim(u: Upgrade)
  {
    u.item.kind == Idle && u.count > 0
  }

  /** The indices of the entries that filter keeps, in list order. */
  function Victims(us: seq<Upgrade>): (vs: seq<nat>)
    ensures forall k :: 0 <= k < |vs| ==> vs[k] < |us| && IsVictim(us[vs[k]])
    ensures forall i :: 0 <= i < |us| && IsVictim(us[i]) ==> i in vs
    ensures forall k, m :: 0 <= k < m < |vs| ==> vs[k] < vs[m]
  {
    if us == [] then []
    else
      var rest := Victims(us[..|us| - 1]);
      assert forall i :: 0 <= i < |us| - 1 ==> us[..|us| - 1][i] == us[i];
      if IsVictim(us[|us| - 1]) then rest + [|us| - 1] else rest
  }

  /** Two lists whose entries pass the filter at the same positions have the same victim list. */
  lemma {:induction false} VictimsSameFilter(us: seq<Upgrade>, ws: seq<Upgrade>)
    requires |us| == |ws|
    requires forall i :: 0 <= i < |us| ==> (IsVictim(us[i]) <==> IsVictim(ws[i]))
    ensures Victims(us) == Victims(ws)
  {
    if us != [] {
      VictimsSameFilter(us[..|us| - 1], ws[..|ws| - 1]);
    }
  }

  /** The victim index is one the source's `Math.floor(Math.random() * idleUpgrades.length)` can produce. */
  predicate PickOk(us: seq<Upgrade>, pick: nat)
  {
    |Victims(us)| == 0 || pick < |Victims(us)|
  }

  /**
   * `Math.floor(Math.random() * idleUpgrades.length)` for the value
   * `victimRoll` that `Math.random()` returned; 0 when there is no victim.
   */
  function VictimPick(us: seq<Upgrade>, victimRoll: real): (pick: nat)
    requires 0.0 <= victimRoll < 1.0
    ensures PickOk(us, pick)
  {
    var n := |Victims(us)|;
    if n == 0 then 0 else RollIndex(victimRoll, n)
  }

  /** Broken Pump's effect on the upgrade list: the `pick`-th victim loses a unit and is marked. */
  function Break(us: seq<Upgrade>, pick: nat): seq<Upgrade>
    requires PickOk(us, pick)
  {
    var vs := Victims(us);
    if |vs| == 0 then us
    else
      var v := vs[pick];
      us[v := us[v].(count := us[v].count - 1, tempLoss := true)]
  }

  /** `gameState.upgrades.find(u => u.tempLoss)`. */
  function FindFlagged(us: seq<Upgrade>): Option<nat>
  {
    Find(us, (u: Upgrade) => u.tempLoss)
  }

  predicate NoneFlagged(us: seq<Upgrade>)
  {
    forall i :: 0 <= i < |us| ==> !us[i].tempLoss
  }

  /** Broken Pump's revert: the first marked entry gets its unit back and loses the mark. */
  function Repair(us: seq<Upgrade>): seq<Upgrade>
  {
    match FindFlagged(us)
    case None => us
    case Some(i) => us[i := us[i].(count := us[i].count + 1, tempLoss := false)]
  }

  /**
   * With owned idle upgrades, Broken Pump takes one unit from exactly one of
   * them (the `pick`-th, in list order), marks it and changes nothing else;
   * with none it does nothing.
   */
  lemma BreakHitsOneOwnedIdle(us: seq<Upgrade>, pick: nat)
    requires PickOk(us, pick)
    ensures |Break(us, pick)| == |us|
    ensures |Victims(us)| == 0 ==> Break(us, pick) == us
    ensures |Victims(us)| > 0 ==>
      var v, ws := Victims(us)[pick], Break(us, pick);
      && v < |us| && us[v].item.kind == Idle && us[v].count > 0
      && ws[v] == us[v].(count := us[v].count - 1, tempLoss := true)
      && forall j :: 0 <= j < |us| && j != v ==> ws[j] == us[j]
  {
  }

  /** When no entry was marked, Repair undoes Break exactly. */
  lemma BreakRepairRoundTrip(us: seq<Upgrade>, pick: nat)
    requires PickOk(us, pick) && NoneFlagged(us)
    ensures Repair(Break(us, pick)) == us
  {
  }

  // ------------------------------------------------------------ effects

  /** The event's `effect()`; `pick` is Broken Pump's victim choice and is ignored by the others. */
  function Effect(e: Event, pick: nat, s: State): State
    requires e == BrokenPump ==> PickOk(s.upgrades, pick)
  {
    match e
    case Rainstorm => s.(perClick := s.perClick * 2.0)
    case CharityDrive => s.(upgrades := ScaleCosts(s.upgrades, Times(0.75)))
    case VolunteerSurge => s.(upgrades := ScaleIdleIncrements(s.upgrades, Times(3.0)))
    case MiracleWell => s.(waterPoints := s.waterPoints + s.waterPoints * 0.05)
    case Drought => s.(upgrades := ScaleIdleIncrements(s.upgrades, Over(2.0)))
    case BrokenPump => s.(upgrades := Break(s.upgrades, pick))
    case SupplyShortage => s.(upgrades := ScaleCosts(s.upgrades, Times(1.3)))
    case ContaminatedSource => s.(waterPoints := s.waterPoints * 0.9)
  }

  /** The event's `revert()`; the instant events have none and leave the state alone. */
  function Revert(e: Event, s: State): State
  {
    match e
    case Rainstorm => s.(perClick := s.perClick / 2.0)
    case CharityDrive => s.(upgrades := ScaleCosts(s.upgrades, Over(0.75)))
    case VolunteerSurge => s.(upgrades := ScaleIdleIncrements(s.upgrades, Over(3.0)))
    case MiracleWell => s
    case Drought => s.(upgrades := ScaleIdleIncrements(s.upgrades, Times(2.0)))
    case BrokenPump => s.(upgrades := Repair(s.upgrades))
    case SupplyShortage => s.(upgrades := ScaleCosts(s.upgrades, Over(1.3)))
    case ContaminatedSource => s
  }

  /**
   * Every timed event's revert, run right after its effect, restores the
   * state exactly (for Broken Pump: provided no entry was already marked).
   * Instant events have no revert.
   */
  lemma RevertUndoesEffect(e: Event, pick: nat, s: State)
    requires e == BrokenPump ==> PickOk(s.upgrades, pick) && NoneFlagged(s.upgrades)
    ensures HasRevert(e) ==> Revert(e, Effect(e, pick, s)) == s
    ensures !HasRevert(e) ==> Revert(e, s) == s
  {
  }

  /** Rainstorm from a per-click gain of 1: 2 while active, 1 again after the revert. */
  lemma RainstormScenario(s: State)
    requires s.perClick == 1.0
    ensures Effect(Rainstorm, 0, s).perClick == 2.0
    ensures Revert(Rainstorm, Effect(Rainstorm, 0, s)).perClick == 1.0
  {
  }

  lemma ScaleCostsKeepsSound(s: State, sc: Scale)
    requires Sound(s) && Positive(sc)
    ensures Sound(s.(upgrades := ScaleCosts(s.upgrades, sc)))
  {
  }

  lemma ScaleIdleKeepsSound(s: State, sc: Scale)
    requires Sound(s) && Positive(sc)
    ensures Sound(s.(upgrades := ScaleIdleIncrements(s.upgrades, sc)))
  {
  }

  /**
   * No effect breaks soundness: in particular the balance stays
   * non-negative under Contaminated Source.
   */
  lemma EffectKeepsSound(e: Event, pick: nat, s: State)
    requires Sound(s)
    requires e == BrokenPump ==> PickOk(s.upgrades, pick)
    ensures Sound(Effect(e, pick, s))
  {
  }

  /**
   * No revert breaks soundness, whatever happened since the effect: the
   * per-click gain stays positive under any order of Rainstorm reverts.
   */
  lemma RevertKeepsSound(e: Event, s: State)
    requires Sound(s)
    ensures Sound(Revert(e, s))
  {
  }

  // ------------------------------------------------------- as-written quirks

  /** When `v` is the only marked entry, Repair gives it back a unit, clears its mark and touches nothing else. */
  lemma RepairOnlyMarked(ws: seq<Upgrade>, v: nat)
    requires v < |ws| && ws[v].tempLoss
    requires forall j :: 0 <= j < |ws| && j != v ==> !ws[j].tempLoss
    ensures |Repair(ws)| == |ws|
    ensures Repair(ws)[v] == ws[v].(count := ws[v].count + 1, tempLoss := false)
    ensures forall j :: 0 <= j < |ws| && j != v ==> Repair(ws)[j] == ws[j]
  {
  }

  /**
   * Two overlapping Broken Pumps that hit the same upgrade share its single
   * mark: after both reverts the victim has permanently lost one unit and is
   * unmarked, and every other entry is as before.
   */
  lemma SameVictimTwiceLosesAUnit(us: seq<Upgrade>, pick: nat)
    requires NoneFlagged(us) && pick < |Victims(us)|
    requires us[Victims(us)[pick]].count >= 2
    ensures PickOk(Break(us, pick), pick)
    ensures var v, t := Victims(us)[pick], Repair(Repair(Break(Break(us, pick), pick)));
      && |t| == |us|
      && t[v] == us[v].(count := us[v].count - 1)
      && forall j :: 0 <= j < |us| && j != v ==> t[j] == us[j]
  {
    var v := Victims(us)[pick];
    var once := Break(us, pick);
    BreakHitsOneOwnedIdle(us, pick);
    VictimsSameFilter(us, once);
    var twice := Break(once, pick);
    BreakHitsOneOwnedIdle(once, pick);
    RepairOnlyMarked(twice, v);
    var r1 := Repair(twice);
    assert NoneFlagged(r1);
    assert FindFlagged(r1) == None;
  }

  /**
   * A purchase while Charity Drive is active: the new cost is computed from
   * the catalog price and so ignores the discount, yet the revert still
   * divides it by 0.75, leaving that entry dearer than the cost formula.
   * Every other entry returns to its pre-event cost.
   */
  lemma PurchaseDuringCharityDrive(s: State, key: string, i: nat)
    requires FindKey(s.upgrades, key) == Some(i)
    requires s.waterPoints >= s.upgrades[i].cost * 0.75
    ensures var t := Revert(CharityDrive, Purchase(Effect(CharityDrive, 0, s), key));
      && |t.upgrades| == |s.upgrades|
      && t.upgrades[i].count == s.upgrades[i].count + 1
      && t.upgrades[i].cost == CostAfter(s.upgrades[i].item, s.upgrades[i].count + 1) / 0.75
      && forall j :: 0 <= j < |s.upgrades| && j != i ==> t.upgrades[j] == s.upgrades[j]
  {
  }
}
