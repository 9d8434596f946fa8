/**
 * The economy state of one session (`gameState`) as a value, and the
 * player-driven and timer-driven steps on it: session start, a click on the
 * droplet, a purchase and one tick of the income loop.  The class in
 * engine.dfy performs these steps in place and is proved to agree with the
 * functions here.
 */
module Economy {
  import opened Wrappers
  import opened Numbers
  import opened Catalog

  /**
   * One entry of `gameState.upgrades`: a copy of a catalog item together with
   * the fields the game changes. `increment` starts as the item's own and is
   * rescaled by events; `tempLoss` is the Broken Pump mark (an absent property
   * reads as false).
   */
  datatype Upgrade = Upgrade(item: Item, count: nat, cost: real, increment: real, tempLoss: bool)

  /** `gameState` without `activeEvents`, which nothing reads or writes. */
  datatype State = State(waterPoints: real, perClick: real, upgrades: seq<Upgrade>, difficulty: Difficulty)

  /** The literal `gameState` before any difficulty is chosen. */
  function Initial(): State
  {
    State(0.0, 1.0, [], Easy)
  }

  ghost predicate EntryWellFormed(u: Upgrade)
  {
    ItemWellFormed(u.item) && u.cost > 0.0 && u.increment > 0.0
  }

  /**
   * What every reachable state satisfies: the balance is never negative, a
   * click always gains something, and every entry has a positive cost and a
   * positive increment.
   */
  ghost predicate Sound(s: State)
  {
    && s.waterPoints >= 0.0
    && s.perClick > 0.0
    && forall i :: 0 <= i < |s.upgrades| ==> EntryWellFormed(s.upgrades[i])
  }

  lemma InitialIsSound()
    ensures Sound(Initial())
  {
  }

  // ---------------------------------------------------------------- lookup

  /** `Array.prototype.find`, returning the index of the first match. */
  function Find<T>(s: seq<T>, p: T -> bool): (r: Option<nat>)
    ensures r.Some? ==> r.value < |s| && p(s[r.value])
    ensures r.Some? ==> forall j :: 0 <= j < r.value ==> !p(s[j])
    ensures r.None? <==> forall j :: 0 <= j < |s| ==> !p(s[j])
  {
    if s == [] then None
    else if p(s[0]) then Some(0)
    else
      match Find(s[1..], p)
      case None => None
      case Some(k) => Some(k + 1)
  }

  /** `gameState.upgrades.find(x => x.key === key)`. */
  function FindKey(us: seq<Upgrade>, key: string): Option<nat>
  {
    Find(us, (u: Upgrade) => u.item.key == key)
  }

  /** The result of a lookup by key depends on the keys alone. */
  lemma FindKeySameKeys(us: seq<Upgrade>, ws: seq<Upgrade>, key: string)
    requires |us| == |ws|
    requires forall i :: 0 <= i < |us| ==> us[i].item.key == ws[i].item.key
    ensures FindKey(us, key) == FindKey(ws, key)
  {
  }

  // ---------------------------------------------------------- session start

  /** One element of `baseUpgrades.map(u => ({ ...u, cost: Math.ceil(u.baseCost * costMult) }))`. */
  function NewEntry(it: Item, costMult: real): Upgrade
  {
    Upgrade(it, 0, Ceil(it.baseCost * costMult) as real, it.increment, false)
  }

  function StartUpgrades(mode: Difficulty): seq<Upgrade>
  {
    var items := Items();
    seq(|items|, i requires 0 <= i < |items| => NewEntry(items[i], SettingFor(mode).costMult))
  }

  /**
   * `startGame(mode)`: records the difficulty and replaces the upgrade list.
   * The balance and the per-click gain are left as they are.
   */
  function Start(s: State, mode: Difficulty): State
  {
    s.(difficulty := mode, upgrades := StartUpgrades(mode))
  }

  /**
   * A fresh session has one entry per catalog item, in catalog order, none
   * owned, each priced at the catalog price times the difficulty multiplier
   * rounded up; nothing else changes.
   */
  lemma StartEntries(s: State, mode: Difficulty)
    ensures var t := Start(s, mode);
      && t.waterPoints == s.waterPoints && t.perClick == s.perClick && t.difficulty == mode
      && |t.upgrades| == |Items()|
      && forall i :: 0 <= i < |Items()| ==>
           var u, it := t.upgrades[i], Items()[i];
           && u.item == it && u.count == 0 && u.increment == it.increment && !u.tempLoss
           && u.cost == Ceil(it.baseCost * SettingFor(mode).costMult) as real
           && it.baseCost * SettingFor(mode).costMult <= u.cost < it.baseCost * SettingFor(mode).costMult + 1.0
  {
  }

  /** On Hard, the Well (catalog price 100) opens at 200 drops. */
  lemma HardWellCosts200()
    ensures StartUpgrades(Hard)[2].item.key == "well"
    ensures StartUpgrades(Hard)[2].cost == 200.0
  {
  }

  lemma StartKeepsSound(s: State, mode: Difficulty)
    requires Sound(s)
    ensures Sound(Start(s, mode))
  {
  }

  // ---------------------------------------------------------- passive income

  /** What one entry would add per tick: `u.count * u.increment`. */
  function Yield(u: Upgrade): real
  {
    u.count as real * u.increment
  }

  /** `upgrades.filter(u => u.type === 'idle')`. */
  function IdleOnly(us: seq<Upgrade>): (vs: seq<Upgrade>)
    ensures forall k :: 0 <= k < |vs| ==> vs[k].item.kind == Idle && vs[k] in us
    ensures forall u :: u in us && u.item.kind == Idle ==> u in vs
    ensures |vs| <= |us|
  {
    if us == [] then []
    else (if us[0].item.kind == Idle then [us[0]] else []) + IdleOnly(us[1..])
  }

  /** `.reduce((sum, u) => sum + u.count * u.increment, 0)`, a left fold. */
  function SumYields(vs: seq<Upgrade>): real
  {
    if vs == [] then 0.0 else SumYields(vs[..|vs| - 1]) + Yield(vs[|vs| - 1])
  }

  /** `getPassiveIncome()`. */
  function PassiveIncome(us: seq<Upgrade>): real
  {
    SumYields(IdleOnly(us))
  }

  /** Independent reference: every entry contributes its yield if idle, nothing if click. */
  function Contribution(u: Upgrade): real
  {
    if u.item.kind == Idle then Yield(u) else 0.0
  }

  function TotalContribution(us: seq<Upgrade>): real
  {
    if us == [] then 0.0 else Contribution(us[0]) + TotalContribution(us[1..])
  }

  lemma {:induction false} SumYieldsAppend(a: seq<Upgrade>, b: seq<Upgrade>)
    ensures SumYields(a + b) == SumYields(a) + SumYields(b)
  {
    if b != [] {
      var n := |b| - 1;
      assert (a + b)[..|a + b| - 1] == a + b[..n];
      assert (a + b)[|a + b| - 1] == b[n];
      SumYieldsAppend(a, b[..n]);
    } else {
      assert a + b == a;
    }
  }

  /**
   * The passive income is the sum of `count * increment` over the idle
   * entries only: click-type entries never contribute.
   */
  lemma {:induction false} PassiveIncomeIsIdleSum(us: seq<Upgrade>)
    ensures PassiveIncome(us) == TotalContribution(us)
  {
    if us != [] {
      var head := if us[0].item.kind == Idle then [us[0]] else [];
      assert IdleOnly(us) == head + IdleOnly(us[1..]);
      SumYieldsAppend(head, IdleOnly(us[1..]));
      if us[0].item.kind == Idle {
        assert SumYields(head) == Yield(us[0]) by {
          assert head[..0] == [];
        }
      }
      PassiveIncomeIsIdleSum(us[1..]);
    }
  }

  lemma {:induction false} TotalContributionUpdate(us: seq<Upgrade>, i: nat, v: Upgrade)
    requires i < |us|
    ensures TotalContribution(us[i := v]) == TotalContribution(us) - Contribution(us[i]) + Contribution(v)
  {
    if i > 0 {
      assert us[i := v][1..] == us[1..][i - 1 := v];
      TotalContributionUpdate(us[1..], i - 1, v);
    } else {
      assert us[i := v][1..] == us[1..];
    }
  }

  /**
   * Replacing a click-type entry by another click-type entry (say, the
   * Bucket with a different count) leaves the passive income unchanged.
   */
  lemma ClickEntryNeverContributes(us: seq<Upgrade>, i: nat, v: Upgrade)
    requires i < |us| && us[i].item.kind == Click && v.item.kind == Click
    ensures PassiveIncome(us[i := v]) == PassiveIncome(us)
  {
    PassiveIncomeIsIdleSum(us);
    PassiveIncomeIsIdleSum(us[i := v]);
    TotalContributionUpdate(us, i, v);
  }

  lemma {:induction false} TotalContributionNonNegative(us: seq<Upgrade>)
    requires forall i :: 0 <= i < |us| ==> us[i].increment > 0.0
    ensures TotalContribution(us) >= 0.0
  {
    if us != [] {
      assert us[0].count as real * us[0].increment >= 0.0;
      TotalContributionNonNegative(us[1..]);
    }
  }

  /** In a sound state the passive income is never negative. */
  lemma PassiveIncomeNonNegative(s: State)
    requires Sound(s)
    ensures PassiveIncome(s.upgrades) >= 0.0
  {
    PassiveIncomeIsIdleSum(s.upgrades);
    TotalContributionNonNegative(s.upgrades);
  }

  /**
   * When exactly one idle entry, index `p`, is owned, the income is that
   * entry's `count * increment`.
   */
  lemma {:induction false} SingleOwnerIncome(us: seq<Upgrade>, p: nat)
    requires p < |us| && us[p].item.kind == Idle
    requires forall i :: 0 <= i < |us| && i != p ==> us[i].count == 0
    ensures PassiveIncome(us) == Yield(us[p])
  {
    var zero := us[p := us[p].(count := 0)];
    assert TotalContribution(zero) == 0.0 by {
      ZeroCountsContributeNothing(zero);
    }
    TotalContributionUpdate(zero, p, us[p]);
    assert zero[p := us[p]] == us;
    PassiveIncomeIsIdleSum(us);
  }

  lemma {:induction false} ZeroCountsContributeNothing(us: seq<Upgrade>)
    requires forall i :: 0 <= i < |us| ==> us[i].count == 0
    ensures TotalContribution(us) == 0.0
  {
    if us != [] {
      ZeroCountsContributeNothing(us[1..]);
    }
  }

  // ------------------------------------------------------------ the steps

  /** The droplet's click handler: `waterPoints += perClick`. */
  function RegisterClick(s: State): State
  {
    s.(waterPoints := s.waterPoints + s.perClick)
  }

  /** The body of the one-second loop: add the passive income when it is positive. */
  function IncomeTick(s: State): State
  {
    var passive := PassiveIncome(s.upgrades);
    if passive > 0.0 then s.(waterPoints := s.waterPoints + passive) else s
  }

  /** The price after `n` units are owned: `Math.ceil(baseCost * Math.pow(costScale, n))`. */
  function CostAfter(it: Item, n: nat): real
  {
    Ceil(it.baseCost * Pow(it.costScale, n)) as real
  }

  /** The entry `key` names exists and the balance covers its cost. */
  predicate Purchasable(s: State, key: string)
  {
    match FindKey(s.upgrades, key)
    case None => false
    case Some(i) => s.waterPoints >= s.upgrades[i].cost
  }

  /** `buyUpgrade(key)`. */
  function Purchase(s: State, key: string): State
  {
    match FindKey(s.upgrades, key)
    case None => s
    case Some(i) =>
      var u := s.upgrades[i];
      if s.waterPoints >= u.cost then
        var n := u.count + 1;
        s.(waterPoints := s.waterPoints - u.cost,
           perClick := if u.item.kind == Click then s.perClick + u.increment else s.perClick,
           upgrades := s.upgrades[i := u.(count := n, cost := CostAfter(u.item, n))])
      else s
  }

  /** A click adds exactly the per-click gain, which is positive, and nothing else changes. */
  lemma ClickAddsPerClick(s: State)
    requires Sound(s)
    ensures RegisterClick(s).waterPoints == s.waterPoints + s.perClick > s.waterPoints
    ensures RegisterClick(s).upgrades == s.upgrades && RegisterClick(s).perClick == s.perClick
    ensures Sound(RegisterClick(s))
  {
  }

  /**
   * In a sound state one tick adds exactly the passive income to the balance
   * and changes nothing else.
   */
  lemma TickAddsPassiveIncome(s: State)
    requires Sound(s)
    ensures IncomeTick(s) == s.(waterPoints := s.waterPoints + PassiveIncome(s.upgrades))
    ensures Sound(IncomeTick(s))
  {
    PassiveIncomeNonNegative(s);
  }

  /**
   * With one Pump (income 1 per second) and nothing else owned, two ticks add
   * exactly 2 drops, and a click between them only adds its own gain.
   */
  lemma TwoTicksWithOnePump(s: State, p: nat)
    requires Sound(s)
    requires p < |s.upgrades| && s.upgrades[p].item.kind == Idle
    requires s.upgrades[p].count == 1 && s.upgrades[p].increment == 1.0
    requires forall i :: 0 <= i < |s.upgrades| && i != p ==> s.upgrades[i].count == 0
    ensures IncomeTick(IncomeTick(s)).waterPoints == s.waterPoints + 2.0
    ensures IncomeTick(RegisterClick(IncomeTick(s))).waterPoints == s.waterPoints + 2.0 + s.perClick
  {
    SingleOwnerIncome(s.upgrades, p);
  }

  /** A purchase happens exactly when the key is known and affordable; otherwise nothing changes. */
  lemma PurchaseChangesIff(s: State, key: string)
    ensures Purchase(s, key) == s <==> !Purchasable(s, key)
  {
  }

  /**
   * A successful purchase of entry `i`: the balance drops by exactly the old
   * cost (so it stays non-negative, and paying the exact balance leaves 0),
   * the count rises by one, the per-click gain rises by the increment only
   * for click-type entries, the new cost is recomputed from the catalog price
   * alone, and every other entry and field is unchanged.
   */
  lemma PurchaseSucceeds(s: State, key: string, i: nat)
    requires FindKey(s.upgrades, key) == Some(i)
    requires s.waterPoints >= s.upgrades[i].cost
    ensures var t, u := Purchase(s, key), s.upgrades[i];
      && t.waterPoints == s.waterPoints - u.cost
      && t.waterPoints >= 0.0
      && (s.waterPoints == u.cost ==> t.waterPoints == 0.0)
      && t.perClick == (if u.item.kind == Click then s.perClick + u.increment else s.perClick)
      && |t.upgrades| == |s.upgrades|
      && t.upgrades[i].count == u.count + 1
      && t.upgrades[i].cost == CostAfter(u.item, u.count + 1)
      && t.upgrades[i].item == u.item && t.upgrades[i].increment == u.increment
      && t.upgrades[i].tempLoss == u.tempLoss
      && (forall j :: 0 <= j < |s.upgrades| && j != i ==> t.upgrades[j] == s.upgrades[j])
      && t.difficulty == s.difficulty
  {
  }

  /** A purchase is a no-op for an unknown key and for a cost above the balance. */
  lemma PurchaseRefused(s: State, key: string)
    requires (forall i :: 0 <= i < |s.upgrades| ==> s.upgrades[i].item.key != key)
          || (FindKey(s.upgrades, key).Some? && s.waterPoints < s.upgrades[FindKey(s.upgrades, key).value].cost)
    ensures Purchase(s, key) == s
  {
  }

  lemma CostAfterPositive(it: Item, n: nat)
    requires ItemWellFormed(it)
    ensures CostAfter(it, n) >= 1.0
  {
  }

  lemma PurchaseKeepsSound(s: State, key: string)
    requires Sound(s)
    ensures Sound(Purchase(s, key))
  {
  }

  /**
   * On Easy, buying the Bucket twice costs 10 then 16, after which it is
   * priced at 26; the per-click gain goes from 1 to 3.
   */
  lemma BucketPriceProgression()
    ensures var s := Start(Initial(), Easy).(waterPoints := 100.0);
      var s1 := Purchase(s, "bucket");
      var s2 := Purchase(s1, "bucket");
      && s1.upgrades[0].cost == 16.0
      && s2.upgrades[0].cost == 26.0
      && s2.upgrades[0].count == 2
      && s2.waterPoints == 74.0
      && s2.perClick == 3.0
  {
  }
}
