/**
 * The static data of the game: the upgrade catalog (`baseUpgrades`) and the
 * difficulty table (`difficultySettings`).
 */
module Catalog {

  /** `type: 'click'` raises the per-click gain, `type: 'idle'` the per-second income. */
  datatype Kind = Click | Idle

  /** One catalog entry. Every catalog entry starts with `count: 0`; that count lives on the session's copy. */
  datatype Item = Item(
    key: string,
    name: string,
    desc: string,
    baseCost: real,
    kind: Kind,
    increment: real,
    costScale: real)

  /** `baseUpgrades`, in catalog order. */
  function Items(): seq<Item>
  {
    [ Item("bucket", "Bucket", "+1/click", 10.0, Click, 1.0, 1.6),
      Item("pump", "Pump", "+1/sec", 25.0, Idle, 1.0, 1.7),
      Item("well", "Well", "+5/sec", 100.0, Idle, 5.0, 1.15),
      Item("waterTower", "Water Tower", "+20/sec", 500.0, Idle, 20.0, 1.15),
      Item("filtrationPlant", "Filtration Plant", "+100/sec", 2500.0, Idle, 100.0, 1.15),
      Item("irrigationNetwork", "Irrigation Network", "+500/sec", 10000.0, Idle, 500.0, 1.15),
      Item("reservoir", "Reservoir", "+2500/sec", 50000.0, Idle, 2500.0, 1.15),
      Item("hydroelectricDam", "Hydroelectric Dam", "+10000/sec", 250000.0, Idle, 10000.0, 1.15),
      Item("desalinationPlant", "Desalination Plant", "+50000/sec", 1000000.0, Idle, 50000.0, 1.15),
      Item("orbitalCollector", "Orbital Collector", "+250000/sec", 5000000.0, Idle, 250000.0, 1.15) ]
  }

  /** The numeric facts every catalog entry satisfies and the economy relies on. */
  ghost predicate ItemWellFormed(it: Item)
  {
    it.baseCost > 0.0 && it.increment > 0.0 && it.costScale > 1.0
  }

  /**
   * The catalog has ten entries with pairwise distinct keys; the Bucket is its
   * only click-type item; every entry has a positive price, a positive
   * increment and a growth factor above 1.
   */
  lemma CatalogFacts()
    ensures |Items()| == 10
    ensures forall i, j :: 0 <= i < j < |Items()| ==> Items()[i].key != Items()[j].key
    ensures forall i :: 0 <= i < |Items()| ==> (Items()[i].kind == Click <==> i == 0)
    ensures forall i :: 0 <= i < |Items()| ==> ItemWellFormed(Items()[i])
  {
  }

  datatype Difficulty = Easy | Medium | Hard

  /** `{ costMult, eventChance }`. */
  datatype Setting = Setting(costMult: real, eventChance: real)

  /** `difficultySettings[mode]`. */
  function SettingFor(mode: Difficulty): (s: Setting)
    ensures s.costMult >= 1.0
    ensures s.eventChance > 0.0 <==> mode == Hard
  {
    match mode
    case Easy => Setting(1.0, 0.0)
    case Medium => Setting(1.4, 0.0)
    case Hard => Setting(2.0, 1.0)
  }
}
