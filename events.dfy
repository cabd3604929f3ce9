/** The callbacks the game's entities fire (`onTakeDamage`, `onAddBossAttackVisual`,
    `onDefeatCallback`) are modelled as appends to one shared event log. The entity manager
    turns the logged hits into damage numbers and the logged visual requests into boss attack
    visuals at the point of its update where the game would have pushed them. */
module Events {

  /** `onTakeDamage(x, y, amount)`: the position of the enemy when it was hit. */
  datatype Hit = Hit(x: real, y: real, amount: real)

  /** `new BossAttackVisual(x, y, radius, duration, color)` handed to `onAddBossAttackVisual`. */
  datatype VisualRequest = VisualRequest(x: real, y: real, radius: real, duration: real, color: string)

  class EventLog {
    var hits: seq<Hit>
    var visuals: seq<VisualRequest>
    /** How many times a boss's defeat callback ran. */
    var bossDefeats: nat

    constructor ()
      ensures hits == [] && visuals == [] && bossDefeats == 0
    {
      hits := [];
      visuals := [];
      bossDefeats := 0;
    }
  }
}
