/** The objects a room can host: the `Entity` hierarchy of the game as one closed variant type. */
module Entities {
  import opened Text

  /**
   * `Weapon`, `Potion` and `Key` are the three `Item` subclasses; `Minion` and `Boss` are
   * `MinionEnemy` and `BossEnemy`, which carry the damage they deal.
   */
  datatype Entity =
    | Weapon(name: string)
    | Potion(name: string)
    | Key(name: string)
    | Minion(name: string, damage: int)
    | Boss(name: string, damage: int)
  {
    /** `dynamic_cast<Item*>` succeeds. */
    predicate IsItem() {
      Weapon? || Potion? || Key?
    }

    /** `dynamic_cast<Enemy*>` succeeds. */
    predicate IsEnemy() {
      Minion? || Boss?
    }

    /**
     * The `getDescription` text: it names the entity, and it opens with "DANGER!"
     * exactly for enemies.
     */
    function Description(): (r: string)
      ensures Contains(r, name)
      ensures IsEnemy() <==> |r| >= 7 && r[..7] == "DANGER!"
    {
      var (prefix, suffix) :=
        match this
        case Weapon(_) => ("A powerful ", " rests here.")
        case Potion(_) => ("A bubbling ", " is on a pedestal.")
        case Key(_) => ("A shiny ", " catches your eye.")
        case Minion(_, _) => ("DANGER! A ", " blocks your path.")
        case Boss(_, _) => ("DANGER! A ", " blocks your path.");
      var r := prefix + name + suffix;
      assert OccursAt(r, name, |prefix|);
      assert r[..7] == prefix[..7];
      assert r[0] == prefix[0];
      r
    }
  }
}
