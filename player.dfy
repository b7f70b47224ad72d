/** The player: health, moves, inventory and the boss-defeated flag, and how items act on them. */
module Players {
  import opened Text
  import opened Entities
  import opened Inventories

  const MaxHealth := 100

  /** Health after `takeDamage(damage)`: the subtraction, clamped below at 0. */
  function AfterDamage(health: int, damage: int): (r: int)
    ensures r >= 0 && r >= health - damage
    ensures r == 0 || r == health - damage
  {
    if health - damage < 0 then 0 else health - damage
  }

  /** Health after `heal(amount)`: the addition, clamped above at 100. */
  function AfterHeal(health: int, amount: int): (r: int)
    ensures r <= MaxHealth && r <= health + amount
    ensures r == MaxHealth || r == health + amount
  {
    if health + amount < MaxHealth then health + amount else MaxHealth
  }

  /** Damage and healing by non-negative amounts keep health within [0, 100]. */
  lemma HealthStaysInRange(health: int, amount: int)
    requires 0 <= health <= MaxHealth && amount >= 0
    ensures 0 <= AfterDamage(health, amount) <= health
    ensures health <= AfterHeal(health, amount) <= MaxHealth
  {
  }

  /** The text `takeDamage` returns. */
  function DamageReport(damage: int): string {
    "You took " + IntToString(damage) + " damage!"
  }

  /** The damage report reads back as the damage taken, between its fixed opening and closing words. */
  lemma DamageReportParses(damage: int)
    ensures var r := DamageReport(damage);
      |r| > 17 && r[..9] == "You took " && r[|r| - 8..] == " damage!" &&
      ParseInt(r[9..|r| - 8]) == damage
  {
    var digits := IntToString(damage);
    var r := DamageReport(damage);
    assert r[9..|r| - 8] == digits;
    assert r[..9] == "You took ";
    assert r[|r| - 8..] == " damage!";
    IntToStringRoundTrip(damage);
  }

  const PotionResult := "You drank the potion and feel fully restored!"

  /** What `interact` leaves behind: the inventory, the health and the result text. */
  datatype Interaction = Interaction(items: seq<string>, health: int, result: string)

  /**
   * `Item::interact` and `Enemy::interact`: a potion heals by 100, any other item is picked up,
   * and an enemy does nothing here (its effect is the fight).
   */
  function ItemInteraction(e: Entity, items: seq<string>, health: int): (r: Interaction)
    ensures e.Potion? && health >= 0 ==> r.health == MaxHealth && r.items == items
    ensures e.IsItem() && !e.Potion? ==> r.items == items + [e.name] && r.health == health
    ensures e.IsItem() ==> r.result != ""
    ensures e.IsEnemy() ==> r == Interaction(items, health, "")
  {
    if e.Potion? then Interaction(items, AfterHeal(health, 100), PotionResult)
    else if e.IsItem() then Interaction(items + [e.name], health, "You picked up the " + e.name + ".")
    else Interaction(items, health, "")
  }

  class Player {
    const name: string
    var health: int
    var moves: int
    var inventory: Inventory
    var finalBossDefeated: bool
    ghost var Repr: set<object>

    ghost predicate Valid()
      reads this`Repr, this`inventory, Repr - {this}
    {
      this in Repr && inventory in Repr && inventory.Repr <= Repr && this !in inventory.Repr &&
      inventory.Valid()
    }

    ghost function Items(): seq<string>
      reads this`Repr, this`inventory, Repr - {this}
      requires Valid()
    {
      inventory.Contents()
    }

    constructor (n: string, h: int, m: int)
      ensures Valid() && fresh(Repr)
      ensures name == n && health == h && moves == m && Items() == [] && !finalBossDefeated
    {
      name := n;
      health := h;
      moves := m;
      inventory := new Inventory();
      finalBossDefeated := false;
      new;
      Repr := {this} + inventory.Repr;
    }

    method TakeDamage(damage: int) returns (report: string)
      modifies this`health
      ensures health == AfterDamage(old(health), damage)
      ensures report == DamageReport(damage)
    {
      health := health - damage;
      if health < 0 {
        health := 0;
      }
      report := "You took " + IntToString(damage) + " damage!";
    }

    method Heal(amount: int)
      modifies this`health
      ensures health == AfterHeal(old(health), amount)
    {
      health := if MaxHealth < health + amount then MaxHealth else health + amount;
    }

    /** Spends one move; moves may go negative, which the game reads as exhaustion. */
    method UseMove()
      modifies this`moves
      ensures moves == old(moves) - 1
    {
      moves := moves - 1;
    }

    method CollectItem(item: string)
      requires Valid()
      modifies Repr
      ensures Valid() && fresh(Repr - old(Repr))
      ensures Items() == old(Items()) + [item]
      ensures health == old(health) && moves == old(moves)
      ensures finalBossDefeated == old(finalBossDefeated)
    {
      inventory.Add(item);
      Repr := Repr + inventory.Repr;
    }

    method HasItem(item: string) returns (held: bool)
      requires Valid()
      ensures held <==> item in Items()
    {
      held := inventory.Has(item);
    }

    method SetBossDefeated(status: bool)
      modifies this`finalBossDefeated
      ensures finalBossDefeated == status
    {
      finalBossDefeated := status;
    }
  }

  /** `Entity::interact`: applies `ItemInteraction` to the player in place. */
  method Interact(e: Entity, player: Player) returns (result: string)
    requires player.Valid()
    modifies player.Repr
    ensures player.Valid() && fresh(player.Repr - old(player.Repr))
    ensures var o := ItemInteraction(e, old(player.Items()), old(player.health));
      player.Items() == o.items && player.health == o.health && result == o.result
    ensures player.moves == old(player.moves) && player.finalBossDefeated == old(player.finalBossDefeated)
  {
    if e.Potion? {
      player.Heal(100);
      result := PotionResult;
    } else if e.IsItem() {
      player.CollectItem(e.name);
      result := "You picked up the " + e.name + ".";
    } else {
      result := "";
    }
  }
}
