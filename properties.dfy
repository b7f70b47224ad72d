/** What the gameplay rules guarantee, over single key presses and over whole runs of them. */
module Properties {
  import opened Wrappers
  import opened Text
  import opened Entities
  import opened Players
  import opened Dungeons
  import opened Rules
  import opened Invariants

  /** Any run of key presses keeps the invariant and only ever moves the session forward. */
  lemma {:induction false} PlayKeepsInvariant(g: Session, keys: seq<Key>)
    requires Inv(g)
    ensures Inv(Play(g, keys)) && Progress(g, Play(g, keys))
    decreases |keys|
  {
    if keys == [] {
      SameWorld(g, g);
    } else {
      var h := HandleKey(g, keys[0]);
      HandleKeyKeeps(g, keys[0]);
      PlayKeepsInvariant(h, keys[1..]);
      ProgressTransitive(g, h, Play(h, keys[1..]));
    }
  }

  /** The player can only ever win at the final door, holding the Golden Key, with the boss dead. */
  lemma VictoryNeedsKeyAndBoss(g: Session, keys: seq<Key>)
    requires Inv(g)
    ensures var r := Play(g, keys);
      r.ending.GameOver? && IsWin(r.ending.reason) ==>
        GoldenKey in r.items && r.bossDefeated && Here(r).isFinalDoor
  {
    PlayKeepsInvariant(g, keys);
  }

  /** A choice, once made, can never be made again, and a cleared room stays cleared. */
  lemma {:induction false} DecisionsAreFinal(g: Session, keys: seq<Key>, i: nat)
    requires Inv(g) && i < |g.rooms|
    ensures var r := Play(g, keys);
      i < |r.rooms| &&
      (!g.rooms[i].isChoiceRoom ==> !r.rooms[i].isChoiceRoom) &&
      (g.rooms[i].entity.None? ==> r.rooms[i].entity.None?)
  {
    PlayKeepsInvariant(g, keys);
    assert Settled(g.rooms[i], Play(g, keys).rooms[i]);
  }

  /**
   * Reaching the final door decides the game at once: the victory reason when the key is held
   * and the boss is dead, and a locked-door reason otherwise.
   */
  lemma FinalDoorDecides(g: Session)
    requires WellFormed(g) && Here(g).isFinalDoor
    ensures var r := CheckRoomState(g);
      r.ending == GameOver(FinalDoorReason(GoldenKey in g.items, g.bossDefeated)) &&
      (IsWin(r.ending.reason) <==> GoldenKey in g.items && g.bossDefeated)
  {
    FinalDoorWinRule(GoldenKey in g.items, g.bossDefeated);
  }

  /**
   * The order of the room checks: the final door first, then whatever entity the room holds
   * (the Sword waits, an enemy fights, any other item is used at once), then the choice.
   */
  lemma RoomCheckOrder(g: Session)
    requires WellFormed(g)
    ensures var r := CheckRoomState(g); var room := Here(g);
      (room.isFinalDoor ==> r.ending.GameOver? && r.items == g.items) &&
      (!room.isFinalDoor ==> r.ending == g.ending) &&
      (!room.isFinalDoor && room.entity.Some? && room.entity.value.Weapon? && room.name == SwordRoomName ==>
        r.mode == Exploring && Here(r) == room) &&
      (!room.isFinalDoor && room.entity.Some? && room.entity.value.IsEnemy() ==>
        r.mode == Combat && Here(r) == room && r.health == g.health) &&
      (!room.isFinalDoor && room.entity.Some? && room.entity.value.IsItem() &&
        !(room.entity.value.Weapon? && room.name == SwordRoomName) ==>
        r.mode == Exploring && Here(r).entity.None? &&
        var o := ItemInteraction(room.entity.value, g.items, g.health);
        r.items == o.items && r.health == o.health && Here(r).description == o.result) &&
      (!room.isFinalDoor && room.entity.None? && room.isChoiceRoom ==> r.mode == Choice) &&
      (!room.isFinalDoor && room.entity.None? && !room.isChoiceRoom ==> r.mode == Exploring)
  {
  }

  /** Entering a room logs it once, by name; staying put logs nothing new. */
  lemma EntryIsLogged(g: Session)
    requires WellFormed(g) && !Here(g).isFinalDoor && (Here(g).entity.None? || !Here(g).entity.value.IsItem())
    ensures var r := CheckRoomState(g);
      !r.newEntry &&
      (g.newEntry ==> r.log == AddAction(g.log, "Entered The " + Here(g).name)) &&
      (!g.newEntry ==> r.log == g.log)
  {
  }

  /** The boss hits for 50 against the Sword; every other blow is the enemy's own damage. */
  lemma DamageRule(enemy: Entity, items: seq<string>)
    requires enemy.IsEnemy()
    ensures enemy.Boss? && SwordItem in items ==> EffectiveDamage(enemy, items) == SwordBossDamage
    ensures !(enemy.Boss? && SwordItem in items) ==> EffectiveDamage(enemy, items) == enemy.damage
    ensures enemy.Boss? ==> CombatOpening(enemy, items) != ""
  {
  }

  /**
   * One fight: the player takes the effective damage. At zero health the player is slain, the
   * enemy stays and the game is over; otherwise the enemy leaves the room, the room reports the
   * victory, and the boss flag is set exactly when the boss fell.
   */
  lemma CombatRule(g: Session)
    requires WellFormed(g) && Here(g).entity.Some? && Here(g).entity.value.IsEnemy()
    ensures var r := HandleCombat(g); var e := Here(g).entity.value; var d := EffectiveDamage(e, g.items);
      r.health == AfterDamage(g.health, d) && r.items == g.items &&
      r.message == CombatOpening(e, g.items) + DamageReport(d) &&
      (r.health <= 0 ==>
        r.ending == GameOver(DiedReason) && Here(r) == Here(g) && r.bossDefeated == g.bossDefeated &&
        r.log[0] == "You were slain by the " + e.name) &&
      (r.health > 0 ==>
        r.ending == g.ending && r.mode == Message && Here(r).entity.None? &&
        Here(r).description == DefeatText(e.name, d) &&
        r.bossDefeated == (g.bossDefeated || e.Boss?) &&
        r.log[0] == if e.Boss? then BossFallen else "Defeated the " + e.name)
  {
    var e := Here(g).entity.value;
    var s := Strike(g, e);
    if s.health > 0 {
      var r := Defeat(s, e, EffectiveDamage(e, g.items));
      assert Here(r).description == DefeatText(e.name, EffectiveDamage(e, g.items));
    }
  }

  /**
   * The choice room: 1 takes the Golden Key, anything else drinks the potion to full health;
   * either way the room stops offering the choice. Outside a choice room nothing happens.
   */
  lemma ChoiceRule(g: Session, choice: int)
    requires WellFormed(g) && 0 <= g.health
    ensures var r := HandleChoice(g, choice);
      (!Here(g).isChoiceRoom ==> r == g) &&
      (Here(g).isChoiceRoom ==> !Here(r).isChoiceRoom && r.mode == Exploring) &&
      (Here(g).isChoiceRoom && choice == 1 ==>
        r.items == g.items + [GoldenKey] && r.health == g.health && Here(r).description == KeyTaken) &&
      (Here(g).isChoiceRoom && choice != 1 ==>
        r.items == g.items && r.health == MaxHealth && Here(r).description == PotionDrunk)
  {
  }

  /**
   * The Golden Key and the potion exclude each other: after the choice the key is held
   * exactly when choice 1 was made.
   */
  lemma ChoiceExcludes(g: Session, choice: int)
    requires WellFormed(g) && Here(g).isChoiceRoom && GoldenKey !in g.items
    ensures GoldenKey in HandleChoice(g, choice).items <==> choice == 1
  {
  }

  /**
   * A key press spends a move exactly when it moves the player to another room; no other key
   * ever changes the moves left or the room the player is in.
   */
  lemma MoveAccounting(g: Session, k: Key)
    requires Inv(g)
    ensures var r := HandleKey(g, k);
      (r.moves == g.moves - 1 && r.cursor.current != g.cursor.current) ||
      (r.moves == g.moves && r.cursor == g.cursor)
  {
    NavigationKeepsTrail(g.rooms, g.cursor);
  }

  /**
   * Running out of moves only ever happens on F or B while exploring with no moves left:
   * the check for negative moves after a transition can never fire.
   */
  lemma OutOfMovesRule(g: Session, k: Key)
    requires Inv(g) && g.ending == Playing
    ensures HandleKey(g, k).ending == GameOver(OutOfMovesReason) <==>
      g.mode == Exploring && (k == KeyF || k == KeyB) && g.moves == 0
  {
    match g.mode
    case Exploring =>
      if k == KeyF || k == KeyB {
        var forward := k == KeyF;
        if g.moves > 0 && forward && CanForward(g.rooms, g.cursor) {
          NoLateOutOfMoves(MoveForward(g.(newEntry := true)));
        } else if g.moves > 0 && !forward && CanBack(g.cursor) {
          NoLateOutOfMoves(MoveBack(g.(newEntry := true)));
        }
      } else if k == KeyC && InSwordRoomWithSword(g) {
        NoLateOutOfMoves(CollectSword(g));
      }
    case Combat =>
      if k == KeyF {
        var m := HandleCombat(g);
        assert m.ending == Playing || m.ending == GameOver(DiedReason);
        OutOfMovesIsDistinct();
        NoLateOutOfMoves(m);
      } else if k == KeyR {
        OutOfMovesIsDistinct();
      }
    case Choice =>
      if k == Key1 || k == Key2 {
        NoLateOutOfMoves(HandleChoice(g, if k == Key1 then 1 else 2));
      }
    case Message =>
      if k == KeyEnter {
        NoLateOutOfMoves(g.(mode := Exploring));
      }
  }

  /** The out-of-moves reason differs from every other way the game can end. */
  lemma OutOfMovesIsDistinct()
    ensures OutOfMovesReason != VictoryReason && OutOfMovesReason != BossAliveReason
    ensures OutOfMovesReason != NoKeyReason && OutOfMovesReason != DiedReason
    ensures OutOfMovesReason != FledReason
  {
    assert |OutOfMovesReason| != |VictoryReason| && |OutOfMovesReason| != |BossAliveReason|;
    assert |OutOfMovesReason| != |NoKeyReason| && |OutOfMovesReason| != |DiedReason|;
    assert |OutOfMovesReason| != |FledReason|;
  }

  /** A transition that ends with moves left never reports running out of moves. */
  lemma NoLateOutOfMoves(m: Session)
    requires WellFormed(m) && m.moves >= 0 && m.ending != GameOver(OutOfMovesReason)
    ensures CompleteTransition(m).ending != GameOver(OutOfMovesReason)
  {
    OutOfMovesIsDistinct();
  }

  /**
   * A fight the player survives, in an ordinary room, returns the screen to exploring
   * straight away: the defeat message state is never left standing.
   */
  lemma SurvivedFightExplores(g: Session)
    requires Inv(g) && g.ending == Playing && g.mode == Combat
    requires Here(g).entity.Some? && Here(g).entity.value.IsEnemy()
    requires !Here(g).isFinalDoor && !Here(g).isChoiceRoom
    requires AfterDamage(g.health, EffectiveDamage(Here(g).entity.value, g.items)) > 0
    ensures HandleKey(g, KeyF).ending == Playing && HandleKey(g, KeyF).mode == Exploring
  {
    CombatRule(g);
  }

  /** Fleeing a fight ends the game with the flight logged. */
  lemma FleeRule(g: Session)
    requires WellFormed(g) && g.ending == Playing && g.mode == Combat
    ensures var r := HandleKey(g, KeyR);
      r.ending == GameOver(FledReason) && r.log[0] == Fled && r.health == g.health
  {
  }

  /** Q leaves for the menu, except beside the uncollected Sword, where it does nothing. */
  lemma QuitRule(g: Session)
    requires WellFormed(g) && g.ending == Playing && g.mode == Exploring
    ensures HandleKey(g, KeyQ) == if InSwordRoomWithSword(g) then g else g.(ending := Menu)
  {
  }

  /** Once the game has left the gameplay screen, no key changes anything. */
  lemma {:induction false} EndIsFinal(g: Session, keys: seq<Key>)
    requires WellFormed(g) && g.ending != Playing
    ensures Play(g, keys) == g
    decreases |keys|
  {
    if keys != [] {
      EndIsFinal(g, keys[1..]);
    }
  }
}
