/**
 * `GamePlayScreen`: the screen object that owns the interaction state, the message and the
 * recent-actions log, and drives the player and the dungeon in place. Every method is proved to
 * move the screen's state exactly as the corresponding function of module `Rules` does.
 */
module GamePlay {
  import opened Wrappers
  import opened Text
  import opened Entities
  import opened PathTracker
  import opened Players
  import opened Dungeons
  import Rules

  class GamePlayScreen {
    const player: Player
    const dungeon: Dungeon
    var currentState: Rules.Mode
    var message: string
    var actionsLog: seq<string>
    var isNewRoomEntry: bool
    /** Which screen the game shows now: this one, the game-over screen with its reason, or the menu. */
    var ending: Rules.Ending
    ghost var Repr: set<object>

    ghost predicate Valid()
      reads this`Repr, Repr - {this}
    {
      this in Repr && player in Repr && player.Repr <= Repr && dungeon in Repr && dungeon.tracker in Repr &&
      this !in player.Repr && dungeon !in player.Repr && dungeon.tracker !in player.Repr &&
      player.Valid() && dungeon.Valid() && dungeon.player == player && dungeon.current.Some?
    }

    /** The screen, the player and the dungeon seen together as one `Rules.Session`. */
    ghost function Snapshot(): Rules.Session
      reads this, Repr
      requires Valid()
    {
      Rules.Session(player.health, player.moves, player.Items(), player.finalBossDefeated,
                    dungeon.rooms, dungeon.Position(), currentState, message, actionsLog,
                    isNewRoomEntry, ending)
    }

    lemma SnapshotWellFormed()
      requires Valid()
      ensures Rules.WellFormed(Snapshot())
    {
    }

    /** A new screen over a dungeon that already has rooms, before `OnEnter`. */
    constructor (p: Player, d: Dungeon)
      requires p.Valid() && d.Valid() && d.player == p && d.current.Some?
      requires d !in p.Repr && d.tracker !in p.Repr
      ensures Valid() && Repr == {this, d, d.tracker} + p.Repr
      ensures player == p && dungeon == d
      ensures currentState == Rules.Exploring && message == "" && actionsLog == []
      ensures isNewRoomEntry && ending == Rules.Playing
    {
      player := p;
      dungeon := d;
      currentState := Rules.Exploring;
      message := "";
      actionsLog := [];
      isNewRoomEntry := true;
      ending := Rules.Playing;
      Repr := {this, d, d.tracker} + p.Repr;
    }

    method AddAction(action: string)
      modifies this`actionsLog
      ensures actionsLog == Rules.AddAction(old(actionsLog), action)
    {
      if action == "" || (actionsLog != [] && action == actionsLog[0]) {
        return;
      }
      actionsLog := [action] + actionsLog;
      if |actionsLog| > Rules.MaxLogSize {
        actionsLog := actionsLog[..|actionsLog| - 1];
      }
    }

    /** Replaces the game-over screen with one showing `reason` and switches to it. */
    method TriggerGameOver(reason: string)
      modifies this`ending
      ensures ending == Rules.GameOver(reason)
    {
      ending := Rules.GameOver(reason);
    }

    method HandleItemInteraction()
      requires Valid()
      modifies Repr
      ensures Valid() && fresh(Repr - old(Repr))
      ensures Snapshot() == Rules.HandleItemInteraction(old(Snapshot()))
    {
      var room := dungeon.rooms[dungeon.current.value];
      if room.entity.None? || !room.entity.value.IsItem() {
        return;
      }
      var result := Interact(room.entity.value, player);
      Repr := Repr + player.Repr;
      AddAction(result);
      dungeon.UpdateCurrentRoom(room.(description := result, entity := None));
      currentState := Rules.Exploring;
    }

    method CheckRoomState()
      requires Valid()
      modifies Repr
      ensures Valid() && fresh(Repr - old(Repr))
      ensures Snapshot() == Rules.CheckRoomState(old(Snapshot()))
    {
      LogEntry();
      SettleRoom();
    }

    /** The first step of `checkRoomState`: log the room just entered. */
    method LogEntry()
      requires Valid()
      modifies this`actionsLog, this`isNewRoomEntry
      ensures Valid()
      ensures Snapshot() == Rules.LogEntry(old(Snapshot()))
    {
      if isNewRoomEntry {
        var room := dungeon.rooms[dungeon.current.value];
        AddAction("Entered The " + room.name);
        isNewRoomEntry := false;
      }
    }

    /** The rest of `checkRoomState`: settle what the room demands. */
    method SettleRoom()
      requires Valid()
      modifies Repr
      ensures Valid() && fresh(Repr - old(Repr))
      ensures Snapshot() == Rules.SettleRoom(old(Snapshot()))
    {
      var room := dungeon.rooms[dungeon.current.value];
      if room.isFinalDoor {
        var hasKey := player.HasItem(Rules.GoldenKey);
        if hasKey && player.finalBossDefeated {
          TriggerGameOver(Rules.VictoryReason);
          return;
        } else if hasKey {
          TriggerGameOver(Rules.BossAliveReason);
        } else {
          TriggerGameOver(Rules.NoKeyReason);
        }
      } else if room.entity.Some? {
        if room.entity.value.Weapon? && room.name == Rules.SwordRoomName {
          currentState := Rules.Exploring;
        } else if room.entity.value.IsEnemy() {
          currentState := Rules.Combat;
        } else {
          HandleItemInteraction();
        }
      } else if room.isChoiceRoom {
        currentState := Rules.Choice;
      } else {
        currentState := Rules.Exploring;
      }
    }

    method HandleCombat()
      requires Valid()
      modifies Repr
      ensures Valid() && Repr == old(Repr)
      ensures Snapshot() == Rules.HandleCombat(old(Snapshot()))
    {
      var room := dungeon.rooms[dungeon.current.value];
      if room.entity.None? || !room.entity.value.IsEnemy() {
        return;
      }
      var enemy := room.entity.value;
      var effectiveDamage := Strike(enemy);
      if player.health <= 0 {
        Slain(enemy);
        return;
      }
      Defeat(enemy, effectiveDamage);
    }

    /** The player did not survive the blow. */
    method Slain(enemy: Entity)
      requires Valid()
      modifies this`actionsLog, this`ending
      ensures Valid()
      ensures Snapshot() == Rules.Slain(old(Snapshot()), enemy)
    {
      AddAction("You were slain by the " + enemy.name);
      TriggerGameOver(Rules.DiedReason);
    }

    /** The second half of `handleCombat` once the player has survived the blow. */
    method Defeat(enemy: Entity, effectiveDamage: int)
      requires Valid() && dungeon.rooms[dungeon.current.value].entity == Some(enemy)
      modifies this`actionsLog, this`currentState, player`finalBossDefeated, dungeon`rooms
      ensures Valid()
      ensures Snapshot() == Rules.Defeat(old(Snapshot()), enemy, effectiveDamage)
    {
      var room := dungeon.rooms[dungeon.current.value];
      RecordDefeat(enemy);
      dungeon.UpdateCurrentRoom(room.(description := Rules.DefeatText(enemy.name, effectiveDamage), entity := None));
      currentState := Rules.Message;
    }

    /** Logs the defeat and, for the boss, sets the boss flag. */
    method RecordDefeat(enemy: Entity)
      requires Valid()
      modifies this`actionsLog, player`finalBossDefeated
      ensures Valid()
      ensures Snapshot() == Rules.RecordDefeat(old(Snapshot()), enemy)
    {
      var enemyName := enemy.name;
      AddAction("Defeated the " + enemyName);
      if enemy.Boss? {
        player.SetBossDefeated(true);
        AddAction(Rules.BossFallen);
      }
    }

    /** The first half of `handleCombat`: the fight is logged and the enemy's blow lands. */
    method Strike(enemy: Entity) returns (effectiveDamage: int)
      requires Valid() && enemy.IsEnemy() && dungeon.rooms[dungeon.current.value].entity == Some(enemy)
      modifies this`actionsLog, this`message, player`health
      ensures Valid()
      ensures Snapshot() == Rules.Strike(old(Snapshot()), enemy)
      ensures effectiveDamage == Rules.EffectiveDamage(enemy, old(player.Items()))
    {
      AddAction("Fought the " + enemy.name);
      var opening;
      opening, effectiveDamage := Opening(enemy);
      message := opening;
      var damageResult := player.TakeDamage(effectiveDamage);
      message := message + damageResult;
    }

    /** The boss fight's opening line and the damage the enemy deals, from whether the Sword is held. */
    method Opening(enemy: Entity) returns (opening: string, effectiveDamage: int)
      requires Valid() && enemy.IsEnemy()
      ensures opening == Rules.CombatOpening(enemy, player.Items())
      ensures effectiveDamage == Rules.EffectiveDamage(enemy, player.Items())
    {
      effectiveDamage := enemy.damage;
      opening := "";
      if enemy.Boss? {
        var hasSword := player.HasItem(Rules.SwordItem);
        if hasSword {
          opening := Rules.SwordGlows;
          effectiveDamage := Rules.SwordBossDamage;
        } else {
          opening := Rules.Unarmed;
        }
      }
    }

    method HandleChoice(choice: int)
      requires Valid()
      modifies Repr
      ensures Valid() && fresh(Repr - old(Repr))
      ensures Snapshot() == Rules.HandleChoice(old(Snapshot()), choice)
    {
      var room := dungeon.rooms[dungeon.current.value];
      if !room.isChoiceRoom {
        return;
      }
      if choice == 1 {
        TakeKey();
      } else {
        DrinkPotion();
      }
    }

    /** Choice 1 of `handleChoice`. */
    method TakeKey()
      requires Valid()
      modifies Repr
      ensures Valid() && fresh(Repr - old(Repr))
      ensures Snapshot() == Rules.TakeKey(old(Snapshot()))
    {
      var room := dungeon.rooms[dungeon.current.value];
      player.CollectItem(Rules.GoldenKey);
      Repr := Repr + player.Repr;
      AddAction(Rules.KeyTaken);
      dungeon.UpdateCurrentRoom(room.(description := Rules.KeyTaken, isChoiceRoom := false));
      currentState := Rules.Exploring;
    }

    /** Any other choice of `handleChoice`. */
    method DrinkPotion()
      requires Valid()
      modifies this`actionsLog, this`currentState, player`health, dungeon`rooms
      ensures Valid()
      ensures Snapshot() == Rules.DrinkPotion(old(Snapshot()))
    {
      var room := dungeon.rooms[dungeon.current.value];
      player.Heal(100);
      AddAction(Rules.PotionDrunk);
      dungeon.UpdateCurrentRoom(room.(description := Rules.PotionDrunk, isChoiceRoom := false));
      currentState := Rules.Exploring;
    }

    /** The action of the transition C starts beside the Sword. */
    method CollectSword()
      requires Valid()
      modifies Repr
      ensures Valid() && fresh(Repr - old(Repr))
      ensures Snapshot() == Rules.CollectSword(old(Snapshot()))
    {
      var room := dungeon.rooms[dungeon.current.value];
      player.CollectItem(Rules.SwordItem);
      Repr := Repr + player.Repr;
      AddAction(Rules.SwordCollected);
      dungeon.UpdateCurrentRoom(room.(description := Rules.SwordTaken, entity := None));
      currentState := Rules.Exploring;
    }

    /** The end of the fade-out, after the transition's action has run. */
    method FinishTransition()
      requires Valid()
      modifies Repr
      ensures Valid() && fresh(Repr - old(Repr))
      ensures Snapshot() == Rules.CompleteTransition(old(Snapshot()))
    {
      if player.moves < 0 {
        TriggerGameOver(Rules.OutOfMovesReason);
        return;
      }
      CheckRoomState();
    }

    /** F and B while exploring. */
    method Navigate(forward: bool)
      requires Valid()
      modifies Repr
      ensures Valid() && fresh(Repr - old(Repr))
      ensures Snapshot() == Rules.Navigate(old(Snapshot()), forward)
    {
      if player.moves <= 0 {
        TriggerGameOver(Rules.OutOfMovesReason);
        return;
      }
      var can;
      if forward {
        can := dungeon.CanMoveForward();
      } else {
        can := dungeon.CanMoveBack();
      }
      if can {
        Step(forward);
        FinishTransition();
      }
    }

    /** The action of the transition F or B starts: a new room is being entered. */
    method Step(forward: bool)
      requires Valid()
      modifies this`isNewRoomEntry, dungeon`current, dungeon.tracker, player`moves
      ensures Valid()
      ensures forward ==> Snapshot() == Rules.MoveForward(old(Snapshot()).(newEntry := true))
      ensures !forward ==> Snapshot() == Rules.MoveBack(old(Snapshot()).(newEntry := true))
    {
      isNewRoomEntry := true;
      if forward {
        dungeon.MoveForward();
      } else {
        dungeon.MoveBack();
      }
    }

    /** `handleEvent` for one key press, its transition run to completion. */
    method HandleEvent(k: Rules.Key)
      requires Valid()
      modifies Repr
      ensures Valid() && fresh(Repr - old(Repr))
      ensures Snapshot() == Rules.HandleKey(old(Snapshot()), k)
    {
      if ending != Rules.Playing {
        return;
      }
      match currentState
      case Exploring => ExploringKey(k);
      case Combat => CombatKey(k);
      case Choice => ChoiceKey(k);
      case Message =>
        if k == Rules.KeyEnter {
          currentState := Rules.Exploring;
          FinishTransition();
        }
    }

    /** The keys of the exploring state: F and B move, C takes the Sword, Q quits. */
    method ExploringKey(k: Rules.Key)
      requires Valid() && ending == Rules.Playing && currentState == Rules.Exploring
      modifies Repr
      ensures Valid() && fresh(Repr - old(Repr))
      ensures Snapshot() == Rules.HandleKey(old(Snapshot()), k)
    {
      var room := dungeon.rooms[dungeon.current.value];
      var inSwordRoomWithSword :=
        room.entity.Some? && room.entity.value.Weapon? && room.name == Rules.SwordRoomName;
      if k == Rules.KeyF {
        Navigate(true);
      } else if k == Rules.KeyB {
        Navigate(false);
      } else if k == Rules.KeyC {
        if inSwordRoomWithSword {
          CollectSword();
          FinishTransition();
        }
      } else if k == Rules.KeyQ {
        if !inSwordRoomWithSword {
          ending := Rules.Menu;
        }
      }
    }

    /** The keys of the combat state: F fights, R flees. */
    method CombatKey(k: Rules.Key)
      requires Valid() && ending == Rules.Playing && currentState == Rules.Combat
      modifies Repr
      ensures Valid() && fresh(Repr - old(Repr))
      ensures Snapshot() == Rules.HandleKey(old(Snapshot()), k)
    {
      if k == Rules.KeyF {
        HandleCombat();
        FinishTransition();
      } else if k == Rules.KeyR {
        AddAction(Rules.Fled);
        TriggerGameOver(Rules.FledReason);
      }
    }

    /** The keys of the choice state: 1 and 2 choose. */
    method ChoiceKey(k: Rules.Key)
      requires Valid() && ending == Rules.Playing && currentState == Rules.Choice
      modifies Repr
      ensures Valid() && fresh(Repr - old(Repr))
      ensures Snapshot() == Rules.HandleKey(old(Snapshot()), k)
    {
      if k == Rules.Key1 {
        HandleChoice(1);
        FinishTransition();
      } else if k == Rules.Key2 {
        HandleChoice(2);
        FinishTransition();
      }
    }

    /** `onEnter`: clears the log, opens the adventure and checks the first room. */
    method OnEnter()
      requires Valid()
      modifies Repr
      ensures Valid() && fresh(Repr - old(Repr))
      ensures Snapshot() == Rules.Begin(old(Snapshot()))
    {
      actionsLog := [];
      isNewRoomEntry := true;
      AddAction(Rules.AdventureBegins);
      CheckRoomState();
    }
  }
}
