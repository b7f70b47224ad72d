/**
 * The invariant of a gameplay session and the proof that every rule keeps it, together with
 * the `Progress` relation: what no rule ever undoes.
 */
module Invariants {
  import opened Wrappers
  import opened Text
  import opened Entities
  import opened Players
  import opened Dungeons
  import opened Rules

  /** At most four entries, none empty, and no entry repeats the one just before it. */
  predicate LogOk(log: seq<string>) {
    |log| <= MaxLogSize &&
    (forall i :: 0 <= i < |log| ==> log[i] != "") &&
    (forall i :: 0 <= i < |log| - 1 ==> log[i] != log[i + 1])
  }

  /** `addAction` keeps the log within four entries, without blanks and without immediate repeats. */
  lemma AddActionKeepsLog(log: seq<string>, action: string)
    requires LogOk(log)
    ensures LogOk(AddAction(log, action))
  {
  }

  /** Enemies deal non-negative damage. */
  predicate FairFight(room: Room) {
    room.entity.Some? && room.entity.value.IsEnemy() ==> room.entity.value.damage >= 0
  }

  /** A victory ending is only ever reached at the final door, holding the key, with the boss dead. */
  ghost predicate EndingOk(g: Session)
    requires WellFormed(g)
  {
    g.ending.GameOver? && IsWin(g.ending.reason) ==>
      GoldenKey in g.items && g.bossDefeated && Here(g).isFinalDoor
  }

  /** The invariant of a session between two screen updates, without the interaction-state part. */
  ghost predicate Sound(g: Session) {
    WellFormed(g) && 0 <= g.health <= MaxHealth && g.moves >= 0 &&
    g.cursor.path == Trail(g.cursor.current) && LogOk(g.log) &&
    (forall i :: 0 <= i < |g.rooms| ==> FairFight(g.rooms[i])) &&
    EndingOk(g)
  }

  /** The full invariant: a `Sound` session that, while it is playing, never rests in `Message`. */
  ghost predicate Inv(g: Session) {
    Sound(g) && (g.ending == Playing ==> g.mode != Message)
  }

  /**
   * What no rule ever undoes: the room list keeps its shape, names and doors, items are only
   * added, the boss stays defeated, moves only go down, a resolved choice room stays resolved
   * and an entity once removed never comes back.
   */
  ghost predicate Progress(g: Session, r: Session) {
    |r.rooms| == |g.rooms| && g.items <= r.items && (g.bossDefeated ==> r.bossDefeated) &&
    r.moves <= g.moves &&
    forall i :: 0 <= i < |g.rooms| ==> Settled(g.rooms[i], r.rooms[i])
  }

  /** `b` is a later state of room `a`. */
  ghost predicate Settled(a: Room, b: Room) {
    b.name == a.name && b.next == a.next && b.backgroundID == a.backgroundID &&
    b.isFinalDoor == a.isFinalDoor && (b.isChoiceRoom ==> a.isChoiceRoom) &&
    (b.entity.Some? ==> b.entity == a.entity)
  }

  /** A step that leaves rooms, items and the boss flag alone and spends no moves is progress. */
  lemma SameWorld(g: Session, r: Session)
    requires r.rooms == g.rooms && r.items == g.items && r.bossDefeated == g.bossDefeated
    requires r.moves <= g.moves
    ensures Progress(g, r)
  {
    forall i | 0 <= i < |g.rooms|
      ensures Settled(g.rooms[i], r.rooms[i])
    {
    }
  }

  lemma ProgressTransitive(a: Session, b: Session, c: Session)
    requires Progress(a, b) && Progress(b, c)
    ensures Progress(a, c)
  {
    assert a.items <= c.items by {
      assert c.items[..|b.items|][..|a.items|] == c.items[..|a.items|];
    }
    forall i | 0 <= i < |a.rooms|
      ensures Settled(a.rooms[i], c.rooms[i])
    {
      assert Settled(a.rooms[i], b.rooms[i]) && Settled(b.rooms[i], c.rooms[i]);
    }
  }

  /** Rewriting the current room in a way that settles it is progress, and keeps fights fair. */
  lemma ReplaceKeeps(g: Session, h: Session, room: Room)
    requires WellFormed(h) && room.next == Here(h).next && Settled(Here(h), room)
    requires h.rooms == g.rooms && h.cursor == g.cursor
    requires g.items <= h.items && (g.bossDefeated ==> h.bossDefeated) && h.moves <= g.moves
    ensures Progress(g, Replace(h, room))
    ensures (forall i :: 0 <= i < |g.rooms| ==> FairFight(g.rooms[i])) && FairFight(room) ==>
      forall i :: 0 <= i < |g.rooms| ==> FairFight(Replace(h, room).rooms[i])
  {
    var r := Replace(h, room);
    forall i | 0 <= i < |g.rooms|
      ensures Settled(g.rooms[i], r.rooms[i])
    {
    }
  }

  lemma ItemInteractionKeeps(g: Session)
    requires WellFormed(g)
    ensures Progress(g, HandleItemInteraction(g))
    ensures Sound(g) ==> Sound(HandleItemInteraction(g))
  {
    var room := Here(g);
    var r := HandleItemInteraction(g);
    if room.entity.None? || !room.entity.value.IsItem() {
      SameWorld(g, r);
    } else {
      var o := ItemInteraction(room.entity.value, g.items, g.health);
      var h := g.(items := o.items, health := o.health, log := AddAction(g.log, o.result), mode := Exploring);
      ReplaceKeeps(g, h, room.(description := o.result, entity := None));
      if Sound(g) {
        AddActionKeepsLog(g.log, o.result);
      }
    }
  }

  /**
   * `checkRoomState` is progress, and it turns any `Sound` session into one that satisfies the
   * full invariant: it never leaves the screen resting in the message state.
   */
  lemma CheckRoomStateKeeps(g: Session)
    requires WellFormed(g)
    ensures Progress(g, CheckRoomState(g))
    ensures Sound(g) ==> Inv(CheckRoomState(g))
  {
    var room := Here(g);
    var g1 := LogEntry(g);
    var r := CheckRoomState(g);
    SameWorld(g, g1);
    if Sound(g) && g.newEntry {
      AddActionKeepsLog(g.log, "Entered The " + room.name);
    }
    assert Sound(g) ==> Sound(g1);
    if room.isFinalDoor {
      FinalDoorKeeps(g1);
      SameWorld(g, r);
    } else if room.entity.Some? && !(room.entity.value.Weapon? && room.name == SwordRoomName) &&
              !room.entity.value.IsEnemy() {
      ItemInteractionKeeps(g1);
      ProgressTransitive(g, g1, r);
    } else {
      SameWorld(g, r);
    }
  }

  /** At the final door the game ends with a reason that agrees with the key and the boss. */
  lemma FinalDoorKeeps(g: Session)
    requires WellFormed(g) && Here(g).isFinalDoor
    ensures var r := g.(ending := GameOver(FinalDoorReason(GoldenKey in g.items, g.bossDefeated)));
      Sound(g) ==> Inv(r)
  {
    FinalDoorWinRule(GoldenKey in g.items, g.bossDefeated);
  }

  lemma HandleCombatKeeps(g: Session)
    requires WellFormed(g)
    ensures Progress(g, HandleCombat(g))
    ensures Sound(g) ==> Sound(HandleCombat(g))
  {
    var room := Here(g);
    var r := HandleCombat(g);
    if room.entity.None? || !room.entity.value.IsEnemy() {
      SameWorld(g, r);
    } else {
      var enemy := room.entity.value;
      var s := Strike(g, enemy);
      StrikeKeeps(g, enemy);
      if s.health <= 0 {
        SlainKeeps(g, s, enemy);
      } else {
        DefeatKeeps(g, s, enemy, EffectiveDamage(enemy, g.items));
      }
    }
  }

  lemma StrikeKeeps(g: Session, enemy: Entity)
    requires WellFormed(g) && Here(g).entity == Some(enemy) && enemy.IsEnemy()
    ensures Progress(g, Strike(g, enemy))
    ensures Sound(g) ==> Sound(Strike(g, enemy))
  {
    var s := Strike(g, enemy);
    SameWorld(g, s);
    if Sound(g) {
      assert FairFight(g.rooms[g.cursor.current]);
      AddActionKeepsLog(g.log, "Fought the " + enemy.name);
    }
  }

  lemma SlainKeeps(g: Session, s: Session, enemy: Entity)
    requires WellFormed(g) && WellFormed(s) && Progress(g, s)
    ensures Progress(g, Slain(s, enemy))
    ensures Sound(s) ==> Sound(Slain(s, enemy))
  {
    SameWorld(s, Slain(s, enemy));
    ProgressTransitive(g, s, Slain(s, enemy));
    if Sound(s) {
      LossReasons();
      AddActionKeepsLog(s.log, "You were slain by the " + enemy.name);
    }
  }

  lemma DefeatKeeps(g: Session, s: Session, enemy: Entity, damage: int)
    requires WellFormed(g) && WellFormed(s) && Here(s).entity == Some(enemy) && enemy.IsEnemy()
    requires s == g.(health := s.health, message := s.message, log := s.log)
    ensures Progress(g, Defeat(s, enemy, damage))
    ensures Sound(s) ==> Sound(Defeat(s, enemy, damage))
  {
    var defeated := AddAction(s.log, "Defeated the " + enemy.name);
    var h := s.(log := if enemy.Boss? then AddAction(defeated, BossFallen) else defeated,
                bossDefeated := if enemy.Boss? then true else s.bossDefeated, mode := Message);
    ReplaceKeeps(g, h, Here(s).(description := DefeatText(enemy.name, damage), entity := None));
    if Sound(s) {
      AddActionKeepsLog(s.log, "Defeated the " + enemy.name);
      AddActionKeepsLog(defeated, BossFallen);
    }
  }

  lemma HandleChoiceKeeps(g: Session, choice: int)
    requires WellFormed(g)
    ensures Progress(g, HandleChoice(g, choice))
    ensures Sound(g) ==> Sound(HandleChoice(g, choice))
  {
    var room := Here(g);
    var r := HandleChoice(g, choice);
    if !room.isChoiceRoom {
      SameWorld(g, r);
    } else if choice == 1 {
      var h := g.(items := g.items + [GoldenKey], log := AddAction(g.log, KeyTaken), mode := Exploring);
      ReplaceKeeps(g, h, room.(description := KeyTaken, isChoiceRoom := false));
      if Sound(g) {
        AddActionKeepsLog(g.log, KeyTaken);
      }
    } else {
      var h := g.(health := AfterHeal(g.health, 100), log := AddAction(g.log, PotionDrunk), mode := Exploring);
      ReplaceKeeps(g, h, room.(description := PotionDrunk, isChoiceRoom := false));
      if Sound(g) {
        AddActionKeepsLog(g.log, PotionDrunk);
      }
    }
  }

  lemma CollectSwordKeeps(g: Session)
    requires WellFormed(g)
    ensures Progress(g, CollectSword(g))
    ensures Sound(g) ==> Sound(CollectSword(g))
  {
    var h := g.(items := g.items + [SwordItem], log := AddAction(g.log, SwordCollected), mode := Exploring);
    ReplaceKeeps(g, h, Here(g).(description := SwordTaken, entity := None));
    if Sound(g) {
      AddActionKeepsLog(g.log, SwordCollected);
    }
  }

  lemma MoveForwardKeeps(g: Session)
    requires WellFormed(g)
    ensures Progress(g, MoveForward(g))
    ensures Sound(g) && g.moves > 0 && g.ending == Playing ==> Sound(MoveForward(g))
  {
    NavigationKeepsTrail(g.rooms, g.cursor);
    SameWorld(g, MoveForward(g));
  }

  lemma MoveBackKeeps(g: Session)
    requires WellFormed(g)
    ensures Progress(g, MoveBack(g))
    ensures Sound(g) && g.moves > 0 && g.ending == Playing ==> Sound(MoveBack(g))
  {
    NavigationKeepsTrail(g.rooms, g.cursor);
    SameWorld(g, MoveBack(g));
  }

  lemma CompleteTransitionKeeps(g: Session)
    requires WellFormed(g)
    ensures Progress(g, CompleteTransition(g))
    ensures Sound(g) ==> Inv(CompleteTransition(g))
  {
    if g.moves < 0 {
      SameWorld(g, CompleteTransition(g));
    } else {
      CheckRoomStateKeeps(g);
    }
  }

  lemma NavigateKeeps(g: Session, forward: bool)
    requires WellFormed(g)
    ensures Progress(g, Navigate(g, forward))
    ensures Sound(g) && g.ending == Playing ==> Inv(Navigate(g, forward)) || Navigate(g, forward) == g
  {
    var r := Navigate(g, forward);
    var g1 := g.(newEntry := true);
    if g.moves <= 0 {
      LossReasons();
      SameWorld(g, r);
    } else if forward && CanForward(g.rooms, g.cursor) {
      var m := MoveForward(g1);
      MoveForwardKeeps(g1);
      CompleteTransitionKeeps(m);
      ProgressTransitive(g1, m, r);
      SameWorld(g, g1);
      ProgressTransitive(g, g1, r);
    } else if !forward && CanBack(g.cursor) {
      var m := MoveBack(g1);
      MoveBackKeeps(g1);
      CompleteTransitionKeeps(m);
      ProgressTransitive(g1, m, r);
      SameWorld(g, g1);
      ProgressTransitive(g, g1, r);
    } else {
      SameWorld(g, r);
    }
  }

  /** Every key press keeps the full invariant and is progress. */
  lemma HandleKeyKeeps(g: Session, k: Key)
    requires WellFormed(g)
    ensures Progress(g, HandleKey(g, k))
    ensures Inv(g) ==> Inv(HandleKey(g, k))
  {
    if g.ending != Playing {
      SameWorld(g, HandleKey(g, k));
    } else {
      match g.mode
      case Exploring => ExploringKeyKeeps(g, k);
      case Combat => CombatKeyKeeps(g, k);
      case Choice => ChoiceKeyKeeps(g, k);
      case Message => MessageKeyKeeps(g, k);
    }
  }

  lemma ExploringKeyKeeps(g: Session, k: Key)
    requires WellFormed(g) && g.ending == Playing && g.mode == Exploring
    ensures Progress(g, HandleKey(g, k))
    ensures Inv(g) ==> Inv(HandleKey(g, k))
  {
    var r := HandleKey(g, k);
    if k == KeyF || k == KeyB {
      NavigateKeeps(g, k == KeyF);
    } else if k == KeyC && InSwordRoomWithSword(g) {
      var m := CollectSword(g);
      CollectSwordKeeps(g);
      CompleteTransitionKeeps(m);
      ProgressTransitive(g, m, r);
    } else {
      SameWorld(g, r);
    }
  }

  lemma CombatKeyKeeps(g: Session, k: Key)
    requires WellFormed(g) && g.ending == Playing && g.mode == Combat
    ensures Progress(g, HandleKey(g, k))
    ensures Inv(g) ==> Inv(HandleKey(g, k))
  {
    var r := HandleKey(g, k);
    if k == KeyF {
      var m := HandleCombat(g);
      HandleCombatKeeps(g);
      CompleteTransitionKeeps(m);
      ProgressTransitive(g, m, r);
    } else {
      SameWorld(g, r);
      if Inv(g) && k == KeyR {
        LossReasons();
        AddActionKeepsLog(g.log, Fled);
      }
    }
  }

  lemma ChoiceKeyKeeps(g: Session, k: Key)
    requires WellFormed(g) && g.ending == Playing && g.mode == Choice
    ensures Progress(g, HandleKey(g, k))
    ensures Inv(g) ==> Inv(HandleKey(g, k))
  {
    var r := HandleKey(g, k);
    if k == Key1 || k == Key2 {
      var choice := if k == Key1 then 1 else 2;
      var m := HandleChoice(g, choice);
      HandleChoiceKeeps(g, choice);
      CompleteTransitionKeeps(m);
      ProgressTransitive(g, m, r);
    } else {
      SameWorld(g, r);
    }
  }

  lemma MessageKeyKeeps(g: Session, k: Key)
    requires WellFormed(g) && g.ending == Playing && g.mode == Message
    ensures Progress(g, HandleKey(g, k))
    ensures Inv(g) ==> Inv(HandleKey(g, k))
  {
    var r := HandleKey(g, k);
    if k == KeyEnter {
      var m := g.(mode := Exploring);
      SameWorld(g, m);
      CompleteTransitionKeeps(m);
      ProgressTransitive(g, m, r);
    } else {
      SameWorld(g, r);
    }
  }

  /** Entering the screen establishes the full invariant. */
  lemma BeginKeeps(g: Session)
    requires WellFormed(g)
    ensures Progress(g, Begin(g))
    ensures Sound(g) ==> Inv(Begin(g))
  {
    var g1 := g.(log := AddAction([], AdventureBegins), newEntry := true);
    assert g1.log == [AdventureBegins];
    assert Sound(g) ==> Sound(g1);
    SameWorld(g, g1);
    CheckRoomStateKeeps(g1);
    assert Begin(g) == CheckRoomState(g1);
    ProgressTransitive(g, g1, Begin(g));
  }
}
