/**
 * The rules of the gameplay screen as a pure state machine over `Session` values: what a key
 * press does once its screen transition has completed, and the room checks that follow it.
 * The `GamePlayScreen` class in module `GamePlay` is proved to follow these functions step by step.
 */
module Rules {
  import opened Wrappers
  import opened Text
  import opened Entities
  import opened Players
  import opened Dungeons

  /** The interaction state of the screen. */
  datatype Mode = Exploring | Combat | Choice | Message

  /** Whether the gameplay screen is still active, or the game moved to the game-over or menu screen. */
  datatype Ending = Playing | GameOver(reason: string) | Menu

  /**
   * The keys the screen reacts to; `Key1` and `Key2` stand for both the number row and the
   * keypad keys, and every other key is `OtherKey`.
   */
  datatype Key = KeyF | KeyB | KeyC | KeyQ | KeyR | Key1 | Key2 | KeyEnter | OtherKey

  /**
   * Everything the gameplay rules read or write: the player's health, moves, items and boss flag,
   * the rooms with the navigation cursor, the interaction state, the message text, the recent
   * actions (newest first), the new-room-entry flag and which screen the game is on.
   */
  datatype Session = Session(
    health: int,
    moves: int,
    items: seq<string>,
    bossDefeated: bool,
    rooms: seq<Room>,
    cursor: Cursor,
    mode: Mode,
    message: string,
    log: seq<string>,
    newEntry: bool,
    ending: Ending)

  const MaxLogSize := 4
  const GoldenKey := "Golden Key"
  const SwordItem := "Sword"
  const SwordRoomName := "Chamber of the Cursed Blades"
  const SwordBossDamage := 50

  const VictoryReason := "You used the Golden key and escaped. You are VICTORIOUS!"
  const BossAliveReason := "The final door is locked tight. " + "The boss must be defeated!"
  const NoKeyReason := "The final door is locked. " + "You needed the Golden Key."
  const OutOfMovesReason := "You have run out of moves."
  const DiedReason := "You have died in combat."
  const FledReason := "You fled in terror!"

  const AdventureBegins := "Your adventure begins..."
  const SwordCollected := "You collected the Sword."
  const SwordTaken := "You grasp the sword. A surge of ultimate power floods your veins."
  const KeyTaken := "You took the Golden Key."
  const PotionDrunk := "You drank the Health Potion."
  const Fled := "Fled in terror!"
  const BossFallen := "The final boss is defeated!"
  const SwordGlows := "Your Sword glows, " + "weakening the boss!\n"
  const Unarmed := "You are unarmed " + "against the mighty boss!\n"

  /** The game-over screen shows the victory picture exactly when its reason mentions "VICTORIOUS". */
  predicate IsWin(reason: string) {
    Contains(reason, "VICTORIOUS")
  }

  ghost predicate WellFormed(g: Session) {
    Linked(g.rooms) && InBounds(g.rooms, g.cursor)
  }

  function Here(g: Session): Room
    requires WellFormed(g)
  {
    g.rooms[g.cursor.current]
  }

  /** Writes the current room back after its description, entity or choice flag changed. */
  function Replace(g: Session, room: Room): (r: Session)
    requires WellFormed(g) && room.next == Here(g).next
    ensures WellFormed(r) && Here(r) == room
    ensures r == g.(rooms := r.rooms)
    ensures |r.rooms| == |g.rooms|
    ensures forall i :: 0 <= i < |g.rooms| && i != g.cursor.current ==> r.rooms[i] == g.rooms[i]
  {
    g.(rooms := g.rooms[g.cursor.current := room])
  }

  /* ---------- the recent-actions log ---------- */

  /**
   * `addAction`: an empty action, or one equal to the newest entry, is dropped; otherwise it
   * goes to the front and the oldest entry falls off once there are more than four.
   */
  function AddAction(log: seq<string>, action: string): (r: seq<string>)
    ensures action != "" ==> r != [] && r[0] == action
    ensures r == log || (r != [] && r[0] == action && r[1..] <= log)
    ensures r == log <==> action == "" || (log != [] && log[0] == action)
    ensures r != log ==> r[1..] == if |log| + 1 > MaxLogSize then log[..|log| - 1] else log
  {
    if action == "" || (log != [] && action == log[0]) then log
    else
      var pushed := [action] + log;
      if |pushed| > MaxLogSize then pushed[..|pushed| - 1] else pushed
  }

  /** A reason without a capital V is not a win. */
  lemma NotWin(reason: string)
    requires 'V' !in reason
    ensures !IsWin(reason)
  {
    ContainsHead(reason, "VICTORIOUS");
  }

  /** None of the reasons other than the victory text counts as a win. */
  lemma LossReasons()
    ensures !IsWin(BossAliveReason) && !IsWin(NoKeyReason) && !IsWin(OutOfMovesReason)
    ensures !IsWin(DiedReason) && !IsWin(FledReason)
  {
    DoorLossReasons();
    NotWin(OutOfMovesReason);
    NotWin(DiedReason);
    NotWin(FledReason);
  }

  /** Neither locked-door reason counts as a win. */
  lemma DoorLossReasons()
    ensures !IsWin(BossAliveReason) && !IsWin(NoKeyReason)
  {
    NotWin(BossAliveReason);
    NotWin(NoKeyReason);
  }

  /* ---------- room checks ---------- */

  /** The reason the final door gives, from whether the key is held and the boss is dead. */
  function FinalDoorReason(hasKey: bool, bossDefeated: bool): string {
    if hasKey && bossDefeated then VictoryReason
    else if hasKey then BossAliveReason
    else NoKeyReason
  }

  /** The final door lets the player win exactly when the key is held and the boss is dead. */
  lemma FinalDoorWinRule(hasKey: bool, bossDefeated: bool)
    ensures IsWin(FinalDoorReason(hasKey, bossDefeated)) <==> hasKey && bossDefeated
    ensures hasKey && !bossDefeated ==> FinalDoorReason(hasKey, bossDefeated) == BossAliveReason
    ensures !hasKey ==> FinalDoorReason(hasKey, bossDefeated) == NoKeyReason
  {
    LossReasons();
    assert OccursAt(VictoryReason, "VICTORIOUS", 45);
  }

  /** The Sword still lies in the Chamber of the Cursed Blades and the player is there. */
  predicate InSwordRoomWithSword(g: Session)
    requires WellFormed(g)
  {
    var room := Here(g);
    room.entity.Some? && room.entity.value.Weapon? && room.name == SwordRoomName
  }

  /**
   * `handleItemInteraction`: an item in the current room acts on the player, the result is
   * logged and becomes the room's description, and the item is gone.
   */
  function HandleItemInteraction(g: Session): (r: Session)
    requires WellFormed(g)
    ensures WellFormed(r) && r.moves == g.moves && r.ending == g.ending
    ensures Here(g).entity.Some? && Here(g).entity.value.IsItem() ==> r.mode == Exploring
  {
    var room := Here(g);
    if room.entity.None? || !room.entity.value.IsItem() then g
    else
      var o := ItemInteraction(room.entity.value, g.items, g.health);
      Replace(g.(items := o.items, health := o.health, log := AddAction(g.log, o.result), mode := Exploring),
              room.(description := o.result, entity := None))
  }

  /**
   * `checkRoomState`: logs entry into a new room, then settles what the room demands: the final
   * door ends the game, the Sword waits to be collected, an enemy starts a fight, another item
   * is used at once, and a choice room offers its choice.
   */
  function CheckRoomState(g: Session): (r: Session)
    requires WellFormed(g)
    ensures WellFormed(r) && r.moves == g.moves && r.cursor == g.cursor
    ensures r.ending != g.ending ==> Here(g).isFinalDoor
  {
    SettleRoom(LogEntry(g))
  }

  /** The first step of `checkRoomState`: a room just entered is logged by name, once. */
  function LogEntry(g: Session): (r: Session)
    requires WellFormed(g)
    ensures WellFormed(r) && r == g.(log := r.log, newEntry := false)
  {
    if g.newEntry then g.(log := AddAction(g.log, "Entered The " + Here(g).name), newEntry := false) else g
  }

  /** The rest of `checkRoomState`: what the room demands. */
  function SettleRoom(g: Session): (r: Session)
    requires WellFormed(g)
    ensures WellFormed(r) && r.moves == g.moves && r.cursor == g.cursor
    ensures r.ending != g.ending ==> Here(g).isFinalDoor
  {
    var room := Here(g);
    if room.isFinalDoor then
      g.(ending := GameOver(FinalDoorReason(GoldenKey in g.items, g.bossDefeated)))
    else if room.entity.Some? then
      if room.entity.value.Weapon? && room.name == SwordRoomName then g.(mode := Exploring)
      else if room.entity.value.IsEnemy() then g.(mode := Combat)
      else HandleItemInteraction(g)
    else if room.isChoiceRoom then g.(mode := Choice)
    else g.(mode := Exploring)
  }

  /* ---------- combat ---------- */

  /** The damage an enemy deals: its own, except that the boss deals 50 to a player holding the Sword. */
  function EffectiveDamage(enemy: Entity, items: seq<string>): int
    requires enemy.IsEnemy()
  {
    if enemy.Boss? && SwordItem in items then SwordBossDamage else enemy.damage
  }

  /** The line the fight message opens with: only the boss fight has one. */
  function CombatOpening(enemy: Entity, items: seq<string>): string {
    if enemy.Boss? then
      if SwordItem in items then SwordGlows else Unarmed
    else ""
  }

  /** The description a cleared room gets. */
  function DefeatText(name: string, damage: int): string {
    "You defeated the " + name + ". The way is clear. (You took " + IntToString(damage) + " damage)"
  }

  /**
   * `handleCombat`: the enemy in the room strikes once. A player left without health is slain
   * and the game is over; otherwise the enemy is defeated and removed, and beating the boss
   * sets the boss flag.
   */
  function HandleCombat(g: Session): (r: Session)
    requires WellFormed(g)
    ensures WellFormed(r) && r.moves == g.moves && r.cursor == g.cursor
  {
    var room := Here(g);
    if room.entity.None? || !room.entity.value.IsEnemy() then g
    else
      var enemy := room.entity.value;
      var s := Strike(g, enemy);
      if s.health <= 0 then Slain(s, enemy) else Defeat(s, enemy, EffectiveDamage(enemy, g.items))
  }

  /** The blow itself: the fight is logged, the damage taken and the fight message written. */
  function Strike(g: Session, enemy: Entity): (r: Session)
    requires WellFormed(g) && Here(g).entity == Some(enemy) && enemy.IsEnemy()
    ensures WellFormed(r) && r == g.(health := r.health, message := r.message, log := r.log)
    ensures r.health == AfterDamage(g.health, EffectiveDamage(enemy, g.items))
  {
    var damage := EffectiveDamage(enemy, g.items);
    g.(health := AfterDamage(g.health, damage),
       message := CombatOpening(enemy, g.items) + DamageReport(damage),
       log := AddAction(g.log, "Fought the " + enemy.name))
  }

  /** The player fell: the enemy stays and the game is over. */
  function Slain(g: Session, enemy: Entity): (r: Session)
    requires WellFormed(g)
    ensures WellFormed(r) && r == g.(log := r.log, ending := GameOver(DiedReason))
  {
    g.(log := AddAction(g.log, "You were slain by the " + enemy.name), ending := GameOver(DiedReason))
  }

  /** The enemy fell: its fall is recorded, it leaves the room and the room reports the victory. */
  function Defeat(g: Session, enemy: Entity, damage: int): (r: Session)
    requires WellFormed(g) && Here(g).entity == Some(enemy)
    ensures WellFormed(r) && r.moves == g.moves && r.cursor == g.cursor
  {
    Replace(RecordDefeat(g, enemy).(mode := Message),
            Here(g).(description := DefeatText(enemy.name, damage), entity := None))
  }

  /** The log records the defeat, and the boss's fall sets the boss flag. */
  function RecordDefeat(g: Session, enemy: Entity): (r: Session)
    ensures r == g.(log := r.log, bossDefeated := r.bossDefeated)
    ensures r.bossDefeated == (g.bossDefeated || enemy.Boss?)
  {
    var defeated := AddAction(g.log, "Defeated the " + enemy.name);
    g.(log := if enemy.Boss? then AddAction(defeated, BossFallen) else defeated,
       bossDefeated := if enemy.Boss? then true else g.bossDefeated)
  }

  /* ---------- the choice room ---------- */

  /**
   * `handleChoice`: in a choice room, choice 1 takes the Golden Key and any other choice drinks
   * the potion, healing by 100; either way the choice is used up.
   */
  function HandleChoice(g: Session, choice: int): (r: Session)
    requires WellFormed(g)
    ensures WellFormed(r) && r.moves == g.moves && r.cursor == g.cursor
    ensures r.ending == g.ending
  {
    if !Here(g).isChoiceRoom then g
    else if choice == 1 then TakeKey(g)
    else DrinkPotion(g)
  }

  /** Choice 1: the Golden Key is taken and the choice is used up. */
  function TakeKey(g: Session): (r: Session)
    requires WellFormed(g)
    ensures WellFormed(r) && r.moves == g.moves && r.cursor == g.cursor && r.ending == g.ending
  {
    Replace(g.(items := g.items + [GoldenKey], log := AddAction(g.log, KeyTaken), mode := Exploring),
            Here(g).(description := KeyTaken, isChoiceRoom := false))
  }

  /** Any other choice: the potion heals by 100 and the choice is used up. */
  function DrinkPotion(g: Session): (r: Session)
    requires WellFormed(g)
    ensures WellFormed(r) && r.moves == g.moves && r.cursor == g.cursor && r.ending == g.ending
  {
    Replace(g.(health := AfterHeal(g.health, 100), log := AddAction(g.log, PotionDrunk), mode := Exploring),
            Here(g).(description := PotionDrunk, isChoiceRoom := false))
  }

  /** The effect of collecting the Sword with C. */
  function CollectSword(g: Session): (r: Session)
    requires WellFormed(g)
    ensures WellFormed(r) && r.moves == g.moves && r.cursor == g.cursor
    ensures r.ending == g.ending
  {
    Replace(g.(items := g.items + [SwordItem], log := AddAction(g.log, SwordCollected), mode := Exploring),
            Here(g).(description := SwordTaken, entity := None))
  }

  /* ---------- navigation ---------- */

  /** `Dungeon::moveForward` on the session: a possible step costs one move. */
  function MoveForward(g: Session): (r: Session)
    requires WellFormed(g)
    ensures WellFormed(r) && r.ending == g.ending
  {
    if CanForward(g.rooms, g.cursor) then g.(moves := g.moves - 1, cursor := Forward(g.rooms, g.cursor))
    else g
  }

  /** `Dungeon::moveBack` on the session: a possible step costs one move. */
  function MoveBack(g: Session): (r: Session)
    requires WellFormed(g)
    ensures WellFormed(r) && r.ending == g.ending
  {
    if CanBack(g.cursor) then
      assert g.cursor.path[0] in g.cursor.path;
      assert forall k :: k in g.cursor.path[1..] ==> k in g.cursor.path;
      g.(moves := g.moves - 1, cursor := Back(g.cursor))
    else g
  }

  /**
   * What the end of a screen transition does after its action: out of moves below zero ends the
   * game, otherwise the room is checked.
   */
  function CompleteTransition(g: Session): (r: Session)
    requires WellFormed(g)
    ensures WellFormed(r) && r.moves == g.moves && r.cursor == g.cursor
  {
    if g.moves < 0 then g.(ending := GameOver(OutOfMovesReason)) else CheckRoomState(g)
  }

  /* ---------- key handling ---------- */

  /** The step F or B takes in the exploring state. */
  function Navigate(g: Session, forward: bool): (r: Session)
    requires WellFormed(g)
    ensures WellFormed(r)
  {
    if g.moves <= 0 then
      g.(ending := GameOver(OutOfMovesReason))
    else if forward && CanForward(g.rooms, g.cursor) then
      CompleteTransition(MoveForward(g.(newEntry := true)))
    else if !forward && CanBack(g.cursor) then
      CompleteTransition(MoveBack(g.(newEntry := true)))
    else g
  }

  /**
   * `handleEvent` for a key press, with the transition it starts run to completion. Keys are
   * ignored once the game has left the gameplay screen, and a key the current state does not
   * use changes nothing.
   */
  function HandleKey(g: Session, k: Key): (r: Session)
    requires WellFormed(g)
    ensures WellFormed(r)
  {
    if g.ending != Playing then g
    else match g.mode
      case Exploring =>
        if k == KeyF then Navigate(g, true)
        else if k == KeyB then Navigate(g, false)
        else if k == KeyC && InSwordRoomWithSword(g) then
          CompleteTransition(CollectSword(g))
        else if k == KeyQ && !InSwordRoomWithSword(g) then g.(ending := Menu)
        else g
      case Combat =>
        if k == KeyF then
          CompleteTransition(HandleCombat(g))
        else if k == KeyR then
          g.(log := AddAction(g.log, Fled), ending := GameOver(FledReason))
        else g
      case Choice =>
        if k == Key1 || k == Key2 then
          CompleteTransition(HandleChoice(g, if k == Key1 then 1 else 2))
        else g
      case Message =>
        if k == KeyEnter then CompleteTransition(g.(mode := Exploring)) else g
  }

  /** `onEnter`: a fresh log that opens the adventure, then the first room check. */
  function Begin(g: Session): (r: Session)
    requires WellFormed(g)
    ensures WellFormed(r)
  {
    CheckRoomState(g.(log := AddAction([], AdventureBegins), newEntry := true))
  }

  /** A run of key presses, one after the other. */
  function Play(g: Session, keys: seq<Key>): (r: Session)
    requires WellFormed(g)
    ensures WellFormed(r)
    decreases |keys|
  {
    if keys == [] then g else Play(HandleKey(g, keys[0]), keys[1..])
  }
}
