/**
 * Whole games played on the world of `setupDungeon`: the three minions, the winning run, the run
 * that drinks the potion instead of taking the key, and the run that leaves the Sword behind.
 * Each run is proved for any world of the same shape, then instantiated with the real one.
 */
module Scenarios {
  import opened Wrappers
  import opened Entities
  import opened Players
  import opened Dungeons
  import opened Rules
  import World
  import Properties

  /**
   * The session stands in room `cur` of a game on world `w` with the given health, moves, items,
   * boss flag and interaction state, still playing, and every room ahead is as the world built it.
   */
  ghost predicate At(g: Session, w: seq<Room>, cur: nat, health: int, moves: int, items: seq<string>,
                     boss: bool, mode: Mode)
  {
    WellFormed(g) && |g.rooms| == |w| && g.cursor.current == cur &&
    g.health == health && g.moves == moves && g.items == items && g.bossDefeated == boss &&
    g.mode == mode && g.ending == Playing &&
    forall j :: cur < j < |w| ==> g.rooms[j] == w[j]
  }

  /** The state entering an untouched room leaves the screen in. */
  function EntryMode(room: Room): Mode {
    if room.entity.Some? && room.entity.value.IsEnemy() then Combat
    else if room.entity.None? && room.isChoiceRoom then Choice
    else Exploring
  }

  /* ---------- single key presses ---------- */

  /** F from the exploring state walks into the next room, which is not the final door. */
  lemma Enter(g: Session, w: seq<Room>, cur: nat, h: int, m: int, items: seq<string>, b: bool)
    requires At(g, w, cur, h, m, items, b, Exploring) && cur + 1 < |w| && m > 0
    requires !w[cur + 1].isFinalDoor
    requires w[cur + 1].entity.Some? ==>
      w[cur + 1].entity.value.IsEnemy() ||
      (w[cur + 1].entity.value.Weapon? && w[cur + 1].name == SwordRoomName)
    ensures var r := HandleKey(g, KeyF);
      At(r, w, cur + 1, h, m - 1, items, b, EntryMode(w[cur + 1])) && Here(r) == w[cur + 1]
  {
    var g1 := MoveForward(g.(newEntry := true));
    assert g1.cursor.current == cur + 1 && g1.moves == m - 1;
    assert HandleKey(g, KeyF) == CompleteTransition(g1);
  }

  /** F into the final door ends the game with the door's verdict. */
  lemma EnterDoor(g: Session, w: seq<Room>, cur: nat, h: int, m: int, items: seq<string>, b: bool)
    requires At(g, w, cur, h, m, items, b, Exploring) && cur + 1 < |w| && m > 0
    requires w[cur + 1].isFinalDoor
    ensures HandleKey(g, KeyF).ending == GameOver(FinalDoorReason(GoldenKey in items, b))
  {
    var g1 := MoveForward(g.(newEntry := true));
    assert g1.cursor.current == cur + 1 && g1.moves == m - 1;
    assert HandleKey(g, KeyF) == CompleteTransition(g1);
  }

  /**
   * F in a fight: a player left with health wins it, back in the exploring state with the enemy
   * gone; a player left with none dies.
   */
  lemma Fight(g: Session, w: seq<Room>, cur: nat, h: int, m: int, items: seq<string>, b: bool, enemy: Entity)
    requires At(g, w, cur, h, m, items, b, Combat) && m >= 0
    requires Here(g).entity == Some(enemy) && enemy.IsEnemy()
    requires !Here(g).isChoiceRoom && !Here(g).isFinalDoor
    ensures var r := HandleKey(g, KeyF);
      var left := AfterDamage(h, EffectiveDamage(enemy, items));
      (left > 0 ==> At(r, w, cur, left, m, items, b || enemy.Boss?, Exploring)) &&
      (left <= 0 ==> r.ending == GameOver(DiedReason))
  {
    var s := Strike(g, enemy);
    if s.health > 0 {
      var d := Defeat(s, enemy, EffectiveDamage(enemy, items));
      assert d.rooms == s.rooms[cur := d.rooms[cur]];
      assert HandleKey(g, KeyF) == CompleteTransition(d);
    } else {
      assert HandleKey(g, KeyF) == CompleteTransition(Slain(s, enemy));
    }
  }

  /** C in the Sword's room collects it. */
  lemma TakeSword(g: Session, w: seq<Room>, cur: nat, h: int, m: int, items: seq<string>, b: bool)
    requires At(g, w, cur, h, m, items, b, Exploring) && m >= 0
    requires Here(g).entity == Some(Weapon(SwordItem)) && Here(g).name == SwordRoomName
    requires !Here(g).isChoiceRoom && !Here(g).isFinalDoor
    ensures At(HandleKey(g, KeyC), w, cur, h, m, items + [SwordItem], b, Exploring)
  {
    var c := CollectSword(g);
    assert c.rooms == g.rooms[cur := c.rooms[cur]];
    assert HandleKey(g, KeyC) == CompleteTransition(c);
  }

  /** 1 takes the Golden Key and 2 drinks the potion. */
  lemma Choose(g: Session, w: seq<Room>, cur: nat, h: int, m: int, items: seq<string>, b: bool, k: Key)
    requires At(g, w, cur, h, m, items, b, Choice) && m >= 0 && (k == Key1 || k == Key2)
    requires Here(g).isChoiceRoom && Here(g).entity.None? && !Here(g).isFinalDoor
    ensures At(HandleKey(g, k), w, cur, if k == Key1 then h else AfterHeal(h, 100), m,
               if k == Key1 then items + [GoldenKey] else items, b, Exploring)
  {
    var c := HandleChoice(g, if k == Key1 then 1 else 2);
    assert c.rooms == g.rooms[cur := c.rooms[cur]];
    assert HandleKey(g, k) == CompleteTransition(c);
  }

  /* ---------- key sequences ---------- */

  lemma {:induction false} PlayAppend(g: Session, a: seq<Key>, b: seq<Key>)
    requires WellFormed(g)
    ensures Play(g, a + b) == Play(Play(g, a), b)
    decreases |a|
  {
    if a != [] {
      assert (a + b)[1..] == a[1..] + b;
      PlayAppend(HandleKey(g, a[0]), a[1..], b);
    } else {
      assert a + b == b;
    }
  }

  lemma PlayPair(g: Session, k1: Key, k2: Key)
    requires WellFormed(g)
    ensures Play(g, [k1, k2]) == HandleKey(HandleKey(g, k1), k2)
  {
    assert [k1, k2] == [k1] + [k2];
    PlayAppend(g, [k1], [k2]);
    PlayOne(g, k1);
    PlayOne(HandleKey(g, k1), k2);
  }

  lemma PlayOne(g: Session, k: Key)
    requires WellFormed(g)
    ensures Play(g, [k]) == HandleKey(g, k)
  {
    assert [k][1..] == [];
  }

  /* ---------- two-key moves ---------- */

  /** F, F: walk into an enemy's room and fight it. */
  lemma EnterAndFight(g: Session, w: seq<Room>, cur: nat, h: int, m: int, items: seq<string>, b: bool,
                      enemy: Entity)
    requires At(g, w, cur, h, m, items, b, Exploring) && cur + 1 < |w| && m > 0
    requires w[cur + 1].entity == Some(enemy) && enemy.IsEnemy()
    requires !w[cur + 1].isChoiceRoom && !w[cur + 1].isFinalDoor
    ensures var r := Play(g, [KeyF, KeyF]);
      var left := AfterDamage(h, EffectiveDamage(enemy, items));
      (left > 0 ==> At(r, w, cur + 1, left, m - 1, items, b || enemy.Boss?, Exploring)) &&
      (left <= 0 ==> r.ending == GameOver(DiedReason))
  {
    PlayPair(g, KeyF, KeyF);
    Enter(g, w, cur, h, m, items, b);
    Fight(HandleKey(g, KeyF), w, cur + 1, h, m - 1, items, b, enemy);
  }

  /** F, C: walk into the Sword's room and collect it. */
  lemma EnterAndTakeSword(g: Session, w: seq<Room>, cur: nat, h: int, m: int, items: seq<string>, b: bool)
    requires At(g, w, cur, h, m, items, b, Exploring) && cur + 1 < |w| && m > 0
    requires w[cur + 1].entity == Some(Weapon(SwordItem)) && w[cur + 1].name == SwordRoomName
    requires !w[cur + 1].isChoiceRoom && !w[cur + 1].isFinalDoor
    ensures At(Play(g, [KeyF, KeyC]), w, cur + 1, h, m - 1, items + [SwordItem], b, Exploring)
  {
    PlayPair(g, KeyF, KeyC);
    Enter(g, w, cur, h, m, items, b);
    TakeSword(HandleKey(g, KeyF), w, cur + 1, h, m - 1, items, b);
  }

  /** F, then 1 or 2: walk into the choice room and choose. */
  lemma EnterAndChoose(g: Session, w: seq<Room>, cur: nat, h: int, m: int, items: seq<string>, b: bool, k: Key)
    requires At(g, w, cur, h, m, items, b, Exploring) && cur + 1 < |w| && m > 0 && (k == Key1 || k == Key2)
    requires w[cur + 1].isChoiceRoom && w[cur + 1].entity.None? && !w[cur + 1].isFinalDoor
    ensures At(Play(g, [KeyF, k]), w, cur + 1, if k == Key1 then h else AfterHeal(h, 100), m - 1,
               if k == Key1 then items + [GoldenKey] else items, b, Exploring)
  {
    PlayPair(g, KeyF, k);
    Enter(g, w, cur, h, m, items, b);
    Choose(HandleKey(g, KeyF), w, cur + 1, h, m - 1, items, b, k);
  }

  /** F alone: walk into the Sword's room and leave the Sword where it is. */
  lemma PassSword(g: Session, w: seq<Room>, cur: nat, h: int, m: int, items: seq<string>, b: bool)
    requires At(g, w, cur, h, m, items, b, Exploring) && cur + 1 < |w| && m > 0
    requires w[cur + 1].entity == Some(Weapon(SwordItem)) && w[cur + 1].name == SwordRoomName
    requires !w[cur + 1].isFinalDoor
    ensures At(Play(g, [KeyF]), w, cur + 1, h, m - 1, items, b, Exploring)
  {
    PlayOne(g, KeyF);
    Enter(g, w, cur, h, m, items, b);
  }

  /* ---------- runs on any world shaped like the real one ---------- */

  /** Walk into the next room and fight what is there. */
  const FightKeys: seq<Key> := [KeyF, KeyF]

  /** Fighting through the three minions: the Wizard, the Dragon and the Zombie. */
  const MinionKeys: seq<Key> := FightKeys + FightKeys + FightKeys

  /** The last stretch from the choice room: the Giant Monster, the boss and the final door. */
  const FinaleKeys: seq<Key> := FightKeys + FightKeys + [KeyF]

  /** Take the Sword, then the Golden Key. */
  const ArmedWithKey: seq<Key> := [KeyF, KeyC] + [KeyF, Key1]

  /** Take the Sword, then drink the potion. */
  const ArmedWithPotion: seq<Key> := [KeyF, KeyC] + [KeyF, Key2]

  /** Walk past the Sword, then take the Golden Key. */
  const UnarmedWithKey: seq<Key> := [KeyF] + [KeyF, Key1]

  /** The run that wins. */
  const WinningKeys: seq<Key> := MinionKeys + ArmedWithKey + FinaleKeys

  /** The run that reaches the door without the key. */
  const PotionKeys: seq<Key> := MinionKeys + ArmedWithPotion + FinaleKeys

  /** The run that meets the boss without the Sword. */
  const UnarmedKeys: seq<Key> := MinionKeys + UnarmedWithKey + FinaleKeys

  lemma ThreeMinionsOn(g: Session, w: seq<Room>)
    requires World.Shaped(w) && At(g, w, 0, MaxHealth, 10, [], false, Exploring)
    ensures At(Play(g, MinionKeys), w, 3, 70, 7, [], false, Exploring)
  {
    var fight := FightKeys;
    EnterAndFight(g, w, 0, 100, 10, [], false, Minion("Wizard", 10));
    var g1 := Play(g, fight);
    EnterAndFight(g1, w, 1, 90, 9, [], false, Minion("Dragon", 15));
    var g2 := Play(g1, fight);
    EnterAndFight(g2, w, 2, 75, 8, [], false, Minion("Zombie", 5));
    PlayAppend(g, fight, fight);
    PlayAppend(g, fight + fight, fight);
  }

  /**
   * The last stretch, from the choice room with 5 moves left: the Giant Monster deals 10, then the
   * boss strikes; a player who survives it reaches the door, which decides by the key alone.
   */
  lemma FinaleOn(g: Session, w: seq<Room>, h: int, items: seq<string>)
    requires World.Shaped(w) && At(g, w, 5, h, 5, items, false, Exploring) && h > 10
    ensures var left := AfterDamage(h - 10, EffectiveDamage(Boss("Final Boss", 75), items));
      var r := Play(g, FinaleKeys);
      (left > 0 ==> r.ending == GameOver(FinalDoorReason(GoldenKey in items, true))) &&
      (left <= 0 ==> r.ending == GameOver(DiedReason))
  {
    var fight := FightKeys;
    EnterAndFight(g, w, 5, h, 5, items, false, Minion("Giant Monster", 10));
    var g1 := Play(g, fight);
    EnterAndFight(g1, w, 6, h - 10, 4, items, false, Boss("Final Boss", 75));
    var g2 := Play(g1, fight);
    var left := AfterDamage(h - 10, EffectiveDamage(Boss("Final Boss", 75), items));
    if left > 0 {
      EnterDoor(g2, w, 7, left, 3, items, true);
      PlayOne(g2, KeyF);
    } else {
      Properties.EndIsFinal(g2, [KeyF]);
    }
    PlayAppend(g, fight, fight);
    PlayAppend(g, fight + fight, [KeyF]);
  }

  /** From the Zombie's crypt: the Sword, then the key or the potion, arriving in the choice room. */
  lemma ArmedOn(g: Session, w: seq<Room>, k: Key)
    requires World.Shaped(w) && At(g, w, 3, 70, 7, [], false, Exploring) && (k == Key1 || k == Key2)
    ensures At(Play(g, [KeyF, KeyC] + [KeyF, k]), w, 5, if k == Key1 then 70 else MaxHealth, 5,
               if k == Key1 then [SwordItem, GoldenKey] else [SwordItem], false, Exploring)
  {
    EnterAndTakeSword(g, w, 3, 70, 7, [], false);
    var g1 := Play(g, [KeyF, KeyC]);
    assert [] + [SwordItem] == [SwordItem];
    EnterAndChoose(g1, w, 4, 70, 6, [SwordItem], false, k);
    PlayAppend(g, [KeyF, KeyC], [KeyF, k]);
  }

  /** From the Zombie's crypt: past the Sword, then the key, arriving in the choice room. */
  lemma UnarmedOn(g: Session, w: seq<Room>)
    requires World.Shaped(w) && At(g, w, 3, 70, 7, [], false, Exploring)
    ensures At(Play(g, UnarmedWithKey), w, 5, 70, 5, [GoldenKey], false, Exploring)
  {
    PassSword(g, w, 3, 70, 7, [], false);
    var g1 := Play(g, [KeyF]);
    assert [] + [GoldenKey] == [GoldenKey];
    EnterAndChoose(g1, w, 4, 70, 6, [], false, Key1);
    PlayAppend(g, [KeyF], [KeyF, Key1]);
  }

  /** Three minions, the Sword and a choice, then the finale. */
  lemma ArmedRunOn(g: Session, w: seq<Room>, k: Key)
    requires World.Shaped(w) && At(g, w, 0, MaxHealth, 10, [], false, Exploring) && (k == Key1 || k == Key2)
    ensures var middle := [KeyF, KeyC] + [KeyF, k];
      Play(g, MinionKeys + middle + FinaleKeys).ending == GameOver(FinalDoorReason(k == Key1, true))
  {
    var middle := [KeyF, KeyC] + [KeyF, k];
    ThreeMinionsOn(g, w);
    var g1 := Play(g, MinionKeys);
    ArmedOn(g1, w, k);
    var g2 := Play(g1, middle);
    var items := if k == Key1 then [SwordItem, GoldenKey] else [SwordItem];
    assert SwordItem in items && (GoldenKey in items <==> k == Key1);
    FinaleOn(g2, w, if k == Key1 then 70 else MaxHealth, items);
    PlayAppend(g, MinionKeys, middle);
    PlayAppend(g, MinionKeys + middle, FinaleKeys);
  }

  /** Three minions, past the Sword, the key, then the boss, who kills the unarmed player. */
  lemma UnarmedRunOn(g: Session, w: seq<Room>)
    requires World.Shaped(w) && At(g, w, 0, MaxHealth, 10, [], false, Exploring)
    ensures Play(g, UnarmedKeys).ending == GameOver(DiedReason)
  {
    ThreeMinionsOn(g, w);
    var g1 := Play(g, MinionKeys);
    UnarmedOn(g1, w);
    var g2 := Play(g1, UnarmedWithKey);
    FinaleOn(g2, w, 70, [GoldenKey]);
    PlayAppend(g, MinionKeys, UnarmedWithKey);
    PlayAppend(g, MinionKeys + UnarmedWithKey, FinaleKeys);
  }

  /* ---------- the real world ---------- */

  /** A new game opens in the entrance, exploring, with 100 health, 10 moves and nothing held. */
  lemma Opening()
    ensures World.Shaped(World.WorldRooms())
    ensures At(Begin(World.InitialSession()), World.WorldRooms(), 0, MaxHealth, 10, [], false, Exploring)
  {
    World.WorldShape();
    var g := World.InitialSession();
    var g1 := g.(log := AddAction([], AdventureBegins), newEntry := true);
    assert Begin(g) == SettleRoom(LogEntry(g1));
  }

  /** Three minions in: 70 health, 7 moves, standing in the Zombie's crypt. */
  lemma NewGameThreeMinions()
    ensures var r := Play(Begin(World.InitialSession()), MinionKeys);
      r.health == 70 && r.moves == 7 && r.cursor.current == 3 && r.mode == Exploring && r.ending == Playing
  {
    Opening();
    ThreeMinionsOn(Begin(World.InitialSession()), World.WorldRooms());
  }

  /** Taking the Sword and the Golden Key wins the game. */
  lemma NewGameWinningRun()
    ensures var r := Play(Begin(World.InitialSession()), WinningKeys);
      r.ending == GameOver(VictoryReason) && IsWin(r.ending.reason)
  {
    Opening();
    ArmedRunOn(Begin(World.InitialSession()), World.WorldRooms(), Key1);
    FinalDoorWinRule(true, true);
  }

  /** Drinking the potion instead of taking the key loses at the final door. */
  lemma NewGamePotionRun()
    ensures var r := Play(Begin(World.InitialSession()), PotionKeys);
      r.ending == GameOver(NoKeyReason) && !IsWin(r.ending.reason)
  {
    Opening();
    ArmedRunOn(Begin(World.InitialSession()), World.WorldRooms(), Key2);
    FinalDoorWinRule(false, true);
  }

  /** Meeting the boss without the Sword is fatal: 60 health against 75 damage. */
  lemma NewGameUnarmedRun()
    ensures var r := Play(Begin(World.InitialSession()), UnarmedKeys);
      r.ending == GameOver(DiedReason) && !IsWin(r.ending.reason)
  {
    Opening();
    UnarmedRunOn(Begin(World.InitialSession()), World.WorldRooms());
    LossReasons();
  }
}
