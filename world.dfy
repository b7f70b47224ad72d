/**
 * The fixed world of the game: the nine rooms `setupDungeon` builds, the session a new game
 * starts from, and `startGameplay`, which creates the player, the dungeon and the screen.
 */
module World {
  import opened Wrappers
  import opened Entities
  import opened Players
  import opened Dungeons
  import Rules
  import Invariants
  import GamePlay

  /** The room descriptions as the world first shows them. */
  const EntranceText := "The heavy stone door slams shut behind you. Your only way is forward."
  const WizardText := "You dare enter my domain, mortal? The fire and frost bend to my will. If you wish to pass, you must defeat me first."
  const DragonText := "The air is hot and smells of sulfur. A scaly beast awakens from its slumber."
  const ZombieText := "Dust swirls through shafts of cold light. From the gloom, a corpse lurches forward with dead, hungry eyes."
  const BladesText := "Dark swords float mid-air, glowing with runes. A red sigil burns behind them, pulsing with power."
  const ChoiceText := "The hooded figure looks up from his book. 'You can only take one,' he says. 'The golden key... or the potion that gives you health'"
  const MonsterText := "Huge claw marks scar the walls. A hulking creature guards the path ahead."
  const BossText := "This is it. The final guardian."
  const DoorText := "You see a massive, ornate door with a single large keyhole. This must be the exit."

  /** The nine rooms in the order they are added, each as created, before any link is set. */
  function Layout(): seq<Room> {
    [ NewRoom("Dungeon Entrance", EntranceText, "dungeon.png"),
      NewRoom("Sanctum of Fire and Frost", WizardText, "wizard.png").(entity := Some(Minion("Wizard", 10))),
      NewRoom("Dragon's Lair", DragonText, "dragon.png").(entity := Some(Minion("Dragon", 15))),
      NewRoom("Zombie's Crypt", ZombieText, "zombie.png").(entity := Some(Minion("Zombie", 5))),
      NewRoom(Rules.SwordRoomName, BladesText, "sword.png").(entity := Some(Weapon(Rules.SwordItem))),
      NewRoom("Room of Choice", ChoiceText, "potion.png").(isChoiceRoom := true),
      NewRoom("Giant Monster's Den", MonsterText, "monster.png").(entity := Some(Minion("Giant Monster", 10))),
      NewRoom("Final Boss Chamber", BossText, "finalboss.png").(entity := Some(Boss("Final Boss", 75))),
      NewRoom("The Final Door", DoorText, "finaldoor.png").(isFinalDoor := true) ]
  }

  /** Rooms added one after the other: each links to the one added after it. */
  function Link(rs: seq<Room>): (r: seq<Room>)
    ensures |r| == |rs| && Linked(r)
    ensures forall i :: 0 <= i < |rs| ==> r[i] == rs[i].(next := r[i].next)
  {
    seq(|rs|, i requires 0 <= i < |rs| => rs[i].(next := if i + 1 < |rs| then Some(i + 1) else None))
  }

  /** The room list of every new game. */
  function WorldRooms(): seq<Room> {
    Link(Layout())
  }

  /**
   * What each of the nine rooms holds: the entrance empty, three minions, then the Sword in its
   * room, the choice, one more minion, the boss, and the final door last.
   */
  ghost predicate Placed(w: seq<Room>)
    requires |w| == 9
  {
    Holds(w) && Marks(w)
  }

  /** The entity of each room. */
  ghost predicate Holds(w: seq<Room>)
    requires |w| == 9
  {
    w[0].entity.None? &&
    w[1].entity == Some(Minion("Wizard", 10)) && w[2].entity == Some(Minion("Dragon", 15)) &&
    w[3].entity == Some(Minion("Zombie", 5)) && w[4].entity == Some(Weapon(Rules.SwordItem)) &&
    w[5].entity.None? &&
    w[6].entity == Some(Minion("Giant Monster", 10)) && w[7].entity == Some(Boss("Final Boss", 75)) &&
    w[8].entity.None?
  }

  /** The Sword room's name, the choice room and the final door. */
  ghost predicate Marks(w: seq<Room>)
    requires |w| == 9
  {
    w[4].name == Rules.SwordRoomName && w[5].isChoiceRoom && w[8].isFinalDoor &&
    (forall i :: 0 <= i < 8 ==> !w[i].isFinalDoor) &&
    (forall i :: 0 <= i < 9 && i != 5 ==> !w[i].isChoiceRoom)
  }

  /** The shape of the world: nine rooms, linked in order, each holding what `Placed` says. */
  ghost predicate Shaped(w: seq<Room>) {
    |w| == 9 && Linked(w) && Placed(w)
  }

  lemma LayoutPlaced()
    ensures |Layout()| == 9 && Placed(Layout())
  {
    LayoutHolds();
    LayoutMarks();
  }

  lemma LayoutHolds()
    ensures |Layout()| == 9 && Holds(Layout())
  {
  }

  lemma LayoutMarks()
    ensures |Layout()| == 9 && Marks(Layout())
  {
  }

  /** Setting the links changes nothing `Placed` looks at. */
  lemma {:induction false} PlacedIgnoresLinks(a: seq<Room>, b: seq<Room>)
    requires |a| == |b| == 9 && Placed(b)
    requires forall i :: 0 <= i < 9 ==> a[i] == b[i].(next := a[i].next)
    ensures Placed(a)
  {
    forall i | 0 <= i < 9
      ensures a[i].entity == b[i].entity && a[i].isFinalDoor == b[i].isFinalDoor
      ensures a[i].isChoiceRoom == b[i].isChoiceRoom && a[i].name == b[i].name
    {
      assert a[i] == b[i].(next := a[i].next);
    }
  }

  lemma WorldShape()
    ensures Shaped(WorldRooms())
  {
    LayoutPlaced();
    PlacedIgnoresLinks(WorldRooms(), Layout());
  }

  /** The list `addRoom` builds from `rs`, added one after the other. */
  function Build(rs: seq<Room>): (r: seq<Room>)
    ensures |r| == |rs|
    decreases |rs|
  {
    if rs == [] then [] else Appended(Build(rs[..|rs| - 1]), rs[|rs| - 1])
  }

  lemma BuildStep(rs: seq<Room>, k: nat)
    requires k < |rs|
    ensures Build(rs[..k + 1]) == Appended(Build(rs[..k]), rs[k])
  {
    assert rs[..k + 1][..k] == rs[..k];
  }

  /** Adding rooms that link nowhere, one after the other, links each to the next. */
  lemma {:induction false} BuildLinks(rs: seq<Room>)
    requires forall i :: 0 <= i < |rs| ==> rs[i].next.None?
    ensures Build(rs) == Link(rs)
    decreases |rs|
  {
    if rs != [] {
      var k := |rs| - 1;
      BuildLinks(rs[..k]);
      var a := Appended(Link(rs[..k]), rs[k]);
      AppendedLinked(Link(rs[..k]), rs[k]);
      forall i | 0 <= i < k + 1
        ensures a[i] == Link(rs)[i]
      {
        if i < k {
          assert Link(rs[..k])[i] == rs[i].(next := Link(rs[..k])[i].next);
        }
      }
      assert rs[..k + 1] == rs;
    }
  }

  /** `setupDungeon`: creates the nine rooms, sets their entities and flags and adds them in order. */
  method SetupDungeon(d: Dungeon)
    requires d.Valid() && d.rooms == []
    modifies d`rooms, d`current
    ensures d.Valid() && d.rooms == WorldRooms() && d.current == Some(0)
  {
    var entrance := NewRoom("Dungeon Entrance", EntranceText, "dungeon.png");
    var wizardStudy := NewRoom("Sanctum of Fire and Frost", WizardText, "wizard.png");
    var dragonLair := NewRoom("Dragon's Lair", DragonText, "dragon.png");
    var zombieCrypt := NewRoom("Zombie's Crypt", ZombieText, "zombie.png");
    var weaponRoom := NewRoom(Rules.SwordRoomName, BladesText, "sword.png");
    var choiceRoom := NewRoom("Room of Choice", ChoiceText, "potion.png");
    var monsterDen := NewRoom("Giant Monster's Den", MonsterText, "monster.png");
    var bossChamber := NewRoom("Final Boss Chamber", BossText, "finalboss.png");
    var finalDoor := NewRoom("The Final Door", DoorText, "finaldoor.png");

    wizardStudy := wizardStudy.(entity := Some(Minion("Wizard", 10)));
    dragonLair := dragonLair.(entity := Some(Minion("Dragon", 15)));
    zombieCrypt := zombieCrypt.(entity := Some(Minion("Zombie", 5)));
    weaponRoom := weaponRoom.(entity := Some(Weapon(Rules.SwordItem)));
    choiceRoom := choiceRoom.(isChoiceRoom := true);
    monsterDen := monsterDen.(entity := Some(Minion("Giant Monster", 10)));
    bossChamber := bossChamber.(entity := Some(Boss("Final Boss", 75)));
    finalDoor := finalDoor.(isFinalDoor := true);

    AddInOrder(d, entrance, wizardStudy, dragonLair, zombieCrypt, weaponRoom, choiceRoom, monsterDen,
               bossChamber, finalDoor);
    assert [entrance, wizardStudy, dragonLair, zombieCrypt, weaponRoom, choiceRoom, monsterDen, bossChamber,
            finalDoor] == Layout();
  }

  /** The nine `addRoom` calls of `setupDungeon`, in order: each room ends up linked to the next. */
  method AddInOrder(d: Dungeon, r0: Room, r1: Room, r2: Room, r3: Room, r4: Room, r5: Room, r6: Room,
                    r7: Room, r8: Room)
    requires d.Valid() && d.rooms == []
    requires r0.next.None? && r1.next.None? && r2.next.None? && r3.next.None? && r4.next.None?
    requires r5.next.None? && r6.next.None? && r7.next.None? && r8.next.None?
    modifies d`rooms, d`current
    ensures d.Valid() && d.rooms == Link([r0, r1, r2, r3, r4, r5, r6, r7, r8]) && d.current == Some(0)
  {
    ghost var rs := [r0, r1, r2, r3, r4, r5, r6, r7, r8];
    assert rs[..0] == [];
    AddNext(d, rs, 0, r0);
    AddNext(d, rs, 1, r1);
    AddNext(d, rs, 2, r2);
    AddNext(d, rs, 3, r3);
    AddNext(d, rs, 4, r4);
    AddNext(d, rs, 5, r5);
    AddNext(d, rs, 6, r6);
    AddNext(d, rs, 7, r7);
    AddNext(d, rs, 8, r8);
    assert rs[..9] == rs;
    BuildLinks(rs);
  }

  /** One `addRoom` call: the dungeon holds the first `k + 1` rooms of `rs`, added in order. */
  method AddNext(d: Dungeon, ghost rs: seq<Room>, k: nat, room: Room)
    requires d.Valid() && k < |rs| && rs[k] == room && room.next.None?
    requires d.rooms == Build(rs[..k]) && (k > 0 ==> d.current == Some(0))
    modifies d`rooms, d`current
    ensures d.Valid() && d.rooms == Build(rs[..k + 1]) && d.current == Some(0)
  {
    d.AddRoom(room);
    BuildStep(rs, k);
  }

  /** The session of a new game: full health, ten moves, nothing held, in the entrance. */
  function InitialSession(): (r: Rules.Session)
    ensures Rules.WellFormed(r) && |r.rooms| == 9 && r.cursor == Cursor(0, [])
  {
    WorldShape();
    Rules.Session(MaxHealth, 10, [], false, WorldRooms(), Cursor(0, []), Rules.Exploring, "", [], true,
                  Rules.Playing)
  }

  /** A new game satisfies the full invariant once the screen is entered. */
  lemma NewGameSound()
    ensures Invariants.Sound(InitialSession()) && Invariants.Inv(Rules.Begin(InitialSession()))
  {
    var g := InitialSession();
    WorldShape();
    assert Trail(0) == [];
    forall i | 0 <= i < |g.rooms|
      ensures Invariants.FairFight(g.rooms[i])
    {
    }
    Invariants.BeginKeeps(g);
  }

  /**
   * `startGameplay`: a player with 100 health and 10 moves, a dungeon set up with the world,
   * and the gameplay screen entered.
   */
  method StartGameplay(name: string) returns (screen: GamePlay.GamePlayScreen)
    ensures screen.Valid()
    ensures screen.Snapshot() == Rules.Begin(InitialSession())
    ensures screen.player.name == name
  {
    var player, dungeon := NewWorld(name);
    screen := new GamePlay.GamePlayScreen(player, dungeon);
    screen.OnEnter();
  }

  /** The player and the dungeon of a new game, before the screen opens. */
  method NewWorld(name: string) returns (player: Player, dungeon: Dungeon)
    ensures player.Valid() && dungeon.Valid() && dungeon.player == player
    ensures fresh(player.Repr) && fresh(dungeon) && fresh(dungeon.tracker)
    ensures dungeon !in player.Repr && dungeon.tracker !in player.Repr
    ensures player.name == name && player.health == MaxHealth && player.moves == 10
    ensures player.Items() == [] && !player.finalBossDefeated
    ensures dungeon.rooms == WorldRooms() && dungeon.current == Some(0) && dungeon.tracker.items == []
  {
    player := new Player(name, 100, 10);
    dungeon := new Dungeon(player);
    SetupDungeon(dungeon);
  }
}
