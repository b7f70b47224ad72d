# Dungeon Escape — the game-state engine in Dafny

This project models the game-state engine of *Dungeon Escape*, a nine-room dungeon crawler
written in C++ on SFML (`main.cpp`). Rendering, audio and the window are not modelled. What is
modelled:

- the generic containers: the linked-list `Stack` that serves as the backtracking path tracker,
  and the growable-array `Inventory` with `add`, `has` and the sorted, comma-joined listing;
- the `Player`, with damage clamped at 0 and healing clamped at 100;
- the entity hierarchy (`Weapon`, `Potion`, `Key`, `MinionEnemy`, `BossEnemy`) and `Item::interact`;
- `Room`, and the `Dungeon` with its linked room list, cursor and forward/back navigation, each step
  costing one move;
- the interaction engine of `GamePlayScreen`: `addAction`, `checkRoomState`,
  `handleItemInteraction`, `handleCombat`, `handleChoice`, `triggerGameOver`, the per-state key
  dispatch of `handleEvent`, and the end of a screen transition (the `moves < 0` check, then
  `checkRoomState` again);
- the fixed world built by `setupDungeon`, and `startGameplay`;
- the name-entry rule of the name-input screen.

The modules:

- **Layout.** `Text`, `Entities`, `PathTracker`, `Inventories`, `Players` and `Dungeons` follow the
  classes of the source. Classes whose fields the source updates in place (`Stack`, `Inventory`,
  `Player`, `Dungeon`, `GamePlayScreen`, the name screen) are Dafny classes with `modifies`
  frames.
- **Rules.** The gameplay rules are also written once as a pure state machine over `Session`
  values. `Rules.HandleKey` is one key press with its transition run to completion.
- **GamePlay.** The imperative `GamePlayScreen` methods are each proved to move the screen's state
  exactly as the matching `Rules` function says (`Snapshot() == Rules.X(old(Snapshot()))`).
  The screen's player and dungeon, and the player's name, are constants (`const`), so no method
  can swap them or rename the player.
- **Invariants.** These prove that every rule keeps the session invariant. The invariant says:
  - health stays in [0, 100] and moves never go negative;
  - the tracker holds exactly the rooms behind the cursor;
  - the action log is at most four entries long, none empty, and no entry repeats the one before it;
  - a victory only ever happens at the final door, holding the Golden Key, with the boss dead;
  - while playing, the screen never rests in the MESSAGE state.

  They also prove a monotone `Progress` relation: items are never lost, the boss stays defeated,
  a cleared room stays cleared and a resolved choice stays resolved.
- **Properties.** These state the rules the game promises: the precedence of the room check, the
  combat and choice rules, move accounting, flee and quit, and that an ended game stays ended.
- **World** and **Scenarios.** `World` builds the nine rooms and links them exactly as the nine
  `addRoom` calls do. `Scenarios` plays whole games on that world:
  - three minions leave 100/10 at 70/7;
  - taking the Sword and the key wins;
  - drinking the potion instead of taking the key loses at the door;
  - leaving the Sword behind gets the player killed by the boss.

Where the code and the design description disagree, the model follows the code:

- Running out of moves is only detected when F or B is pressed in the exploring state with no moves
  left (main.cpp:961-974). A player standing still with 0 moves keeps playing.
  `Properties.OutOfMovesRule` states this exactly.
- The empty listing is the string "Empty" (main.cpp:212).
- `Properties.NoLateOutOfMoves` and the invariant show that the second moves guard, after a
  transition (main.cpp:1244), can never fire: moves never drop below 0.

## Model

| member | source | states |
|---|---|---|
| Text.NatToDecimal | main.cpp:243 | the decimal rendering of a natural number is non-empty and all digits |
| Text.DecimalRoundTrip | main.cpp:243 | reading the decimal digits back gives the number |
| Text.IntToStringRoundTrip | main.cpp:243 | `operator<<`/`to_string` of an int reads back as the same int, sign included |
| Text.LexLeTotal | main.cpp:215 | the string order `std::sort` uses compares any two strings |
| Text.LexLeAntisymmetric | main.cpp:215 | two strings each at most the other are equal |
| Text.LexLeTransitive | main.cpp:215 | the string order is transitive |
| Text.Insert | main.cpp:215 | inserting into a list adds exactly that element (as a multiset) |
| Text.InsertSorted | main.cpp:215 | inserting into a sorted list keeps it sorted |
| Text.Sort | main.cpp:215 | sorting is a permutation of its input |
| Text.SortSorted | main.cpp:215 | the result of sorting is sorted |
| Text.SortedUnique | main.cpp:215 | two sorted permutations of the same items are equal, so the sorted order is unique |
| Text.SortIgnoresOrder | main.cpp:215 | any two orderings of the same items sort to the same list |
| Text.JoinContainsEach | main.cpp:217 | joining with a separator keeps every item as a substring |
| PathTracker.Stack.constructor | main.cpp:160 | a new stack is empty |
| PathTracker.Stack.IsEmpty | main.cpp:171 | `isEmpty` holds exactly when the size is 0 |
| PathTracker.Stack.Size | main.cpp:172 | `size` is the number of entries |
| PathTracker.Stack.Top | main.cpp:170 | `top` fails exactly on an empty stack, and otherwise gives the last value pushed |
| PathTracker.Stack.Push | main.cpp:162 | the value goes on top, `top` returns it and the size grows by one |
| PathTracker.Stack.Pop | main.cpp:163-169 | an empty stack is left empty; otherwise the top is removed and the size drops by one |
| Inventories.ListingNamesEveryItem | main.cpp:211-220 | every held item appears in the sorted listing |
| Inventories.ListingIgnoresOrder | main.cpp:211-220 | the listing depends only on which items are held, not on the order they were added |
| Inventories.Inventory.constructor | main.cpp:189 | a new inventory holds nothing |
| Inventories.Inventory.Resize | main.cpp:181-187 | capacity becomes 2 from 0, otherwise doubles, and the contents are unchanged |
| Inventories.Inventory.Add | main.cpp:205 | the item is appended after every earlier item, in order |
| Inventories.Inventory.Has | main.cpp:206-209 | `has` is true exactly when the item is held |
| Inventories.Inventory.Size | main.cpp:210 | `size` is the number of items held |
| Inventories.Inventory.SortedString | main.cpp:211-220 | "Empty" for no items, otherwise the items sorted and joined by ", ", with the inventory unchanged |
| Players.AfterDamage | main.cpp:239-241 | health after damage is the difference, or 0 when that would be negative |
| Players.AfterHeal | main.cpp:246 | health after healing is the sum, capped at 100 |
| Players.HealthStaysInRange | main.cpp:239-246 | with health in [0, 100], damage and healing by non-negative amounts keep it in [0, 100] |
| Players.DamageReportParses | main.cpp:242-244 | the damage report is "You took ", the damage in decimal, then " damage!" |
| Players.ItemInteraction | main.cpp:348-360 | a potion restores health to 100; any other item is added to the items, with a non-empty result; an enemy changes nothing |
| Players.Player.constructor | main.cpp:231 | a new player has the given name, health and moves, no items and the boss not defeated |
| Players.Player.TakeDamage | main.cpp:239-245 | health is clamped at 0 after the damage, and the report is returned |
| Players.Player.Heal | main.cpp:246 | health becomes the capped sum |
| Players.Player.UseMove | main.cpp:247 | moves drop by one, possibly below zero |
| Players.Player.CollectItem | main.cpp:248 | the item is appended to the inventory and nothing else about the player changes |
| Players.Player.HasItem | main.cpp:249 | true exactly when the item is held |
| Players.Player.SetBossDefeated | main.cpp:250 | the boss flag takes the given value |
| Players.Interact | main.cpp:348-360 | `interact` changes the player exactly as `ItemInteraction` says and never touches moves, name or boss flag |
| Entities.Entity.Description | main.cpp:100-129 | each description names its entity, and only enemies' descriptions open with "DANGER!" |
| Dungeons.NewRoom | main.cpp:295-296 | a new room has no entity, no successor and no flags |
| Dungeons.Appended | main.cpp:318-325 | `addRoom` adds the room at the end of the list |
| Dungeons.AppendedLinked | main.cpp:318-325 | adding a room keeps the list linear, with only the old tail's link changed |
| Dungeons.Trail | main.cpp:331-345 | the tracker behind room n holds n-1 down to 0, nearest on top |
| Dungeons.CanForward | main.cpp:329 | the cursor can advance exactly when a later room exists |
| Dungeons.Forward | main.cpp:331-337 | advancing pushes the current room and moves to the next one; at the last room nothing changes |
| Dungeons.Back | main.cpp:339-345 | going back pops the tracker into the cursor; with an empty tracker nothing changes |
| Dungeons.ForwardThenBack | main.cpp:331-345 | forward then back restores the same room and tracker |
| Dungeons.NavigationKeepsTrail | main.cpp:331-345 | navigation keeps the tracker equal to the rooms behind the cursor, and going back returns to the previous room |
| Dungeons.Dungeon.constructor | main.cpp:306 | a new dungeon has no rooms and refers to its player |
| Dungeons.Dungeon.AddRoom | main.cpp:318-325 | the room is linked after the current tail, and the first room added becomes the current room |
| Dungeons.Dungeon.CurrentRoom | main.cpp:327 | there is a current room exactly when the list is non-empty |
| Dungeons.Dungeon.CanMoveBack | main.cpp:328 | true exactly when the tracker is non-empty |
| Dungeons.Dungeon.CanMoveForward | main.cpp:329 | true exactly when the current room has a successor |
| Dungeons.Dungeon.UpdateCurrentRoom | main.cpp:1065-1066 | writing the current room changes that room only |
| Dungeons.Dungeon.MoveForward | main.cpp:331-337 | the cursor advances as `Forward` says, costing one move only when it could move |
| Dungeons.Dungeon.MoveBack | main.cpp:339-345 | the cursor goes back as `Back` says, costing one move only when it could move |
| Rules.AddAction | main.cpp:945-953 | an empty action or a repeat of the newest entry is dropped; otherwise the action becomes the newest entry, followed by the whole old log, minus its oldest entry once there would be more than four |
| Rules.Replace | main.cpp:1065-1066 | writing the current room back changes that room only and keeps the session well formed |
| Rules.NotWin | main.cpp:757 | a reason without a capital V is never a win |
| Rules.LossReasons | main.cpp:757 | none of the locked-door, out-of-moves, death or flight reasons counts as a win |
| Rules.DoorLossReasons | main.cpp:1033-1037 | neither locked-door reason counts as a win |
| Rules.FinalDoorWinRule | main.cpp:1029-1038 | the final door wins exactly with the key and the boss dead; key without boss and no key give their two locked-door reasons |
| Rules.HandleItemInteraction | main.cpp:1056-1070 | using an item never changes moves or the ending and leaves the exploring state |
| Rules.CheckRoomState | main.cpp:1019-1054 | the room check keeps moves and position, and can end the game only at the final door |
| Rules.LogEntry | main.cpp:1023-1026 | entering a room changes only the log and clears the new-entry flag |
| Rules.SettleRoom | main.cpp:1029-1052 | settling a room keeps moves and position, and ends the game only at the final door |
| Rules.HandleCombat | main.cpp:1072-1115 | combat keeps moves and position |
| Rules.Strike | main.cpp:1078-1092 | the blow changes only health, message and log, and health becomes the clamped difference |
| Rules.Slain | main.cpp:1098-1101 | a slain player's game is over by death, with only the log changed besides |
| Rules.Defeat | main.cpp:1104-1114 | a defeated enemy leaves moves and position unchanged |
| Rules.RecordDefeat | main.cpp:1105-1109 | recording a defeat changes only the log and the boss flag, which becomes set for the boss and otherwise stays as it was |
| Rules.HandleChoice | main.cpp:1117-1133 | a choice keeps moves, position and the ending |
| Rules.TakeKey | main.cpp:1121-1124 | taking the key keeps moves, position and the ending |
| Rules.DrinkPotion | main.cpp:1125-1129 | drinking keeps moves, position and the ending |
| Rules.CollectSword | main.cpp:982-988 | collecting the Sword keeps moves, position and the ending |
| Rules.MoveForward | main.cpp:331-337 | a forward step keeps the ending |
| Rules.MoveBack | main.cpp:339-345 | a back step keeps the ending |
| Rules.CompleteTransition | main.cpp:1237-1249 | finishing a transition keeps moves and position |
| Rules.Navigate | main.cpp:961-978 | F and B keep the session well formed |
| Rules.HandleKey | main.cpp:955-1011 | every key press keeps the session well formed |
| Rules.Begin | main.cpp:904-908 | entering the screen keeps the session well formed |
| Rules.Play | main.cpp:955-1011 | a run of key presses keeps the session well formed |
| Invariants.AddActionKeepsLog | main.cpp:945-953 | the log stays at most four entries, none empty, no immediate repeat |
| Invariants.ItemInteractionKeeps | main.cpp:1056-1070 | using an item keeps the invariant and makes progress |
| Invariants.CheckRoomStateKeeps | main.cpp:1019-1054 | after the room check the full invariant holds, MESSAGE included |
| Invariants.FinalDoorKeeps | main.cpp:1029-1038 | the final door's verdict satisfies the invariant: a win only with key and boss |
| Invariants.HandleCombatKeeps | main.cpp:1072-1115 | combat keeps the invariant and makes progress |
| Invariants.StrikeKeeps | main.cpp:1078-1092 | the blow keeps health in range |
| Invariants.SlainKeeps | main.cpp:1098-1101 | death keeps the invariant |
| Invariants.DefeatKeeps | main.cpp:1104-1114 | defeating an enemy clears the room for good and keeps the invariant |
| Invariants.HandleChoiceKeeps | main.cpp:1117-1133 | a choice keeps the invariant and resolves the room for good |
| Invariants.CollectSwordKeeps | main.cpp:982-988 | collecting the Sword keeps the invariant |
| Invariants.MoveForwardKeeps | main.cpp:331-337 | a forward step with moves left keeps the invariant |
| Invariants.MoveBackKeeps | main.cpp:339-345 | a back step with moves left keeps the invariant |
| Invariants.CompleteTransitionKeeps | main.cpp:1237-1249 | finishing a transition restores the full invariant |
| Invariants.NavigateKeeps | main.cpp:961-978 | F and B keep the invariant |
| Invariants.HandleKeyKeeps | main.cpp:955-1011 | every key press keeps the invariant and makes progress |
| Invariants.ExploringKeyKeeps | main.cpp:960-998 | keys in the exploring state keep the invariant |
| Invariants.CombatKeyKeeps | main.cpp:999-1002 | keys in combat keep the invariant |
| Invariants.ChoiceKeyKeeps | main.cpp:1003-1006 | keys in the choice state keep the invariant |
| Invariants.MessageKeyKeeps | main.cpp:1007-1009 | keys in the message state keep the invariant |
| Invariants.BeginKeeps | main.cpp:904-908 | entering the screen establishes the invariant |
| Properties.PlayKeepsInvariant | main.cpp:955-1011 | any run of key presses keeps the invariant and only makes progress |
| Properties.VictoryNeedsKeyAndBoss | main.cpp:1029-1032 | a game won by any run of keys ends at the final door, with the key held and the boss dead |
| Properties.DecisionsAreFinal | main.cpp:1113 | a cleared room never gets its entity back and a resolved choice never recurs |
| Properties.FinalDoorDecides | main.cpp:1029-1038 | at the final door the game ends, as a win exactly with key and boss |
| Properties.RoomCheckOrder | main.cpp:1029-1052 | the room check's precedence: final door, Sword room, enemy, other item, choice, otherwise exploring |
| Properties.EntryIsLogged | main.cpp:1023-1026 | a new room is logged once, by name |
| Properties.DamageRule | main.cpp:1079-1089 | the boss deals 50 to a Sword holder; otherwise an enemy deals its own damage |
| Properties.CombatRule | main.cpp:1072-1115 | damage, message and log of a fight; death keeps the enemy, survival clears it, sets MESSAGE and flags a beaten boss |
| Properties.ChoiceRule | main.cpp:1117-1133 | choice 1 adds the Golden Key, any other choice heals to 100, the choice is used up, and outside a choice room nothing happens |
| Properties.ChoiceExcludes | main.cpp:1121-1129 | the key is gained exactly with choice 1 |
| Properties.MoveAccounting | main.cpp:331-345 | a key press either costs one move and changes room, or costs nothing and stays |
| Properties.OutOfMovesRule | main.cpp:961-974 | the game is lost to moves exactly when F or B is pressed while exploring with 0 moves |
| Properties.OutOfMovesIsDistinct | main.cpp:963 | the out-of-moves reason differs from every other ending reason |
| Properties.NoLateOutOfMoves | main.cpp:1244 | with non-negative moves, finishing a transition never reports running out of moves |
| Properties.SurvivedFightExplores | main.cpp:1052 | surviving a fight leaves the player exploring, not in MESSAGE |
| Properties.FleeRule | main.cpp:1001 | fleeing ends the game in flight and logs it, without damage |
| Properties.QuitRule | main.cpp:991-997 | Q goes to the menu except in the Sword room while the Sword is there |
| Properties.EndIsFinal | main.cpp:1013-1017 | once the game has left the gameplay screen, no key changes anything |
| GamePlay.GamePlayScreen.constructor | main.cpp:857 | a new screen starts exploring, with an empty log and message and a pending room entry |
| GamePlay.GamePlayScreen.AddAction | main.cpp:945-953 | the log becomes `Rules.AddAction` of the old log |
| GamePlay.GamePlayScreen.TriggerGameOver | main.cpp:1013-1017 | the game ends with the given reason |
| GamePlay.GamePlayScreen.HandleItemInteraction | main.cpp:1056-1070 | the screen's new state is `Rules.HandleItemInteraction` of the old |
| GamePlay.GamePlayScreen.CheckRoomState | main.cpp:1019-1054 | the screen's new state is `Rules.CheckRoomState` of the old |
| GamePlay.GamePlayScreen.LogEntry | main.cpp:1023-1026 | the screen's new state is `Rules.LogEntry` of the old |
| GamePlay.GamePlayScreen.SettleRoom | main.cpp:1029-1053 | the screen's new state is `Rules.SettleRoom` of the old |
| GamePlay.GamePlayScreen.HandleCombat | main.cpp:1072-1115 | the screen's new state is `Rules.HandleCombat` of the old |
| GamePlay.GamePlayScreen.Strike | main.cpp:1078-1092 | the screen's new state is `Rules.Strike` of the old, and the damage dealt is returned |
| GamePlay.GamePlayScreen.Opening | main.cpp:1079-1089 | the fight's opening line and effective damage, from the items held |
| GamePlay.GamePlayScreen.Slain | main.cpp:1098-1101 | the screen's new state is `Rules.Slain` of the old |
| GamePlay.GamePlayScreen.Defeat | main.cpp:1104-1114 | the screen's new state is `Rules.Defeat` of the old |
| GamePlay.GamePlayScreen.RecordDefeat | main.cpp:1104-1109 | the screen's new state is `Rules.RecordDefeat` of the old |
| GamePlay.GamePlayScreen.HandleChoice | main.cpp:1117-1133 | the screen's new state is `Rules.HandleChoice` of the old |
| GamePlay.GamePlayScreen.TakeKey | main.cpp:1121-1124 | the screen's new state is `Rules.TakeKey` of the old |
| GamePlay.GamePlayScreen.DrinkPotion | main.cpp:1125-1129 | the screen's new state is `Rules.DrinkPotion` of the old |
| GamePlay.GamePlayScreen.CollectSword | main.cpp:982-988 | the screen's new state is `Rules.CollectSword` of the old |
| GamePlay.GamePlayScreen.FinishTransition | main.cpp:1237-1249 | the screen's new state is `Rules.CompleteTransition` of the old |
| GamePlay.GamePlayScreen.Navigate | main.cpp:961-978 | the screen's new state is `Rules.Navigate` of the old |
| GamePlay.GamePlayScreen.Step | main.cpp:967 | the transition callback of F or B: the screen's new state is the rule's forward or back step |
| GamePlay.GamePlayScreen.HandleEvent | main.cpp:955-1011 | the screen's new state is `Rules.HandleKey` of the old |
| GamePlay.GamePlayScreen.ExploringKey | main.cpp:960-998 | the exploring-state keys follow `Rules.HandleKey` |
| GamePlay.GamePlayScreen.CombatKey | main.cpp:999-1002 | the combat keys follow `Rules.HandleKey` |
| GamePlay.GamePlayScreen.ChoiceKey | main.cpp:1003-1006 | the choice keys follow `Rules.HandleKey` |
| GamePlay.GamePlayScreen.OnEnter | main.cpp:904-908 | the screen's new state is `Rules.Begin` of the old |
| World.Link | main.cpp:1315-1323 | the linked list keeps every room in order, and each room links to the next |
| World.LayoutHolds | main.cpp:1306-1312 | the entity each room of the world is given |
| World.LayoutMarks | main.cpp:1309-1313 | only the choice room is a choice room, only the last room is the final door, and the Sword lies in the Chamber of the Cursed Blades |
| World.LayoutPlaced | main.cpp:1306-1313 | the nine rooms as created hold what the world places in them |
| World.PlacedIgnoresLinks | main.cpp:1315-1323 | linking the rooms changes nothing they hold |
| World.WorldShape | main.cpp:1295-1324 | the world is nine linked rooms with its entities and flags in place |
| World.Build | main.cpp:1315-1323 | adding rooms one by one yields as many rooms as were added |
| World.BuildStep | main.cpp:1315-1323 | each further `addRoom` appends the next room |
| World.BuildLinks | main.cpp:1315-1323 | rooms added one after the other end up linked in order |
| World.SetupDungeon | main.cpp:1295-1324 | the dungeon ends up holding the nine world rooms, linked in order, with the entrance current |
| World.AddInOrder | main.cpp:1315-1323 | nine `addRoom` calls link the nine rooms in order |
| World.AddNext | main.cpp:1315 | one `addRoom` call appends the next room |
| World.InitialSession | main.cpp:1353-1355 | a new game has 100 health, 10 moves, nine rooms and the cursor at the entrance |
| World.NewGameSound | main.cpp:1352-1358 | a new game satisfies the invariant once the screen is entered |
| World.NewWorld | main.cpp:1353-1355 | a new player with 100 health and 10 moves, and a dungeon set up with the world |
| World.StartGameplay | main.cpp:1352-1358 | starting a game enters the screen on the world session, for a player with the given name |
| Scenarios.Enter | main.cpp:961-968 | F walks into the next room for one move, in COMBAT before an enemy, in CHOICE in the choice room, otherwise exploring |
| Scenarios.EnterDoor | main.cpp:1029-1038 | F into the final door ends the game with the door's verdict |
| Scenarios.Fight | main.cpp:1072-1115 | a fight the player survives leaves them exploring with the damage taken; otherwise they die |
| Scenarios.TakeSword | main.cpp:979-989 | C in the Sword room adds the Sword |
| Scenarios.Choose | main.cpp:1003-1006 | 1 adds the Golden Key, 2 heals |
| Scenarios.EnterAndFight | main.cpp:961-1115 | F, F into an enemy's room: the player survives exploring with the damage taken, or dies |
| Scenarios.EnterAndTakeSword | main.cpp:961-989 | F, C into the Sword's room adds the Sword for one move |
| Scenarios.EnterAndChoose | main.cpp:961-1133 | F then 1 or 2 in the choice room adds the key or heals |
| Scenarios.PassSword | main.cpp:1041-1043 | walking into the Sword's room without pressing C leaves the player exploring, unarmed |
| Scenarios.PlayAppend | main.cpp:955-1011 | playing two runs of keys one after the other is playing their concatenation |
| Scenarios.ThreeMinionsOn | main.cpp:1306-1308 | the Wizard, Dragon and Zombie take 100/10 down to 70/7 |
| Scenarios.ArmedOn | main.cpp:1309-1310 | with the Sword taken, choice 1 adds the key and choice 2 heals to 100, arriving in the choice room with 5 moves |
| Scenarios.UnarmedOn | main.cpp:1309-1310 | passing the Sword by and taking the key arrives in the choice room with 70 health and 5 moves |
| Scenarios.FinaleOn | main.cpp:1311-1313 | after the Giant Monster, surviving the boss reaches the door, which decides by the key; otherwise the boss kills the player |
| Scenarios.ArmedRunOn | main.cpp:1083-1085 | with the Sword, the boss deals 50 and the door decides by the choice made |
| Scenarios.UnarmedRunOn | main.cpp:1086-1088 | without the Sword, the boss's 75 kills a player with 60 health |
| Scenarios.Opening | main.cpp:904-908 | a new game opens in the entrance, exploring, at 100/10 with nothing held |
| Scenarios.NewGameThreeMinions | main.cpp:1295-1308 | three minions in, the player has 70 health and 7 moves |
| Scenarios.NewGameWinningRun | main.cpp:1029-1031 | taking the Sword and the key, then beating the boss, wins |
| Scenarios.NewGamePotionRun | main.cpp:1036-1037 | drinking the potion instead loses at the door for want of the key |
| Scenarios.NewGameUnarmedRun | main.cpp:1098-1100 | leaving the Sword behind gets the player killed by the boss |
| NameEntry.Typed | main.cpp:676-685 | backspace shortens a non-empty name by one, a printable character is appended below 15 characters, and anything else changes nothing |
| NameEntry.TypingKeepsNameValid | main.cpp:50 | however much is typed, the name stays within 15 printable characters |
| NameEntry.BackspaceUndoesTyping | main.cpp:677-682 | backspace right after an accepted character restores the name |
| NameEntry.NameScreen.constructor | main.cpp:657-661 | the screen opens with an empty name, taking input |
| NameEntry.NameScreen.TextEntered | main.cpp:673-687 | an active screen edits the name as `Typed` says; an inactive one ignores the event |
| NameEntry.NameScreen.EnterPressed | main.cpp:690-693 | Enter starts the game exactly when the screen is active and the name is non-empty |

## Left out

- Rendering, sprites, fonts, text layout, the damage flash, screen shake (and its random number generator), resizing and the fade animation are presentation only, and are not modelled.
- Event polling, the clocks and `changeScreen`/screen ownership are the UI loop. `Rules.Ending` records which screen the game moved to (`GameOver(reason)` or `Menu`), and key presses are the discrete `Key` values.
- Each screen transition is modelled as applied at once, callback, `moves < 0` check and room check together. Keys pressed while a transition runs are ignored by the source, and the model has no such in-between state.
- The `[DEBUG]` output of `Player`'s copy constructor and copy assignment, and the copying itself, are left out: the engine never copies a player.
- `Stack` keeps its entries in a sequence rather than linked nodes. `Dungeon` keeps its rooms in a sequence with `next` as an index, so node ownership and deletion are not modelled.
- The base `Item` description ("You see a …") is not modelled: no plain `Item` is ever created, only its three subclasses.
- The background picture chosen for the game-over screen is not modelled.
- The null-room guards of `checkRoomState`, `handleItemInteraction` and `handleCombat` are not modelled: the dungeon always has a current room once the world is set up.
- Character codes are modelled as natural numbers and the name as a string of characters; SFML's 32-bit `unicode` field and the `char` cast are not modelled.
- Escape on the name screen goes back to the menu through `changeScreen`, which is not modelled.
- Players.DamageReport: its contract is stated by the lemma `Players.DamageReportParses`, not by the function itself.
