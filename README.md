# Pitfall, modelled in Dafny

A model of the gameplay core of *Pitfall*, a small pygame platformer. It covers:

- the screen manager and its four screens: main menu, store, game and lose screen;
- the level entities and their per-frame `update()` state machines;
- the player's physics and state machine;
- the save document that carries coins, power-ups and the high score between games.

The model follows the source's own shape. Objects whose methods change fields in place are
classes whose methods carry `modifies` clauses:

- `Entity`, `Player`, `MainMenu`, `Store`, `Play`, `ScreenManager`, and `SaveFile` for the
  save document.

Each state-changing method is proved against a pure reference function:

- `Advance` for one entity update;
- `Physics` for `Player.update`;
- `Steer` and `Control` for the per-state steering and the key handler;
- `ShelfDown`, `ShelfUp` and `Purchase` for the store;
- `Activate` and `PowerKey` for the power-ups;
- `Composition` and `Layout` for level generation;
- `Saved` for saving a session.

Lemmas about those functions state what the game promises. Examples:

- A pit's 69-update cycle.
- A barrel rolls exactly 10 per update.
- The menus' selectors never leave their range.
- A purchase conserves coins.
- No power-up is used twice, and a coin is worth 10, 20, 40 or 80.
- The stored high score never goes down.

Some things the code does are stated as lemmas rather than hidden:

- `randrange(1, 4)` never draws archetype 4, so no pit is ever generated (`DrawnArchetypesHaveNoPit`).
- Two hits in one frame from 2 health skip the `health is 1` test, and the game goes on at 0
  health (`HealthSkipsOne`).
- Coin's timer-driven branch never runs (`CoinCycles`).
- The last guarded step of `Player.update` never fires (`LowPlaneStopIsDead`).

Modules: `Geometry` (pygame `Rect.colliderect` and the random source), `Input` (events and
the screen changes handlers ask for), `Sequences` (filtering and counting), `Progress` (the
save document), `Entities` (entity.py), `Players` (player.py), `Menus`, `Levels`, `Sessions`
(the Play screen) and `Screens` (the screen manager and game.py's loop).

## Model

| member | source | states |
|---|---|---|
| Progress.Saved | screen.py:49-65 | A saved session adds its coins to the stored total and overwrites the four power-up counters. It rewrites the high score only when the score strictly beats the high score the session started with. Every other key keeps its value. |
| Progress.SavedHighScoreIsMax | screen.py:62-65 | The stored high score becomes the larger of itself and the session's score, so it never decreases. |
| Progress.SaveFile.Read | filemanager.py:22-32 | Returns the stored value of the key; reading a missing key is excluded. |
| Progress.SaveFile.Edit | filemanager.py:36-53 | Exactly one key takes the new value; every other key is unchanged. |
| Progress.SaveFile.Save | screen.py:49-65 | The edits of a save, in the source's order, leave the document equal to `Saved(old document, session)`. |
| Geometry.RandInt | screen.py:489 | `random.randint(lo, hi)` yields a value of the closed range. |
| Geometry.RandRange | screen.py:437 | `random.randrange(lo, hi)` yields a value of the half-open range; `hi` is never drawn. |
| Geometry.RandClear | screen.py:492-495 | The redraw loop, once it stops, has an x in the range whose rectangle is clear of the entity it was checked against. |
| Entities.BarrelUpdate | entity.py:56-64 | A barrel moves exactly 10 left and its frame swaps on every update; nothing else changes. |
| Entities.CadencedUpdate | entity.py:103-115 | Ghost/rat/snake update: moves `speed` left. The frame swaps exactly when the count reaches the period. The count stays below the period. |
| Entities.PitUpdate | entity.py:255-284 | A hidden pit counts; at 40 it reappears at frame 8 with both timers cleared. A visible pit hides exactly when its frame is 7. The frame stays within 0..15. |
| Entities.CoinUpdate | entity.py:350-364 | With the timer below 2 (always, since nothing increments it), the frame stays within 0..6 and the timer is unchanged. The position never changes. |
| Entities.Advance | entity.py:56-364 | One update of any kind keeps that kind's invariant: two-frame strips, bounded counts, the pit's frame in 0..15 and its hidden counter below 40. |
| Entities.BarrelRolls | entity.py:56-64 | After n updates a barrel is 10·n further left, on its original frame if n is even and on the other one if n is odd. |
| Entities.CadenceHolds | entity.py:103-198 | From a cleared count, the first period−1 updates of a ghost, rat or snake only move it and count; the frame stays. |
| Entities.CadenceFlips | entity.py:103-198 | Update number `period` swaps the frame and clears the count: every 3 updates for ghosts and rats, every 5 for snakes. Snakes never move. |
| Entities.CoinCycles | entity.py:350-364 | A coin steps through frames 0..6 cyclically, one per update, and its timer stays 0. |
| Entities.PitStaysHidden | entity.py:258-260 | A hidden pit only increments both counters for its first 39 updates. |
| Entities.PitReopens | entity.py:258-265 | A pit that has just hidden reappears after exactly 40 updates, at frame 8, both timers cleared, at the same position. |
| Entities.PitClimbs | entity.py:277-284 | A visible pit advances one frame every two updates, as long as it does not pass frame 7 or frame 15. |
| Entities.PitCycle | entity.py:255-284 | From frame 8 a pit reaches frame 15 after 14 updates and frame 7 after 28. It hides on update 29 and is back in the same phase after 69. |
| Entities.Entity.constructor | entity.py:207-242 | A new entity is at the given position on frame 0, with timers 0, drawn, and its spawn rectangle sized by its first frame. |
| Entities.Entity.Update | entity.py:255-284 | `update()` of every animated kind changes the fields exactly as `Advance` says, and keeps the entity valid. |
| Entities.Entity.UpdateCadenced | entity.py:103-115 | The shared ghost/rat/snake body changes the fields exactly as `CadencedUpdate`. |
| Players.JumpRule | player.py:99-110 | Above the floor (y < 600), `jump` sets y acceleration to −25. It multiplies a nonzero x acceleration by 1.5 only if not doubled. Otherwise it only sets Stance. |
| Players.Move | player.py:154-159 | Motion adds the acceleration to the position once and floors x at 0. |
| Players.FloorClampBeforeMotion | player.py:136-141 | Below the floor on entry, the player is put at y = 600 before motion: vertical motion stopped, Stance, double jump re-armed. |
| Players.MotionOnce | player.py:152-159 | `update()` moves x by the acceleration exactly once (floored at 0) and ends with x ≥ 0. |
| Players.ApexRule | player.py:132-168 | In `update()`, a jump that is still rising (y acceleration ≤ −25) at y ≤ 300 after motion turns to acceleration 25 downwards. Its position stays where motion put it. |
| Players.LandingRule | player.py:132-179 | In `update()`, a player at y = 400 with downward acceleration ≥ 25 after motion and the apex turn lands there: y acceleration 0. A nonzero x acceleration is divided by 1.5 and the state becomes Running; otherwise x acceleration is 0 and the state Stance. |
| Players.LowPlaneStopIsDead | player.py:191-194 | The last guarded step of `update()` never changes anything: the apex rule has already turned such a jump. |
| Players.BoostUndone | player.py:172-179 | A first jump while moving multiplies x acceleration by 1.5. Landing divides it back: the player runs on at the speed it had before. |
| Players.Player.constructor | player.py:26-58 | A new player is at the given position, at rest, in Stance, facing right, not doubled, with 6 health, 0 score and 0 coins. |
| Players.Player.Jump | player.py:99-110 | Changes the physics fields exactly as `JumpBody` and nothing else. |
| Players.Player.Fall | player.py:115-119 | Sets y acceleration 10, zeroes x acceleration and x velocity, and sets Climbing. Nothing else changes. |
| Players.Player.Rise | player.py:124-128 | Same as `Fall` with y acceleration −5. |
| Players.Player.Left | player.py:198-199 | Sets only x acceleration, to −15. |
| Players.Player.Right | player.py:203-204 | Sets only x acceleration, to 15. |
| Players.Player.Stop | player.py:208-209 | Sets only x acceleration, to 0. |
| Players.Physics | player.py:132-194 | `update()` on values: x ends ≥ 0, the x velocity is kept, the state either stays or becomes Stance or Running, and the doubled flag is never set. |
| Players.Player.Update | player.py:132-194 | Changes the physics fields exactly as `Physics`, ends with x ≥ 0, and leaves health, score, coins and facing alone. |
| Players.Player.SettleOnPlanes | player.py:136-150 | The floor clamp and then the ladder-top clamp. |
| Players.Player.Displace | player.py:154-159 | The equations of motion and the left border, as `Move`. |
| Players.Player.TurnOrLand | player.py:167-179 | The apex turn, then the landing. |
| Players.Player.EndRisingJump | player.py:181-194 | The three checks on a still-rising jump, in order. |
| Menus.MenuDown | screen.py:1039-1044 | Down moves the selection cyclically through 1..3 (3 wraps to 1). |
| Menus.MenuUp | screen.py:1045-1050 | Up moves it cyclically the other way (1 wraps to 3). |
| Menus.MenuMovesInverse | screen.py:1038-1050 | Up undoes Down and Down undoes Up; three moves the same way come back. |
| Menus.MenuStaysInRange | screen.py:1038-1050 | From any option, the selection stays within 1..3 under any key sequence. |
| Menus.MenuChoice | screen.py:1051-1061 | Return on 1 plays, on 2 opens the store, on 3 quits; any other value does nothing. |
| Menus.MenuAction | screen.py:1038-1061 | Only Return on an option 1..3 leaves the main menu. |
| Menus.MainMenu.constructor | screen.py:997-1012 | The menu opens on option 1. |
| Menus.MainMenu.KeyDown | screen.py:1038-1061 | The selection moves as `MenuMove`, and the requested screen change is `MenuAction`. |
| Menus.ShelfDown | screen.py:228-235 | Down keeps the same four items, rotating the first to the end when the button would reach 4. The next item cyclically becomes selected and the button stays in 1..3. |
| Menus.ShelfUp | screen.py:236-248 | Up keeps the same four items, moving the last to the front when the button would reach 0. The previous item cyclically becomes selected. |
| Menus.ShelfMovesInverse | screen.py:228-248 | Up after Down and Down after Up reselect the same item. Away from the turning end the whole shelf comes back. |
| Menus.ShelfStaysInRange | screen.py:223-248 | Under any key sequence the button stays in 1..3 and the shelf holds the same four items. |
| Menus.Purchase | screen.py:255-271 | Buying succeeds exactly when coins cover the cost. Coins drop by the cost, the new total is saved and the item's count rises by one. A failed purchase changes nothing; no other key changes. |
| Menus.PurchaseConserves | screen.py:261-271 | Coins spent equal cost × items added, and a non-negative purse stays non-negative. |
| Menus.CatalogueNames | screen.py:177-184 | Every item's name is a save-file key other than the coin total. |
| Menus.Store.constructor | screen.py:147-184 | The store opens with the catalogue in order, the button on the first item, and the stored coins. |
| Menus.Store.KeyDown | screen.py:223-271 | Down and Up move the shelf, releasing E returns to the main menu, Return buys the selected item. Only Return touches coins or the save document. |
| Menus.Store.MoveDown | screen.py:228-235 | The shelf becomes `ShelfDown` of itself. |
| Menus.Store.MoveUp | screen.py:236-248 | The shelf becomes `ShelfUp` of itself. |
| Menus.Store.Buy | screen.py:255-271 | Coins and document become `Purchase` of the old ones for the selected item; the shelf is unchanged. |
| Menus.Lose.KeyDown | screen.py:316-325 | Releasing M, S or P goes to the main menu, the store or a new game; nothing else leaves the lose screen. |
| Levels.Archetype | screen.py:437-470 | Archetypes 1..4 set the ladder, pit, wall, barrel, snake, rat and ghost counters; coins are never changed; any other value changes nothing. |
| Levels.Composition | screen.py:474-477 | With Dead Zone in use the three animal counters are 0; otherwise the archetype's counts stand. |
| Levels.ArchetypeTable | screen.py:439-470 | Each archetype sets exactly the counts of the table. |
| Levels.ArchetypeForgetsPrevious | screen.py:439-470 | A level's make-up does not depend on the previous level's counters. |
| Levels.DrawnArchetypesHaveNoPit | screen.py:437-470 | For the archetypes `randrange(1, 4)` can draw, a level has no pit and exactly one wall. |
| Levels.Layout | screen.py:479-601 | The nine placement loops in order. Every placement range leaves room for a sprite of the widest spawn width beside any placed entity. |
| Levels.LayoutCounts | screen.py:479-601 | The nine placement loops place exactly the counted number of entities of each kind; above- and underground coins add up. |
| Levels.PlaceOne | screen.py:488-497 | A new entity of the slot's kind at the slot's y, in its range, clear of the last entity placed. |
| Levels.PlaceRun | screen.py:488-497 | One placement loop appends n fresh entities placed as the slot says. The level stays free of repetitions and each new entity is clear of the one before it. |
| Sessions.EffectOf | screen.py:661-692 | A touched coin is collected; a touched barrel or animal damages; a touched pit traps only while drawn after its update. Nothing else has an effect. |
| Sessions.HealthWithoutPits | screen.py:679-682 | Without a pit, health drops by exactly one per damaging hit. |
| Sessions.HealthAfterTrap | screen.py:683-692 | After a pit traps the player, health is 1 minus the hits that follow in the frame. |
| Sessions.GainIsProduct | screen.py:667-669 | The coins a frame earns are the coin value times the number of coins collected. |
| Sessions.Survivors | screen.py:661-697 | An entity stays in the level exactly when its effect does not remove it. Exactly one entity per collected coin or damaging hit is gone. |
| Sessions.VisitedAsWritten | screen.py:661-697 | As written, a loop that removes the entity it is visiting skips the next one. |
| Sessions.VisitsAllUnlessRemoved | screen.py:661-697 | As written, every entity is visited exactly when no entity but the last is removed. |
| Sessions.AdjacentCoinsAsWritten | screen.py:667-669 | As written, the second of two adjacent touched coins is never looked at, while the intended pass collects both. |
| Sessions.AdjacentAnimalsAsWritten | screen.py:983-987 | As written, Dead Zone leaves the second of two adjacent animals in the level. |
| Sessions.HealthOutcome | screen.py:856-884 | At exactly 1 health the player dies, unless an Extra Life is in use and not yet spent, in which case it revives. Any other health goes on. |
| Sessions.HealthOutcomeAsWritten | screen.py:879-884 | As written, 1 health with an Extra Life in use raises NameError instead of reviving. |
| Sessions.ExtraLifeAsWritten | screen.py:879 | The first time an Extra Life should revive the player, the code as written fails, while the intended test revives. |
| Sessions.ExtraLifeSpentOnce | screen.py:856-884 | With an Extra Life in use, the first time at 1 health revives; once it is spent, 1 health dies. |
| Sessions.HealthOutcomeFlagged | screen.py:856-884 | The test as written, with its plain name read as the session's flag: death needs no Extra Life in use, revival needs it in use and not spent. |
| Sessions.NoDeathAfterRevivalAsWritten | screen.py:856-884 | With line 879's name read as `self.noMoreLives` (`HealthOutcomeFlagged`), a flagged player with an Extra Life in use never dies at any health, while the intended test dies at 1. |
| Sessions.HealthSkipsOne | screen.py:846-884 | Two hits in one frame from 2 health leave 0 health, where the game goes on. |
| Sessions.PowerPrev | screen.py:940-946 | Q selects the previous power-up, 0 wrapping to 3. |
| Sessions.PowerNext | screen.py:947-953 | E selects the next power-up, 3 wrapping to 0. |
| Sessions.PowerSelectorInverse | screen.py:940-953 | Q undoes E and E undoes Q. |
| Sessions.Activate | screen.py:959-979 | No-op if the selected power-up is in use or none is owned. Otherwise its index is appended once and only its counter drops by 1. 2x Coins doubles the coin value and 4x Coins quadruples it. |
| Sessions.ActivateIdempotent | screen.py:959-979 | Activating the same power-up twice is the same as once. |
| Sessions.PowerKeyOk | screen.py:940-979 | One key keeps the selector in 0..3, no index used twice, and the coin value 10 × 2 (if 2x used) × 4 (if 4x used). |
| Sessions.PowersStayOk | screen.py:940-979 | Under any key sequence that stays true, and a coin is worth 10, 20, 40 or 80. |
| Sessions.WithoutAnimals | screen.py:983-987 | Dead Zone leaves only entities of the level that are not animals. |
| Sessions.WithoutAnimalsDistinct | screen.py:983-987 | Dead Zone keeps the level free of repetitions. |
| Sessions.DeadZoneKeepsOthers | screen.py:983-987 | Every non-animal entity survives Dead Zone. |
| Sessions.FirstOf | screen.py:748-757 | The index of the first entity of a kind, or −1 when there is none; the loop stops there. |
| Sessions.WallFreedom | screen.py:748-757 | A touched wall left of the player blocks only the left, one right of it blocks only the right; otherwise both ways are free. |
| Sessions.Steer | screen.py:716-805 | Stance stops (x acceleration 0, y unchanged) and re-arms the double jump. Running stays running at the same height and accelerates ±15 the way it faces, or 0 if blocked. Climbing keeps its acceleration, moves up 17, and stands exactly when at or above y = 400, otherwise keeps climbing. Jumping is left alone. |
| Sessions.WallStopsRunner | screen.py:745-768 | A running player touching a wall on the side it faces does not move in that frame. |
| Sessions.JumpAtMostTwice | screen.py:915-920 | A second Space in the air sets the doubled flag and jumps without the boost; a third does nothing. |
| Sessions.FirstJumpBoosts | screen.py:921-923 | Space from the ground jumps with the horizontal boost. |
| Sessions.Play.constructor | screen.py:335-426 | A new game: player at (60, 400) with full health; counters and power-ups read from the save file; coin value 10; a first level generated from a drawn archetype. |
| Sessions.Play.CreateLevel | screen.py:436-601 | The counters become `Composition` of the drawn archetype. The level is extended by entities placed as `Layout` says, and a spaced level stays spaced. |
| Sessions.Play.PlaceLayout | screen.py:479-601 | The nine placement loops append entities placed as `Layout(counts)`, in order. |
| Sessions.Play.Place | screen.py:488-497 | One placement loop extends the level, keeping it valid. |
| Sessions.Play.Frame | screen.py:603-884 | The whole new state of a frame. Each entity is updated once (`Collided`), coins rise by the coin value per collected coin, and health follows the effects. At x ≥ 1060 the score rises by 100, a level of the drawn archetype is generated and x restarts at 0; otherwise the level keeps exactly the survivors. Then the player's body becomes `Physics` of `Steer` given the first wall's blocking, and the health test decides as `HealthOutcome`: dying saves the session and asks for the Lose screen with the score, high score, new stored total and coins earned. |
| Sessions.Play.CollideAndAdvance | screen.py:661-705 | The collision pass and then the stage advance: entities, coins, health, level, counters, score and x as in `Frame`; the rest of the player is untouched. |
| Sessions.Play.MovePlayer | screen.py:716-884 | The body becomes `Physics` of `Steer` given the first wall's blocking, the facing is kept, and then the health test applies as `HealthOutcome` (die, revive or go on, with the save and the counters as in `CheckHealth`). x ends ≥ 0 and the level is untouched. |
| Sessions.Play.CollisionPass | screen.py:661-697 | Every entity is updated once. Coins add the coin value per collected coin. Health follows the effects in order. The level keeps exactly the entities not collected or damaging. |
| Sessions.Play.AdvanceStage | screen.py:701-705 | At x ≥ 1060 the player goes to x = 0, a new level is generated and the score rises by exactly 100; otherwise nothing changes. |
| Sessions.Play.SteerPlayer | screen.py:716-822 | The player's physics fields change exactly as `Steer`, given the first wall's blocking. |
| Sessions.Play.FindFreedom | screen.py:745-757 | The wall loop yields the blocking of the first wall. |
| Sessions.Play.FindFirst | screen.py:748-757 | The search loop finds the first entity of the kind, as `FirstOf`. |
| Sessions.Play.CheckHealth | screen.py:846-884 | Decides as `HealthOutcome`, so a spent Extra Life no longer saves the player. Dying saves the session as `Saved` and asks for the Lose screen with the final figures. A revival puts the player at x = 60 with 6 health, sets the flag and drops a positive counter by 1. Otherwise nothing changes. |
| Sessions.Control | screen.py:904-939 | An arrow press sets Running and an arrow release Stance. Space jumps (−25 upwards) whenever y < 600, standing on a plane or in the air, setting the doubled flag on a second jump while jumping, and does nothing on a third. Down and Up climb only on a ladder. No key moves the player. |
| Sessions.Turn | screen.py:904-914 | The player faces left exactly after a left-arrow press, or when it already faced left and the key is not a right-arrow press. |
| Sessions.PowerKey | screen.py:940-987 | Q and E only move the selector to `PowerPrev` and `PowerNext`; Return activates as `Activate`; any other event changes nothing. |
| Sessions.Play.KeyDown | screen.py:898-987 | Power-up state changes as `PowerKey`; the level loses its animals only on a successful Dead Zone. The player changes as `Control` and the facing as `Turn`. |
| Sessions.Play.PlayerKeyDown | screen.py:904-939 | The arrows, Space, Down and Up change the player as `Control` and `Turn`. |
| Sessions.Play.PowerKeyDown | screen.py:940-987 | Q, E and Return change the power-up state as `PowerKey`. |
| Sessions.Play.ActivatePower | screen.py:954-987 | Return changes the power-up state as `Activate` and removes the animals exactly when Dead Zone is activated. |
| Sessions.TouchAll | screen.py:661-697 | Each entity is updated once, in order; the effects, coins and health follow. |
| Sessions.PassEffects | screen.py:661-697 | The effect of each entity in a collision pass, from its kind, whether it is drawn after one update from its state before the pass, and its hit. |
| Sessions.CollidedEffects | screen.py:661-697 | A collision pass's effects are determined by the entities' states before it: they are exactly `PassEffects` of those states and the hits. |
| Sessions.Touch | screen.py:661-692 | One entity: update it, then apply its effect on coins and health. |
| Screens.Next | screen.py:41-42 | The screen after a handler's request: a change names the new screen; staying or quitting keeps the current one. |
| Screens.Saving | screen.py:49-65 | Only a game in progress writes anything when saving. |
| Screens.SaveOnlyFromPlay | screen.py:49-50 | Once the lose screen replaces a game, saving changes nothing. |
| Screens.SavedTwiceCountsTwice | game.py:51-69 | Saving after a game's quit and again after its last frame adds the coins of both records to the stored total. |
| Screens.ScreenManager.constructor | game.py:45-46 | The game starts on the main menu, on option 1. |
| Screens.ScreenManager.SaveAll | screen.py:49-65 | The document becomes `Saving` of the current screen. |
| Screens.ScreenManager.Apply | screen.py:41-42 | The requested screen becomes current: a fresh menu, store or game, or the lose screen with its figures. Quit stops the loop. |
| Screens.ScreenManager.OpenMenu | screen.py:318 | A fresh main menu on option 1. |
| Screens.ScreenManager.OpenStore | screen.py:321 | A fresh store showing the catalogue and the stored coins. |
| Screens.ScreenManager.OpenPlay | screen.py:324 | A fresh game with full health, no score and no coins. |
| Screens.ScreenManager.HandleEvent | game.py:51-65 | Closing the window saves a game in progress and stops the loop, leaving the game and its level untouched. Any other event goes to the current screen's handler and has that handler's whole effect: on the menu the selection moves as `MenuMove` (`MenuHandled`) and the screen and running flag follow `MenuAction`; on the store the shelf moves as `ShelfMove`, only Return changes coins or document, as `Purchase` (`StoreHandled`), and only releasing E leaves; in a game the power-ups move as `PowerKey`, Dead Zone clears the animals, the player moves as `Control` and turns as `Turn`, health, score and coins stay (`PlayHandled`), and the screen and document stay; on the Lose screen the screen follows `Next`. Only the menu's Quit and closing the window stop the loop: every other event keeps the running flag. |
| Screens.ScreenManager.MenuKey | screen.py:1038-1061 | The selection moves as `MenuMove` (`MenuHandled`), the document is untouched, the new screen is `Next` of the menu's action, a Stay keeps the same menu, and Quit stops the loop. |
| Screens.ScreenManager.StoreKey | screen.py:223-271 | The shelf moves as `ShelfMove`; Return buys the selected item as `Purchase` and no other key touches coins or document (`StoreHandled`); releasing E opens the menu and every other key stays on the same store. |
| Screens.ScreenManager.PlayFrame | screen.py:603-884 | The active game's draw() before any screen change. The frame's effects are `NextEffects` of the game as it stood. The session is saved with the game's final record exactly when `HealthOutcome` of the health after those effects is Die, and is untouched otherwise. A game that goes on has exactly `Play.Frame`'s new state (`Framed`). |
| Screens.ScreenManager.Tick | game.py:67-69 | Other screens do nothing. In a game, the frame's effects are those of its collision pass over the game's entities as they stood (`NextEffects`, each `EffectOf` the entity's kind, its drawing after one update, and its hit), and the game hands over to the Lose screen exactly when `HealthOutcome` of the health after those effects is Die. A game that continues has had exactly `Play.Frame`'s new state (`Framed`) and saved nothing. A game that ends is saved with its final record, and the Lose screen shows the action's score, high score, stored total and coins. |
| Screens.ScreenManager.QuitFrameAsWritten | game.py:51-69 | Closing the window during a game saves it; the frame still drawn afterwards has the collision pass's effects (`NextEffects` of the game as it stood) and either continues with the game saved once, or, when the health test says Die, opens the Lose screen with the game saved a second time. |
| Screens.ScreenManager.QuitFrame | game.py:51-69 | As intended: closing the window saves the game once, and the game and its player stay as they were. |

## Left out

- Drawing, fonts, images and `convert_alpha`, mouse handlers (all empty) and all audio.
- The snow effect (screen.py:414-421, 830-841).
- `Player.load` (player.py:213-237).
- The player's animation counters and sprite choice in `Play.draw`. They only pick the image drawn.
- Sprite sizes are parameters (`Sprites`), since images are not modelled. The pit's frame widths, used to recentre it, are among them.
- Collisions during play are inputs. `hits` says which entities touch the player after their update. `wallContact` and `ladderContact` say whether the first wall and the first ladder do. Rectangles that move with the player are not modelled.
- Randomness is nondeterministic choice.
- Geometry.RandClear: the redraw loop is one choice of a clear x. A loop that never finds one, which the source allows, is not modelled.
- Levels.PlaceOne: requires every first frame to be at most 207 pixels wide, so that a clear x exists in every range. With wider sprites the source can loop forever.
- Levels.PlaceRun: does not promise that entities are clear of each other, only of the one placed just before. The source re-checks a redrawn x only against the entity it was comparing with.
- File I/O and JSON: the save file is one `map<string, int>` held by `SaveFile`. `readOption` of a missing key (a `KeyError` in the source) is excluded by requiring every key the game reads to be present.
- Players.Player.Update: positions and accelerations are exact reals, not floating point. So, for example, a boost by 1.5 followed by its undo by 1.5 is exact here.
- Sessions.Play.CollisionPass: removes collected coins and damaging entities after updating all of them, which is the evidently intended behaviour. It does not reproduce the skipping that removing during the Python loop causes. That behaviour is modelled separately (see Findings).
- Sessions.Play.ActivatePower: Dead Zone removes every animal, as intended, not the skipping loop as written (see Findings).
- Sessions.Play.CheckHealth: uses the evidently intended test, reading the session's `noMoreLives` attribute where the source names an undefined variable, and letting a player with a spent Extra Life die (see Findings).
- Screens.ScreenManager.Tick: for the frame that ends a game, states the frame's effects, the save with the game's final record and the Lose screen built from the action. It does not restate `Play.Frame`'s account of that discarded game (its entities, level and body), and it does not state the Lose screen's score, high score, stored total and coins in terms of the game before the frame (the coins as the old coins plus the coin value per collected coin, and so on). That account is `Play.Frame`'s own contract, which Tick calls. Carrying it across the screen change is more than the verifier proves within its resource limit.
- Screens.ScreenManager.Apply: Quit from the main menu stops the loop. It does not model `pygame.quit()` followed by further drawing.
- Identity tests on small integers (`kindOfLevel is 1`, `health is 6`) are modelled as equality.
- The SWING player state, which nothing enters.

## Findings

| source | as written | input that shows it | evidently intended | confidence | as-written member | corrected member |
|---|---|---|---|---|---|---|
| screen.py:661-697 | `self.level.remove(element)` inside `for element in self.level` | two coins next to each other in the level, both touched in one frame: the second is skipped, neither updated nor collected | every touched coin and hazard handled each frame | not executed; high | Sessions.AdjacentCoinsAsWritten | Sessions.Survivors |
| screen.py:983-987 | the Dead Zone loop removes from the list it iterates | two animals next to each other when Dead Zone is activated: the second stays | every ghost, rat and snake removed | not executed; high | Sessions.AdjacentAnimalsAsWritten | Sessions.DeadZoneKeepsOthers |
| screen.py:879 | `not noMoreLives`, a name nothing defines; the attribute is `self.noMoreLives` | health 1 with Extra Life (index 2) in use: the branch raises NameError instead of reviving | revive once, then set the flag | not executed; high | Sessions.ExtraLifeAsWritten | Sessions.ExtraLifeSpentOnce |
| screen.py:856-884 | the die branch tests only `2 not in self.usedPowerups`; the revive branch is the only one for health 1 with Extra Life in use | with line 879's name read as `self.noMoreLives` (`HealthOutcomeFlagged`): Extra Life in use, the player revived once (flag set) and back at 1 health: neither branch applies, and health goes on down past 0 | a spent Extra Life no longer saves the player: health 1 dies | not executed; medium | Sessions.NoDeathAfterRevivalAsWritten | Sessions.ExtraLifeSpentOnce |
| game.py:51-69 | after the QUIT event saves the game, the same iteration still calls `draw` | closing the window during a game and dying in that last frame: the coins are added to the stored total twice | the loop ends without another frame, saving once | not executed; medium | Screens.ScreenManager.QuitFrameAsWritten | Screens.ScreenManager.QuitFrame |
