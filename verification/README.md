# CS2D verified

A Dafny model of the game server of a two-dimensional Counter-Strike, with its protocol, its blocking queue, its frame
clock and its map editor, and proofs of what it promises. `dafny verify dfyconfig.toml` checks all of it.

## How it is built

The round engine is modelled twice. `World.dfy` and `Rounds.dfy` are functions on values: every command, tick, phase and
round of the game takes a world to a world, with the random draws, the time that a frame takes and the ray caster as
parameters. `Engine.dfy` and `GameLoop.dfy` are the objects that the program has: players, bomb, world and game update one
another in place, and every method is proved to do what its function says on the value that the objects stand for. So what
is proved of the functions holds of the objects; `CS2DGame.Play` carries it through a whole game, from the first player
who joins.

| file | what it is |
|---|---|
| `Settings`, `Basics` | the settings, enumerations, shared facts about sequences and sets |
| `Geometry`, `Slide`, `Terrain` | ray casting, the slide against collidables, the map |
| `Arms`, `World`, `Rounds` | weapons, the world and its steps, phases and the match |
| `Accounts`, `Refinement`, `Matches`, `Runs` | who has the bomb and who is credited, kept by every step of every match |
| `Wounds`, `Shooting`, `Turns`, `Combat` | what hits and the explosion do, where shots lead, a player's turn, the turns of a match |
| `Orders`, `Renewal`, `Defusal` | what each command does, how a round ends and begins, who defuses the bomb and when |
| `Fuse`, `Bell`, `Endings`, `Scores` | clock and fuse, the stale flag, how long a match lasts, verdicts and scores |
| `PickUp`, `Admission`, `Confines`, `Escape`, `Games` | picking up, joining, staying in the map or not, whole games |
| `Engine`, `GameLoop` | the objects |
| `Wire`, `Messages`, `Streams` | bytes, messages, what is sent and received |
| `Queue`, `Clock`, `Editor` | the blocking queue, the frame clock, saving and loading maps |

What the functions do is said a second time and apart from them, in the terms of whoever plays: `Combat.MatchIsTurns` cuts a
match into commands and turns of players, and `Orders`, `Turns`, `Shooting`, `Wounds`, `Defusal` and `Renewal` say in
numbers and coordinates what each of those leads to.

In the theorems about matches, `Run(env, Kickoff(env, w, guns, d), guns, fs)` is the match that the players of `w` begin,
after the steps `fs`: any commands of any users in any order, any draws, any number of frames per turn.

## Model

| member | source | states |
|---|---|---|
| `Runs.BombIsAlwaysInOnePlace` | src/server/game_world.cpp:142-374 | at every moment of every match between two sides the one bomb is in exactly one of: a player's hands, the ground, planted; who holds it is a living terrorist; it has a plantation exactly when it is not NOT_PLANTED |
| `Runs.EveryDeathIsCreditedOnce` | src/server/player.cpp:141-160 | at every moment of every match each player's counters are what the history of deaths says, and kills, team kills and victims of the blast add up to all deaths |
| `Runs.NothingIsUndoneInARound` | src/server/bomb.cpp:29-90 | between any two moments of a round nobody changes side, comes back to life or dies twice, the bomb's status goes forward only, and the history and the drop ids grow |
| `Fuse.TurnDecidesTheBomb` | src/server/bomb.cpp:54-69 | in any sound world with a planted bomb, whatever the commands of a turn: afterwards it has exploded exactly when the fuse has burnt down, and is defused exactly when it has not and the trigger, as the commands left it, was held long enough; no command but those to defuse reaches that trigger, though planting shares it |
| `Combat.MatchIsTurns` | src/server/game_phase.cpp:12-46 | at any moment of any match, a turn of the loop executes its commands in the order of the queue, burns the fuse, and gives each player exactly one turn in the order of the map unless a shot throws; the theorems about turns apply to each of them |
| `Turns.TurnLeads` | src/server/player.cpp:42-84 | a player who is not idle goes by his keys, by frames * speed along an axis or its whole part over the root of two on both, as far as the slide lets him; then he fires what is in his hand, from where he stands, if it is ready (pulled, loaded, the time of a shot gone by), and the scene after it is the one that his shots lead to |
| `Turns.TurnStands` | src/server/player.cpp:42-58 | the dead, who is defusing and who is planting stay where they are and hurt nobody; defusing ends with the bomb's defusal |
| `Turns.TurnUsesArms` | src/server/gun.cpp:110-122 | such a turn takes one round, three of an AK-47, and starts the wait exactly if the weapon was ready, and touches no other weapon |
| `Turns.TurnUsesBomb` | src/server/bomb.cpp:36-52 | the bomb in the hand is planted, at the middle of the player, exactly when its trigger was held for the plantation time and he stands on a site; otherwise the time held goes on |
| `Turns.TurnLeavesBomb` | src/server/bomb.cpp:36-52 | and no other turn touches the bomb |
| `Shooting.StrikeLeads` | src/server/gun.cpp:96-108 | a shot follows the ray from the middle of the shooter in the direction of its angle and is shown at the first thing met there, block, wall or living other player; only a player met within reach loses life, and only the shooter gets the bonus or the penalty of a kill; it throws exactly if it meets nothing |
| `Shooting.FireLeads` | src/server/m3.cpp:17-39 | a gun shoots at its owner's orientation: an M3 eight pellets at -13.125, -9.375, ... 13.125 degrees from it, an AK-47 three bullets along one ray, another gun one |
| `Wounds.DamageIsTaken` | src/server/player.cpp:141-149 | damage is taken from the life of the victim down to zero, and nothing of anybody else changes |
| `Wounds.HitsAreTaken` | src/server/ak47.cpp:22-39 | several hits take what they add up to |
| `Wounds.HitsKillIff` | src/server/ak47.cpp:22-39 | and kill exactly if that is the whole life |
| `Wounds.ExplosionHurts` | src/server/game_world.cpp:483-505 | apart from the turns, a tick hurts nobody unless the fuse of a planted bomb is burnt: then everybody within the radius of the plantation, middle to middle, loses damage * (1 - distance / radius), and nobody else |
| `Defusal.CommandDefuses` | src/server/game_world.cpp:267-284 | a command makes somebody defuse exactly if it is the command to defuse of a living counter-terrorist whose rectangle overlaps the plantation, in a phase that executes it, and makes him let go exactly if it is the command to stop of one who defuses; only so is the trigger of a planted bomb touched |
| `Defusal.DefusedIffHeld` | src/server/bomb.cpp:54-69 | over any turns of any play from a planted bomb: it is defused in a turn exactly if the fuse has not burnt down and the last command to touch its trigger was such a start, and the defuse time has gone by since |
| `Defusal.HeldSince` | src/server/bomb.cpp:54-69 | the time so held is that of the turns after the one with that command, none of which has one that touches it |
| `Defusal.OnlyDefusersTouch` | src/server/game_world.cpp:267-284 | commands of the dead, and all but those to defuse, touch the trigger no more than none at all |
| `Defusal.TickPlantsReleased` | src/server/bomb.cpp:36-52 | a tick that plants the bomb leaves it with nobody defusing it |
| `Orders.OthersDoNothing` | src/server/command.cpp:45-132 | commands of the dead, in the wrong phase or after an exception do nothing, and those of a user who is not in the game throw |
| `Orders.CommandsInOrder` | src/server/game_phase.cpp:24-28 | commands are executed one after the other in the order of the queue |
| `Orders.MoveDoes` | src/server/command.cpp:54-76 | a command to move sets the key of its direction and no other |
| `Orders.KeysLead` | src/server/player.cpp:60-77 | a key pressed alone leads its way: up and left towards the origin |
| `Orders.ActDoes` | src/server/game_world.cpp:251-265 | pulling starts the trigger of the weapon in the hand anew, releasing it keeps the time; a bomb in the hand reacts on a site only, and not once defused |
| `Orders.EquipDoes` | src/server/player.cpp:162-182 | changing weapons releases the old one and takes the new one if there is one |
| `Orders.BuyGunDoes` | src/server/shop.cpp:39-47 | who can pay gets a new gun in the primary slot for its price, and the old one falls at his middle under a new id; else nothing changes |
| `Orders.BuyAmmoDoes` | src/server/shop.cpp:48-64 | who can pay and has the gun gets a clip of it, in 16 bits; else nothing changes |
| `Orders.PickUpDoes` | src/server/game_world.cpp:301-355 | the item taken is, of those that the player's rectangle covers, the one dropped first; a glock takes the secondary slot, another gun the primary one, what was there lies in its place as the last dropped; only a terrorist takes the bomb |
| `Orders.DeathDoes` | src/server/game_world.cpp:357-374 | at a death the primary gun falls at the corner and the bomb at the middle of the dead, who keeps money and knife |
| `Renewal.VerdictPays` | src/server/cs2d_game.cpp:123-134 | the verdict counts one round for its side and pays everybody the bonus of a round won or lost by his side |
| `Renewal.RoundRenews` | src/server/game_world.cpp:130-188 | in a new round everybody has his whole life, no key pressed, his place, and money and guns as before, or as at the start after the swap; the map's guns lie in their places under the ids 0, 1, ...; nobody but one terrorist has the bomb |
| `Renewal.PhaseLasts` | src/server/game_phase.cpp:12-46 | a phase goes on for its duration times FPS frames, and the attack only until the counter-terrorists are dead, or the terrorists with the bomb not planted, or the bomb has exploded or was defused |
| `Renewal.NewcomerIs` | src/server/loadout.cpp:9-15 | what who joins starts with |
| `Accounts.EventKeepsWhere` | src/server/game_world.cpp:322-374 | a kill, a plantation, taking a gun or the bomb, leaving it and dropping a gun in the shop each leave the bomb in exactly one place |
| `Accounts.EventKeepsLedger` | src/server/gun.cpp:86-108 | each of them keeps the counters of everybody equal to what the history says |
| `Matches.NewRoundIsSound` | src/server/cs2d_game.cpp:135-147 | however a round ended, the next begins with everybody alive, the bomb in the hands of one terrorist and nowhere else, all guns on the ground under different ids, and the sides kept or all swapped |
| `Fuse.ClockAgreesThroughout` | src/server/game_phase.cpp:12-46 | at every test of the attack phase's loop, if the bomb is planted the clock of the phase is the time since it was planted and is below the detonation time |
| `Fuse.AttackPhaseEnds` | src/server/game_phase.cpp:12-46 | an attack phase that begins with the flag clear takes at most (attack + detonation) * FPS + 1 turns, whatever is done in them |
| `Fuse.NoTimeoutOnAPlantedBomb` | src/server/game_phase.cpp:76-85 | no attack phase runs out of time with the bomb planted |
| `Fuse.TimesOutIffFlagWasClear` | src/server/game_phase.cpp:33-37 | with nobody eliminated and the bomb not planted, a phase that has gone on for longer than its duration has timed out if and only if just_been_planted was clear when it began |
| `Fuse.AttackBeginsWithTheOldFlag` | src/server/bomb.cpp:77-84 | the attack phase begins with the flag as the pause between rounds left it: restart and purchases do not touch it |
| `Bell.FlagIsStaleIff` | src/server/bomb.cpp:36-84 | in any match, an attack phase begins with the flag set exactly when the last turn of the pause before planted the bomb, or began with it set and left the bomb unplanted |
| `Bell.AMatchWithAStaleFlag` | src/server/game_phase.cpp:89-98 | for every map, draw and settings with a long enough pause: a match of one against one, played frame by frame, whose second attack phase begins with the flag set |
| `Endings.EveryMatchEnds` | src/server/cs2d_game.cpp:165-173 | with the flag clear whenever an attack begins, any match is over after rounds * (all phases * FPS + constants) steps, and if nobody stopped it and nothing threw, every round has been decided |
| `Endings.AMatchWithoutEnd` | src/server/game_phase.cpp:33-37 | without that condition no number of steps is enough |
| `Scores.VerdictFollowsTheRules` | src/server/cs2d_game.cpp:118-133 | an attack phase gives one verdict, counted once, to the side that the rules name; by default to the counter-terrorists only when time is up with the bomb not planted |
| `Scores.ScoresAddUp` | src/server/cs2d_game.cpp:118-147 | at any moment of any match the scores are the verdicts so far, each squad's wins follow it through the swap, and everybody is on the side of the start until the swap and on the other one from then on |
| `Scores.AllRoundsArePlayed` | src/server/cs2d_game.cpp:165-173 | a match that is over, not stopped and not thrown, has decided exactly ROUNDS rounds |
| `Geometry.ImpactsFindsFirstPoint` | src/server/game_world.cpp:536-587 | impacts returns the first point of the ray on the rectangle's outline, corners and collinear edges included, if and only if the ray does not start inside an edge and run along it |
| `Geometry.ImpactIsFirstPointOfRect` | src/server/game_world.cpp:536-587 | from outside, it is the first point of the whole rectangle |
| `Geometry.ShotStopsAtFirstObstacle` | src/server/game_world.cpp:589-615 | a shot stops on the outline of something solid, and nothing solid has its outline on the way there, exactly unless it skims something solid and does not stop where it starts |
| `Geometry.NearestIsNearest` | src/server/game_world.cpp:589-615 | what the loop over the collidables finds is the nearest impact on something solid, the first in the list on a tie |
| `Geometry.CalculateShot` | src/server/game_world.cpp:589-615 | the loop finds that |
| `Geometry.ParameterIsDistance` | src/server/knife.cpp:26-44 | for the unit direction of an angle the number compared with the reach of a knife is the distance of the impact |
| `Geometry.EveryShotHits` | src/server/game_world.cpp:23-35 | from strictly inside the map, in any direction and among any other collidables, a shot hits something, within the map |
| `Slide.StepIsSafe` | src/server/game_world.cpp:425-454 | a step of at most a block from a safe place: both coordinates end between the old and the requested one exactly when neither axis is stopped by something overlapped already, and the place is then safe again |
| `Slide.StepEndsSafe` | src/server/game_world.cpp:425-454 | a step of any length from a safe place (in the map, off the blocks) ends in a safe place exactly when, on the last axis that it moves along, the place beside what it runs into is in the map and crowded by no block |
| `Slide.ShortStepIsSafe` | src/server/game_world.cpp:425-454 | of at most a block per axis: exactly when the mover, where something that he overlaps holds him, is put in a safe place, or the second axis brings him back |
| `Slide.FreeOfPlayers` | src/server/game_world.cpp:425-454 | blocks never hold a mover who is in a safe place |
| `Slide.StepEndsApart` | src/server/game_world.cpp:400-454 | a step shorter than two players, from a place apart from everything solid, ends apart from everything exactly when on each axis the first collidable of the list that it runs into is the nearest; or when on the first axis it is not, the second moves on, and there is room beside what it runs into there |
| `Slide.StepStaysApart` | src/server/game_world.cpp:400-454 | it is so at the corner as well exactly in the first case |
| `Slide.MoveEndsApartX` | src/server/game_world.cpp:425-439 | along x, from anywhere and however long, a move ends apart from any given collidables exactly when none of them crowds the place beside what it runs into |
| `Slide.MoveEndsApartY` | src/server/game_world.cpp:441-453 | the same along y |
| `Slide.LivePlayersCanOverlap` | src/server/game_world.cpp:400-454 | three players at the distance of one frame's step for whom it is not |
| `Slide.EndsApartX` | src/server/game_world.cpp:425-439 | a step of any length along x ends apart from any given collidables exactly when what stops it pins the mover to none of them |
| `Slide.EndsApartY` | src/server/game_world.cpp:441-453 | the same along y |
| `Slide.PassesThroughNothingX` | src/server/game_world.cpp:425-439 | a step of any length passes through nothing exactly when nothing on the whole way comes up before what stops it |
| `Slide.PassesThroughNothingY` | src/server/game_world.cpp:441-453 | the same along y |
| `Slide.StepEndsClearX` | src/server/game_world.cpp:425-439 | up to the mover and a block together, a step ends clear of the static blocks exactly when the first hit is the nearest static one |
| `Slide.StepEndsClearY` | src/server/game_world.cpp:441-453 | the same along y |
| `Slide.LongStepEndsClearX` | src/server/game_world.cpp:425-439 | beyond that, exactly when what stops it pins the mover to no static block |
| `Slide.LongStepEndsClearY` | src/server/game_world.cpp:441-453 | the same along y |
| `Slide.StepsBeyondABlockAreUnsafe` | src/server/game_world.cpp:425-439 | a terrain on which one unit more than a block is too much |
| `MapTerrain.AddCollidables` | src/server/game_world.cpp:12-35 | the list holds a rectangle exactly if it is one of the four walls, or 400 by 400 at 400 times a position of an object of the map that is collidable |
| `MapTerrain.StaticsInOrder` | src/server/game_world.cpp:12-35 | and it holds them in the order of the objects and their positions, the walls last |
| `MapTerrain.NoShotThrows` | src/server/shot.cpp:10-16 | with everybody in the map no shot of anybody at any angle is lost |
| `MapTerrain.TickStaysInMapIff` | src/server/game_world.cpp:456-474 | a tick that finds everybody in the map leaves everybody there exactly when the step of each who walks lands in it (Slide.StepEndsSafe), in his turn; no shot of it throws then |
| `MapTerrain.FreeStepLands` | src/server/game_world.cpp:425-454 | of the steps of at most a block only those can fail to land that are held by a player overlapped |
| `Confines.CommandsThrowIff` | src/server/game_world.cpp:376-398 | the commands of a turn throw exactly when one that the phase executes is of a user who is not in the game, or is a living player buying NONE; else they move and hurt nobody |
| `Confines.MatchStaysInMapIff` | src/server/game_world.cpp:456-474 | everybody is in the map and nothing was thrown at every moment of a match exactly when the places drawn are in the map, no command throws and every step of every turn lands |
| `Escape.AMatchThatLeavesTheMap` | src/server/game_world.cpp:425-454 | a match from the first purchases, frame by frame at the speed of the settings file, in which the ordinary commands of two players take one out of the map and then end the game with an exception |
| `Confines.RoundIsFineIff` | src/server/game_world.cpp:169-188 | a round begins with everybody in the map exactly when the places drawn are |
| `Games.StandFits` | src/server/game_world.cpp:169-188 | the places that the search finds are, if the spawn points are in the map |
| `Games.GameStaysInMapIff` | src/server/cs2d_game.cpp:165-173 | in a game played by the objects, every search for places having ended, everybody was in the map and nothing was thrown at every moment exactly when every turn fits: no command throws, every step lands |
| `Games.GameIsPlayedOut` | src/server/cs2d_game.cpp:165-173 | unstopped and with clear flags such a game is over within the number of steps that the settings give, and every round was decided unless an exception ended it, which none does if every turn fits |
| `PickUps.EveryItemIsTriedOnceInOrder` | src/server/game_world.cpp:301-355 | with k items in reach of a living player who stays put, k commands to pick up try each of them once, in the order in which they were dropped |
| `PickUps.PickingUpConserves` | src/server/game_world.cpp:322-355 | no such command changes the guns in the game, counted over all hands and the ground with their ammunition |
| `PickUps.DeathTradesTheGlock` | src/server/game_world.cpp:357-374 | damage that kills trades, among all those guns, the victim's glock for a new one, and damage that does not changes nothing; so they stay the same exactly when nobody dies or the glock was as good as new |
| `Arms.FireRateIsBounded` | src/server/gun.cpp:110-122 | over any run of a gun, shots * 60 <= time * rate of fire |
| `Arms.AmmoAddsUp` | src/server/gun.cpp:51-51 | ammunition is what there was and was bought less what was fired, in 16 bits, and no more is fired than there was |
| `Arms.OneShotPerPull` | src/server/weapon.cpp:10-24 | any gun but the AK-47 fires at most once each time the trigger is pulled |
| `Admissions.AdmissionIsFair` | src/server/cs2d_game.cpp:45-56 | after any requests the sides are within their caps, level or one ahead for the counter-terrorists until one is full, the world has room for whoever passes the checks, and a game that starts has a player on each side |
| `Admissions.StartsIff` | src/server/cs2d_game.cpp:35-43 | after any requests the game is to start exactly if it is full or its creator asked for it when there were two players, and half of what fits |
| `Admissions.JoinsIff` | src/server/cs2d_game.cpp:45-56 | somebody joins exactly if that is not so and he is not in already |
| `Admissions.CreatorIsFirst` | src/server/cs2d_game.cpp:45-56 | the creator is the first who asked to join |
| `Admissions.NobodyJoinsAStartedGame` | src/server/cs2d_game.cpp:35-56 | once a game is to start it is so for good and every join is refused |
| `Admissions.JoinAgrees` | src/server/game_world.cpp:98-128 | the game and its world agree on who is in and on the side of the next player, after a join as before it |
| `Admissions.StartedGameHasTwoSides` | src/server/cs2d_game.cpp:35-56 | a game that starts is one that the theorems about matches speak of |
| `Engine.GameWorld.AddPlayer` | src/server/game_world.cpp:98-128 | seats the player on the side with room, in both orders of players, or says that there is none |
| `Engine.GameWorld.Update` | src/server/game_world.cpp:456-474 | the objects after a tick stand for the world after it, of which `Combat.MatchIsTurns`, `Turns.TurnLeads` and `Wounds.ExplosionHurts` say what it is |
| `Engine.GameWorld.Execute` | src/server/command.cpp:1-132 | the objects after a command stand for the world after it, of which `Orders` and `Defusal.CommandDefuses` say what it is |
| `Engine.GameWorld.OldestInReach` | src/server/game_world.cpp:301-320 | the two loops find the item in reach with the least drop id |
| `Engine.GameWorld.SpawnPlayers` | src/server/game_world.cpp:169-188 | when the search ends, everybody is in the middle of a spawn point of his side, off the blocks and apart from all the living placed before |
| `GameLoop.CS2DGame.AddPlayer` | src/server/cs2d_game.cpp:45-56 | outcome, creator and world after a join, refused or not |
| `GameLoop.CS2DGame.DecideWinner` | src/server/cs2d_game.cpp:123-133 | the objects after a verdict stand for the match after it |
| `GameLoop.CS2DGame.Run` | src/server/game_phase.cpp:12-46 | the objects go through a match as `R.Run` says, and at the start of each round everybody stands where he may |
| `GameLoop.CS2DGame.Play` | src/server/cs2d_game.cpp:165-173 | a whole game on the objects: it starts exactly when it should, is then a match between two sides, and has the bomb in one place and every death credited once |
| `BlockingQueue.EveryInterleaving` | src/common/queue.h:45-130 | in every interleaving with spurious wake-ups: a thread asleep on is_not_empty means the queue is empty and open, one asleep on is_not_full that it is full, and with room for a value they are not asleep against each other; never more than max_size |
| `BlockingQueue.FirstInFirstOut` | src/common/queue.h:45-119 | in every interleaving the values that the callers were handed, followed by what the queue holds, are the values whose pushes were done, at once or after a wait, in that order |
| `BlockingQueue.AnswersFollow` | src/common/queue.h:45-119 | every answer follows from those before it: a removal gives the first value put in and not yet handed out exactly if there is one, try_push and try_pop refuse and push and pop wait exactly if the queue is open and full, or open and empty |
| `BlockingQueue.RaisesClosedIff` | src/common/queue.h:18-29 | exactly when a step of a queue raises ClosedQueue: never while it is open |
| `BlockingQueue.WakeUps` | src/common/queue.h:45-130 | a removal wakes every pusher asleep on a full queue, and an insertion or the closing every popper asleep on an empty one |
| `BlockingQueue.AfterCloseOnlyBlockedPushersInsert` | src/common/queue.h:83-99 | after close only the pushers that were waiting insert, each at most once and what it came with |
| `BlockingQueue.BlockedPusherNeedsAPop` | src/common/queue.h:121-130 | a pusher asleep when the queue is closed sleeps on until something is taken out, however long the run |
| `FrameClock.Drive` | src/common/clock.cpp:12-28 | over any run the wake-up instant is start + it * rate, whatever the frames took |
| `FrameClock.FramesFillSeconds` | src/common/clock.cpp:12-28 | n frames from the start take n / FPS seconds |
| `FrameClock.WakesAtFirstBoundaryAfterNow` | src/common/clock.cpp:12-28 | a late caller is woken at the first frame boundary to come, and every boundary skipped had gone by |
| `Messages.GameStreamReturns` | src/client/client_protocol.cpp:160-170 | messages of the game sent back to back are received in order and leave no bytes over |
| `Messages.CommandStreamReturns` | src/server/server_protocol.cpp:216-278 | so are commands |
| `Messages.SnapshotReturnsIffItFits` | src/server/server_protocol.cpp:97-208 | a snapshot comes back exactly if and only if its numbers fit their widths and its angles are multiples of 360/65535 |
| `Messages.InfoReturnsIffItFits` | src/client/client_protocol.cpp:305-370 | the description of the game comes back exactly, in whatever order its containers are gone through, if and only if its numbers fit and it has fewer than 256 map objects |
| `Messages.RequestReturns` | src/client/client_protocol.cpp:33-48 | requests of the lobby come back |
| `Messages.EveryAnswerReturns` | src/server/client_handler.cpp:45-130 | every answer that the lobby gives comes back as it was if and only if the name of a new game is not too long; none says GAME_STARTED |
| `Messages.AnswerReturnsIffItFits` | src/client/client_protocol.cpp:20-31 | of all answers that could be encoded, the two sides agree on exactly those that do not say GAME_STARTED and fit |
| `Wire.NumReturns` | src/common/common_protocol.cpp:84-121 | two bytes carry an integer modulo 65536 |
| `Wire.NumIsBigEndian` | src/common/common_protocol.cpp:84-121 | the high byte first |
| `Wire.ByteReturns` | src/common/common_protocol.cpp:69-108 | one byte carries it modulo 256 |
| `Wire.AngleIsClose` | src/common/common_protocol.cpp:151-160 | an angle loses less than 360/65535 of a degree |
| `Wire.CodeReturns` | src/common/common_protocol.cpp:151-160 | a decoded angle is encoded as it was |
| `Wire.TablesAgree` | src/common/weapon_parser.cpp:5-55 | every table of codes is read back as it was written and no code stands for two things |
| `Streams.Outbox.SendGame` | src/server/server_protocol.cpp:48-63 | what is sent is what the format says |
| `Streams.Inbox.ReceiveGame` | src/client/client_protocol.cpp:160-170 | what is received is what the format says |
| `Streams.Inbox.ReceiveCommand` | src/server/server_protocol.cpp:216-278 | so on the other side |
| `Editor.LogicMap.CreateMap` | src/editor/logic_map.cpp:60-113 | the map that is saved, or why it is refused |
| `Editor.LogicMap.LoadMap` | src/editor/logic_map.cpp:29-58 | the drawing that a map is loaded as |
| `Editor.SaveAndLoadCrops` | src/editor/logic_map.cpp:29-113 | saving a drawing that has a block and loading it gives what is in the box around its blocks, all moved alike, but for the spawns of the terrorists |
| `Editor.TtSpawnsAgreeIff` | src/editor/logic_map.cpp:90-90 | these are moved like the rest if and only if the box is as far from the top as from the left |
| `Editor.CropIsTight` | src/editor/logic_map.cpp:60-78 | what was saved and loaded has no empty border, so that doing it again moves nothing |
| `Editor.SizeIsPositiveIff` | src/editor/logic_map.cpp:60-78 | a saved map has a positive size if and only if the drawing has a block |
| `Editor.LogicMap.AddColumns` | src/editor/logic_map.cpp:151-155 | the grid after it is rectangular if and only if it has one row |

## Findings

What the program does otherwise than one would expect. The model follows the program; each has its exact condition.

- **A flag left over from the round before.** `Bomb::restart` (src/server/bomb.cpp:77-84) does not clear just_been_planted.
  Planting in the last tick of the pause between rounds makes every tick of the next attack phase set its clock back to
  zero (src/server/game_phase.cpp:33-37), so that the phase never runs out of time until the bomb is planted. When:
  `Bell.FlagIsStaleIff`; a match: `Bell.AMatchWithAStaleFlag`; what follows: `Fuse.TimesOutIffFlagWasClear`,
  `Endings.AMatchWithoutEnd`.
- **Living players can overlap.** The slide stops at the first collidable of the list, which need not be the nearest
  (src/server/game_world.cpp:400-454). When: `Slide.StepEndsApart`; with the speed of the settings file:
  `Slide.LivePlayersCanOverlap`.
- **A defusal outlives the defuser.** Nothing releases the trigger when a defuser is killed, and the dead can no longer do it
  (src/server/player.cpp:141-149, src/server/game_world.cpp:276-284), so the bomb is defused all the same when the time has
  gone by, unless another who is defusing calls it off or starts anew: `Defusal.DefusedIffHeld`,
  `Defusal.OnlyDefusersTouch`.
- **Players can leave the map.** A player who overlaps another is held by him, and put behind his back by the step that he
  makes; which can be outside the map, where the walls, overlapped in their turn, put him still further, and a shot
  or stab that meets nothing throws and ends the game (src/server/shot.cpp:10-16). When: `Slide.StepEndsSafe`,
  `MapTerrain.TickStaysInMapIff`, `Confines.MatchStaysInMapIff`; a match: `Escape.AMatchThatLeavesTheMap`.
- **Steps beyond a block.** A late server makes one step of several frames; beyond 400 units the list order of the
  static blocks matters too: `Slide.StepEndsClearX`, `Slide.LongStepEndsClearX`, `Slide.StepsBeyondABlockAreUnsafe`.
- **Spawns of the terrorists.** createMap moves them up by the horizontal offset (src/editor/logic_map.cpp:90):
  `Editor.TtSpawnsAgreeIff`.
- **addColumns** reads the width again after the first row has grown (src/editor/logic_map.cpp:151-155), so that a grid of
  more than one row is never rectangular after it: `Editor.LogicMap.AddColumns`.
- **The number of map objects** is sent in 16 bits and taken as 8 (src/client/client_protocol.cpp:354):
  `Messages.InfoReturnsIffItFits`.
- **GAME_STARTED**, as an answer of the lobby, is written with a status and read without one
  (src/server/server_protocol.cpp:40-46, src/client/client_protocol.cpp:20-31): `Messages.AnswerReturnsIffItFits`. This is
  a mismatch that lies dormant, for the server gives no such answer: `Messages.EveryAnswerReturns`.
- **close() does not wake pushers** (src/common/queue.h:121-130), although the header says that any method raises
  ClosedQueue on a closed queue: `BlockingQueue.BlockedPusherNeedsAPop`, `BlockingQueue.RaisesClosedIff`.
- **Skimming rays.** A ray that starts inside an edge and runs along it is reported at the far end of the edge:
  `Geometry.ImpactsFindsFirstPoint`.
- **NONE can be bought.** The command is read from the wire and the shop throws (src/server/shop.cpp:19-26), which ends the
  game thread; so does any command of a user who is not in the game. Exactly when: `Confines.CommandsThrowIff`.
- **The glock does not fall.** The rules (README.md:125-125) say that all equipment but the knife falls on death;
  drop_weapons (src/server/game_world.cpp:357-374) drops the primary gun and the bomb, and the glock is replaced by a new
  one. Exactly what is lost and when: `PickUps.DeathTradesTheGlock`.

## Left out

- Rounding and trigonometry: time, distances and directions are exact real numbers; a direction is any non-null vector in the
  theorems about rays and any unit vector in those about a map.
- Turns.TurnLeads: for blocks and players with an area, which `Combat.MatchIsTurns` shows that they keep.
- Wounds.ExplosionHurts: for a radius above zero, by which the program divides.
- Orders.PickUpDoes: for items whose sides are not negative, as those of the game are not.
- Random draws: the holder of the bomb, places, precision and damage are arbitrary parameters, with no law.
- Guns, knives and loadouts have one owner each and are values, not objects; a player's attributes are one record.
- Termination of the search for places: it takes draws while there are any and says whether it ended.
- The waiting phase's clock: players come in one after the other, and the phase ends when the game should start.
- A server that is shut down in the middle of a game: a match stops only when nobody is left to send to, or by an exception.
- Sockets, threads, lobby monitor, YAML, settings file, sounds and all user interfaces.
- Codes outside the tables of enumerations: the model reads them as malformed, the program's behaviour is not defined.
- Messages.GameStreamReturns: for fields that fit their width; what does not fit is the matter of the `IffItFits` members.
- BlockingQueue.EveryInterleaving: fairness and time are not modelled.
