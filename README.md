# Space shooter and typing game, modelled in Dafny

This project models two browser games in Dafny and proves properties about them.

**The space shooter** (`space_game/app.js`) has these parts:

- A publish/subscribe `MessageBus` carries the game's events.
- A hero ship fires lasers, flanked by two escort ships. It collects power-ups and charges a special attack that clears the screen.
- Green ships and UFOs are spawned by stage timers. On stage 5 a twin boss patrols the two halves of the canvas.
- Every 100 ms tick, `updateWorld` does the following in order:
  - lets every enemy and boss fire;
  - scans for collisions and raises events, which the handlers registered by `bindEvents` resolve;
  - compacts the world list down to its alive entities.

**The typing game** (`typing_game/script.js`) works as follows:

- It splits a quote into words and highlights the current word.
- On each `input` event it decides whether to finish the game, move to the next word, or show or clear the error style.
- When the game ends it keeps the best time.

How the shooter is modelled:

- The world list holds entity values (`Entities.Entity`) in `Shooter.World.objects`. An event payload's references become positions in that list.
- The hero and its escorts are objects whose fields are updated in place (`Ships.Player`, `Ships.WingShip`).
- Every handler is a method of `Shooter.World`. The handlers for GAME_WIN and GAME_LOSE are the exception: their events are recorded in `World.signals`, and `Stage.EndGame` gives the stage transition that follows.
- `Events.BindEvents` proves that each topic gets exactly one handler, so each emitted event runs its handler exactly once.
- The clock is a `now` parameter.
- `Math.random` becomes parameters:
  - `pick` gives the spawn positions;
  - `dice` gives the power-up rolls. A roll says whether the drop test succeeds and, if so, which type drops.

The typing game is the class `Typing.TypingGame`. Its fields are the script's state and the flags of the page elements it toggles.

## Model

| member | source | states |
|---|---|---|
| Geometry.IntersectsSymmetric | space_game/app.js:478-485 | the overlap test gives the same answer with its arguments swapped |
| Geometry.IntersectsIffSharedPoint | space_game/app.js:478-485 | for well-formed rectangles the test holds exactly when the closed rectangles share a point |
| Geometry.TouchingEdgesIntersect | space_game/app.js:478-485 | rectangles that only share an edge count as intersecting, because the comparisons are non-strict |
| Geometry.OnePixelApartIsDisjoint | space_game/app.js:478-485 | a one-pixel gap separates rectangles, so the bound is exact |
| Entities.Entity.GetRect | space_game/app.js:57-64 | the rectangle's top-left corner is (x, y) and its extents are the width and height |
| Entities.RectWellFormed | space_game/app.js:57-64 | a non-negative size gives a well-formed rectangle that contains the entity's position |
| Entities.Fire | space_game/app.js:342-365 | a closed gate (canShoot off, or the interval not yet elapsed) changes nothing; an open one pushes 1 laser (green ship, UFO) or 3 (boss) and sets lastShotTime to now; nothing else about the shooter changes and `alive` is not consulted |
| Entities.FireRateLimited | space_game/app.js:416-429 | after a shot at t, another call fires exactly when at least the kind's interval (3000, 4000 or 1200 ms) has passed |
| Entities.Damaged | space_game/app.js:381-386 | hp drops by exactly the amount; the boss is alive afterwards iff it was alive and hp stays above 0; nothing else changes |
| Entities.PatrolStepMovesOrTurns | space_game/app.js:398-413 | each tick of a live boss either moves it one step in its direction or flips the direction in place; it keeps its half of the canvas and never crosses the outer edge |
| Entities.TwinsKeepApart | space_game/app.js:441-459 | two halves, each inside its own patrol zone, never overlap beyond the middle line |
| ObjectList.AliveOnly | space_game/app.js:709 | the compaction holds exactly the alive entities of the list, and no more of them than the list has |
| ObjectList.AliveOnlyIsAliveSubsequence | space_game/app.js:709 | the k-th survivor is the entity at the k-th alive position, and these positions increase, so order is kept |
| ObjectList.AliveOnlyIdempotent | space_game/app.js:709 | compacting a second time changes nothing |
| ObjectList.AliveOnlyOfAllAlive | space_game/app.js:709 | a list with no dead entity is its own compaction |
| ObjectList.AliveOnlyAppend | space_game/app.js:709 | compaction distributes over appending, so survivors of older entities stay ahead of newer ones |
| ObjectList.ClearedIffNoLiveFoes | space_game/app.js:519-523 | the stage-clear test holds exactly when the number of live enemies and bosses is zero |
| ObjectList.ClearedAfterCompaction | space_game/app.js:519-523 | compaction does not change the stage-clear test |
| ObjectList.SweepAll | space_game/app.js:147-193 | the special attack maps every entity through its three sweeps and keeps the list's length |
| ObjectList.DisarmKeepsFoes | space_game/app.js:153-159 | killing enemy lasers leaves the enemies and bosses the later sweeps act on unchanged |
| ObjectList.DestroyKeepsBosses | space_game/app.js:161-171 | killing the ordinary enemies leaves the bosses the boss sweep acts on unchanged |
| ObjectList.BlastHitCounts | space_game/app.js:161-188 | there is one hit effect per alive enemy plus one per alive boss, which adds up to the live-foe count, and every one is a live hit effect |
| ObjectList.SweepOutcome | space_game/app.js:147-193 | after the sweep no enemy laser or enemy is alive and nothing revives; the stage is clear afterwards iff every alive boss had at most 10 hp |
| ObjectList.SweepClearIff | space_game/app.js:147-193 | the stage counts as clear after the special attack iff every boss that was alive had at most 10 hp left |
| Bus.MessageBus.constructor | space_game/app.js:3-5 | a new bus has no topic registered |
| Bus.MessageBus.On | space_game/app.js:7-10 | the handler is appended to the topic's list, which is created if missing; duplicates are kept and other topics are untouched |
| Bus.MessageBus.Emit | space_game/app.js:12-18 | one call per registered handler, in registration order, each with the payload or `{}`; an unknown topic makes no call |
| Bus.MessageBus.Clear | space_game/app.js:20-22 | every topic loses its handlers |
| Events.BoundHandlerInjective | space_game/app.js:800-938 | different topics are bound to different handlers |
| Events.BindControlsLookup | space_game/app.js:803-836 | the first five `on` calls append one handler each to MOVE_* and FIRE, and to no other topic |
| Events.BindCombatLookup | space_game/app.js:838-904 | the next five append one handler each to SPECIAL, RESTART, ENEMY_PASS_CANVAS, HIT_ENEMY and HIT_ENEMY_BOSS, and to no other topic |
| Events.BindOutcomesLookup | space_game/app.js:907-937 | the last five append one handler each to the hero-hit, the two collision topics, GAME_WIN and GAME_LOSE, and to no other topic |
| Events.BindingsAppendOne | space_game/app.js:800-938 | after `bindEvents` every topic's list has gained exactly its own handler |
| Events.BindEvents | space_game/app.js:800-938 | the bus ends with the registry of the fifteen `on` calls, and each topic has gained exactly one handler |
| Events.Rebind | space_game/app.js:984-990 | after `clear` and `bindEvents`, every topic has exactly its own handler |
| Events.EmitBound | space_game/app.js:12-18 | on a bus bound once, an event runs its topic's handler exactly once, with the payload |
| Ships.PlayerVolley | space_game/app.js:102-111 | 1 laser, or 3 while the triple shot lasts; the middle one is at offset 45; all are 10 px above the hero and within its width |
| Ships.ChargeAfterGain | space_game/app.js:138-140 | the charge becomes the smaller of 100 and charge + amount, and never decreases for a non-negative amount |
| Ships.Player.constructor | space_game/app.js:74-92 | a new hero has 3 hp, no score, no charge, no cooldown and the 500 ms fire rate |
| Ships.Player.Shoot | space_game/app.js:98-119 | while cooling down nothing happens; otherwise the hero fires its volley and the cooldown restarts at fireCooldownMax |
| Ships.Player.CooldownTick | space_game/app.js:115-118 | the cooldown timer lowers it by 100 until it reaches 0, so it stays on the 100 ms grid in [0, 500] |
| Ships.Player.TakeDamage | space_game/app.js:121-131 | exactly one hp less; the hero is dead once hp ≤ 0; it looks damaged once hp ≤ 1 |
| Ships.Player.AddScore | space_game/app.js:133-135 | the score grows by exactly the base |
| Ships.Player.GainSpecial | space_game/app.js:138-140 | the charge is capped at 100, and the hero's invariant is kept |
| Ships.Player.Heal | space_game/app.js:684-694 | one hp back while below 3; the damaged look goes once hp > 1 |
| Ships.Player.ActivateRapid | space_game/app.js:695-701 | the fast cooldown, with a pending timer 5 s from now that replaces any earlier one |
| Ships.Player.RapidTimeout | space_game/app.js:699-701 | a due pending timer restores the 500 ms rate; otherwise nothing changes |
| Ships.Player.ActivateTriple | space_game/app.js:702-705 | the triple shot lasts until now + 5000 and replaces any earlier end time |
| Ships.WingShip.constructor | space_game/app.js:198-204 | a new escort is at its position with no cooldown |
| Ships.WingShip.Shoot | space_game/app.js:210-219 | when ready, one laser at offset 12, 10 px above, and a fixed 500 ms cooldown; otherwise nothing |
| Ships.WingShip.CooldownTick | space_game/app.js:215-218 | the escort's cooldown timer, kept on the 100 ms grid |
| Stage.StageRoster | space_game/app.js:736-748 | a stage never has more green ships than UFOs, and has either no boss half or two |
| Stage.RoundCounts | space_game/app.js:753-767 | one round of the setup loop adds one green ship while the round is below the green count, and always one UFO |
| Stage.SpawnsUpToCounts | space_game/app.js:753-768 | after i rounds the timers hold min(i, green) green ships and i UFOs |
| Stage.SpawnsUpToDelays | space_game/app.js:750-768 | every timer's delay is a multiple of 2000 ms below 2000 · rounds |
| Stage.ScheduleStage | space_game/app.js:732-769 | the counter's total is green + ufo + bosses, every counted enemy gets a timer (apart from the boss halves, which are spawned at once), the per-model counts match the roster, and the delays are 2 s apart |
| Stage.EndGame | space_game/app.js:955-982 | a win before stage 5 moves to the next stage and restarts; a win at stage 5, or any loss, returns to stage 1 without restarting; stages stay in 1..5 |
| Shooter.DropAt | space_game/app.js:598-605 | a roll drops at most one power-up, alive and at the given point |
| Shooter.AfterFire | space_game/app.js:623-624 | firing never changes an entity's kind, `alive` flag or position |
| Shooter.Volleys | space_game/app.js:623-624 | every laser a firing pass pushes is an alive enemy laser |
| Shooter.VolleysOfUnfired | space_game/app.js:622-624 | the enemy pass leaves the bosses alone, so the boss pass pushes the same volleys as it would have on the old list |
| Shooter.World.constructor | space_game/app.js:992-996 | `initGame`: on stage 5 the twin boss is placed at once; the counter and spawn timers match the stage's roster; the hero starts at (width/2 − 45, height − height/4) with the escorts in formation |
| Shooter.World.SpawnScheduled | space_game/app.js:713-723 | a spawn timer appends one ship of its model at its x |
| Shooter.World.PatrolTick | space_game/app.js:398-459 | a patrol tick replaces the boss by its patrol step and changes nothing else |
| Shooter.World.MoveUp | space_game/app.js:803-807 | the hero moves up by its speed and the escorts keep formation |
| Shooter.World.MoveDown | space_game/app.js:809-813 | the hero moves down by its speed and the escorts keep formation |
| Shooter.World.MoveLeft | space_game/app.js:815-821 | the hero moves left only if it stays right of 0, so a hero inside the left edge stays inside |
| Shooter.World.MoveRight | space_game/app.js:823-829 | the hero moves right only if its right edge stays left of the canvas edge |
| Shooter.World.OnFire | space_game/app.js:831-836 | nothing while the hero cools down; otherwise the hero's volley, then each escort's laser if that escort is ready, in that order |
| Shooter.World.OnHitEnemy | space_game/app.js:862-880 | ignored unless both are alive; otherwise both die, the counters go up by 1, the score by 100 and the charge by 10, a roll may drop a power-up at the enemy, and GAME_WIN follows iff the stage is clear |
| Shooter.World.ShootDown | space_game/app.js:865-866 | the bullet and the enemy are marked dead |
| Shooter.World.OnHitBoss | space_game/app.js:883-904 | the bullet dies and the boss loses 1 hp, with no alive check; +100 score and +5 charge; if the boss died there is a possible drop at its centre, the counters go up by 1, there is +20 charge, and GAME_WIN follows iff the stage is clear |
| Shooter.World.StrikeBoss | space_game/app.js:884-885 | the bullet dies, then the boss takes one damage |
| Shooter.World.RollDrop | space_game/app.js:873-875 | one roll is used, and the power-up it drops, if any, is appended |
| Shooter.World.CountBossKill | space_game/app.js:896-903 | a dead boss is counted once, gives 20 charge, and raises GAME_WIN iff the stage is clear |
| Shooter.World.OnHeroHitByLaser | space_game/app.js:907-913 | the laser dies and the hero loses one hp; GAME_LOSE follows iff hp ≤ 0 |
| Shooter.World.OnEnemyDown | space_game/app.js:916-926 | the enemy dies and is counted, and the hero loses one hp; then GAME_LOSE if hp ≤ 0, else GAME_WIN if the stage is clear |
| Shooter.World.OnBossRam | space_game/app.js:929-934 | the hero loses one hp; GAME_LOSE follows iff hp ≤ 0 |
| Shooter.World.PickUp | space_game/app.js:680-706 | the item dies and nothing else in the list changes; the hero's boosts become `Picked` of the item's type. A heart heals one hp up to 3 and restores the normal look above 1 hp; rapid sets the 100 ms cooldown and a timer due at now + 5000; triple sets the triple end to now + 5000. Every other boost (hp, look, rate, rapid timer, triple end) stays as it was |
| Shooter.World.UseSpecial | space_game/app.js:147-193 | nothing until the charge is full; then the charge resets and the list becomes the three sweeps plus the enemy hit effects, then the boss hit effects; dead, kill count and score grow by 1/1/150 per enemy and 1/1/300 per boss killed; GAME_WIN follows iff the stage is clear |
| Shooter.World.SpecialSweeps | space_game/app.js:153-188 | the three sweeps together: the list becomes the swept entities followed by the enemy hit effects and then the boss hit effects, and the counters grow by the enemies and bosses killed |
| Shooter.World.DisarmAll | space_game/app.js:153-159 | every enemy laser is marked dead and nothing else changes |
| Shooter.World.DestroyEnemies | space_game/app.js:161-171 | every alive enemy dies with a hit effect, +1 dead, +1 kill and +150 score |
| Shooter.World.DestroyOne | space_game/app.js:165-171 | the second sweep's effect on one entity |
| Shooter.World.BlastBosses | space_game/app.js:173-188 | every alive boss takes 10 damage and gets a hit effect, and each one killed counts with +300 score |
| Shooter.World.BlastOne | space_game/app.js:177-188 | the third sweep's effect on one entity |
| Shooter.World.FireAll | space_game/app.js:622-624 | each entity is left as its own `fire` leaves it, and the enemies' lasers, then the bosses', follow the old list |
| Shooter.World.FirePass | space_game/app.js:623 | one `forEach(fire)` over the first n entities, in list order |
| Shooter.World.FireOne | space_game/app.js:623 | one `fire` call: the shooter is replaced and its lasers are appended |
| Shooter.World.PlayerLaserScan | space_game/app.js:627-643 | the first n entities become `LaserPass` of themselves: each player laser, in list order, meets the enemies and then the bosses. Dead, kill count and rolls grow by the enemies and bosses downed; the score grows by 100 per laser that hit; the charge grows by 10 per enemy hit, 5 per boss hit and 20 per boss downed, capped at 100. GAME_WIN is raised iff a foe was downed and the stage is clear. Only hit effects and power-ups are appended |
| Shooter.World.LaserTurnAt | space_game/app.js:627-643 | one turn of `playerBullets.forEach`: the first n entities become `LaserTurn` of themselves, and only hit effects and power-ups are appended |
| Shooter.World.EnemyPhase | space_game/app.js:628-634 | the enemy loop inside a laser's turn: the first n entities become `EnemyStep` of themselves |
| Shooter.World.BossPhase | space_game/app.js:636-642 | the boss loop inside a laser's turn: the first n entities become `BossStep` of themselves |
| Shooter.World.LaserVersusEnemies | space_game/app.js:628-634 | if the laser overlaps no alive enemy (`FirstStrike` is None), the list and the counters are unchanged. Otherwise the laser and the first enemy it overlaps die; a possible power-up and a hit effect at the enemy are appended; the counters move as one HIT_ENEMY does (`AfterEnemyHit`: +1 dead, kill and roll, +100 score, +10 charge, GAME_WIN iff clear) |
| Shooter.World.HitEnemy | space_game/app.js:630-633 | HIT_ENEMY followed by the pushed hit effect: the laser and the enemy die; the appended entities are the roll's power-up and a hit effect where the enemy was; the counters become `AfterEnemyHit` |
| Shooter.World.LaserVersusBosses | space_game/app.js:636-642 | if the laser overlaps no alive boss, the list and the counters are unchanged. Otherwise the laser dies and the first boss it overlaps takes one damage; the boss's drop (if it died) and a hit effect 80 px above it are appended; the counters move as one HIT_ENEMY_BOSS does (`AfterBossHit`) |
| Shooter.World.HitBoss | space_game/app.js:638-641 | HIT_ENEMY_BOSS followed by the pushed hit effect: the laser dies and the boss takes one damage; the appended entities are the drop of a downed boss and a hit effect above it; the counters become `AfterBossHit` |
| Shooter.AfterEnemyHit | space_game/app.js:862-880 | the counters after HIT_ENEMY: +1 dead, kill and roll, +100 score, +10 charge capped at 100, and GAME_WIN iff the stage is clear |
| Shooter.AfterBossHit | space_game/app.js:883-904 | the counters after HIT_ENEMY_BOSS: +100 score and +5 charge; if the boss died, also +1 dead, kill and roll, +20 charge and GAME_WIN iff the stage is clear |
| Shooter.EnemyHitTallied | space_game/app.js:862-880 | one HIT_ENEMY adds one laser and one enemy to the scan's tally, so the scan's counters are a function of the entities it downed |
| Shooter.BossHitTallied | space_game/app.js:883-904 | one HIT_ENEMY_BOSS adds one laser, and one boss if the blow killed it, to the scan's tally |
| Shooter.World.EnemyLaserScan | space_game/app.js:646-654 | every alive enemy laser that overlaps the hero while the hero still lives dies (`HeroShots`); each such hit costs one hp (`HitsTaken`: the overlapping lasers, at most hp, none for a dead hero); one hit effect at the hero is appended per hit; the hero is dead once hp ≤ 0 and looks damaged once hit at hp ≤ 1; GAME_LOSE is raised iff a hit left hp ≤ 0 |
| Shooter.World.EnemyScan | space_game/app.js:657-668 | the first n entities become `EnemiesScanned` of themselves: every alive enemy that touches the hero or is past the bottom line dies, and nothing else does. Each of the two tests an alive enemy passes is one blow (`DownCount`); each blow adds one to dead and costs one hp. The hero is dead once hp ≤ 0 and looks damaged once hit at hp ≤ 1. GAME_LOSE is raised iff a blow left hp ≤ 0; GAME_WIN is raised only on a clear stage, and surely when a surviving hero cleared it (`DownSignals`) |
| Shooter.Downed | space_game/app.js:916-926 | one ENEMY_COLLIDE_HERO or ENEMY_PASS_CANVAS: the enemy dies and is counted and the hero loses one hp; GAME_LOSE is raised iff hp ≤ 0 |
| Shooter.DownedSignals | space_game/app.js:916-926 | one more blow keeps the scan's game-over events as `DownSignalsOn` describes them |
| Shooter.EnemyTurnCounts | space_game/app.js:657-668 | the enemy scan's turn on one entity downs it as often as `Downs` counts, each blow costing one hp |
| Shooter.DownedTwice | space_game/app.js:657-668 | an enemy that touches the hero and is past the bottom line costs two hp and two counts, but dies once |
| Shooter.EnemyTurnStep | space_game/app.js:657-668 | one turn of the enemy scan keeps its loop invariant `DownsSoFar` one entity further |
| Shooter.World.BossScan | space_game/app.js:671-676 | the hero loses one hp per alive boss it overlaps (`RamCount`); it is dead once hp ≤ 0 and looks damaged once hit at hp ≤ 1; one GAME_LOSE is raised per ram that leaves hp ≤ 0 (`Losses`); the list is untouched |
| Shooter.Losses | space_game/app.js:929-934 | k blows to a hero with hp points raise one GAME_LOSE for each blow that leaves hp ≤ 0, since the handler does not ask whether the hero was already dead |
| Shooter.World.ItemScan | space_game/app.js:679-707 | the first n entities become `ItemsGrabbed` of themselves: every alive power-up touching the hero dies. hp becomes min(3, hp + hearts picked). Any rapid pickup leaves the 100 ms cooldown with its timer due at now + 5000; with none, the rate and the timer are unchanged. Any triple pickup sets the triple end to now + 5000; with none, it is unchanged |
| Shooter.Picked | space_game/app.js:684-705 | one power-up's effect on the hero: a heart heals one hp up to 3 and restores the normal look above 1 hp; rapid sets the 100 ms cooldown and a timer due at now + 5000; triple sets the triple end to now + 5000. Every other boost is unchanged |
| Shooter.GrabStep | space_game/app.js:679-707 | one turn of the item scan keeps its loop invariant `GrabsSoFar` one entity further |
| Shooter.World.ItemPhase | space_game/app.js:679-707 | the item scan's effect on the scanned entities and the hero is `ItemOutcome` of the state before it |
| Shooter.World.FoeScans | space_game/app.js:657-676 | the enemy scan, then the boss scan: their effect is `FoeOutcome` of the state before them |
| Shooter.World.BodyScans | space_game/app.js:657-707 | the enemy, boss and item scans: their effect is `BodyOutcome` of the state before them |
| Shooter.World.LaserScans | space_game/app.js:627-654 | the two laser scans: their effect is `LaserOutcome` of the entities and counters they start from |
| Shooter.World.CollisionScans | space_game/app.js:627-707 | the five scans in order over the first n entities: the scanned entities, dead, kill count, score, hp and life are `ScanOutcome` of those entities and the starting counters; the entities after n are untouched and new ones only appended |
| Shooter.World.FireAndScan | space_game/app.js:622-707 | the enemies' volleys, then the bosses', are appended right after the old entities; the scans' outcome is `ScanOutcome` of the fired list |
| Shooter.World.UpdateWorld | space_game/app.js:610-710 | one tick: the volleys are appended after the old entities; the scanned entities, dead, kill count, score, hp and life are `ScanOutcome` of the fired list; the new list is the compaction of the scanned list, so every entity in it is alive; every entity present at the start keeps its kind and none revives |
| Collisions.FirstStrike | space_game/app.js:627-643 | the first entity, in list order, that the laser strikes (both alive, overlapping, a target of the loop's kind), with no strike before it; None iff the laser strikes none |
| Collisions.LaserPassKept | space_game/app.js:627-643 | the player-laser scan changes no entity's kind or rectangle and revives none |
| Collisions.LaserTurnSettles | space_game/app.js:627-643 | after its turn a player laser strikes nothing: it hit a target and died, or touched none |
| Collisions.LaserPassSettles | space_game/app.js:627-643 | after the whole scan no alive player laser overlaps an alive enemy or boss |
| Collisions.StepKillsOnlyStrikers | space_game/app.js:628-642 | an enemy or boss loop kills only the laser and the target of a strike |
| Collisions.LaserTurnKillsOnlyStrikers | space_game/app.js:627-643 | a laser's turn kills only entities that took part in a strike |
| Collisions.LaserPassKillsOnlyStrikers | space_game/app.js:627-643 | the scan kills only lasers and targets that were alive and overlapping when the tick started |
| Collisions.DroppedNone | space_game/app.js:627-643 | nothing is counted as downed before the scan starts |
| Collisions.DroppedUpdate | space_game/app.js:627-643 | killing one more entity adds it to the tally it belongs to; any other change of one entity keeps the tallies |
| Collisions.EnemyStepCounts | space_game/app.js:628-634 | one laser's enemy loop spends one laser and downs one enemy exactly when it struck, and downs no boss |
| Collisions.BossStepCounts | space_game/app.js:636-642 | one laser's boss loop spends one laser when it struck, downs a boss when the blow killed it, and downs no enemy |
| Collisions.ClearedIgnoresOthers | space_game/app.js:519-523 | appending entities that are no live enemy or boss does not change whether the stage is clear |
| Collisions.ClearedAfterKill | space_game/app.js:519-523 | a clear stage stays clear when an entity is marked dead |
| Collisions.NotClearedWith | space_game/app.js:519-523 | the stage is not clear while some enemy or boss is alive |
| Collisions.BurningGrows | space_game/app.js:646-654 | an overlapping enemy laser makes the count of overlapping lasers grow past it |
| Collisions.HitsTakenStep | space_game/app.js:646-654 | one more laser's turn adds one hit exactly when that laser hits the living hero |
| Collisions.HitsTakenBelow | space_game/app.js:646-654 | the hits never exceed the overlapping lasers, and the hero is still alive exactly when fewer lasers overlap it than it has hp |
| Collisions.Copies | space_game/app.js:651 | k equal hit effects, one per hit |
| Collisions.HeroShotsSettle | space_game/app.js:646-654 | a hero that survives the scan is left touching no alive enemy laser |
| Collisions.EnemiesScanned | space_game/app.js:657-668 | afterwards no alive enemy touches the hero or is past the bottom line, and an entity is alive iff it was alive and passed neither test |
| Collisions.ItemsGrabbed | space_game/app.js:679-682 | afterwards no alive power-up touches the hero, and an entity is alive iff it was alive and was not such a power-up |
| Collisions.HeroShotsKept | space_game/app.js:646-654 | the enemy-laser scan changes no kind or rectangle and revives nothing |
| Collisions.EnemiesScannedKept | space_game/app.js:657-668 | the enemy scan changes no kind or rectangle and revives nothing |
| Collisions.ItemsGrabbedKept | space_game/app.js:679-707 | the item scan changes no kind or rectangle and revives nothing |
| Collisions.ScanOutcome | space_game/app.js:610-707 | the entities a tick leaves are `ScanAll`: the player-laser, enemy-laser, enemy and item scans in that order |
| Collisions.ScanAllSettles | space_game/app.js:610-707 | after a tick's scans kinds and rectangles are kept and nothing revives; no alive player laser touches an alive enemy or boss; a hero that outlived the enemy lasers touches no alive enemy laser; no alive enemy touches the hero or is past the bottom line; no alive power-up touches the hero |
| Collisions.ScanAllKillsOnlyColliders | space_game/app.js:610-707 | an entity a tick kills was in a laser strike, or was an enemy laser overlapping the hero, an enemy touching the hero or past the bottom line, or a power-up touching the hero |
| Text.Split | typing_game/script.js:54 | `split(' ')` gives at least one piece, no piece holds the separator, and joining the pieces gives the string back |
| Text.SplitCount | typing_game/script.js:54 | there is one more piece than there are separators |
| Text.SplitUnique | typing_game/script.js:54 | any separator-free pieces that join to s are exactly `split` of s |
| Text.SplitOfSeparatorFree | typing_game/script.js:54 | a string without the separator splits into itself |
| Text.TrimStart | typing_game/script.js:99 | only leading white space is dropped, and the rest starts with non-space |
| Text.TrimEnd | typing_game/script.js:99 | only trailing white space is dropped, and the rest ends with non-space |
| Text.Trim | typing_game/script.js:99 | `trim()` leaves no white space at either end |
| Text.TrimUnpadded | typing_game/script.js:99 | a string without white space at its ends is its own trim |
| Text.TrimDropsTrailingSpace | typing_game/script.js:99 | trimming an unpadded word with one trailing space gives the word back |
| Typing.AsWrittenOverrun | typing_game/script.js:98-110 | as written, the last word followed by a space advances past the end, after which every input is an error |
| Typing.AdvanceStaysInQuote | typing_game/script.js:98-110 | the corrected handler advances only when a next word exists and the input is the current word followed by a space |
| Typing.FinishOnlyAtLastWord | typing_game/script.js:92-96 | the game finishes only on the last word, typed exactly or followed by a space |
| Typing.ClassifyAgreesBeforeLastWord | typing_game/script.js:89-117 | away from the last word, the corrected handler is the written one |
| Typing.WordThenSpace | typing_game/script.js:98-110 | a word followed by one space advances, or finishes at the last word |
| Typing.PrefixShowsNoError | typing_game/script.js:112-117 | a proper prefix of the current word clears the error style and does not move |
| Typing.StrayInputShowsError | typing_game/script.js:112-117 | input that is not a prefix of the word, and not the word followed by a space, sets the error style and does not move |
| Typing.NoWordIsError | typing_game/script.js:112-117 | with no current word, every input is an error |
| Typing.QuoteTypedWordByWord | typing_game/script.js:81-118 | typing each word followed by a space, then the last word, walks through the quote and finishes |
| Typing.Centis | typing_game/script.js:122-123 | the elapsed time in hundredths of a second is within half a unit of ms/10, and not negative for a non-negative time |
| Typing.CentisMonotone | typing_game/script.js:122-123 | a longer game never shows a shorter time |
| Typing.NewBest | typing_game/script.js:143-146 | the new best is the smaller of the old best and the new time, and it changes only when there is none or the new time is strictly smaller |
| Typing.BestNeverIncreases | typing_game/script.js:143-146 | the best time never grows, and it stays the same iff the new time is not smaller |
| Typing.Started | typing_game/script.js:52-78 | a started page keeps the page invariant `PageValid` |
| Typing.StartedPage | typing_game/script.js:52-78 | a started game shows the quote's words with index 0 and the first word highlighted, an empty message, a cleared and enabled text box, the start button disabled, one `input` listener and startTime = now; the best time, the result window and the restart listener are as they were |
| Typing.StartIdempotent | typing_game/script.js:52-78 | starting twice with the same quote and clock is starting once: the `inputHandlerActive` guard never attaches a second listener |
| Typing.Finished | typing_game/script.js:121-153 | a finished page keeps the page invariant `PageValid` |
| Typing.FinishedPage | typing_game/script.js:121-153 | a finished game shows the elapsed hundredths and the best time by the best-time rule, disables the text box, removes its listener, enables the start button and arms the one-shot restart listener; the quote, index and typed text are as they were |
| Typing.AfterInput | typing_game/script.js:81-118 | one `input` event, as the handler is written, keeps the page invariant, the quote and the start time |
| Typing.InputEffects | typing_game/script.js:81-118 | finishing ends the game with the time and the best-time rule; advancing clears the box, moves the index by exactly one and highlights the next word if any, and changes nothing else; any other input sets or clears only the error style |
| Typing.InputStaysWithinQuote | typing_game/script.js:81-118 | the index never passes the end of the quote, and the game ends exactly when the last word is typed as it stands |
| Typing.OverrunIsStuck | typing_game/script.js:89-117 | once the index is past the quote, every input only shows the error style, so the game can never finish |
| Typing.LastWordWithSpaceOverruns | typing_game/script.js:93-110 | as written, the last word with a trailing space leaves the game running with the index past the quote and no word highlighted |
| Typing.TypingGame.constructor | typing_game/script.js:26-49 | the page after loading: no game, no listener, and the stored best |
| Typing.TypingGame.StartGame | typing_game/script.js:52-78 | the page becomes `Started` of the old page: every field is given, so nothing else changes |
| Typing.TypingGame.RenderQuote | typing_game/script.js:54-61 | the quote's words, index 0, and the first word highlighted if there is one |
| Typing.TypingGame.ResetUi | typing_game/script.js:64-68 | an empty message, a cleared and enabled text box without the error style, the start button disabled |
| Typing.TypingGame.AttachInputHandler | typing_game/script.js:72-75 | exactly one `input` listener afterwards: it is added only if the handler was not active |
| Typing.TypingGame.DetachInputHandler | typing_game/script.js:131-134 | no `input` listener afterwards: it is removed only if the handler was active |
| Typing.TypingGame.RecordBest | typing_game/script.js:143-146 | the stored best becomes `NewBest` of the old best and the new time |
| Typing.TypingGame.HandleInput | typing_game/script.js:81-118 | the page becomes `AfterInput` of the old page, the handler as written: every field is given, so nothing else changes |
| Typing.TypingGame.NextWord | typing_game/script.js:99-109 | the box is cleared, the index moves up by exactly one (possibly past the last word), the next word is highlighted if there is one, the error style is cleared, and nothing else changes |
| Typing.TypingGame.FinishGame | typing_game/script.js:121-153 | the page becomes `Finished` of the old page: every field is given, so nothing else changes |
| Typing.TypingGame.ClearWordState | typing_game/script.js:126-128 | no word highlighted, no error style, the text box disabled |
| Typing.TypingGame.ShowResultModal | typing_game/script.js:156-161 | the result window is shown with the time and the best time |
| Typing.TypingGame.Type | typing_game/script.js:72-75 | a disabled box takes no input and nothing changes; an enabled box takes the value and nothing else changes unless the listener is attached, in which case the page becomes `AfterInput` |
| Typing.TypingGame.ClickInput | typing_game/script.js:152 | an armed one-shot listener on an enabled box is removed and the game starts (`Started`); otherwise nothing changes |
| Typing.TypingGame.ClickStart | typing_game/script.js:169-177 | the start button (ignored while disabled) and play-again hide the result window and start a game (`Started`), keeping the best time and the restart listener; an ignored click changes nothing |
| Typing.TypingGame.HideResultModal | typing_game/script.js:163-166 | the result window is hidden and nothing else changes |

`Shooter.World.Valid` keeps the hero's invariant throughout:

- the charge is in [0, 100];
- hp is at most 3, and hp ≤ 0 means the hero is dead;
- the cooldown stays on the 100 ms grid;
- the escorts stay in formation.

`Typing.TypingGame.Valid` (`Typing.PageValid` of the page's fields) holds throughout:

- exactly one `input` listener is attached while a game is running, and none otherwise;
- while a game is running the index is inside the quote or just past its last word, and the highlighted word is the current one, or none past the end;
- while a game is running the text box is enabled and the start button is disabled.

Where the code and the game's own description differ, the model follows the code:

- The hero's hp can fall below 0. During one tick, enemy and boss collisions do not check that the hero is alive, and each hit at hp ≤ 0 raises GAME_LOSE again.
- A boss has 20 hp, so it takes 20 laser hits.
- HIT_ENEMY_BOSS has no alive check.
- An enemy that touches the hero and is below the bottom line in the same tick is counted dead twice. When that clears the stage, GAME_WIN can be raised twice.
- Enemies and bosses fire whether or not they are alive.
- Enemy lasers are tested against the hero only, never against the escorts.
- An empty current word is falsy, so it always shows the error style.
- `handleInput` is modelled as written (`Typing.ClassifyAsWritten`, used by `Typing.TypingGame.HandleInput`): the last word followed by a space moves the index past the quote, and the game then cannot finish (see Findings). The corrected rule, `Typing.Classify`, is stated and proved beside it.

## Left out

- Drawing, the HUD, the centre messages, sprites and image loading: these only render state.
- The keyboard listener and `preventScrollKeys`. Key presses correspond to the MOVE_*, FIRE, SPECIAL and RESTART handlers modelled as `Shooter.World` methods.
- The movement timers of lasers, falling enemies and power-ups, and the 1 s lifetime of hit effects. These are independent timers that only move entities or kill them. The cooldown, patrol and spawn timers are modelled one tick at a time.
- Timing and scheduling: the tick driver `startLoop`, the 200 ms delay before `endGame`'s body, and the ordering of independent timers. There is one timeline and no concurrency.
- Shooter.World.constructor: `canvas.width / 2` and `canvas.height / 4` are integer divisions, not floating point. The boss's drop point `width / 2` is an integer division as well.
- Random draws are parameters. The spawn x positions from `pick` are not limited to `[0, canvas.width − 98)`. Each `dice` roll stands for the `< 0.2` or `< 0.5` test together with the type draw of `dropRandomPowerUp`.
- Sprites, including the damaged and normal ship images. Only the damaged state is kept, as `Player.damagedLook`.
- The HUD's boss hp ratio: it is floating point and only drawn.
- The player's and escorts' kind-PLAYER/WING entries in the world list. The hero is outside the list, and the scans test `hero.alive` where the source iterates over the PLAYER entries. The hero is in that list exactly while it is alive, and a hero once dead stays dead.
- The GAME_WIN and GAME_LOSE handlers are not run. They are recorded in `World.signals`, and their effect is `Stage.EndGame`. Restarting builds a new `Shooter.World` and rebinds the bus (`Events.Rebind`).
- The quote list and `Math.random` in `startGame`: the chosen quote is a parameter.
- The `typing` CSS animation, `focus`, and the message and modal texts. The finishing time shown is kept as a number.
- `localStorage`: the stored best is a field.
- The page markup is not part of this model. Both the text box and the start button are assumed enabled when the page loads.
- Typing.Centis: `toFixed(2)` rounds the binary floating-point value of ms/1000, so an exact half (such as 1005 ms) may round down. The model rounds halves away from zero.
- Typing.TypingGame.ClickInput: assumes that a disabled text box receives no clicks, as browsers do for disabled form controls.
- Timers that outlive a restart. `restartGame` and `initGame` (space_game/app.js:984-996) clear neither the stage's spawn timers (app.js:758-765) nor a pending rapid-fire timeout (app.js:699-701). In the source, spawn timers of an earlier world still push ships into the new world's list, and an old rapid timeout, which resets the global `hero`, can cut short a rapid pickup in the new game. The model rebuilds `Shooter.World` with fresh timers and keeps the rapid timer per hero (`Player.rapidPending`), so neither carry-over is modelled.
- UpdateWorld: the contract gives the scanned entities, dead, kill count, score, hp and life exactly (`ScanOutcome`), but of the events only that they are appended, and it does not restate the charge, the power-up rolls, the hero's rate and timers or the hit effects and drops appended by the scans. The member scans (PlayerLaserScan, EnemyLaserScan, EnemyScan, BossScan, ItemScan) state each of these.
- FireAndScan: the same gaps as UpdateWorld, before the compaction.
- CollisionScans: the same gaps as UpdateWorld, over the first n entities.
- LaserScans: states `LaserOutcome` only; the events, charge, rolls and appended entities are stated by PlayerLaserScan and EnemyLaserScan.
- FoeScans: states `FoeOutcome` only; the events and the damaged look are stated by EnemyScan and BossScan.
- BodyScans: states `BodyOutcome` only; the events, the damaged look and the rate and timers are stated by EnemyScan, BossScan and ItemScan.
- ItemPhase: states `ItemOutcome` only; the damaged look, the rate and the timers are stated by ItemScan.
- EnemyScan: the events are characterised (`DownSignals`: GAME_LOSE iff some blow left hp ≤ 0, GAME_WIN only on a clear stage and surely once a surviving hero cleared it) rather than given as one exact sequence.

## Findings

| source | as written | input that shows it | evidently intended | confidence | as-written member | corrected member |
|---|---|---|---|---|---|---|
| typing_game/script.js:98-110 | the last word followed by a space takes the advance branch, because the finish test needs an exact match; `wordIndex` becomes `words.length`, no later input can finish or advance, the game never ends, and the start button stays disabled; `Typing.TypingGame.HandleInput` runs this rule, and `Typing.LastWordWithSpaceOverruns` and `Typing.OverrunIsStuck` show the stuck page | words `["a"]`, index 0, input value `"a "` (for example pasted) | the last word followed by a space finishes the game | medium (reachable when the space arrives in the same input event as the word's last character); not executed | Typing.AsWrittenOverrun | Typing.WordThenSpace |
