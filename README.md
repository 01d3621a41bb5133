# Tech Phoenix game core in Dafny

A model of the game-state core of the browser shooter in `script.js`: the single mutable
`game` record and everything that changes it. The player ship moves left and right and
fires (`shoot`). Bullets fly and are culled 200px outside the 960x600 canvas. Drones,
robots and the boss move, bounce off the side walls and fire on their own timers. Player
bullets damage the last enemy they overlap (`rectsOverlap`); enemies die at 0 hp and score
100, 200 or 1000 points. Hostile bullets cost the player health. The game has three
levels:

- Level 1 has ten drones. A drone reaching the ground ends the game. Clearing all drones
  pauses the game for 1.5 s, then level 2 starts.
- Level 2 sends robots one at a time, six at most. Six kills start the boss round.
- Level 3 is the boss round. Killing the boss is victory (level 4).

The model is split by the structure of the program:

- `Geometry` (geometry.dfy): rectangles and `rectsOverlap`.
- `Entities` (entities.dfy): the player, bullet and enemy records, the canvas constants,
  `makePlayer`, and the records `spawnDrone`, `spawnRobot` and `spawnBoss` append.
- `PlayerControl` (player.dfy): the movement step of `update` and `shoot`.
- `BulletMotion` (bullets.dfy): the bullet loop of `update`.
- `EnemyMotion` (enemies.dfy): the enemy loop of `update`.
- `Collisions` (collisions.dfy): the player-bullet loop and the hostile-bullet loop of
  `update`.
- `SeqFacts` (seqfacts.dfy): small facts about sequences that the loop proofs use.
- `Session` (session.dfy): the class `Game` holding the `game` record's fields. Its
  methods are `startGame` (the constructor `StartGame`), the spawn functions, `update`
  split into its steps, `nextLevel`, the deferred level-1 callback (`Resume`), `gameOver`,
  `victory` and one frame of `loop`.

Each reverse loop that splices an array is a method over `seq` with a `while` loop. It is
proved equal to a recursive function. For the enemy, player-bullet and hostile-bullet
loops that function handles the last element first, as the loop does, because what one
element does depends on what the later ones did. The bullet-culling function
`MoveAndCull` handles the first element first: each bullet's fate depends only on that
bullet, so the order of processing does not change the result, and the loop is proved
equal to it all the same. Properties are proved about those functions: order kept,
bounds, what is removed and why, and the early stop of the loops that `return`.

The methods of `Game` state their new state as a change to `State()`, a snapshot of all
the fields. The step methods (`Tick`, `MoveAndShoot`, `EnemyStep`, `PlayerBulletStep`,
`EnemyBulletStep`, `RobotWave`, `Progress`, `WaveAndProgress`, `Resume`) give the exact
new state. `ResolveHits`, `Update` and `Frame` give summaries (see "Left out"). The
primitives `SpawnDrone`, `SpawnRobot`, `SpawnBoss`, `GameOver`, `Victory`, `NextLevel` and
`CountKills` give the exact new state and say nothing about the invariant; the steps that
call them do. The constructor and every step method keep `Valid()`, the game
invariant:

- the level is 1 to 4;
- level 2 never spawns more than six robots;
- score and kills are never negative;
- the player stays on screen, with at most 6 health and a gun level of 1 to 3;
- every bullet does damage;
- the boss is in play, exactly once, exactly in level 3;
- the level-1 pause only happens in a stopped level 1.

Inputs from outside the game are parameters:

- each frame's key map `game.keys`;
- the time stamps from `Date.now()`, `performance.now()` and the animation-frame callback;
- every value `Math.random()` returns, passed as draw records (`DroneDraw`, `RobotDraw`,
  `Roll`), each value in [0, 1).

The 1.5 s `setTimeout` of `nextLevel` is a flag, `resumePending`. `NextLevel` sets it and
`Resume`, the callback's body, clears it.

## Model

| member | source | states |
|---|---|---|
| Geometry.RectsOverlap | script.js:173-175 | rectsOverlap: the rectangles overlap unless one lies strictly to the left, right, above or below the other |
| Geometry.OverlapSymmetric | script.js:173-175 | rectsOverlap(a, b) equals rectsOverlap(b, a) |
| Geometry.TouchingEdgesOverlap | script.js:173-175 | rectangles that only share an edge, with vertical extents that meet, count as overlapping |
| Geometry.OverlapIffCommonPoint | script.js:173-175 | for rectangles of non-negative size, the test holds exactly when the closed rectangles share a point |
| Entities.EffectiveDamage | script.js:284 | a zero damage counts as 1: the result is the bullet's damage when positive, and is never 0 |
| Entities.ScoreValue | script.js:297 | a kill is worth 100 to 1000 points, and 1000 exactly for the boss |
| Entities.ScoreOf | script.js:297 | the points for k kills lie between 100k and 1000k, and are at least 1000 if the boss is among them |
| Entities.MakePlayer | script.js:63-77 | a 192x192 ship centred horizontally, inside the canvas, 24px above the bottom; 4 of 6 health, speed 300, 300 ms fire rate, gun level 1 |
| Entities.NewDrone | script.js:121-134 | a 100x72 drone with 1 hp; for draws in [0, 1): x in [0, 860), y in (-150, -10], sideways speed 10 to 30 in the direction the draw picks, falling at 20 to 40, first shot after 4 to 7 s |
| Entities.NewRobot | script.js:136-150 | a 180x180 robot with 3 hp, 40px above the bottom; in level 2 it starts right of the canvas moving left at 70 to 110 px/s, otherwise left of it moving right; first shot after 1 to 2.6 s |
| Entities.NewBoss | script.js:154-166 | a 220x200 boss centred horizontally at y 50 with 60 of 60 hp, moving right at 140 px/s, first volley after 1 s |
| PlayerControl.LeftHeld | script.js:183 | the left key is ArrowLeft or a |
| PlayerControl.RightHeld | script.js:184 | the right key is ArrowRight or d |
| PlayerControl.FireHeld | script.js:188 | the fire key is the space bar, under either of its two key names |
| PlayerControl.Clamp | script.js:185 | the clamp lands in [lo, hi], keeps a value already inside, and snaps one outside to the nearer end |
| PlayerControl.Steered | script.js:183-184 | the left key moves by -speed*dt, the right key by +speed*dt, and both or neither leave x where it was |
| PlayerControl.MovePlayer | script.js:183-185 | only x changes; it ends in [0, 960 - w]; an in-range steered position is kept; opposite keys cancel out |
| PlayerControl.GunBulletSize | script.js:92-94 | the bullet is 20x36 up to gun level 1, 28x42 at level 2 and 36x48 from level 3 on, so always taller than wide |
| PlayerControl.GunDamage | script.js:92-94 | the damage is 1 to 3, and 1 exactly up to gun level 1 |
| PlayerControl.GunDamageMonotone | script.js:92-94 | bullet damage is 1 to 3 and never falls as the gun level rises |
| PlayerControl.Shoot | script.js:80-118 | no bullet exactly when the game is stopped or the fire rate has not elapsed, and then nothing changes; otherwise lastShot becomes now and one friendly bullet centred on the ship flies right at 520 in level 2, up at 520 in the other levels, with damage 1, 2 or 3 and the size GunBulletSize gives for the gun level |
| BulletMotion.Advance | script.js:193-194 | the bullet keeps its size, speed, damage and owner; only its position moves |
| BulletMotion.OutOfField | script.js:195 | the culling test of the bullet loop |
| BulletMotion.OutOfFieldIff | script.js:195 | a bullet is culled exactly when it is not within 200px of the canvas |
| BulletMotion.MoveAndCull | script.js:191-198 | the pass never adds bullets, every bullet left is within 200px of the canvas, and positive damage is kept |
| BulletMotion.MoveBullets | script.js:191-198 | the reverse splice loop leaves exactly the bullets of MoveAndCull |
| BulletMotion.CullAppend | script.js:191-198 | culling a concatenation is culling each part, so the pass keeps relative order |
| BulletMotion.CullMembership | script.js:191-198 | a bullet is left exactly when it is some input bullet, advanced, still within the margin |
| BulletMotion.CullKeepsAllInside | script.js:195-196 | if every advanced bullet stays in the field, none is removed |
| BulletMotion.CullKeepsOrder | script.js:191-198 | two bullets that both stay keep their order |
| EnemyMotion.WallMargin | script.js:207-208 | the side-wall margin is 8px exactly for drones and 6px for robots and the boss |
| EnemyMotion.Bounce | script.js:207-208 | only x and vx change; an enemy narrow enough ends between the margins, with vx reversed exactly when it was past a wall; an enemy inside is untouched |
| EnemyMotion.MoveEnemy | script.js:204-208 | kind, size, hp, timer and blink are kept; robots and the boss keep y; x ends between the kind's wall margins (8px drones, 6px others) |
| EnemyMotion.Breach | script.js:210 | the level-1 loss test: a drone whose bottom is within 6px of the canvas bottom in level 1 |
| EnemyMotion.DroneShot | script.js:217-224 | a hostile bullet centred under the drone, falling at 180 px/s, doing 0.5 damage |
| EnemyMotion.RobotShot | script.js:238-246 | a hostile level bullet doing 1 damage, at 260 px/s, to the right exactly when the player's centre is not left of the robot's |
| EnemyMotion.StartTimer | script.js:214 | a drone's zero timer is replaced by a draw of 4 to 7 s; any other timer is kept |
| EnemyMotion.BossVolley | script.js:257-268 | three hostile boss bullets of damage 1, falling at 200 with vx -80, 0 and +80, placed 16px apart from left to right, starting 8px above the boss's bottom, the middle one centred 1px left of the boss's centre |
| EnemyMotion.FireEnemy | script.js:214-270 | a shot happens exactly when the counted-down timer reaches 0; otherwise the timer is counted down by dt; a drone fires one 0.5-damage bullet down, a robot one level bullet toward the player, the boss three power bullets down; the new timer lies in the kind's range |
| EnemyMotion.EnemyPass | script.js:201-272 | the pass keeps the number of enemies |
| EnemyMotion.PassPreserves | script.js:201-272 | kinds and hp are kept index by index, every shot is hostile and does damage, and a breach is only possible in level 1 |
| EnemyMotion.PassMovesAll | script.js:201-208 | without a breach, every enemy's rectangle is where its own move takes it |
| EnemyMotion.BreachStops | script.js:210-212 | once a breach happens, the enemies before it in the array are left as they were |
| EnemyMotion.MoveEnemies | script.js:201-272 | the reverse loop, with its return on a breach, computes exactly EnemyPass |
| EnemyMotion.PassKeepsEnemiesInside | script.js:207-208 | without a breach, every enemy ends between its wall margins |
| EnemyMotion.BreachHasCause | script.js:210-212 | a breach means some drone, once moved, is within 6px of the ground in level 1 |
| EnemyMotion.BreachIfCause | script.js:210-212 | a drone that, once moved, is within 6px of the ground in level 1 makes the pass breach, wherever it is in the array |
| EnemyMotion.Grounded | script.js:210 | some drone of the array, once moved, is within 6px of the ground in level 1 |
| EnemyMotion.BreachIff | script.js:210-212 | both directions: the pass breaches exactly when some moved drone reaches the ground in level 1 (Grounded) |
| Collisions.HighestOverlap | script.js:279-281 | the index found is the last enemy the bullet overlaps, or -1 when it overlaps none |
| Collisions.FindTarget | script.js:279-281 | the downward scan stops at the last overlapping enemy, or at -1 |
| Collisions.Damage | script.js:284-285 | hp falls by the effective damage; a boss starts a 14-frame flash; nothing else changes |
| Collisions.Strike | script.js:276-306 | a bullet is consumed exactly when it is friendly and overlaps some enemy; then the highest-index enemy it overlaps is damaged, and removed and reported killed if its hp reaches 0 |
| Collisions.StrikeKinds | script.js:293-297 | a strike removes an enemy only by killing it |
| Collisions.StrikeKeepsClear | script.js:279-306 | enemies never move, so a bullet clear of all of them stays clear |
| Collisions.PlayerBulletPass | script.js:275-308 | the pass never adds bullets |
| Collisions.PassKinds | script.js:293-297 | the kinds left plus the kinds killed are the kinds before the pass |
| Collisions.PassCounts | script.js:275-308 | each enemy removed is one kill, and every bullet left is an input bullet |
| Collisions.PassKeepsHostile | script.js:277 | hostile bullets pass through untouched and in order |
| Collisions.PassKeepsClear | script.js:279-281 | a bullet clear of the enemies before the pass is clear of those after it |
| Collisions.PassSparesMisses | script.js:277-289 | a hostile bullet, or one that overlaps no enemy, survives the pass |
| Collisions.StrikeEnemies | script.js:279-306 | the inner loop for one friendly bullet computes exactly Strike |
| Collisions.ResolvePlayerBullets | script.js:275-308 | the reverse splice loop computes exactly PlayerBulletPass |
| Collisions.TotalDamage | script.js:315 | the sum of positive damages is not negative |
| Collisions.HostilePass | script.js:311-322 | bullets left plus bullets that hit account for every input bullet |
| Collisions.HostileHealth | script.js:315-320 | health falls by exactly the damage of the bullets that hit; the game ends only after a hit that leaves health at or below 0; a hit that does not end it leaves health above 0 |
| Collisions.HostileSplit | script.js:311-322 | the bullets left and those that hit form the input as a multiset; every bullet that hit is hostile and overlaps the player |
| Collisions.HostileClearsHits | script.js:311-322 | unless the player died, no hostile bullet overlapping the player is left |
| Collisions.HostileKeepsFriendly | script.js:313 | player bullets pass through untouched and in order |
| Collisions.HostileNeverHeals | script.js:315 | with positive damages, health never rises and the bullets left still do damage |
| Collisions.DeathStops | script.js:320 | once a hit kills the player, the bullets before it in the array are left alone |
| Collisions.HitPlayer | script.js:311-322 | the reverse loop, with its return on death, computes exactly HostilePass |
| Session.FullHealth | script.js:500 | the health a transition restores: maxHealth, or 6 when maxHealth is 0 |
| Session.FrameDelta | script.js:570 | the step is at most 33 ms, not negative for a later time stamp, and the real elapsed time when shorter |
| Session.Faded | script.js:575 | only a boss's positive blink timer drops, by one; every other enemy is unchanged |
| Session.DecrementBlinks | script.js:575 | every enemy becomes its Faded form, in place; kinds are kept; blink timers stay in [0, old value] |
| Session.AfterPlayerBullets | script.js:293-302 | the state after the player-bullet step: what the pass left, one kill and its points per enemy destroyed, and level 4 with the game stopped when the boss was among them |
| Session.PlayerStepKeeps | script.js:275-308 | the player-bullet step keeps the game invariant and never lowers the score; a boss kill only happens in level 3 |
| Session.Resumed | script.js:483-493 | the state the level-1 callback leaves: gun 2, health +1 capped at full, level 2, kills 0, field cleared, one level-2 robot, one robot counted, delay 0, running |
| Session.Waved | script.js:325-335 | the state the level-2 robot wave leaves, in its three cases |
| Session.Progressed | script.js:339-343 | the state the progression check leaves: the level-1 pause, the boss round (gun 3, full health, only the boss, no bullets), or no change |
| Session.ResumedKeeps | script.js:482-495 | the level-1 callback keeps the game invariant, heals by at most one point, and leaves one robot and no drone in play |
| Session.Game.StartGame | script.js:583-613 | a running level 1 with score 0, no kills, a fresh player at full health, no bullets, the ten drones from the draws in order, and no robots, delay, blink, boss or pause |
| Session.Game.SpawnDrone | script.js:121-134 | appends the drone the draw makes |
| Session.Game.SpawnRobot | script.js:136-152 | appends the robot of the current level and counts it |
| Session.Game.SpawnBoss | script.js:154-170 | appends the boss and marks it alive |
| Session.Game.GameOver | script.js:531-539 | stops the game and changes nothing else; on a stopped game it does nothing |
| Session.Game.Victory | script.js:541-542 | stops the game and changes nothing else |
| Session.Game.NextLevel | script.js:477-510 | level 1: stopped, with the callback pending; level 2: gun 3, full health, level 3, kills 0, the field cleared and the boss alone in it; level 3: level 4 and stopped; otherwise nothing changes |
| Session.Game.Resume | script.js:482-495 | keeps the invariant; gun 2, health +1 capped at full, level 2, kills 0, bullets cleared, one level-2 robot in play, one robot counted, delay 0, running again |
| Session.Game.MoveAndShoot | script.js:182-198 | keeps the invariant; the player moves and fires as MovePlayer and Shoot say, and the bullets, new one included, move and are culled |
| Session.Game.EnemyStep | script.js:200-272 | keeps the invariant; enemies and their shots are as EnemyPass gives them; the step breaches exactly when some moved drone reaches the ground in level 1, and then the game is stopped |
| Session.Game.PlayerBulletStep | script.js:274-308 | keeps the invariant; bullets and enemies are as PlayerBulletPass leaves them, kills and score grow by the kills, and a boss kill happens only in level 3 and leads to level 4 with the game stopped |
| Session.Game.CountKills | script.js:296-302 | kills and score grow by the kills; the boss among them clears bossAlive and leads to level 4 with the game stopped |
| Session.Game.EnemyBulletStep | script.js:310-322 | keeps the invariant; bullets and health are as HostilePass leaves them, health never rises, any hit sets the blink to 24, and death stops the game |
| Session.Game.RobotWave | script.js:324-335 | keeps the invariant; only in level 2 with no robot in play and fewer than six spawned does the delay grow by dt; at 1.2 s a robot walks in and the delay resets; otherwise nothing changes; this is stated as: the new state is Waved of the old one |
| Session.Game.Progress | script.js:337-343 | keeps the invariant; level 1 with no drone left pauses for the callback; level 2 with six kills enters the boss round at full health; otherwise nothing changes; this is stated as: the new state is Progressed of the old one |
| Session.Game.WaveAndProgress | script.js:324-343 | keeps the invariant; the new state is Progressed applied to Waved of the old one; the level changes only from 2 to 3 and then as the boss round; score and time are kept; a stopped game stays stopped; a running level 1 still has a drone, a running level 2 fewer than six kills |
| Session.Game.ResolveHits | script.js:274-343 | keeps the invariant; the level rises by at most one; score and robot count never fall; health never rises within a level; entering level 3 means the boss alone, no bullets, full health and gun 3; reaching level 4 means stopped with the 1000-point boss scored |
| Session.Game.Update | script.js:178-349 | the same as ResolveHits, for the whole frame starting with movement, fire, bullets and enemies |
| Session.Game.Tick | script.js:570-575 | keeps the invariant; hands back FrameDelta of the time stamp and the old lastTime; lastTime becomes the time stamp, the player's blink drops by one where positive, every enemy becomes its Faded form; nothing else changes |
| Session.Game.Frame | script.js:568-580 | keeps the invariant; a stopped game ignores the frame; otherwise lastTime becomes the time stamp; level never falls and rises by at most one; score never falls; health never rises within a level; reaching level 4 means stopped with the boss scored |

## Left out

- Drawing, sprites, the HUD, `showMessage`, audio, the intro and restart buttons and the
  confetti animation: none of them changes the game state the core keeps.
- `requestAnimationFrame` and `setTimeout` scheduling: the caller runs `Frame` once per
  animation frame, and runs `Resume` when `resumePending` is set and the pause is over.
  A callback left pending across a restart has no counterpart, because `StartGame`
  creates a new `Game`.
- The key listeners: the key map is a parameter of each frame. The map `startGame` resets
  is not modelled.
- The `explosions` field: the code never reads or writes it after `startGame`.
- `Math.random()`: each draw is a parameter. The ranges of what is made from the draws
  are proved; the distribution is not modelled.
- Floating point: positions, speeds, health and time are mathematical reals. The
  `(b.vx || 0)` fallbacks of the bullet loop are modelled as plain `vx`, because every
  bullet the game creates sets both speeds.
- The `!p` guards of `update` and `shoot`: the model always has a player.
- The `typeof e.hp === "number"` test: every enemy the game creates has a numeric hp.
- The boss volley loop `for (s = -1; s <= 1; s++)` is the three-element sequence
  `BossVolley`, in the same order.
- Session.Game.PlayerBulletStep: killing the boss calls `nextLevel` inside the loop; the
  model calls it once, right after the pass. The outcome is the same. The boss is only
  ever in play in level 3, and there `nextLevel` only sets the level to 4 and stops the
  game, neither of which the pass reads.
- Session.Game.Update: the contract is a summary across the steps (monotone level, score
  and robot count, health within a level, the level transitions). The exact new state of
  each step is in the step's own contract.
- Session.Game.ResolveHits: a summary, for the same reason.
- Session.Game.Frame: states the frame's guard, lastTime and the summary of `Update`. The
  exact bookkeeping before `update` (the step, lastTime, the blink timers) is the contract
  of `Tick`, and the rest is in the steps' contracts.

Two behaviours of the code worth knowing:

- Health can fall below 0, by less than the damage of the hit that ended the game,
  because the code subtracts before it checks for death. Only the HUD rounds it up to 0. The invariant has `health <= 6`
  and no lower bound.
- Outside level 2 a robot always enters from the left. The comment at script.js:138 says
  "else alternate", but `fromRight` is false in every level but 2, so the robots never
  alternate sides.
