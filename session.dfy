/** The game session: the single mutable `game` record, the per-frame update, the level
    transitions (nextLevel, gameOver, victory), the animation-frame step and startGame. */
module Session {
  import opened Geometry
  import opened Entities
  import opened PlayerControl
  import opened BulletMotion
  import opened EnemyMotion
  import opened Collisions

  /** Robots level 2 spawns in all. */
  const MaxRobots: int := 6
  /** Seconds between one robot leaving play and the next one walking in. */
  const WaveGap: real := 1.2
  /** Longest frame step, in seconds. */
  const MaxStep: real := 0.033

  /** Every field of the game record, for stating what a step leaves unchanged. */
  datatype GameState = GameState(
    running: bool,
    currentLevel: int,
    score: int,
    killCount: int,
    player: Player,
    bullets: seq<Bullet>,
    enemies: seq<Enemy>,
    robotsSpawnedTotal: int,
    robotWaveDelay: real,
    playerBlink: int,
    bossAlive: bool,
    lastTime: real,
    resumePending: bool)

  /** The bounds every step keeps: the level is one of the four stages, level 2 never
      spawns more than six robots, score and kills never go negative, the player stays on
      screen with at most full health and a gun level from 1 to 3, and every bullet does
      damage. */
  ghost predicate Bounds(s: GameState) {
    && 1 <= s.currentLevel <= 4
    && 0 <= s.robotsSpawnedTotal <= MaxRobots
    && s.score >= 0 && s.killCount >= 0
    && s.player.maxHealth == 6.0 && s.player.health <= s.player.maxHealth
    && s.player.w <= CanvasWidth && 0.0 <= s.player.x <= CanvasWidth - s.player.w
    && 1 <= s.player.gunLevel <= 3
    && PositiveDamage(s.bullets)
  }

  /** The game invariant: the bounds, the boss in play (once) exactly in level 3, and the
      level-1 pause only while level 1 is stopped. */
  ghost predicate Invariant(s: GameState) {
    && Bounds(s)
    && CountKind(s.enemies, Boss) == (if s.currentLevel == 3 then 1 else 0)
    && s.bossAlive == (s.currentLevel == 3)
    && (s.resumePending ==> s.currentLevel == 1 && !s.running)
  }

  /** `maxHealth || 6`: the health a level transition restores. */
  function FullHealth(p: Player): (h: real)
    ensures p.maxHealth != 0.0 ==> h == p.maxHealth
    ensures p.maxHealth == 0.0 ==> h == 6.0
  {
    if p.maxHealth != 0.0 then p.maxHealth else 6.0
  }

  /** The step loop hands to update: the time since the previous frame in seconds,
      capped at 33 ms. */
  function FrameDelta(ts: real, lastTime: real): (dt: real)
    ensures dt <= MaxStep
    ensures dt == MaxStep || dt == (ts - lastTime) / 1000.0
    ensures ts >= lastTime ==> dt >= 0.0
    ensures (ts - lastTime) / 1000.0 <= MaxStep ==> dt == (ts - lastTime) / 1000.0
  {
    Min(MaxStep, (ts - lastTime) / 1000.0)
  }

  /** The blink timer of a boss after one frame: one less, never below zero. */
  function Faded(e: Enemy): (r: Enemy)
    ensures r == e.(blink := r.blink)
    ensures e.kind == Boss && e.blink > 0 ==> r.blink == e.blink - 1
    ensures e.kind != Boss || e.blink <= 0 ==> r == e
  {
    if e.kind == Boss && e.blink > 0 then e.(blink := e.blink - 1) else e
  }

  /** The loop over the enemies in loop that counts every boss's blink timer down. */
  method DecrementBlinks(es: seq<Enemy>) returns (r: seq<Enemy>)
    ensures |r| == |es| && KindsOf(r) == KindsOf(es)
    ensures forall k :: 0 <= k < |es| ==> r[k] == Faded(es[k])
    ensures forall k :: 0 <= k < |es| ==> es[k].blink >= 0 ==> 0 <= r[k].blink <= es[k].blink
  {
    r := es;
    for i := 0 to |es|
      invariant |r| == |es|
      invariant forall k :: 0 <= k < i ==> r[k] == Faded(es[k])
      invariant forall k :: i <= k < |es| ==> r[k] == es[k]
    {
      if r[i].kind == Boss && r[i].blink > 0 {
        r := r[i := r[i].(blink := r[i].blink - 1)];
      }
    }
  }

  /** The state the player-bullet step leaves: the bullets and enemies the pass left, one
      kill and its points per destroyed enemy, and, when the boss was among them, level 4
      with the game stopped by victory. */
  function AfterPlayerBullets(s: GameState, o: Outcome): GameState {
    var scored := s.(bullets := o.bullets, enemies := o.enemies,
                     killCount := s.killCount + |o.killed|, score := s.score + ScoreOf(o.killed));
    if Boss in o.killed then scored.(bossAlive := false, currentLevel := 4, running := false)
    else scored
  }

  /** The player-bullet step keeps the game invariant: bullets left still do damage, and a
      boss can only be killed where it is in play, in level 3, leaving none behind. */
  lemma PlayerStepKeeps(s: GameState, o: Outcome)
    requires Invariant(s) && o == PlayerBulletPass(s.bullets, s.enemies)
    ensures Boss in o.killed ==> s.currentLevel == 3
    ensures Invariant(AfterPlayerBullets(s, o))
    ensures AfterPlayerBullets(s, o).score >= s.score
  {
    PassCounts(s.bullets, s.enemies);
    PassKinds(s.bullets, s.enemies);
    assert CountKind(o.enemies, Boss) + multiset(o.killed)[Boss] == CountKind(s.enemies, Boss);
  }

  /** The state the level-1 callback leaves: gun level 2, one health point back (capped
      at full health), level 2 with kills, field and robot wave reset, one robot walking in
      from the right, and the game running again. */
  function Resumed(s: GameState, d: RobotDraw): GameState {
    s.(player := s.player.(gunLevel := 2, health := Min(FullHealth(s.player), s.player.health + 1.0)),
       currentLevel := 2, killCount := 0, bullets := [], enemies := [NewRobot(2, d)],
       robotsSpawnedTotal := 1, robotWaveDelay := 0.0, running := true, resumePending := false)
  }

  /** The callback keeps the game invariant and leaves level 2 running with one robot of
      the six in play, the player healed by at most one point. */
  lemma ResumedKeeps(s: GameState, d: RobotDraw)
    requires Invariant(s) && s.resumePending
    ensures Invariant(Resumed(s, d))
    ensures s.player.health <= Resumed(s, d).player.health <= s.player.health + 1.0
    ensures CountKind(Resumed(s, d).enemies, Robot) == 1 && CountKind(Resumed(s, d).enemies, Drone) == 0
  {
    assert KindsOf([NewRobot(2, d)]) == [Robot];
  }

  /** The state the robot wave of level 2 leaves: while no robot is in play and fewer
      than six have come, the delay grows by dt, and at 1.2 s a robot walks in and the
      delay starts over; otherwise nothing changes. */
  function Waved(s: GameState, dt: real, d: RobotDraw): GameState {
    var waiting := s.currentLevel == 2 && CountKind(s.enemies, Robot) == 0 && s.robotsSpawnedTotal < MaxRobots;
    var delay := s.robotWaveDelay + dt;
    if !waiting then s
    else if delay < WaveGap then s.(robotWaveDelay := delay)
    else s.(enemies := s.enemies + [NewRobot(2, d)], robotsSpawnedTotal := s.robotsSpawnedTotal + 1,
            robotWaveDelay := 0.0)
  }

  /** The state the progression check leaves: level 1 without drones pauses for the
      callback, level 2 with six kills enters the boss round; otherwise nothing changes. */
  function Progressed(s: GameState): GameState {
    if s.currentLevel == 1 && CountKind(s.enemies, Drone) == 0 then
      s.(running := false, resumePending := true)
    else if s.currentLevel == 2 && s.killCount >= 6 then
      s.(player := s.player.(gunLevel := 3, health := FullHealth(s.player)), currentLevel := 3, killCount := 0,
         bullets := [], enemies := [NewBoss()], bossAlive := true)
    else s
  }

  /** The mutable `game` record of the page. */
  class Game {
    var running: bool
    var currentLevel: int
    var score: int
    var killCount: int
    var player: Player
    var bullets: seq<Bullet>
    var enemies: seq<Enemy>
    var robotsSpawnedTotal: int
    var robotWaveDelay: real
    var playerBlink: int
    var bossAlive: bool
    var lastTime: real
    /** The 1.5 s pause after level 1 is under way and its callback has not run yet. */
    var resumePending: bool

    ghost function State(): GameState
      reads this
    {
      GameState(running, currentLevel, score, killCount, player, bullets, enemies,
                robotsSpawnedTotal, robotWaveDelay, playerBlink, bossAlive, lastTime, resumePending)
    }

    /** The game invariant of the current state (see Invariant). */
    ghost predicate Valid()
      reads this
    {
      Invariant(State())
    }

    /** startGame: a running level 1 with score 0, a fresh player at full health, no
        bullets, and the ten drones spawnDrone creates from the given draws, in order. */
    constructor StartGame(now: real, drones: seq<DroneDraw>)
      requires |drones| == 10
      ensures Valid()
      ensures running && currentLevel == 1 && score == 0 && killCount == 0
      ensures player == MakePlayer().(health := 6.0) && player.health == player.maxHealth
      ensures bullets == []
      ensures enemies == seq(10, k requires 0 <= k < 10 => NewDrone(drones[k]))
      ensures robotsSpawnedTotal == 0 && robotWaveDelay == 0.0 && playerBlink == 0
      ensures !bossAlive && lastTime == now && !resumePending
    {
      running := true;
      currentLevel := 1;
      score := 0;
      player := MakePlayer();
      bullets := [];
      enemies := [];
      killCount := 0;
      lastTime := now;
      bossAlive := false;
      robotsSpawnedTotal := 0;
      robotWaveDelay := 0.0;
      playerBlink := 0;
      resumePending := false;
      new;
      player := player.(health := player.maxHealth);
      for i := 0 to 10
        invariant Valid()
        invariant enemies == seq(i, k requires 0 <= k < i => NewDrone(drones[k]))
        invariant running && currentLevel == 1 && score == 0 && killCount == 0
        invariant player == MakePlayer().(health := 6.0) && bullets == []
        invariant robotsSpawnedTotal == 0 && robotWaveDelay == 0.0 && playerBlink == 0
        invariant !bossAlive && lastTime == now && !resumePending
      {
        CountAppend(enemies, NewDrone(drones[i]), Boss);
        SpawnDrone(drones[i]);
      }
    }

    /** spawnDrone: appends one drone made from the draw. */
    method SpawnDrone(d: DroneDraw)
      modifies this`enemies
      ensures enemies == old(enemies) + [NewDrone(d)]
    {
      enemies := enemies + [NewDrone(d)];
    }

    /** spawnRobot: appends one robot for the current level and counts it. */
    method SpawnRobot(d: RobotDraw)
      modifies this`enemies, this`robotsSpawnedTotal
      ensures enemies == old(enemies) + [NewRobot(currentLevel, d)]
      ensures robotsSpawnedTotal == old(robotsSpawnedTotal) + 1
    {
      enemies := enemies + [NewRobot(currentLevel, d)];
      robotsSpawnedTotal := robotsSpawnedTotal + 1;
    }

    /** spawnBoss: appends the boss and marks it alive. */
    method SpawnBoss()
      modifies this`enemies, this`bossAlive
      ensures enemies == old(enemies) + [NewBoss()] && bossAlive
    {
      enemies := enemies + [NewBoss()];
      bossAlive := true;
    }

    /** gameOver: stops a running game; on a stopped game it does nothing. */
    method GameOver()
      modifies this
      ensures State() == old(State()).(running := false)
      ensures !old(running) ==> State() == old(State())
    {
      if !running {
        return;
      }
      running := false;
    }

    /** victory: stops the game. */
    method Victory()
      modifies this
      ensures State() == old(State()).(running := false)
    {
      running := false;
    }

    /** nextLevel. From level 1 it pauses the game and arms the 1.5 s callback (Resume).
        From level 2 it enters the boss round: gun level 3, full health, kills reset, the
        field cleared and the boss alone in it. From level 3 it records level 4 and calls
        victory. From any other level it does nothing. */
    method NextLevel()
      modifies this
      ensures old(currentLevel) == 1 ==>
        State() == old(State()).(running := false, resumePending := true)
      ensures old(currentLevel) == 2 ==>
        State() == old(State()).(
          player := old(player).(gunLevel := 3, health := FullHealth(old(player))),
          currentLevel := 3, killCount := 0, bullets := [], enemies := [NewBoss()],
          bossAlive := true)
      ensures old(currentLevel) == 3 ==>
        State() == old(State()).(currentLevel := 4, running := false)
      ensures old(currentLevel) !in {1, 2, 3} ==> State() == old(State())
    {
      if currentLevel == 1 {
        running := false;
        resumePending := true;
      } else if currentLevel == 2 {
        player := player.(gunLevel := 3, health := FullHealth(player));
        currentLevel := 3;
        killCount := 0;
        enemies := [];
        bullets := [];
        SpawnBoss();
        assert enemies == [NewBoss()];
      } else if currentLevel == 3 {
        currentLevel := 4;
        Victory();
      }
    }

    /** The callback nextLevel schedules in level 1, run when the pause ends: gun level 2,
        one health point back (capped at full health), level 2 with kills, field and robot
        wave reset, the first robot spawned, and the game running again. */
    method Resume(d: RobotDraw)
      requires Valid() && resumePending
      modifies this
      ensures Valid()
      ensures State() == Resumed(old(State()), d)
    {
      ResumedKeeps(State(), d);
      player := player.(gunLevel := 2, health := Min(FullHealth(player), player.health + 1.0));
      currentLevel := 2;
      killCount := 0;
      enemies := [];
      bullets := [];
      robotsSpawnedTotal := 0;
      robotWaveDelay := 0.0;
      SpawnRobot(d);
      running := true;
      resumePending := false;
    }

    /** The first three steps of update: move the player (clamped to the canvas), fire if
        the fire key is held, then move every bullet and drop those that left the field. */
    method MoveAndShoot(dt: real, keys: Keys, now: real)
      requires Valid()
      modifies this
      ensures Valid()
      ensures var moved := MovePlayer(old(player), LeftHeld(keys), RightHeld(keys), dt);
              var shot := if FireHeld(keys) then Shoot(moved, currentLevel, running, now) else Shot(moved, None);
              var fired := if shot.bullet.Some? then [shot.bullet.value] else [];
              State() == old(State()).(player := shot.player, bullets := MoveAndCull(old(bullets) + fired, dt))
    {
      player := MovePlayer(player, LeftHeld(keys), RightHeld(keys), dt);
      var fired := [];
      if FireHeld(keys) {
        var shot := Shoot(player, currentLevel, running, now);
        player := shot.player;
        if shot.bullet.Some? {
          fired := [shot.bullet.value];
        }
      }
      bullets := MoveBullets(bullets + fired, dt);
    }

    /** The enemy step of update: every enemy moves and fires, its shots joining the
        bullets; a drone reaching the ground in level 1 ends the game (breach). */
    method EnemyStep(dt: real, rolls: seq<Roll>) returns (breach: bool)
      requires Valid() && |rolls| == |enemies|
      modifies this
      ensures Valid()
      ensures var pass := EnemyPass(old(enemies), old(player), old(currentLevel), dt, rolls);
              && breach == pass.breach
              && State() == old(State()).(enemies := pass.enemies, bullets := old(bullets) + pass.shots,
                                          running := old(running) && !pass.breach)
    ensures breach <==> Grounded(old(enemies), dt, old(currentLevel))
    ensures breach ==> !running
    {
      PassPreserves(enemies, player, currentLevel, dt, rolls);
      BreachIff(enemies, player, currentLevel, dt, rolls);
      var moved, shots, b := MoveEnemies(enemies, player, currentLevel, dt, rolls);
      enemies := moved;
      bullets := bullets + shots;
      breach := b;
      if breach {
        GameOver();
      }
    }

    /** The player-bullet step of update: hits damage enemies, every kill counts and scores,
        and killing the boss (only ever in play in level 3) moves to level 4 and victory. */
    method PlayerBulletStep()
      requires Valid()
      modifies this
      ensures Valid()
      ensures var o := PlayerBulletPass(old(bullets), old(enemies));
              && (Boss in o.killed ==> old(currentLevel) == 3)
              && State() == AfterPlayerBullets(old(State()), o)
    {
      var rb, re, killed := ResolvePlayerBullets(bullets, enemies);
      PlayerStepKeeps(State(), Outcome(rb, re, killed));
      bullets, enemies := rb, re;
      CountKills(killed);
    }

    /** The bookkeeping of the player-bullet step for the enemies it destroyed: kills and
        score grow, and the boss among them means victory. */
    method CountKills(killed: seq<Kind>)
      requires Boss in killed ==> currentLevel == 3
      modifies this
      ensures var scored := old(State()).(killCount := old(killCount) + |killed|,
                                          score := old(score) + ScoreOf(killed));
              && (Boss in killed ==> State() == scored.(bossAlive := false, currentLevel := 4, running := false))
              && (Boss !in killed ==> State() == scored)
    {
      killCount := killCount + |killed|;
      score := score + ScoreOf(killed);
      if Boss in killed {
        bossAlive := false;
        NextLevel();
      }
    }

    /** The enemy-bullet step of update: every hostile bullet touching the player costs its
        damage in health and makes the player blink; health at or below 0 ends the game. */
    method EnemyBulletStep() returns (died: bool)
      requires Valid()
      modifies this
      ensures Valid()
      ensures var hurt := HostilePass(old(bullets), PlayerRect(old(player)), old(player).health);
              && died == hurt.died
              && hurt.health <= old(player).health
              && State() == old(State()).(bullets := hurt.bullets,
                                          player := old(player).(health := hurt.health),
                                          playerBlink := if hurt.struck != [] then 24 else old(playerBlink),
                                          running := old(running) && !hurt.died)
    {
      HostileNeverHeals(bullets, PlayerRect(player), player.health);
      var hb, health, struck, d := HitPlayer(bullets, PlayerRect(player), player.health);
      bullets := hb;
      player := player.(health := health);
      if struck != [] {
        playerBlink := 24;
      }
      died := d;
      if died {
        GameOver();
      }
    }

    /** The robot wave of level 2: while no robot is in play and fewer than six have come,
        the delay grows by dt, and once it reaches 1.2 s the next robot walks in. */
    method RobotWave(dt: real, d: RobotDraw)
      requires Valid()
      modifies this
      ensures Valid()
      ensures State() == Waved(old(State()), dt, d)
    {
      if currentLevel == 2 {
        if CountKind(enemies, Robot) == 0 && robotsSpawnedTotal < MaxRobots {
          robotWaveDelay := robotWaveDelay + dt;
          if robotWaveDelay >= WaveGap {
            CountAppend(enemies, NewRobot(currentLevel, d), Boss);
            SpawnRobot(d);
            robotWaveDelay := 0.0;
          }
        }
      }
    }

    /** The progression step of update: level 1 ends when no drone is left, level 2 after
        six kills. */
    method Progress()
      requires Valid()
      modifies this
      ensures Valid()
      ensures State() == Progressed(old(State()))
    {
      if currentLevel == 1 && CountKind(enemies, Drone) == 0 {
        NextLevel();
      }
      if currentLevel == 2 && killCount >= 6 {
        CountSingle(NewBoss(), Boss);
        NextLevel();
      }
    }

    /** The second half of update, from the player-bullet step on; the player's death
        ends it early. */
    method ResolveHits(dt: real, robot: RobotDraw)
      requires Valid()
      modifies this
      ensures Valid()
      ensures old(currentLevel) <= currentLevel <= old(currentLevel) + 1
      ensures score >= old(score)
      ensures robotsSpawnedTotal >= old(robotsSpawnedTotal)
      ensures lastTime == old(lastTime)
      ensures currentLevel == old(currentLevel) ==> player.health <= old(player).health
      ensures !old(running) ==> !running
      ensures currentLevel == 1 && running ==> CountKind(enemies, Drone) > 0
      ensures currentLevel == 2 && running ==> killCount < 6
      ensures old(currentLevel) == 2 && currentLevel == 3 ==>
        && enemies == [NewBoss()] && bullets == [] && killCount == 0
        && player.health == 6.0 && player.gunLevel == 3
      ensures old(currentLevel) == 3 && currentLevel == 4 ==> !running && score >= old(score) + 1000
    {
      PlayerBulletStep();
      var died := EnemyBulletStep();
      if died {
        return;
      }
      WaveAndProgress(dt, robot);
    }

    /** The last two steps of update: the robot wave, then the progression check. */
    method WaveAndProgress(dt: real, robot: RobotDraw)
      requires Valid()
      modifies this
      ensures Valid()
      ensures currentLevel == old(currentLevel) || (old(currentLevel) == 2 && currentLevel == 3)
      ensures score == old(score) && lastTime == old(lastTime)
      ensures !old(running) ==> !running
      ensures robotsSpawnedTotal >= old(robotsSpawnedTotal)
      ensures currentLevel == old(currentLevel) ==> player == old(player)
      ensures currentLevel == 1 && running ==> CountKind(enemies, Drone) > 0
      ensures currentLevel == 2 && running ==> killCount < 6
      ensures old(currentLevel) == 2 && currentLevel == 3 ==>
        && enemies == [NewBoss()] && bullets == [] && killCount == 0
        && player.health == 6.0 && player.gunLevel == 3
      ensures State() == Progressed(Waved(old(State()), dt, robot))
    {
      RobotWave(dt, robot);
      Progress();
    }

    /** update, one frame of play, in the order of its steps; a breach or the player's death
        ends the frame early. */
    method Update(dt: real, keys: Keys, now: real, rolls: seq<Roll>, robot: RobotDraw)
      requires Valid() && |rolls| == |enemies|
      modifies this
      ensures Valid()
      ensures old(currentLevel) <= currentLevel <= old(currentLevel) + 1
      ensures score >= old(score)
      ensures robotsSpawnedTotal >= old(robotsSpawnedTotal)
      ensures lastTime == old(lastTime)
      ensures currentLevel == old(currentLevel) ==> player.health <= old(player).health
      ensures !old(running) ==> !running
      ensures currentLevel == 1 && running ==> CountKind(enemies, Drone) > 0
      ensures currentLevel == 2 && running ==> killCount < 6
      ensures old(currentLevel) == 2 && currentLevel == 3 ==>
        && enemies == [NewBoss()] && bullets == [] && killCount == 0
        && player.health == 6.0 && player.gunLevel == 3
      ensures old(currentLevel) == 3 && currentLevel == 4 ==> !running && score >= old(score) + 1000
    {
      MoveAndShoot(dt, keys, now);
      var breach := EnemyStep(dt, rolls);
      if breach {
        return;
      }
      ResolveHits(dt, robot);
    }

    /** loop, one animation frame of a running game: the step since the previous frame
        (at most 33 ms), the player's and every boss's blink timers counted down, then
        update. A stopped game ignores the frame. */
    method Frame(ts: real, keys: Keys, now: real, rolls: seq<Roll>, robot: RobotDraw)
      requires Valid() && |rolls| == |enemies|
      modifies this
      ensures Valid()
      ensures !old(running) ==> State() == old(State())
      ensures old(running) ==> lastTime == ts
      ensures old(currentLevel) <= currentLevel <= old(currentLevel) + 1 && score >= old(score)
      ensures currentLevel == old(currentLevel) ==> player.health <= old(player).health
      ensures old(currentLevel) == 3 && currentLevel == 4 ==> !running && score >= old(score) + 1000
    {
      if !running {
        return;
      }
      var dt := Tick(ts);
      Update(dt, keys, now, rolls, robot);
    }

    /** The bookkeeping loop does before update: the step since the previous frame (at most
        33 ms), the new lastTime, and the player's and every boss's blink timers counted
        down by one where positive. */
    method Tick(ts: real) returns (dt: real)
      requires Valid()
      modifies this
      ensures Valid()
      ensures dt == FrameDelta(ts, old(lastTime))
      ensures State() == old(State()).(
        lastTime := ts,
        playerBlink := if old(playerBlink) > 0 then old(playerBlink) - 1 else old(playerBlink),
        enemies := seq(|old(enemies)|, k requires 0 <= k < |old(enemies)| => Faded(old(enemies)[k])))
    {
      dt := FrameDelta(ts, lastTime);
      lastTime := ts;
      if playerBlink > 0 {
        playerBlink := playerBlink - 1;
      }
      enemies := DecrementBlinks(enemies);
    }
}
}
