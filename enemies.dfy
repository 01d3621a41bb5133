/** The enemy pass of update: each enemy moves and bounces off the side walls, a drone
    that reaches the ground in level 1 ends the game on the spot, and each enemy counts
    down its shot timer and fires when it runs out. The array is walked from the end. */
module EnemyMotion {
  import opened Entities
  import opened SeqFacts

  /** The side-wall margin: 8px for drones, 6px for robots and the boss. */
  function WallMargin(k: Kind): (m: real)
    ensures 6.0 <= m <= 8.0
    ensures m == 8.0 <==> k == Drone
  {
    if k == Drone then 8.0 else 6.0
  }

  /** The two wall checks of the pass, in source order: past the left margin, snap to it
      and reverse; then past the right margin, snap to it and reverse. */
  function Bounce(e: Enemy, m: real): (r: Enemy)
    ensures r == e.(x := r.x, vx := r.vx)
    ensures e.w <= CanvasWidth - 2.0 * m ==> m <= r.x <= CanvasWidth - m - e.w
    ensures e.w <= CanvasWidth - 2.0 * m ==>
              r.vx == (if e.x < m || e.x + e.w > CanvasWidth - m then -e.vx else e.vx)
    ensures m <= e.x && e.x + e.w <= CanvasWidth - m ==> r == e
  {
    var e1 := if e.x < m then e.(x := m, vx := -e.vx) else e;
    if e1.x + e1.w > CanvasWidth - m then e1.(x := CanvasWidth - m - e1.w, vx := -e1.vx) else e1
  }

  /** Movement of one enemy: drones move on both axes, robots and the boss sideways only;
      then the bounce at the kind's margin. */
  function MoveEnemy(e: Enemy, dt: real): (r: Enemy)
    ensures r.kind == e.kind && r.hp == e.hp && r.w == e.w && r.h == e.h
    ensures r.shootTimer == e.shootTimer && r.blink == e.blink && r.maxHp == e.maxHp && r.vy == e.vy
    ensures e.kind != Drone ==> r.y == e.y
    ensures e.w <= CanvasWidth - 2.0 * WallMargin(e.kind) ==>
              WallMargin(e.kind) <= r.x <= CanvasWidth - WallMargin(e.kind) - e.w
  {
    if e.kind == Drone then Bounce(e.(x := e.x + e.vx * dt, y := e.y + e.vy * dt), 8.0)
    else Bounce(e.(x := e.x + e.vx * dt), 6.0)
  }

  /** A drone whose bottom is within 6px of the canvas bottom while in level 1. */
  predicate Breach(e: Enemy, level: int) {
    e.kind == Drone && e.y + e.h >= CanvasHeight - 6.0 && level == 1
  }

  /** The Math.random() values one enemy may draw in a frame: a drone's replacement for a
      zero timer, and the new timer after a shot. */
  datatype Roll = Roll(fallback: real, reset: real)

  predicate ValidRoll(r: Roll) {
    Unit(r.fallback) && Unit(r.reset)
  }

  /** A drone's shot: a hostile 12x18 bullet centred under the drone, falling at 180 px/s
      and doing half a point of damage. */
  function DroneShot(e: Enemy): (b: Bullet)
    ensures b.enemy && !b.bossPower && b.damage == 0.5
    ensures b.x + b.w / 2.0 == e.x + e.w / 2.0 && b.y == e.y + e.h
    ensures b.vx == 0.0 && b.vy == 180.0
  {
    Bullet(e.x + e.w / 2.0 - 6.0, e.y + e.h, 12.0, 18.0, 0.0, 180.0, 0.5, true, false)
  }

  /** A robot fires horizontally, to the right when the player's centre is not left of its own. */
  function RobotShot(e: Enemy, p: Player): (b: Bullet)
    ensures b.enemy && !b.bossPower && b.damage == 1.0 && b.vy == 0.0
    ensures b.vx == 260.0 || b.vx == -260.0
    ensures b.vx > 0.0 <==> p.x + p.w / 2.0 >= e.x + e.w / 2.0
  {
    var dir := if p.x + p.w / 2.0 >= e.x + e.w / 2.0 then 1.0 else -1.0;
    Bullet(e.x + e.w / 2.0 - 8.0, e.y + e.h / 2.0 - 6.0, 14.0, 14.0, dir * 260.0, 0.0, 1.0, true, false)
  }

  /** The boss's three-bullet spread, for s = -1, 0, 1 in that order. */
  function BossVolley(e: Enemy): (v: seq<Bullet>)
    ensures |v| == 3
    ensures forall k :: 0 <= k < 3 ==>
      && v[k].enemy && v[k].bossPower && v[k].damage == 1.0
      && v[k].vy == 200.0 && v[k].vx == ((k - 1) as real) * 80.0
      && v[k].x == v[1].x + ((k - 1) as real) * 16.0 && v[k].y == e.y + e.h - 8.0
    ensures v[1].x + v[1].w / 2.0 == e.x + e.w / 2.0 - 1.0
  {
    seq(3, k => var s := (k - 1) as real;
      Bullet(e.x + e.w / 2.0 - 10.0 + s * 16.0, e.y + e.h - 8.0, 18.0, 18.0, s * 80.0, 200.0, 1.0, true, true))
  }

  datatype Fired = Fired(enemy: Enemy, shots: seq<Bullet>)

  /** The timer before the countdown: a drone with a zero timer draws 4 to 7 s. */
  function StartTimer(e: Enemy, roll: Roll): (t: real)
    ensures !(e.kind == Drone && e.shootTimer == 0.0) ==> t == e.shootTimer
    ensures e.kind == Drone && e.shootTimer == 0.0 && ValidRoll(roll) ==> 4.0 <= t < 7.0
  {
    if e.kind == Drone && e.shootTimer == 0.0 then 4.0 + roll.fallback * 3.0 else e.shootTimer
  }

  /** Shot-timer handling of one enemy: count down by dt; at or below 0 fire (one bullet for
      a drone or robot, three for the boss) and draw a new timer. */
  function FireEnemy(e: Enemy, p: Player, dt: real, roll: Roll): (r: Fired)
    ensures r.enemy == e.(shootTimer := r.enemy.shootTimer)
    ensures r.shots == [] <==> StartTimer(e, roll) - dt > 0.0
    ensures r.shots == [] ==> r.enemy.shootTimer == StartTimer(e, roll) - dt
    ensures forall b :: b in r.shots ==> b.enemy && b.damage > 0.0
    ensures r.shots != [] ==> |r.shots| == (if e.kind == Boss then 3 else 1)
    ensures r.shots != [] && ValidRoll(roll) ==>
      match e.kind
      case Drone => 4.5 <= r.enemy.shootTimer < 7.0
      case Robot => 1.0 <= r.enemy.shootTimer < 2.8
      case Boss => 1.7 <= r.enemy.shootTimer < 2.4
    ensures e.kind == Drone && r.shots != [] ==> r.shots[0].vy > 0.0 && r.shots[0].damage == 0.5
    ensures e.kind == Robot && r.shots != [] ==>
      r.shots[0].vy == 0.0 && (r.shots[0].vx > 0.0 <==> p.x + p.w / 2.0 >= e.x + e.w / 2.0)
    ensures e.kind == Boss ==> forall b :: b in r.shots ==> b.bossPower && b.vy > 0.0
  {
    var t := StartTimer(e, roll) - dt;
    if t > 0.0 then Fired(e.(shootTimer := t), [])
    else
      match e.kind
      case Drone => Fired(e.(shootTimer := 4.5 + roll.reset * 2.5), [DroneShot(e)])
      case Robot => Fired(e.(shootTimer := 1.0 + roll.reset * 1.8), [RobotShot(e, p)])
      case Boss => Fired(e.(shootTimer := 1.7 + roll.reset * 0.7), BossVolley(e))
  }

  /** Result of the enemy pass: the enemies, the bullets they fired (in firing order), and
      whether a drone breach cut the pass short. */
  datatype Pass = Pass(enemies: seq<Enemy>, shots: seq<Bullet>, breach: bool)

  /** The enemy pass over es, last element first. The first element is handled after the
      rest; a breach anywhere stops the pass, leaving the elements before it untouched. */
  function EnemyPass(es: seq<Enemy>, p: Player, level: int, dt: real, rolls: seq<Roll>): (r: Pass)
    requires |rolls| == |es|
    ensures |r.enemies| == |es|
    decreases |es|
  {
    if es == [] then Pass([], [], false)
    else
      var rest := EnemyPass(es[1..], p, level, dt, rolls[1..]);
      if rest.breach then Pass([es[0]] + rest.enemies, rest.shots, true)
      else
        var moved := MoveEnemy(es[0], dt);
        if Breach(moved, level) then Pass([moved] + rest.enemies, rest.shots, true)
        else
          var f := FireEnemy(moved, p, dt, rolls[0]);
          Pass([f.enemy] + rest.enemies, rest.shots + f.shots, false)
  }

  /** The pass keeps every enemy in its place with its kind and hit points, only fires
      hostile bullets that do damage, and can breach only in level 1. */
  lemma {:induction false} PassPreserves(es: seq<Enemy>, p: Player, level: int, dt: real, rolls: seq<Roll>)
    requires |rolls| == |es|
    ensures var r := EnemyPass(es, p, level, dt, rolls);
            && KindsOf(r.enemies) == KindsOf(es)
            && (forall k :: 0 <= k < |es| ==> r.enemies[k].hp == es[k].hp)
            && (forall b :: b in r.shots ==> b.enemy && b.damage > 0.0)
            && (level != 1 ==> !r.breach)
    decreases |es|
  {
    if es != [] {
      PassPreserves(es[1..], p, level, dt, rolls[1..]);
      var r := EnemyPass(es, p, level, dt, rolls);
      var rest := EnemyPass(es[1..], p, level, dt, rolls[1..]);
      var moved := MoveEnemy(es[0], dt);
      var y := if rest.breach then es[0]
               else if Breach(moved, level) then moved
               else FireEnemy(moved, p, dt, rolls[0]).enemy;
      assert r.enemies == [y] + rest.enemies;
      KindsCons(y, rest.enemies);
      KindsHead(es);
      forall k | 0 <= k < |es| ensures r.enemies[k].hp == es[k].hp {
        if k > 0 {
          assert r.enemies[k] == rest.enemies[k - 1] && es[k] == es[1..][k - 1];
        }
      }
    }
  }

  /** Without a breach every enemy has made its move: its rectangle is where MoveEnemy
      takes it (firing changes only its timer). */
  lemma {:induction false} PassMovesAll(es: seq<Enemy>, p: Player, level: int, dt: real, rolls: seq<Roll>)
    requires |rolls| == |es|
    ensures var r := EnemyPass(es, p, level, dt, rolls);
            !r.breach ==> forall k :: 0 <= k < |es| ==>
              EnemyRect(r.enemies[k]) == EnemyRect(MoveEnemy(es[k], dt))
    decreases |es|
  {
    if es != [] {
      PassMovesAll(es[1..], p, level, dt, rolls[1..]);
      var r := EnemyPass(es, p, level, dt, rolls);
      var rest := EnemyPass(es[1..], p, level, dt, rolls[1..]);
      if !r.breach {
        forall k | 0 <= k < |es| ensures EnemyRect(r.enemies[k]) == EnemyRect(MoveEnemy(es[k], dt)) {
          if k > 0 {
            assert r.enemies[k] == rest.enemies[k - 1] && es[k] == es[1..][k - 1];
          }
        }
      }
    }
  }

  /** Once the pass over a suffix has breached, the elements before it are left alone. */
  lemma {:induction false} BreachStops(es: seq<Enemy>, p: Player, level: int, dt: real, rolls: seq<Roll>, i: nat)
    requires |rolls| == |es| && i <= |es|
    requires EnemyPass(es[i..], p, level, dt, rolls[i..]).breach
    ensures EnemyPass(es, p, level, dt, rolls) ==
              var tail := EnemyPass(es[i..], p, level, dt, rolls[i..]);
              Pass(es[..i] + tail.enemies, tail.shots, true)
    decreases i
  {
    if i == 0 {
      assert es[0..] == es && rolls[0..] == rolls;
      assert es[..0] + EnemyPass(es, p, level, dt, rolls).enemies == EnemyPass(es, p, level, dt, rolls).enemies;
    } else {
      var tail := EnemyPass(es[i..], p, level, dt, rolls[i..]);
      assert es[1..][i - 1..] == es[i..] && rolls[1..][i - 1..] == rolls[i..];
      BreachStops(es[1..], p, level, dt, rolls[1..], i - 1);
      var rest := EnemyPass(es[1..], p, level, dt, rolls[1..]);
      assert rest == Pass(es[1..][..i - 1] + tail.enemies, tail.shots, true);
      assert EnemyPass(es, p, level, dt, rolls) == Pass([es[0]] + rest.enemies, rest.shots, true);
      assert es[..i] == [es[0]] + es[1..][..i - 1];
      ConsAppend(es[0], es[1..][..i - 1], tail.enemies);
    }
  }

  /** The enemy loop of update. */
  method MoveEnemies(es: seq<Enemy>, p: Player, level: int, dt: real, rolls: seq<Roll>)
    returns (r: seq<Enemy>, shots: seq<Bullet>, breach: bool)
    requires |rolls| == |es|
    ensures Pass(r, shots, breach) == EnemyPass(es, p, level, dt, rolls)
  {
    r, shots, breach := es, [], false;
    var i := |es|;
    assert es[i..] == [] && rolls[i..] == [];
    while i > 0 && !breach
      invariant 0 <= i <= |es| && |r| == |es|
      invariant r[..i] == es[..i]
      invariant Pass(r[i..], shots, breach) == EnemyPass(es[i..], p, level, dt, rolls[i..])
    {
      i := i - 1;
      Uncons(es, i);
      Uncons(rolls, i);
      PrefixShrink(r, es, i);
      var moved := MoveEnemy(r[i], dt);
      if Breach(moved, level) {
        UpdateAt(r, i, moved);
        r := r[i := moved];
        breach := true;
      } else {
        var f := FireEnemy(moved, p, dt, rolls[i]);
        UpdateAt(r, i, f.enemy);
        r := r[i := f.enemy];
        shots := shots + f.shots;
      }
    }
    if breach {
      BreachStops(es, p, level, dt, rolls, i);
      Split(r, i);
    } else {
      assert es[0..] == es && rolls[0..] == rolls && r[0..] == r;
    }
  }

  /** Robots and the boss (at most 948px wide) end every pass between the 6px margins,
      drones (at most 944px wide) between the 8px margins, unless a breach stopped the pass. */
  lemma {:induction false} PassKeepsEnemiesInside(es: seq<Enemy>, p: Player, level: int, dt: real, rolls: seq<Roll>)
    requires |rolls| == |es|
    requires forall k :: 0 <= k < |es| ==> es[k].w <= CanvasWidth - 2.0 * WallMargin(es[k].kind)
    ensures var r := EnemyPass(es, p, level, dt, rolls);
            !r.breach ==> forall k :: 0 <= k < |es| ==>
              WallMargin(es[k].kind) <= r.enemies[k].x <= CanvasWidth - WallMargin(es[k].kind) - es[k].w
  {
    var r := EnemyPass(es, p, level, dt, rolls);
    PassMovesAll(es, p, level, dt, rolls);
    if !r.breach {
      forall k | 0 <= k < |es|
        ensures WallMargin(es[k].kind) <= r.enemies[k].x <= CanvasWidth - WallMargin(es[k].kind) - es[k].w
      {
        assert EnemyRect(r.enemies[k]) == EnemyRect(MoveEnemy(es[k], dt));
      }
    }
  }

  /** A breach names a real drone: some drone of the input, once moved, is within 6px of
      the ground, and the game is in level 1. */
  lemma {:induction false} BreachHasCause(es: seq<Enemy>, p: Player, level: int, dt: real, rolls: seq<Roll>)
    requires |rolls| == |es|
    ensures EnemyPass(es, p, level, dt, rolls).breach ==>
              exists k :: 0 <= k < |es| && Breach(MoveEnemy(es[k], dt), level)
  {
    if es != [] {
      BreachHasCause(es[1..], p, level, dt, rolls[1..]);
      if EnemyPass(es[1..], p, level, dt, rolls[1..]).breach {
        var k :| 0 <= k < |es[1..]| && Breach(MoveEnemy(es[1..][k], dt), level);
        assert es[k + 1] == es[1..][k];
      }
    }
  }

  /** The converse: a drone that, once moved, is within 6px of the ground in level 1 makes
      the pass breach, wherever it stands in the array. */
  lemma {:induction false} BreachIfCause(es: seq<Enemy>, p: Player, level: int, dt: real, rolls: seq<Roll>, k: nat)
    requires |rolls| == |es| && k < |es|
    requires Breach(MoveEnemy(es[k], dt), level)
    ensures EnemyPass(es, p, level, dt, rolls).breach
    decreases |es|
  {
    if k > 0 {
      assert es[1..][k - 1] == es[k];
      BreachIfCause(es[1..], p, level, dt, rolls[1..], k - 1);
    }
  }

  /** Some drone of es, once moved, is within 6px of the ground in level 1. */
  predicate Grounded(es: seq<Enemy>, dt: real, level: int) {
    exists k :: 0 <= k < |es| && Breach(MoveEnemy(es[k], dt), level)
  }

  /** The level-1 loss rule in both directions: the pass breaches exactly when some drone,
      once moved, reaches the ground in level 1. */
  lemma BreachIff(es: seq<Enemy>, p: Player, level: int, dt: real, rolls: seq<Roll>)
    requires |rolls| == |es|
    ensures EnemyPass(es, p, level, dt, rolls).breach <==> Grounded(es, dt, level)
  {
    BreachHasCause(es, p, level, dt, rolls);
    if Grounded(es, dt, level) {
      var k :| 0 <= k < |es| && Breach(MoveEnemy(es[k], dt), level);
      BreachIfCause(es, p, level, dt, rolls, k);
    }
  }
}
