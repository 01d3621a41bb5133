/** The records of the game (player, bullets, enemies), the canvas constants and the
    factories that create them. Random values are passed in as draws of Math.random(). */
module Entities {
  import opened Geometry

  const CanvasWidth: real := 960.0
  const CanvasHeight: real := 600.0

  datatype Option<T> = None | Some(value: T)

  /** A value that Math.random() can return. */
  predicate Unit(r: real) {
    0.0 <= r < 1.0
  }

  /** The player ship. fireRate and lastShot are milliseconds of the Date.now() clock. */
  datatype Player = Player(
    x: real, y: real, w: real, h: real,
    speed: real,
    health: real, maxHealth: real,
    fireRate: real, lastShot: real,
    gunLevel: int)

  /** A projectile; `enemy` is true for bullets that hurt the player. */
  datatype Bullet = Bullet(
    x: real, y: real, w: real, h: real,
    vx: real, vy: real,
    damage: real,
    enemy: bool,
    bossPower: bool)

  datatype Kind = Drone | Robot | Boss

  /** An enemy of any kind. Robots and the boss have no vertical speed (vy is 0 for them);
      maxHp and blink are used by the boss only (0 for the others). */
  datatype Enemy = Enemy(
    kind: Kind,
    x: real, y: real, w: real, h: real,
    vx: real, vy: real,
    hp: real,
    shootTimer: real,
    maxHp: real,
    blink: int)

  function PlayerRect(p: Player): Rect {
    Rect(p.x, p.y, p.w, p.h)
  }

  function BulletRect(b: Bullet): Rect {
    Rect(b.x, b.y, b.w, b.h)
  }

  function EnemyRect(e: Enemy): Rect {
    Rect(e.x, e.y, e.w, e.h)
  }

  /** `b.damage || 1`: a zero damage counts as 1. */
  function EffectiveDamage(b: Bullet): (d: real)
    ensures b.damage > 0.0 ==> d == b.damage
    ensures d != 0.0
  {
    if b.damage != 0.0 then b.damage else 1.0
  }

  /** Every bullet in the sequence does positive damage. */
  predicate PositiveDamage(bs: seq<Bullet>) {
    forall b :: b in bs ==> b.damage > 0.0
  }

  /** Points awarded for destroying an enemy of the given kind. */
  function ScoreValue(k: Kind): (v: nat)
    ensures 100 <= v <= 1000
    ensures v == 1000 <==> k == Boss
  {
    match k
    case Boss => 1000
    case Robot => 200
    case Drone => 100
  }

  /** Total points for a sequence of destroyed enemies. */
  function ScoreOf(ks: seq<Kind>): (s: nat)
    ensures 100 * |ks| <= s <= 1000 * |ks|
    ensures Boss in ks ==> s >= 1000
  {
    if ks == [] then 0 else ScoreValue(ks[0]) + ScoreOf(ks[1..])
  }

  /** The kinds of a sequence of enemies, index by index. */
  function KindsOf(es: seq<Enemy>): seq<Kind> {
    seq(|es|, i requires 0 <= i < |es| => es[i].kind)
  }

  /** How many enemies of kind k the sequence holds. */
  function CountKind(es: seq<Enemy>, k: Kind): nat {
    multiset(KindsOf(es))[k]
  }

  lemma KindsCons(e: Enemy, es: seq<Enemy>)
    ensures KindsOf([e] + es) == [e.kind] + KindsOf(es)
  {
  }

  lemma KindsHead(es: seq<Enemy>)
    requires es != []
    ensures KindsOf(es) == [es[0].kind] + KindsOf(es[1..])
  {
  }

  /** A single enemy counts once, for its own kind. */
  lemma CountSingle(e: Enemy, k: Kind)
    ensures CountKind([e], k) == (if e.kind == k then 1 else 0)
  {
    assert KindsOf([e]) == [e.kind];
  }

  /** Appending one enemy adds one to the count of its kind and leaves the others. */
  lemma CountAppend(es: seq<Enemy>, e: Enemy, k: Kind)
    ensures CountKind(es + [e], k) == CountKind(es, k) + (if e.kind == k then 1 else 0)
  {
    assert KindsOf(es + [e]) == KindsOf(es) + [e.kind];
  }

  lemma KindsOfRemove(es: seq<Enemy>, k: nat)
    requires k < |es|
    ensures KindsOf(es[..k] + es[k + 1..]) == KindsOf(es)[..k] + KindsOf(es)[k + 1..]
    ensures multiset(KindsOf(es[..k] + es[k + 1..])) + multiset{es[k].kind} == multiset(KindsOf(es))
  {
    var ks := KindsOf(es);
    assert ks == ks[..k] + [ks[k]] + ks[k + 1..];
  }

  /** makePlayer: a 192x192 ship centred horizontally 24px above the bottom edge, with
      4 of 6 health points, gun level 1, firing at most every 300 ms. */
  function MakePlayer(): (p: Player)
    ensures p.x + p.w / 2.0 == CanvasWidth / 2.0
    ensures 0.0 <= p.x <= CanvasWidth - p.w
    ensures p.y + p.h == CanvasHeight - 24.0
    ensures p.w == 192.0 && p.h == 192.0 && p.speed == 300.0
    ensures p.health == 4.0 && p.maxHealth == 6.0
    ensures p.fireRate == 300.0 && p.lastShot == 0.0 && p.gunLevel == 1
  {
    var w, h := 192.0, 192.0;
    Player(Max(8.0, CanvasWidth / 2.0 - w / 2.0), CanvasHeight - h - 24.0, w, h,
           300.0, 4.0, 6.0, 300.0, 0.0, 1)
  }

  /** The Math.random() values spawnDrone draws, in the order it draws them. */
  datatype DroneDraw = DroneDraw(x: real, y: real, side: real, speed: real, fall: real, timer: real)

  predicate ValidDroneDraw(d: DroneDraw) {
    Unit(d.x) && Unit(d.y) && Unit(d.side) && Unit(d.speed) && Unit(d.fall) && Unit(d.timer)
  }

  /** The enemy spawnDrone appends: a 100x72 drone with 1 hp above the screen, drifting
      sideways at 10 to 30 px/s in a random direction and falling at 20 to 40 px/s,
      first shot after 4 to 7 s. */
  function NewDrone(d: DroneDraw): (e: Enemy)
    ensures e.kind == Drone && e.hp == 1.0 && e.w == 100.0 && e.h == 72.0
    ensures ValidDroneDraw(d) ==> 0.0 <= e.x < CanvasWidth - e.w
    ensures ValidDroneDraw(d) ==> -150.0 < e.y <= -10.0
    ensures ValidDroneDraw(d) ==> (10.0 <= e.vx < 30.0 || -30.0 < e.vx <= -10.0)
    ensures ValidDroneDraw(d) ==> (e.vx < 0.0 <==> d.side < 0.5)
    ensures ValidDroneDraw(d) ==> 20.0 <= e.vy < 40.0
    ensures ValidDroneDraw(d) ==> 4.0 <= e.shootTimer < 7.0
  {
    var w, h := 100.0, 72.0;
    var speed := (20.0 + d.speed * 40.0) * 0.5;
    Enemy(Drone,
          d.x * (CanvasWidth - w), -(10.0 + d.y * 140.0), w, h,
          if d.side < 0.5 then -speed else speed, (40.0 + d.fall * 40.0) * 0.5,
          1.0, 4.0 + d.timer * 3.0, 0.0, 0)
  }

  /** The Math.random() values spawnRobot draws: its speed, then its first shot delay. */
  datatype RobotDraw = RobotDraw(speed: real, timer: real)

  predicate ValidRobotDraw(d: RobotDraw) {
    Unit(d.speed) && Unit(d.timer)
  }

  /** The enemy spawnRobot appends: a 180x180 robot with 3 hp standing 40px above the bottom.
      In level 2 it starts just beyond the right edge moving left; in any other level just
      beyond the left edge moving right, at 70 to 110 px/s; first shot after 1 to 2.6 s. */
  function NewRobot(level: int, d: RobotDraw): (e: Enemy)
    ensures e.kind == Robot && e.hp == 3.0 && e.w == 180.0 && e.h == 180.0
    ensures e.y + e.h == CanvasHeight - 40.0 && e.vy == 0.0
    ensures level == 2 ==> e.x == CanvasWidth + 6.0
    ensures level != 2 ==> e.x + e.w == -6.0
    ensures ValidRobotDraw(d) && level == 2 ==> -110.0 < e.vx <= -70.0
    ensures ValidRobotDraw(d) && level != 2 ==> 70.0 <= e.vx < 110.0
    ensures ValidRobotDraw(d) ==> 1.0 <= e.shootTimer < 2.6
  {
    var w, h := 180.0, 180.0;
    var fromRight := level == 2;
    var speed := 70.0 + d.speed * 40.0;
    Enemy(Robot,
          if fromRight then CanvasWidth + 6.0 else -w - 6.0, CanvasHeight - h - 40.0, w, h,
          if fromRight then -speed else speed, 0.0,
          3.0, 1.0 + d.timer * 1.6, 0.0, 0)
  }

  /** The enemy spawnBoss appends: a 220x200 boss centred horizontally at y = 50 with
      60 of 60 hp, moving right at 140 px/s, first volley after 1 s. */
  function NewBoss(): (e: Enemy)
    ensures e.kind == Boss && e.hp == e.maxHp == 60.0
    ensures e.x + e.w / 2.0 == CanvasWidth / 2.0 && e.y == 50.0
    ensures e.w == 220.0 && e.h == 200.0
    ensures e.vx == 140.0 && e.shootTimer == 1.0 && e.blink == 0
  {
    var w, h := 220.0, 200.0;
    Enemy(Boss, (CanvasWidth - w) / 2.0, 50.0, w, h, 140.0, 0.0, 60.0, 1.0, 60.0, 0)
  }
}
