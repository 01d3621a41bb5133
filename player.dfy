/** Player input handling: horizontal movement with clamping, and firing (shoot). */
module PlayerControl {
  import opened Geometry
  import opened Entities

  /** The live key map filled in by the input listeners; a key never seen reads as released. */
  type Keys = map<string, bool>

  predicate Pressed(keys: Keys, k: string) {
    k in keys && keys[k]
  }

  predicate LeftHeld(keys: Keys) {
    Pressed(keys, "ArrowLeft") || Pressed(keys, "a")
  }

  predicate RightHeld(keys: Keys) {
    Pressed(keys, "ArrowRight") || Pressed(keys, "d")
  }

  predicate FireHeld(keys: Keys) {
    Pressed(keys, " ") || Pressed(keys, "Spacebar")
  }

  /** Math.max(lo, Math.min(hi, v)). */
  function Clamp(v: real, lo: real, hi: real): (r: real)
    ensures lo <= hi ==> lo <= r <= hi
    ensures lo <= v <= hi ==> r == v
    ensures lo <= hi && v < lo ==> r == lo
    ensures lo <= hi && hi < v ==> r == hi
  {
    Max(lo, Min(hi, v))
  }

  /** Where the keys alone would take the player: left moves by -speed*dt, right by
      +speed*dt, both cancel out. */
  function Steered(p: Player, left: bool, right: bool, dt: real): (x: real)
    ensures left == right ==> x == p.x
    ensures left && !right ==> x == p.x - p.speed * dt
    ensures right && !left ==> x == p.x + p.speed * dt
  {
    var x := if left then p.x - p.speed * dt else p.x;
    if right then x + p.speed * dt else x
  }

  /** The movement step of update: steer, then clamp to [0, CanvasWidth - w]. Only x changes. */
  function MovePlayer(p: Player, left: bool, right: bool, dt: real): (r: Player)
    ensures r == p.(x := r.x)
    ensures 0.0 <= r.x
    ensures p.w <= CanvasWidth ==> r.x <= CanvasWidth - p.w
    ensures 0.0 <= Steered(p, left, right, dt) <= CanvasWidth - p.w ==> r.x == Steered(p, left, right, dt)
    ensures left == right ==> r.x == Clamp(p.x, 0.0, CanvasWidth - p.w)
  {
    p.(x := Clamp(Steered(p, left, right, dt), 0.0, CanvasWidth - p.w))
  }

  /** Width and height of the player's bullet for a gun level. */
  function GunBulletSize(gunLevel: int): (r: (real, real))
    ensures 20.0 <= r.0 <= 36.0 && r.0 < r.1 <= 48.0
    ensures gunLevel <= 1 ==> r == (20.0, 36.0)
    ensures gunLevel == 2 ==> r == (28.0, 42.0)
    ensures gunLevel >= 3 ==> r == (36.0, 48.0)
  {
    if gunLevel >= 3 then (36.0, 48.0) else if gunLevel == 2 then (28.0, 42.0) else (20.0, 36.0)
  }

  /** Damage of the player's bullet for a gun level. */
  function GunDamage(gunLevel: int): (d: real)
    ensures 1.0 <= d <= 3.0
    ensures gunLevel <= 1 <==> d == 1.0
  {
    if gunLevel >= 3 then 3.0 else if gunLevel == 2 then 2.0 else 1.0
  }

  /** A higher gun level never does less damage. */
  lemma GunDamageMonotone(g1: int, g2: int)
    requires g1 <= g2
    ensures 1.0 <= GunDamage(g1) <= GunDamage(g2) <= 3.0
  {
  }

  /** What shoot leaves behind: the updated player and the bullet it appended, if any. */
  datatype Shot = Shot(player: Player, bullet: Option<Bullet>)

  /** shoot: nothing while the game is paused or for fireRate ms after the last shot;
      otherwise one friendly bullet, centred on the player, sized and powered by the gun
      level, flying right in level 2 and up in every other level. lastShot becomes now. */
  function Shoot(p: Player, level: int, running: bool, now: real): (r: Shot)
    ensures r.bullet.None? <==> (!running || now - p.lastShot < p.fireRate)
    ensures r.bullet.None? ==> r.player == p
    ensures r.bullet.Some? ==> r.player == p.(lastShot := now)
    ensures r.bullet.Some? ==>
      var b := r.bullet.value;
      && !b.enemy && !b.bossPower
      && b.damage == GunDamage(p.gunLevel) && b.damage > 0.0
      && b.x + b.w / 2.0 == p.x + p.w / 2.0
      && (level == 2 ==> b.vx == 520.0 && b.vy == 0.0 && b.y + b.h / 2.0 == p.y + p.h / 2.0)
      && (level != 2 ==> b.vx == 0.0 && b.vy == -520.0 && b.y == p.y)
    ensures r.bullet.Some? ==> (r.bullet.value.w, r.bullet.value.h) == GunBulletSize(p.gunLevel)
    ensures r.bullet.Some? && p.gunLevel <= 1 ==> r.bullet.value.damage == 1.0
    ensures r.bullet.Some? && p.gunLevel == 2 ==> r.bullet.value.damage == 2.0
    ensures r.bullet.Some? && p.gunLevel >= 3 ==> r.bullet.value.damage == 3.0
  {
    if !running || now - p.lastShot < p.fireRate then Shot(p, None)
    else
      var baseX := p.x + p.w / 2.0;
      var (bw, bh) := GunBulletSize(p.gunLevel);
      var dmg := GunDamage(p.gunLevel);
      var b :=
        if level == 2 then Bullet(baseX - bw / 2.0, p.y + p.h / 2.0 - bh / 2.0, bw, bh, 520.0, 0.0, dmg, false, false)
        else Bullet(baseX - bw / 2.0, p.y, bw, bh, 0.0, -520.0, dmg, false, false);
      Shot(p.(lastShot := now), Some(b))
  }
}
