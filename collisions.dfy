/** The two collision passes of update. Player bullets against enemies: each friendly bullet,
    last first, damages the highest-index enemy it overlaps and is consumed; an enemy whose
    hp drops to 0 or below is removed and scored. Hostile bullets against the player: each
    overlapping hostile bullet, last first, is consumed and subtracts its damage from the
    player's health; the pass stops at the hit that leaves health at 0 or below. */
module Collisions {
  import opened Geometry
  import opened Entities
  import opened SeqFacts

  /** The bullet overlaps the enemy. */
  predicate Hits(b: Bullet, e: Enemy) {
    RectsOverlap(BulletRect(b), EnemyRect(e))
  }

  /** The bullet overlaps no enemy of es. */
  predicate Clear(b: Bullet, es: seq<Enemy>) {
    forall i :: 0 <= i < |es| ==> !Hits(b, es[i])
  }

  /** The bullets of bs owned by enemies, in order. */
  function Hostile(bs: seq<Bullet>): seq<Bullet> {
    if bs == [] then [] else (if bs[0].enemy then [bs[0]] else []) + Hostile(bs[1..])
  }

  /** The bullets of bs owned by the player, in order. */
  function Friendly(bs: seq<Bullet>): seq<Bullet> {
    if bs == [] then [] else (if bs[0].enemy then [] else [bs[0]]) + Friendly(bs[1..])
  }

  /** The index of the last enemy the bullet overlaps, or -1 when it overlaps none. */
  function HighestOverlap(b: Bullet, es: seq<Enemy>): (k: int)
    ensures -1 <= k < |es|
    ensures k >= 0 ==> Hits(b, es[k])
    ensures forall j :: k < j < |es| ==> !Hits(b, es[j])
    decreases |es|
  {
    if es == [] then -1
    else if Hits(b, es[|es| - 1]) then |es| - 1
    else HighestOverlap(b, es[..|es| - 1])
  }

  /** The inner enemy loop of the player-bullet pass: scan from the last enemy down and
      stop at the first overlap. */
  method FindTarget(b: Bullet, es: seq<Enemy>) returns (k: int)
    ensures -1 <= k < |es|
    ensures k >= 0 ==> Hits(b, es[k])
    ensures forall j :: k < j < |es| ==> !Hits(b, es[j])
  {
    k := |es| - 1;
    while k >= 0 && !Hits(b, es[k])
      invariant -1 <= k < |es|
      invariant forall j :: k < j < |es| ==> !Hits(b, es[j])
    {
      k := k - 1;
    }
  }

  /** The damaged enemy: hp less the bullet's damage; a boss also starts its 14-frame flash. */
  function Damage(e: Enemy, b: Bullet): (d: Enemy)
    ensures d == e.(hp := d.hp, blink := d.blink)
    ensures d.hp == e.hp - EffectiveDamage(b)
    ensures b.damage > 0.0 ==> d.hp < e.hp
    ensures d.blink == (if e.kind == Boss then 14 else e.blink)
  {
    e.(hp := e.hp - EffectiveDamage(b), blink := if e.kind == Boss then 14 else e.blink)
  }

  /** What one bullet does to the enemies: whether it was consumed, the enemies after it,
      and the kinds it killed (none or one). */
  datatype StrikeResult = StrikeResult(consumed: bool, enemies: seq<Enemy>, killed: seq<Kind>)

  /** The body of the player-bullet pass for one bullet. */
  function Strike(b: Bullet, es: seq<Enemy>): (r: StrikeResult)
    ensures r.consumed <==> !b.enemy && exists j :: 0 <= j < |es| && Hits(b, es[j])
    ensures !r.consumed ==> r.enemies == es && r.killed == []
    ensures r.consumed ==>
      var k := HighestOverlap(b, es);
      && 0 <= k < |es|
      && (Damage(es[k], b).hp <= 0.0 ==> r.enemies == es[..k] + es[k + 1..] && r.killed == [es[k].kind])
      && (Damage(es[k], b).hp > 0.0 ==> r.enemies == es[k := Damage(es[k], b)] && r.killed == [])
  {
    if b.enemy then StrikeResult(false, es, [])
    else
      var k := HighestOverlap(b, es);
      if k < 0 then StrikeResult(false, es, [])
      else
        var d := Damage(es[k], b);
        if d.hp <= 0.0 then StrikeResult(true, es[..k] + es[k + 1..], [d.kind])
        else StrikeResult(true, es[k := d], [])
  }

  /** A strike removes an enemy only by killing it: the kinds left plus the kinds killed
      are the kinds before. */
  lemma StrikeKinds(b: Bullet, es: seq<Enemy>)
    ensures var r := Strike(b, es);
            multiset(KindsOf(r.enemies)) + multiset(r.killed) == multiset(KindsOf(es))
  {
    var r := Strike(b, es);
    if r.consumed {
      var k := HighestOverlap(b, es);
      var d := Damage(es[k], b);
      KindsOfRemove(es, k);
      assert KindsOf(es[k := d]) == KindsOf(es);
    }
  }

  /** Enemies never move during the pass, so a bullet clear of every enemy stays clear. */
  lemma StrikeKeepsClear(b: Bullet, es: seq<Enemy>, c: Bullet)
    requires Clear(c, es)
    ensures Clear(c, Strike(b, es).enemies)
  {
    var r := Strike(b, es);
    if r.consumed {
      var k := HighestOverlap(b, es);
      var d := Damage(es[k], b);
      if d.hp <= 0.0 {
        forall i | 0 <= i < |r.enemies| ensures !Hits(c, r.enemies[i]) {
          if i < k { assert r.enemies[i] == es[i]; } else { assert r.enemies[i] == es[i + 1]; }
        }
      } else {
        assert EnemyRect(d) == EnemyRect(es[k]);
        forall i | 0 <= i < |r.enemies| ensures !Hits(c, r.enemies[i]) {
          if i == k { assert EnemyRect(r.enemies[i]) == EnemyRect(es[k]); }
        }
      }
    }
  }

  /** The bullets left, the enemies left and the kinds killed, in kill order. */
  datatype Outcome = Outcome(bullets: seq<Bullet>, enemies: seq<Enemy>, killed: seq<Kind>)

  /** The player-bullet pass over bs, last bullet first: the first bullet meets the enemies
      the rest of the pass left behind. */
  function PlayerBulletPass(bs: seq<Bullet>, es: seq<Enemy>): (r: Outcome)
    ensures |r.bullets| <= |bs|
    decreases |bs|
  {
    if bs == [] then Outcome([], es, [])
    else
      var rest := PlayerBulletPass(bs[1..], es);
      var s := Strike(bs[0], rest.enemies);
      Outcome((if s.consumed then [] else [bs[0]]) + rest.bullets, s.enemies, rest.killed + s.killed)
  }

  /** The pass removes only enemies it kills: the kinds left plus the kinds killed are the
      kinds of the input enemies. */
  lemma {:induction false} PassKinds(bs: seq<Bullet>, es: seq<Enemy>)
    ensures var r := PlayerBulletPass(bs, es);
            multiset(KindsOf(r.enemies)) + multiset(r.killed) == multiset(KindsOf(es))
    decreases |bs|
  {
    if bs != [] {
      PassKinds(bs[1..], es);
      StrikeKinds(bs[0], PlayerBulletPass(bs[1..], es).enemies);
    }
  }

  /** Every enemy removed is a kill, and no bullet is added: the bullets left are a
      selection of the input bullets. */
  lemma {:induction false} PassCounts(bs: seq<Bullet>, es: seq<Enemy>)
    ensures var r := PlayerBulletPass(bs, es);
            && |r.enemies| + |r.killed| == |es|
            && |r.bullets| <= |bs|
            && (forall b :: b in r.bullets ==> b in bs)
    decreases |bs|
  {
    PassKinds(bs, es);
    if bs != [] {
      PassCounts(bs[1..], es);
      PassKinds(bs[1..], es);
      var r := PlayerBulletPass(bs, es);
      var rest := PlayerBulletPass(bs[1..], es);
      var s := Strike(bs[0], rest.enemies);
      StrikeKinds(bs[0], rest.enemies);
      assert |multiset(KindsOf(s.enemies))| + |multiset(s.killed)| == |multiset(KindsOf(rest.enemies))|;
      forall b | b in r.bullets ensures b in bs {
        if b != bs[0] { assert b in rest.bullets; }
      }
    }
  }

  /** Hostile bullets pass through untouched, in the same order. */
  lemma {:induction false} PassKeepsHostile(bs: seq<Bullet>, es: seq<Enemy>)
    ensures Hostile(PlayerBulletPass(bs, es).bullets) == Hostile(bs)
    decreases |bs|
  {
    if bs != [] {
      PassKeepsHostile(bs[1..], es);
      var rest := PlayerBulletPass(bs[1..], es);
      var s := Strike(bs[0], rest.enemies);
      var r := PlayerBulletPass(bs, es);
      if s.consumed {
        assert r.bullets == rest.bullets;
      } else {
        assert r.bullets == [bs[0]] + rest.bullets;
        assert r.bullets[0] == bs[0] && r.bullets[1..] == rest.bullets;
      }
    }
  }

  lemma {:induction false} PassKeepsClear(bs: seq<Bullet>, es: seq<Enemy>, c: Bullet)
    requires Clear(c, es)
    ensures Clear(c, PlayerBulletPass(bs, es).enemies)
    decreases |bs|
  {
    if bs != [] {
      PassKeepsClear(bs[1..], es, c);
      StrikeKeepsClear(bs[0], PlayerBulletPass(bs[1..], es).enemies, c);
    }
  }

  /** A bullet survives the pass when it is hostile or overlaps no enemy: a friendly bullet
      is removed only if it overlaps some enemy. */
  lemma {:induction false} PassSparesMisses(bs: seq<Bullet>, es: seq<Enemy>, j: nat)
    requires j < |bs|
    requires bs[j].enemy || Clear(bs[j], es)
    ensures bs[j] in PlayerBulletPass(bs, es).bullets
    decreases |bs|
  {
    var rest := PlayerBulletPass(bs[1..], es);
    if j == 0 {
      if !bs[0].enemy {
        PassKeepsClear(bs[1..], es, bs[0]);
      }
    } else {
      assert bs[1..][j - 1] == bs[j];
      PassSparesMisses(bs[1..], es, j - 1);
    }
  }

  /** One step of the pass, read from the end of a suffix. */
  lemma PassUnfold(bs: seq<Bullet>, es: seq<Enemy>, i: nat)
    requires 0 < i <= |bs|
    ensures PlayerBulletPass(bs[i - 1..], es) ==
              var rest := PlayerBulletPass(bs[i..], es);
              var s := Strike(bs[i - 1], rest.enemies);
              Outcome((if s.consumed then [] else [bs[i - 1]]) + rest.bullets, s.enemies, rest.killed + s.killed)
  {
    assert bs[i - 1..][1..] == bs[i..];
  }

  /** The inner enemy loop of the player-bullet pass for one friendly bullet, with its
      damage, death and kill handling. */
  method StrikeEnemies(b: Bullet, es: seq<Enemy>) returns (hit: bool, r: seq<Enemy>, killed: seq<Kind>)
    requires !b.enemy
    ensures StrikeResult(hit, r, killed) == Strike(b, es)
  {
    var k := FindTarget(b, es);
    assert k == HighestOverlap(b, es);
    hit, r, killed := false, es, [];
    if k >= 0 {
      var e := Damage(es[k], b);
      hit := true;
      if e.hp <= 0.0 {
        r := es[..k] + es[k + 1..];
        killed := [e.kind];
      } else {
        r := es[k := e];
      }
    }
  }

  /** The outer loop of the player-bullet pass. */
  method ResolvePlayerBullets(bs: seq<Bullet>, es: seq<Enemy>)
    returns (rb: seq<Bullet>, re: seq<Enemy>, killed: seq<Kind>)
    ensures Outcome(rb, re, killed) == PlayerBulletPass(bs, es)
  {
    rb, re, killed := bs, es, [];
    var i := |bs|;
    assert bs[i..] == [] && rb[i..] == [];
    while i > 0
      invariant 0 <= i <= |bs| && i <= |rb|
      invariant rb[..i] == bs[..i]
      invariant Outcome(rb[i..], re, killed) == PlayerBulletPass(bs[i..], es)
    {
      i := i - 1;
      PassUnfold(bs, es, i + 1);
      SpliceAt(rb, i);
      assert rb[i] == bs[i];
      var b := rb[i];
      if b.enemy {
        continue;
      }
      var hit, left, dead := StrikeEnemies(b, re);
      if hit {
        rb := rb[..i] + rb[i + 1..];
      }
      re, killed := left, killed + dead;
    }
    assert bs[0..] == bs && rb[0..] == rb;
  }

  /** Sum of the effective damage of a sequence of bullets. */
  function TotalDamage(bs: seq<Bullet>): (t: real)
    ensures PositiveDamage(bs) ==> t >= 0.0
  {
    if bs == [] then 0.0 else TotalDamage(bs[..|bs| - 1]) + EffectiveDamage(bs[|bs| - 1])
  }

  /** The bullets left, the player's health, the bullets that hit (in hit order), and
      whether a hit left health at 0 or below (which ends the game and the pass). */
  datatype Hurt = Hurt(bullets: seq<Bullet>, health: real, struck: seq<Bullet>, died: bool)

  /** The hostile-bullet pass over bs against the player's rectangle, last bullet first. */
  function HostilePass(bs: seq<Bullet>, pr: Rect, health: real): (r: Hurt)
    ensures |r.bullets| + |r.struck| == |bs|
    decreases |bs|
  {
    if bs == [] then Hurt([], health, [], false)
    else
      var rest := HostilePass(bs[1..], pr, health);
      if rest.died then Hurt([bs[0]] + rest.bullets, rest.health, rest.struck, true)
      else if bs[0].enemy && RectsOverlap(BulletRect(bs[0]), pr) then
        var h := rest.health - EffectiveDamage(bs[0]);
        Hurt(rest.bullets, h, rest.struck + [bs[0]], h <= 0.0)
      else Hurt([bs[0]] + rest.bullets, rest.health, rest.struck, false)
  }

  /** Health falls by exactly the damage of the bullets that hit; the pass ends the game
      only after a hit that leaves health at 0 or below, and a hit that does not end it
      leaves health above 0. */
  lemma {:induction false} HostileHealth(bs: seq<Bullet>, pr: Rect, health: real)
    ensures var r := HostilePass(bs, pr, health);
            && r.health == health - TotalDamage(r.struck)
            && (r.died ==> r.struck != [] && r.health <= 0.0)
            && (r.struck != [] && !r.died ==> r.health > 0.0)
    decreases |bs|
  {
    if bs != [] {
      HostileHealth(bs[1..], pr, health);
      var rest := HostilePass(bs[1..], pr, health);
      if !rest.died && bs[0].enemy && RectsOverlap(BulletRect(bs[0]), pr) {
        var struck := rest.struck + [bs[0]];
        assert struck[..|struck| - 1] == rest.struck;
      }
    }
  }

  /** The pass only splits the bullets: those left plus those that hit are the input, and
      each that hit is a hostile bullet overlapping the player. */
  lemma {:induction false} HostileSplit(bs: seq<Bullet>, pr: Rect, health: real)
    ensures var r := HostilePass(bs, pr, health);
            && multiset(r.bullets) + multiset(r.struck) == multiset(bs)
            && (forall b :: b in r.struck ==> b.enemy && RectsOverlap(BulletRect(b), pr))
    decreases |bs|
  {
    if bs != [] {
      HostileSplit(bs[1..], pr, health);
      var rest := HostilePass(bs[1..], pr, health);
      var r := HostilePass(bs, pr, health);
      assert bs == [bs[0]] + bs[1..];
      assert multiset(bs) == multiset{bs[0]} + multiset(bs[1..]);
      if rest.died || !(bs[0].enemy && RectsOverlap(BulletRect(bs[0]), pr)) {
        assert r.bullets == [bs[0]] + rest.bullets && r.struck == rest.struck;
        assert multiset(r.bullets) == multiset{bs[0]} + multiset(rest.bullets);
      } else {
        assert r.bullets == rest.bullets && r.struck == rest.struck + [bs[0]];
        assert multiset(r.struck) == multiset(rest.struck) + multiset{bs[0]};
      }
    }
  }

  /** Unless the player died, no hostile bullet overlapping the player is left. */
  lemma {:induction false} HostileClearsHits(bs: seq<Bullet>, pr: Rect, health: real)
    ensures var r := HostilePass(bs, pr, health);
            !r.died ==> forall b :: b in r.bullets ==> !(b.enemy && RectsOverlap(BulletRect(b), pr))
    decreases |bs|
  {
    if bs != [] {
      HostileClearsHits(bs[1..], pr, health);
    }
  }

  /** Player bullets pass through untouched, in the same order. */
  lemma {:induction false} HostileKeepsFriendly(bs: seq<Bullet>, pr: Rect, health: real)
    ensures Friendly(HostilePass(bs, pr, health).bullets) == Friendly(bs)
    decreases |bs|
  {
    if bs != [] {
      HostileKeepsFriendly(bs[1..], pr, health);
      var rest := HostilePass(bs[1..], pr, health);
      assert ([bs[0]] + rest.bullets)[1..] == rest.bullets;
    }
  }

  /** With positive damages health never rises, and the bullets left still do positive damage. */
  lemma HostileNeverHeals(bs: seq<Bullet>, pr: Rect, health: real)
    requires PositiveDamage(bs)
    ensures var r := HostilePass(bs, pr, health);
            r.health <= health && PositiveDamage(r.bullets)
  {
    var r := HostilePass(bs, pr, health);
    HostileSplit(bs, pr, health);
    HostileHealth(bs, pr, health);
    forall i | 0 <= i < |r.struck| ensures r.struck[i].damage > 0.0 {
      assert r.struck[i] in multiset(bs);
    }
    forall i | 0 <= i < |r.bullets| ensures r.bullets[i].damage > 0.0 {
      assert r.bullets[i] in multiset(bs);
    }
  }

  /** Once the pass over a suffix has ended the game, the bullets before it are left alone. */
  lemma {:induction false} DeathStops(bs: seq<Bullet>, pr: Rect, health: real, i: nat)
    requires i <= |bs|
    requires HostilePass(bs[i..], pr, health).died
    ensures HostilePass(bs, pr, health) ==
              var tail := HostilePass(bs[i..], pr, health);
              Hurt(bs[..i] + tail.bullets, tail.health, tail.struck, true)
    decreases i
  {
    if i == 0 {
      assert bs[0..] == bs;
      assert bs[..0] + HostilePass(bs, pr, health).bullets == HostilePass(bs, pr, health).bullets;
    } else {
      var tail := HostilePass(bs[i..], pr, health);
      assert bs[1..][i - 1..] == bs[i..];
      DeathStops(bs[1..], pr, health, i - 1);
      var rest := HostilePass(bs[1..], pr, health);
      assert rest == Hurt(bs[1..][..i - 1] + tail.bullets, tail.health, tail.struck, true);
      assert HostilePass(bs, pr, health) == Hurt([bs[0]] + rest.bullets, rest.health, rest.struck, true);
      assert bs[..i] == [bs[0]] + bs[1..][..i - 1];
      ConsAppend(bs[0], bs[1..][..i - 1], tail.bullets);
    }
  }

  /** One step of the hostile pass, read from the end of a suffix. */
  lemma HostileUnfold(bs: seq<Bullet>, pr: Rect, health: real, i: nat)
    requires 0 < i <= |bs|
    ensures HostilePass(bs[i - 1..], pr, health) ==
              var rest := HostilePass(bs[i..], pr, health);
              var b := bs[i - 1];
              if rest.died then Hurt([b] + rest.bullets, rest.health, rest.struck, true)
              else if b.enemy && RectsOverlap(BulletRect(b), pr) then
                var h := rest.health - EffectiveDamage(b);
                Hurt(rest.bullets, h, rest.struck + [b], h <= 0.0)
              else Hurt([b] + rest.bullets, rest.health, rest.struck, false)
  {
    assert bs[i - 1..][1..] == bs[i..];
  }

  /** The hostile-bullet loop of update; it returns at the first hit that leaves
      health at 0 or below. */
  method HitPlayer(bs: seq<Bullet>, pr: Rect, health: real)
    returns (rb: seq<Bullet>, h: real, struck: seq<Bullet>, died: bool)
    ensures Hurt(rb, h, struck, died) == HostilePass(bs, pr, health)
  {
    rb, h, struck, died := bs, health, [], false;
    var i := |bs|;
    assert bs[i..] == [] && rb[i..] == [];
    while i > 0 && !died
      invariant 0 <= i <= |bs| && i <= |rb|
      invariant rb[..i] == bs[..i]
      invariant Hurt(rb[i..], h, struck, died) == HostilePass(bs[i..], pr, health)
    {
      i := i - 1;
      HostileUnfold(bs, pr, health, i + 1);
      SpliceAt(rb, i);
      assert rb[i] == bs[i];
      var b := rb[i];
      if b.enemy && RectsOverlap(BulletRect(b), pr) {
        h := h - EffectiveDamage(b);
        rb := rb[..i] + rb[i + 1..];
        struck := struck + [b];
        if h <= 0.0 {
          died := true;
        }
      }
    }
    if died {
      DeathStops(bs, pr, health, i);
      assert rb == rb[..i] + rb[i..];
    } else {
      assert bs[0..] == bs && rb[0..] == rb;
    }
  }
}
