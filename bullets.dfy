/** The bullet pass of update: every bullet moves by v*dt, and a bullet more than 200px
    outside the canvas is spliced out, walking the array from the end. */
module BulletMotion {
  import opened Entities
  import opened SeqFacts

  const Margin: real := 200.0

  function Advance(b: Bullet, dt: real): (r: Bullet)
    ensures r == b.(x := r.x, y := r.y)
  {
    b.(x := b.x + b.vx * dt, y := b.y + b.vy * dt)
  }

  /** The culling test of the bullet pass. */
  predicate OutOfField(b: Bullet) {
    b.x < -Margin || b.x > CanvasWidth + Margin || b.y < -Margin || b.y > CanvasHeight + Margin
  }

  /** A bullet within 200px of the canvas on every side. */
  predicate InField(b: Bullet) {
    -Margin <= b.x <= CanvasWidth + Margin && -Margin <= b.y <= CanvasHeight + Margin
  }

  /** The culling test removes exactly the bullets that are not within the margin. */
  lemma OutOfFieldIff(b: Bullet)
    ensures OutOfField(b) <==> !InField(b)
  {
  }

  /** The bullets left by the pass, in their original order: each bullet advanced, and
      kept exactly when it is still within the margin. */
  function MoveAndCull(bs: seq<Bullet>, dt: real): (r: seq<Bullet>)
    ensures |r| <= |bs|
    ensures forall k :: 0 <= k < |r| ==> InField(r[k])
    ensures PositiveDamage(bs) ==> PositiveDamage(r)
  {
    if bs == [] then []
    else
      var b := Advance(bs[0], dt);
      (if OutOfField(b) then [] else [b]) + MoveAndCull(bs[1..], dt)
  }

  /** The reverse loop of update that moves bullets and splices out those that left. */
  method MoveBullets(bs: seq<Bullet>, dt: real) returns (r: seq<Bullet>)
    ensures r == MoveAndCull(bs, dt)
  {
    r := bs;
    var i := |bs|;
    while i > 0
      invariant 0 <= i <= |bs|
      invariant r == bs[..i] + MoveAndCull(bs[i..], dt)
    {
      i := i - 1;
      assert bs[i..][1..] == bs[i + 1..];
      assert r[..i] == bs[..i] && r[i] == bs[i] && r[i + 1..] == MoveAndCull(bs[i + 1..], dt);
      var b := Advance(r[i], dt);
      if OutOfField(b) {
        r := r[..i] + r[i + 1..];
      } else {
        r := r[..i] + [b] + r[i + 1..];
      }
    }
    assert bs[..0] == [] && bs[0..] == bs;
  }

  /** Culling a concatenation culls each part: the pass keeps the relative order of the
      bullets that stay. */
  lemma {:induction false} CullAppend(a: seq<Bullet>, b: seq<Bullet>, dt: real)
    ensures MoveAndCull(a + b, dt) == MoveAndCull(a, dt) + MoveAndCull(b, dt)
  {
    if a != [] {
      assert (a + b)[1..] == a[1..] + b;
      CullAppend(a[1..], b, dt);
    } else {
      assert a + b == b;
    }
  }

  /** A bullet is left after the pass exactly when it is the advanced form of some input
      bullet that is still within the margin. */
  lemma {:induction false} CullMembership(bs: seq<Bullet>, dt: real, b: Bullet)
    ensures b in MoveAndCull(bs, dt) <==>
            exists j :: 0 <= j < |bs| && b == Advance(bs[j], dt) && InField(b)
  {
    if bs != [] {
      CullMembership(bs[1..], dt, b);
      if b in MoveAndCull(bs[1..], dt) {
        var j :| 0 <= j < |bs[1..]| && b == Advance(bs[1..][j], dt) && InField(b);
        assert bs[j + 1] == bs[1..][j];
      }
      if exists j :: 0 <= j < |bs| && b == Advance(bs[j], dt) && InField(b) {
        var j :| 0 <= j < |bs| && b == Advance(bs[j], dt) && InField(b);
        if j > 0 {
          assert bs[1..][j - 1] == bs[j];
        }
      }
    }
  }

  /** When every bullet stays within the margin nothing is removed. */
  lemma {:induction false} CullKeepsAllInside(bs: seq<Bullet>, dt: real)
    requires forall j :: 0 <= j < |bs| ==> InField(Advance(bs[j], dt))
    ensures MoveAndCull(bs, dt) == seq(|bs|, j requires 0 <= j < |bs| => Advance(bs[j], dt))
  {
    if bs != [] {
      CullKeepsAllInside(bs[1..], dt);
    }
  }

  /** Two bullets that both stay keep their order: the earlier one in the array is still
      before the later one. */
  lemma CullKeepsOrder(bs: seq<Bullet>, dt: real, i: nat, j: nat)
    requires i < j < |bs|
    requires InField(Advance(bs[i], dt)) && InField(Advance(bs[j], dt))
    ensures exists p, q :: 0 <= p < q < |MoveAndCull(bs, dt)| &&
                           MoveAndCull(bs, dt)[p] == Advance(bs[i], dt) &&
                           MoveAndCull(bs, dt)[q] == Advance(bs[j], dt)
  {
    var front, back := bs[..j], bs[j..];
    assert bs == front + back;
    CullAppend(front, back, dt);
    CullMembership(front, dt, Advance(bs[i], dt));
    assert front[i] == bs[i];
    var f := MoveAndCull(front, dt);
    var p :| 0 <= p < |f| && f[p] == Advance(bs[i], dt);
    assert back[0] == bs[j];
    assert MoveAndCull(back, dt) == [Advance(bs[j], dt)] + MoveAndCull(back[1..], dt);
    var r := MoveAndCull(bs, dt);
    assert r == f + MoveAndCull(back, dt);
    assert r[p] == Advance(bs[i], dt) && r[|f|] == Advance(bs[j], dt);
  }
}
