/** The player controller of updatePlayer: horizontal input, the jump
    impulse, gravity, landing on platforms, coin pickup, the loss tests and
    the horizontal clamp, each as a pure step that the Game class runs. */
module PlayerController {
  import opened Geometry

  // The player's fixed properties: never reassigned by the game.
  const Speed: real := 5.0
  const Gravity: real := 0.5
  const JumpPower: real := 10.0
  const Width: real := 50.0
  const Height: real := 50.0

  /** The player's changing properties. */
  datatype Player = Player(x: real, y: real, dy: real, grounded: bool)

  /** The key flags held at the start of a frame. */
  datatype Keys = Keys(right: bool, left: bool, up: bool)

  /** An enemy: a box plus the speed fixed when it spawned. */
  datatype Enemy = Enemy(x: real, y: real, width: real, height: real, speed: real)

  function BoxOf(p: Player): Box
  {
    Box(p.x, p.y, Width, Height)
  }

  function EnemyBox(e: Enemy): Box
  {
    Box(e.x, e.y, e.width, e.height)
  }

  /** Input, jump and one semi-implicit Euler step of gravity, followed by
      the reset of the grounded flag that precedes platform collision. */
  function Airborne(p: Player, keys: Keys): Player
  {
    var x1 := if keys.right then p.x + Speed else p.x;
    var x2 := if keys.left then x1 - Speed else x1;
    var dy0 := if keys.up && p.grounded then -JumpPower else p.dy;
    var dy := dy0 + Gravity;
    Player(x2, p.y + dy, dy, false)
  }

  /** The jump key acts only when grounded: it replaces the vertical speed
      by the impulse, so the player rises in that very frame; otherwise the
      speed only gains gravity and the key makes no difference. */
  lemma JumpOnlyWhenGrounded(p: Player, keys: Keys)
    ensures keys.up && p.grounded ==>
              Airborne(p, keys).dy == Gravity - JumpPower && Airborne(p, keys).y < p.y
    ensures !(keys.up && p.grounded) ==> Airborne(p, keys).dy == p.dy + Gravity
    ensures !p.grounded ==> Airborne(p, keys) == Airborne(p, keys.(up := false))
    ensures Airborne(p, keys).y == p.y + Airborne(p, keys).dy
    ensures !Airborne(p, keys).grounded
  {
  }

  /** The player is falling into platform pl. */
  predicate LandsOn(p: Player, pl: Box)
  {
    Overlaps(BoxOf(p), pl) && p.dy > 0.0
  }

  /** The snap onto a platform: stand on its top edge, stop, be grounded. */
  function SnapOnto(p: Player, pl: Box): (r: Player)
    ensures BoxOf(r).y + Height == pl.y && r.dy == 0.0 && r.grounded
    ensures r.x == p.x
  {
    p.(y := pl.y - Height, dy := 0.0, grounded := true)
  }

  /** The platform pass of updatePlayer, over the platforms in order. */
  function Land(p: Player, ps: seq<Box>): Player
    decreases |ps|
  {
    if ps == [] then p
    else Land(if LandsOn(p, ps[0]) then SnapOnto(p, ps[0]) else p, ps[1..])
  }

  /** A player that is not moving down is left alone by the platform pass. */
  lemma {:induction false} LandResting(p: Player, ps: seq<Box>)
    requires p.dy <= 0.0
    ensures Land(p, ps) == p
  {
    if ps != [] {
      LandResting(p, ps[1..]);
    }
  }

  /** At most one snap per frame: the first platform in order that the
      falling player overlaps decides the landing, and without one the
      player is unchanged. */
  lemma {:induction false} LandIsFirstHit(p: Player, ps: seq<Box>)
    ensures (forall j :: 0 <= j < |ps| ==> !LandsOn(p, ps[j])) ==> Land(p, ps) == p
    ensures forall j :: 0 <= j < |ps| && LandsOn(p, ps[j]) && (forall k :: 0 <= k < j ==> !LandsOn(p, ps[k])) ==>
              Land(p, ps) == SnapOnto(p, ps[j])
  {
    if ps != [] {
      if LandsOn(p, ps[0]) {
        LandResting(SnapOnto(p, ps[0]), ps[1..]);
      } else {
        LandIsFirstHit(p, ps[1..]);
        forall j | 0 <= j < |ps| && LandsOn(p, ps[j]) && (forall k :: 0 <= k < j ==> !LandsOn(p, ps[k]))
          ensures Land(p, ps) == SnapOnto(p, ps[j])
        {
          assert ps[1..][j - 1] == ps[j];
          forall k | 0 <= k < j - 1 ensures !LandsOn(p, ps[1..][k]) {
            assert ps[1..][k] == ps[k + 1];
          }
        }
        if forall j :: 0 <= j < |ps| ==> !LandsOn(p, ps[j]) {
          forall k | 0 <= k < |ps| - 1 ensures !LandsOn(p, ps[1..][k]) {
            assert ps[1..][k] == ps[k + 1];
          }
        }
      }
    }
  }

  /** The grounded flag ends up true exactly when it already was or some
      platform is fallen onto; the pass never clears it. */
  lemma {:induction false} GroundedIffLanded(p: Player, ps: seq<Box>)
    ensures Land(p, ps).grounded <==> p.grounded || exists j :: 0 <= j < |ps| && LandsOn(p, ps[j])
  {
    if ps != [] {
      if LandsOn(p, ps[0]) {
        LandResting(SnapOnto(p, ps[0]), ps[1..]);
      } else {
        GroundedIffLanded(p, ps[1..]);
        if exists j :: 0 <= j < |ps| && LandsOn(p, ps[j]) {
          var j :| 0 <= j < |ps| && LandsOn(p, ps[j]);
          assert ps[1..][j - 1] == ps[j];
        }
        if exists j :: 0 <= j < |ps| - 1 && LandsOn(p, ps[1..][j]) {
          var j :| 0 <= j < |ps| - 1 && LandsOn(p, ps[1..][j]);
          assert ps[1..][j] == ps[j + 1];
        }
      }
    }
  }

  /** The coins the player does not touch, in their original order: the
      result of the coins.filter call. */
  function Uncollected(pb: Box, cs: seq<Box>): (r: seq<Box>)
    ensures |r| <= |cs|
  {
    if cs == [] then []
    else Uncollected(pb, cs[..|cs| - 1]) + (if Overlaps(pb, cs[|cs| - 1]) then [] else [cs[|cs| - 1]])
  }

  /** The coins the filter drops, in order; one point each. */
  function Collected(pb: Box, cs: seq<Box>): (r: seq<Box>)
    ensures |r| <= |cs|
  {
    if cs == [] then []
    else Collected(pb, cs[..|cs| - 1]) + (if Overlaps(pb, cs[|cs| - 1]) then [cs[|cs| - 1]] else [])
  }

  /** A coin survives pickup exactly when it was there and the player does
      not touch it: no remaining coin overlaps the player. */
  lemma {:induction false} UncollectedMembers(pb: Box, cs: seq<Box>, c: Box)
    ensures c in Uncollected(pb, cs) <==> c in cs && !Overlaps(pb, c)
  {
    if cs != [] {
      UncollectedMembers(pb, cs[..|cs| - 1], c);
      assert cs == cs[..|cs| - 1] + [cs[|cs| - 1]];
    }
  }

  /** The filter works coin by coin, so it keeps the relative order of the
      coins it keeps: filtering a concatenation filters each part. */
  lemma {:induction false} UncollectedAppend(pb: Box, a: seq<Box>, b: seq<Box>)
    ensures Uncollected(pb, a + b) == Uncollected(pb, a) + Uncollected(pb, b)
    decreases |b|
  {
    if b != [] {
      var ab := a + b;
      assert ab[..|ab| - 1] == a + b[..|b| - 1];
      assert ab[|ab| - 1] == b[|b| - 1];
      UncollectedAppend(pb, a, b[..|b| - 1]);
    } else {
      assert a + b == a;
    }
  }

  /** Pickup splits the coins: the kept and the collected ones together are
      exactly the coins before, so the score rises by the number removed. */
  lemma {:induction false} PickupPartition(pb: Box, cs: seq<Box>)
    ensures multiset(Uncollected(pb, cs)) + multiset(Collected(pb, cs)) == multiset(cs)
    ensures |Uncollected(pb, cs)| + |Collected(pb, cs)| == |cs|
  {
    if cs != [] {
      var init, last := cs[..|cs| - 1], cs[|cs| - 1];
      PickupPartition(pb, init);
      assert cs == init + [last];
      var kept := if Overlaps(pb, last) then [] else [last];
      var taken := if Overlaps(pb, last) then [last] else [];
      assert multiset(kept) + multiset(taken) == multiset([last]);
      assert multiset(Uncollected(pb, cs)) == multiset(Uncollected(pb, init)) + multiset(kept);
      assert multiset(Collected(pb, cs)) == multiset(Collected(pb, init)) + multiset(taken);
    }
  }

  /** Filtering twice with the same player box removes nothing more. */
  lemma {:induction false} UncollectedIdempotent(pb: Box, cs: seq<Box>)
    ensures Uncollected(pb, Uncollected(pb, cs)) == Uncollected(pb, cs)
  {
    if cs != [] {
      var init := cs[..|cs| - 1];
      var last := cs[|cs| - 1];
      UncollectedIdempotent(pb, init);
      var tail := if Overlaps(pb, last) then [] else [last];
      UncollectedAppend(pb, Uncollected(pb, init), tail);
      if !Overlaps(pb, last) {
        assert tail[..0] == [];
      }
    }
  }

  /** Some enemy touches the player box. */
  predicate HitsEnemy(pb: Box, es: seq<Enemy>)
  {
    exists j :: 0 <= j < |es| && Overlaps(pb, EnemyBox(es[j]))
  }

  /** The horizontal clamp at the end of updatePlayer: first to the left
      edge, then to the right edge. A player past the left wall stands at
      x = 0, one past the right wall at its left side. */
  function ClampX(x: real, canvasWidth: real): (r: real)
    ensures canvasWidth >= Width ==> 0.0 <= r <= canvasWidth - Width
    ensures 0.0 <= x <= canvasWidth - Width ==> r == x
    ensures canvasWidth < Width ==> r == canvasWidth - Width
    ensures x < 0.0 && canvasWidth >= Width ==> r == 0.0
    ensures x > canvasWidth - Width ==> r == canvasWidth - Width
  {
    var x1 := if x < 0.0 then 0.0 else x;
    if x1 + Width > canvasWidth then canvasWidth - Width else x1
  }
}
