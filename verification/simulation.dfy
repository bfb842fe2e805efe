/** The session as a value, the effect of each update routine on it, and
    what a whole frame of the game loop does. The Game class runs the same
    steps in place; these functions are what its methods are proved to do. */
module Simulation {
  import opened Geometry
  import opened PlayerController
  import opened Scrolling
  import opened Enemies

  const InitialGameSpeed: real := 2.0
  const InitialFrequency: real := 3000.0

  /** Every variable the update routines read or write. */
  datatype Session = Session(
    player: Player,
    platforms: seq<Box>,
    coins: seq<Box>,
    enemies: seq<Enemy>,
    score: nat,
    gameSpeed: real,
    isGameOver: bool,
    enemyFrequency: real,
    lastEnemySpawn: real)

  /** The platform table built when the page loads, from that canvas size;
      the first entry is the ground under the whole screen. */
  function InitialPlatforms(c: Canvas): seq<Box>
  {
    [ Box(0.0, c.height - 50.0, c.width, 50.0),
      Box(400.0, c.height - 100.0, 100.0, 20.0),
      Box(800.0, c.height - 150.0, 150.0, 20.0),
      Box(1200.0, c.height - 200.0, 100.0, 20.0) ]
  }

  /** The coin table built when the page loads. */
  function InitialCoins(c: Canvas): seq<Box>
  {
    [ Box(500.0, c.height - 150.0, 30.0, 30.0),
      Box(600.0, c.height - 200.0, 30.0, 30.0),
      Box(700.0, c.height - 250.0, 30.0, 30.0),
      Box(900.0, c.height - 200.0, 30.0, 30.0),
      Box(1000.0, c.height - 150.0, 30.0, 30.0),
      Box(1100.0, c.height - 100.0, 30.0, 30.0) ]
  }

  /** The session restartGame produces (and the one at page load): it does
      not depend on the session before, and the game is over until started. */
  function Reset(c: Canvas, platforms: seq<Box>, coins: seq<Box>): Session
  {
    Session(Player(50.0, c.height - 100.0, 0.0, false), platforms, coins, [],
            0, InitialGameSpeed, true, InitialFrequency, 0.0)
  }

  /** The facts every frame keeps: the enemy cap, the spawn interval between
      its floor and its start value, and a game speed never below its start. */
  ghost predicate Invariant(s: Session)
  {
    && |s.enemies| <= MaxEnemies
    && MinFrequency <= s.enemyFrequency <= InitialFrequency
    && s.gameSpeed >= InitialGameSpeed
  }

  /** updatePlatforms: the count is kept, and score and speed rise together,
      by 1 and by 0.1 per recycled platform. */
  function PlatformsUpdated(s: Session, ds: seq<PlatformDraw>, c: Canvas): (r: Session)
    requires |s.platforms| <= |ds| && PlatformDrawsOk(ds)
    ensures |r.platforms| == |s.platforms|
    ensures r.score == s.score + |RecycledBefore(s.platforms, s.gameSpeed, ds, c, |s.platforms|)|
    ensures r.gameSpeed == s.gameSpeed + 0.1 * (r.score - s.score) as real
    ensures r == s.(platforms := r.platforms, score := r.score, gameSpeed := r.gameSpeed)
  {
    RecycledCount(s.platforms, s.gameSpeed, ds, c, |s.platforms|);
    var pass := PlatformsPass(s.platforms, s.gameSpeed, ds, c, |s.platforms|);
    s.(platforms := pass.items, gameSpeed := pass.speed, score := s.score + pass.recycled)
  }

  /** The player after input, jump, gravity and the platform pass. */
  function Landed(p: Player, keys: Keys, ps: seq<Box>): Player
  {
    Land(Airborne(p, keys), ps)
  }

  /** updatePlayer: the player keeps its landing, ends inside the screen
      horizontally, and the game-over flag is only ever set: by touching an
      enemy or by falling below the canvas, both tested after landing. */
  function PlayerUpdated(s: Session, keys: Keys, c: Canvas): (r: Session)
    ensures r.player == Landed(s.player, keys, s.platforms).(x := r.player.x)
    ensures c.width >= Width ==> 0.0 <= r.player.x <= c.width - Width
    ensures r.isGameOver <==> s.isGameOver || HitsEnemy(BoxOf(Landed(s.player, keys, s.platforms)), s.enemies)
                              || Landed(s.player, keys, s.platforms).y + Height > c.height
    ensures s.isGameOver ==> r.isGameOver
    ensures r == s.(player := r.player, coins := r.coins, score := r.score, isGameOver := r.isGameOver)
  {
    var p := Landed(s.player, keys, s.platforms);
    var pb := BoxOf(p);
    s.(player := p.(x := ClampX(p.x, c.width)),
       coins := Uncollected(pb, s.coins),
       score := s.score + |Collected(pb, s.coins)|,
       isGameOver := s.isGameOver || HitsEnemy(pb, s.enemies) || p.y + Height > c.height)
  }

  /** Coin pickup within updatePlayer: the coins left are the old coins
      filtered, in order, by the landed player's box; a coin is left exactly
      when it was there and the player does not touch it, and the score
      rises by exactly the number of coins removed. */
  lemma PlayerPickup(s: Session, keys: Keys, c: Canvas)
    ensures var r := PlayerUpdated(s, keys, c);
            var pb := BoxOf(Landed(s.player, keys, s.platforms));
            && r.coins == Uncollected(pb, s.coins)
            && r.score == s.score + (|s.coins| - |r.coins|)
            && (forall coin :: coin in r.coins <==> coin in s.coins && !Overlaps(pb, coin))
  {
    var pb := BoxOf(Landed(s.player, keys, s.platforms));
    PickupPartition(pb, s.coins);
    forall coin
      ensures coin in Uncollected(pb, s.coins) <==> coin in s.coins && !Overlaps(pb, coin)
    {
      UncollectedMembers(pb, s.coins, coin);
    }
  }

  /** updateCoins: the count and the score are untouched. */
  function CoinsUpdated(s: Session, ds: seq<CoinDraw>, c: Canvas): (r: Session)
    requires |s.coins| <= |ds| && CoinDrawsOk(ds)
    ensures |r.coins| == |s.coins|
    ensures r == s.(coins := r.coins)
  {
    s.(coins := CoinsPass(s.coins, s.gameSpeed, ds, c))
  }

  /** updateEnemies: the cap is kept, at most one enemy is added, the spawn
      time and the interval change only on a spawn, and the interval only
      shrinks, down to its floor. */
  function EnemiesUpdated(s: Session, timestamp: real, d: EnemyDraw, c: Canvas): (r: Session)
    requires Unit(d.ry) && Unit(d.rs)
    ensures |s.enemies| <= MaxEnemies ==> |r.enemies| <= MaxEnemies
    ensures |r.enemies| <= |s.enemies| + 1
    ensures s.enemyFrequency >= MinFrequency ==> MinFrequency <= r.enemyFrequency <= s.enemyFrequency
    ensures SpawnDue(timestamp, s.lastEnemySpawn, s.enemyFrequency, |s.enemies|) ==>
              r.lastEnemySpawn == timestamp && r.enemyFrequency == NextFrequency(s.enemyFrequency)
    ensures !SpawnDue(timestamp, s.lastEnemySpawn, s.enemyFrequency, |s.enemies|) ==>
              r.lastEnemySpawn == s.lastEnemySpawn && r.enemyFrequency == s.enemyFrequency
              && |r.enemies| <= |s.enemies|
    ensures r == s.(enemies := r.enemies, enemyFrequency := r.enemyFrequency, lastEnemySpawn := r.lastEnemySpawn)
  {
    var due := SpawnDue(timestamp, s.lastEnemySpawn, s.enemyFrequency, |s.enemies|);
    var spawned := AfterSpawn(s.enemies, timestamp, s.lastEnemySpawn, s.enemyFrequency, c, s.gameSpeed, d);
    s.(enemies := EnemiesPass(spawned, |spawned|),
       lastEnemySpawn := if due then timestamp else s.lastEnemySpawn,
       enemyFrequency := if due then NextFrequency(s.enemyFrequency) else s.enemyFrequency)
  }

  /** What one frame consumes: the key flags, the timestamp, the random
      draws of this frame and the current canvas size. */
  datatype FrameInput = FrameInput(
    keys: Keys,
    timestamp: real,
    platformDraws: seq<PlatformDraw>,
    coinDraws: seq<CoinDraw>,
    enemyDraw: EnemyDraw,
    canvas: Canvas)

  /** Enough draws, each a value Math.random() can return. */
  predicate InputOk(s: Session, input: FrameInput)
  {
    && |s.platforms| <= |input.platformDraws| && PlatformDrawsOk(input.platformDraws)
    && |s.coins| <= |input.coinDraws| && CoinDrawsOk(input.coinDraws)
    && Unit(input.enemyDraw.ry) && Unit(input.enemyDraw.rs)
  }

  /** One call of gameLoop: nothing moves once the game is over; otherwise
      platforms, player, coins and enemies are updated in this order, so a
      game over set by the player step still lets coins and enemies move. */
  function Frame(s: Session, input: FrameInput): (r: Session)
    requires InputOk(s, input)
    ensures s.isGameOver ==> r == s
  {
    if s.isGameOver then s
    else
      var c := input.canvas;
      var s1 := PlatformsUpdated(s, input.platformDraws, c);
      var s2 := PlayerUpdated(s1, input.keys, c);
      var s3 := CoinsUpdated(s2, input.coinDraws, c);
      EnemiesUpdated(s3, input.timestamp, input.enemyDraw, c)
  }

  /** Across a frame the game speed and the score never fall, the platform
      count is kept, coins are never added, and game over is a latch. */
  lemma FrameMonotone(s: Session, input: FrameInput)
    requires InputOk(s, input)
    ensures Frame(s, input).gameSpeed >= s.gameSpeed
    ensures Frame(s, input).score >= s.score
    ensures |Frame(s, input).platforms| == |s.platforms|
    ensures |Frame(s, input).coins| <= |s.coins|
    ensures s.isGameOver ==> Frame(s, input).isGameOver
  {
  }

  /** Every frame keeps the invariant, and a reset establishes it. */
  lemma FrameKeepsInvariant(s: Session, input: FrameInput)
    requires InputOk(s, input) && Invariant(s)
    ensures Invariant(Frame(s, input))
  {
  }

  lemma ResetEstablishesInvariant(c: Canvas, platforms: seq<Box>, coins: seq<Box>)
    ensures Invariant(Reset(c, platforms, coins)) && Reset(c, platforms, coins).isGameOver
  {
  }

  /** The first frame after the start: with no key held, the player falls
      half a unit into the ground platform and is snapped back onto it,
      resting and grounded, and the game goes on. */
  lemma FirstFrameLandsOnGround(c: Canvas, input: FrameInput)
    requires c.width >= 100.0 && input.canvas == c && input.keys == Keys(false, false, false)
    requires InputOk(Reset(c, InitialPlatforms(c), InitialCoins(c)), input)
    ensures var s := Reset(c, InitialPlatforms(c), InitialCoins(c)).(isGameOver := false);
            Frame(s, input).player == Player(50.0, c.height - 100.0, 0.0, true) && !Frame(s, input).isGameOver
  {
    var s := Reset(c, InitialPlatforms(c), InitialCoins(c)).(isGameOver := false);
    var s1 := PlatformsUpdated(s, input.platformDraws, c);
    var pass := PlatformsPass(s.platforms, s.gameSpeed, input.platformDraws, c, 1);
    PassHandlesOnce(s.platforms, s.gameSpeed, input.platformDraws, c, 1, |s.platforms|);
    assert s1.platforms[0] == Box(-2.0, c.height - 50.0, c.width, 50.0);
    var air := Airborne(s.player, input.keys);
    assert air == Player(50.0, c.height - 99.5, 0.5, false);
    assert LandsOn(air, s1.platforms[0]);
    LandIsFirstHit(air, s1.platforms);
  }
}
