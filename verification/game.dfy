/** The game session as the page holds it: one object whose fields the
    update routines change in place, frame after frame. Each method is
    proved to do to the fields what the matching function of Simulation
    does to a Session value. */
module Platformer {
  import opened Geometry
  import opened PlayerController
  import opened Scrolling
  import opened Enemies
  import opened Simulation

  class Game {
    var player: Player
    var platforms: seq<Box>
    var coins: seq<Box>
    var enemies: seq<Enemy>
    var score: nat
    var gameSpeed: real
    var isGameOver: bool
    var enemyFrequency: real
    var lastEnemySpawn: real
    /** The deep copies taken at load time, which a restart copies back. */
    const initialPlatforms: seq<Box>
    const initialCoins: seq<Box>

    /** The fields as a Session value. */
    function State(): Session
      reads this
    {
      Session(player, platforms, coins, enemies, score, gameSpeed, isGameOver, enemyFrequency, lastEnemySpawn)
    }

    /** The page load: tables built from the canvas size at that moment, and
        the game over until it is started. */
    constructor (c: Canvas)
      ensures initialPlatforms == InitialPlatforms(c) && initialCoins == InitialCoins(c)
      ensures State() == Reset(c, initialPlatforms, initialCoins)
    {
      player := Player(50.0, c.height - 100.0, 0.0, false);
      platforms := InitialPlatforms(c);
      initialPlatforms := InitialPlatforms(c);
      coins := InitialCoins(c);
      initialCoins := InitialCoins(c);
      enemies := [];
      score := 0;
      gameSpeed := InitialGameSpeed;
      isGameOver := true;
      enemyFrequency := InitialFrequency;
      lastEnemySpawn := 0.0;
    }

    /** startGame: the only way to clear the game-over flag. */
    method StartGame()
      modifies this
      ensures State() == old(State()).(isGameOver := false)
    {
      isGameOver := false;
    }

    /** restartGame: every variable back to its load-time value, with the
        current canvas height for the player. The result does not depend on
        the state before, so restarting twice is restarting once; the game
        stays over until StartGame. */
    method RestartGame(c: Canvas)
      modifies this
      ensures State() == Reset(c, initialPlatforms, initialCoins)
      ensures Invariant(State()) && isGameOver
    {
      score := 0;
      gameSpeed := InitialGameSpeed;
      isGameOver := true;
      player := player.(x := 50.0, y := c.height - 100.0, dy := 0.0, grounded := false);
      platforms := initialPlatforms;
      coins := initialCoins;
      enemies := [];
      lastEnemySpawn := 0.0;
      enemyFrequency := InitialFrequency;
    }

    /** updatePlatforms: scroll every platform by the current game speed and
        recycle those that left the screen, each recycle scoring a point and
        speeding the game up at once. */
    method UpdatePlatforms(ds: seq<PlatformDraw>, c: Canvas)
      requires |platforms| <= |ds| && PlatformDrawsOk(ds)
      modifies this
      ensures State() == PlatformsUpdated(old(State()), ds, c)
    {
      ghost var ps0, speed0, score0 := platforms, gameSpeed, score;
      var i := 0;
      while i < |platforms|
        modifies this`platforms, this`gameSpeed, this`score
        invariant 0 <= i <= |platforms| == |ps0|
        invariant var pass := PlatformsPass(ps0, speed0, ds, c, i);
                  platforms == pass.items && gameSpeed == pass.speed && score == score0 + pass.recycled
      {
        PassUntouched(ps0, speed0, ds, c, i);
        ScrollPlatformAt(i, ds[i], c);
        i := i + 1;
      }
    }

    /** The forEach callback of updatePlatforms at index i: move the
        platform by the current game speed and, if it has left the screen,
        put it back to the right with new random size and height, score a
        point and speed the game up. */
    method ScrollPlatformAt(i: nat, d: PlatformDraw, c: Canvas)
      requires i < |platforms| && Unit(d.rx) && Unit(d.ry) && Unit(d.rw)
      modifies this`platforms, this`gameSpeed, this`score
      ensures var moved := Shifted(old(platforms)[i], old(gameSpeed));
              && platforms == old(platforms)[i := if OffScreen(moved) then RelocatedPlatform(moved, d, c) else moved]
              && gameSpeed == (if OffScreen(moved) then old(gameSpeed) + 0.1 else old(gameSpeed))
              && score == (if OffScreen(moved) then old(score) + 1 else old(score))
    {
      var platform := platforms[i].(x := platforms[i].x - gameSpeed);
      if platform.x + platform.width < 0.0 {
        platform := platform.(x := c.width + d.rx * 200.0,
                              y := c.height - 50.0 - d.ry * 200.0,
                              width := 50.0 + d.rw * 100.0);
        score := score + 1;
        gameSpeed := gameSpeed + 0.1;
      }
      platforms := platforms[i := platform];
    }

    /** updatePlayer: input, jump, gravity, landing on the first platform
        fallen into, coin pickup, the two loss tests and the clamp. */
    method UpdatePlayer(keys: Keys, c: Canvas)
      modifies this
      ensures State() == PlayerUpdated(old(State()), keys, c)
    {
      ApplyInput(keys);
      CollidePlatforms();
      ghost var landed := player;
      assert landed == Landed(old(player), keys, platforms);
      CollectCoins();
      CollideEnemies();
      // Falling below the screen.
      if player.y + Height > c.height {
        isGameOver := true;
      }
      ClampToCanvas(c);
    }

    /** Horizontal movement, the jump and gravity, then the reset of the
        grounded flag before platform collision. */
    method ApplyInput(keys: Keys)
      modifies this`player
      ensures player == Airborne(old(player), keys)
    {
      if keys.right { player := player.(x := player.x + Speed); }
      if keys.left { player := player.(x := player.x - Speed); }
      if keys.up && player.grounded {
        player := player.(dy := -JumpPower, grounded := false);
      }
      player := player.(dy := player.dy + Gravity);
      player := player.(y := player.y + player.dy);
      player := player.(grounded := false);
    }

    /** Keep the player inside the canvas horizontally. */
    method ClampToCanvas(c: Canvas)
      modifies this`player
      ensures player == old(player).(x := ClampX(old(player).x, c.width))
    {
      if player.x < 0.0 { player := player.(x := 0.0); }
      if player.x + Width > c.width { player := player.(x := c.width - Width); }
    }

    /** The platform pass of updatePlayer: test every platform in order and
        snap onto the first one the player overlaps while falling; the snap
        stops the fall, so no later platform snaps. */
    method CollidePlatforms()
      modifies this`player
      ensures player == Land(old(player), platforms)
    {
      var i := 0;
      while i < |platforms|
        invariant 0 <= i <= |platforms|
        invariant Land(player, platforms[i..]) == Land(old(player), platforms)
      {
        var platform := platforms[i];
        if Overlaps(BoxOf(player), platform) && player.dy > 0.0 {
          player := player.(y := platform.y - Height, dy := 0.0, grounded := true);
        }
        assert platforms[i..][1..] == platforms[i + 1..];
        i := i + 1;
      }
      assert platforms[i..] == [];
    }

    /** The coin filter of updatePlayer: keep the coins the player does not
        touch, one point for each one taken. */
    method CollectCoins()
      modifies this`coins, this`score
      ensures coins == Uncollected(BoxOf(player), old(coins))
      ensures score == old(score) + |Collected(BoxOf(player), old(coins))|
    {
      var pb := BoxOf(player);
      var kept: seq<Box> := [];
      var i := 0;
      while i < |coins|
        modifies this`score
        invariant 0 <= i <= |coins|
        invariant kept == Uncollected(pb, coins[..i])
        invariant score == old(score) + |Collected(pb, coins[..i])|
      {
        assert coins[..i + 1][..i] == coins[..i];
        if Overlaps(pb, coins[i]) {
          score := score + 1;
        } else {
          kept := kept + [coins[i]];
        }
        i := i + 1;
      }
      assert coins[..i] == coins;
      coins := kept;
    }

    /** The enemy test of updatePlayer: touching any enemy ends the game. */
    method CollideEnemies()
      modifies this`isGameOver
      ensures isGameOver == (old(isGameOver) || HitsEnemy(BoxOf(player), enemies))
    {
      var pb := BoxOf(player);
      var i := 0;
      while i < |enemies|
        invariant 0 <= i <= |enemies|
        invariant isGameOver == (old(isGameOver) || exists j :: 0 <= j < i && Overlaps(pb, EnemyBox(enemies[j])))
      {
        if Overlaps(pb, EnemyBox(enemies[i])) {
          isGameOver := true;
        }
        i := i + 1;
      }
    }

    /** updateCoins: scroll every coin by the game speed and put those that
        left the screen back to the right of it. */
    method UpdateCoins(ds: seq<CoinDraw>, c: Canvas)
      requires |coins| <= |ds| && CoinDrawsOk(ds)
      modifies this
      ensures State() == CoinsUpdated(old(State()), ds, c)
    {
      var i := 0;
      while i < |coins|
        modifies this`coins
        invariant 0 <= i <= |coins| == |old(coins)|
        invariant forall j :: 0 <= j < i ==> coins[j] == CoinAfter(old(coins)[j], gameSpeed, ds[j], c)
        invariant forall j :: i <= j < |coins| ==> coins[j] == old(coins)[j]
      {
        var coin := coins[i].(x := coins[i].x - gameSpeed);
        if coin.x + coin.width < 0.0 {
          coin := coin.(x := c.width + ds[i].rx * 200.0, y := c.height - 50.0 - ds[i].ry * 200.0);
        }
        coins := coins[i := coin];
        i := i + 1;
      }
    }

    /** updateEnemies: spawn one enemy when the interval has elapsed and the
        cap allows it, then move every enemy. */
    method UpdateEnemies(timestamp: real, d: EnemyDraw, c: Canvas)
      requires Unit(d.ry) && Unit(d.rs)
      modifies this
      ensures State() == EnemiesUpdated(old(State()), timestamp, d, c)
    {
      if timestamp - lastEnemySpawn > enemyFrequency && |enemies| < MaxEnemies {
        enemies := enemies + [Spawned(c, gameSpeed, d)];
        lastEnemySpawn := timestamp;
        enemyFrequency := NextFrequency(enemyFrequency);
      }
      assert enemies == AfterSpawn(old(enemies), timestamp, old(lastEnemySpawn), old(enemyFrequency), c, gameSpeed, d);
      MoveEnemies();
    }

    /** The movement pass of updateEnemies: move the enemy at each index and,
        whenever it has left the screen, drop the FRONT of the queue. The
        iteration runs over the length at its start and skips indices that
        no longer exist, as Array.prototype.forEach does. */
    method MoveEnemies()
      modifies this`enemies
      ensures enemies == EnemiesPass(old(enemies), |old(enemies)|)
    {
      var n := |enemies|;
      var i := 0;
      while i < n
        invariant 0 <= i <= n
        invariant enemies == EnemiesPass(old(enemies), i)
      {
        if i < |enemies| {
          AdvanceEnemyAt(i);
        }
        i := i + 1;
      }
    }

    /** The forEach callback at index k: move that enemy by its own speed
        and, if it has left the screen, shift the front of the queue off. */
    method AdvanceEnemyAt(k: nat)
      requires k < |enemies|
      modifies this`enemies
      ensures enemies == EnemyStep(old(enemies), k)
    {
      var enemy := enemies[k].(x := enemies[k].x - enemies[k].speed);
      enemies := enemies[k := enemy];
      if enemy.x + enemy.width < 0.0 {
        enemies := enemies[1..];
      }
    }

    /** gameLoop: nothing changes while the game is over; otherwise the four
        updates run in the order platforms, player, coins, enemies. */
    method GameLoop(input: FrameInput)
      requires InputOk(State(), input)
      modifies this
      ensures State() == Frame(old(State()), input)
      ensures Invariant(old(State())) ==> Invariant(State())
    {
      if isGameOver {
        return;
      }
      if Invariant(State()) {
        FrameKeepsInvariant(State(), input);
      }
      UpdatePlatforms(input.platformDraws, input.canvas);
      UpdatePlayer(input.keys, input.canvas);
      UpdateCoins(input.coinDraws, input.canvas);
      UpdateEnemies(input.timestamp, input.enemyDraw, input.canvas);
    }
  }
}
