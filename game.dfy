/** The game deck: the state of one play session (player, walls, enemies,
    coins, door, pending score) and the handlers that change it: key input, the
    animation-frame loop, coin pickup and score flush, the door, loss and reset. */
module Deck {
  import opened Geometry
  import opened Entities
  import opened Wrappers
  import opened Layout
  import opened Movement
  import opened Context

  /** The random draws one handler may consume, one stream per use of Math.random(). */
  datatype Draws = Draws(
    wall: (nat, nat) -> WallDraw,
    enemySpot: (nat, nat) -> SpotDraw,
    heading: nat -> Unit,
    coinSpot: (nat, nat) -> SpotDraw,
    doorSpot: nat -> SpotDraw,
    turn: nat -> Unit,
    retry: (nat, nat) -> Unit)

  // ---------------------------------------------------------------- coin pickup

  /** The player's box overlaps the coin's box. */
  predicate Touching(player: Position, c: Position) {
    Overlaps(PlayerBox(player), CoinBox(c))
  }

  /** The coins the pickup filter keeps, in their original order. */
  function KeptCoins(coins: seq<Position>, player: Position): seq<Position> {
    if |coins| == 0 then []
    else KeptCoins(coins[..|coins| - 1], player) +
         (if Touching(player, coins[|coins| - 1]) then [] else [coins[|coins| - 1]])
  }

  /** The number of coins the player's box overlaps. */
  function CountTouching(coins: seq<Position>, player: Position): nat {
    if |coins| == 0 then 0
    else CountTouching(coins[..|coins| - 1], player) + (if Touching(player, coins[|coins| - 1]) then 1 else 0)
  }

  /** The pickup keeps exactly the coins the player does not touch, and the
      number it removes is the number of coins touched. */
  lemma {:induction false} KeptCoinsSpec(coins: seq<Position>, player: Position)
    ensures forall c :: c in KeptCoins(coins, player) <==> c in coins && !Touching(player, c)
    ensures |coins| - |KeptCoins(coins, player)| == CountTouching(coins, player)
  {
    if |coins| > 0 {
      var init := coins[..|coins| - 1];
      KeptCoinsSpec(init, player);
      assert coins == init + [coins[|coins| - 1]];
    }
  }

  /** A second pickup at the same position removes nothing. */
  lemma {:induction false} KeptCoinsIdempotent(coins: seq<Position>, player: Position)
    ensures KeptCoins(KeptCoins(coins, player), player) == KeptCoins(coins, player)
  {
    if |coins| > 0 {
      var init := coins[..|coins| - 1];
      var last := coins[|coins| - 1];
      KeptCoinsIdempotent(init, player);
      KeptAppend(KeptCoins(init, player), if Touching(player, last) then [] else [last], player);
    }
  }

  lemma {:induction false} KeptAppend(a: seq<Position>, b: seq<Position>, player: Position)
    requires |b| <= 1
    ensures KeptCoins(a + b, player) == KeptCoins(a, player) + KeptCoins(b, player)
  {
    if |b| == 0 {
      assert a + b == a;
    } else {
      assert (a + b)[..|a + b| - 1] == a;
      assert b[..0] == [];
    }
  }

  // ---------------------------------------------------------------- layouts

  /** Enemies and coins are the generators' placements from the draws in `d`:
      ten normal enemies and `doctors` doctors against `walls`, then NUM_COINS
      coins against those walls and enemies, all kept away from the spawn point. */
  ghost predicate EnemiesAndCoinsLaidOut(walls: seq<Rect>, enemies: seq<Enemy>, coins: seq<Position>,
                                         d: Draws, w: int, h: int, doctors: nat) {
    (exists tries :: EnemiesPlaced(enemies, tries, 10, doctors, walls, SPAWN, d.enemySpot, d.heading, w, h)) &&
    (exists tries :: CoinsPlaced(coins, tries, NUM_COINS, walls, enemies, SPAWN, d.coinSpot, w, h))
  }

  /** A whole fresh layout: the generated walls, then enemies and coins placed against them. */
  ghost predicate LaidOut(walls: seq<Rect>, enemies: seq<Enemy>, coins: seq<Position>, d: Draws, w: int, h: int, doctors: nat) {
    (exists tries :: WallsPlaced(walls, tries, d.wall, w, h)) &&
    EnemiesAndCoinsLaidOut(walls, enemies, coins, d, w, h, doctors)
  }

  /** The layout resetGame produces: the walls, then ten normal enemies and five
      doctors placed against them, then the coins placed against both. */
  method GenerateLayout(d: Draws, w: int, h: int) returns (walls: seq<Rect>, enemies: seq<Enemy>, coins: seq<Position>)
    ensures |walls| == NUM_WALLS && |enemies| == 15 && |coins| == NUM_COINS
    ensures forall i :: 0 <= i < |enemies| ==>
      enemies[i].kind == (if i < 10 then Normal else Doctor) && enemies[i].steps == 0
    ensures LaidOut(walls, enemies, coins, d, w, h, 5)
  {
    var wallTries, enemyTries, coinTries;
    walls, wallTries := GenerateWalls(d.wall, w, h);
    enemies, enemyTries := GenerateEnemies(10, 5, walls, SPAWN, d.enemySpot, d.heading, w, h);
    coins, coinTries := GenerateCoins(NUM_COINS, walls, enemies, SPAWN, d.coinSpot, w, h);
    assert WallsPlaced(walls, wallTries, d.wall, w, h);
    assert EnemiesPlaced(enemies, enemyTries, 10, 5, walls, SPAWN, d.enemySpot, d.heading, w, h);
    assert CoinsPlaced(coins, coinTries, NUM_COINS, walls, enemies, SPAWN, d.coinSpot, w, h);
  }

  // ---------------------------------------------------------------- the session

  class Game {
    const ctx: GameContext
    /** Viewport size, read when a layout is generated. */
    var width: int
    var height: int
    var playerPos: Position
    var enemies: seq<Enemy>
    var walls: seq<Rect>
    var coins: seq<Position>
    var door: Option<Position>
    var playerDirection: Option<Move>
    /** Coins picked up but not yet added to the score. */
    var scoreIncrement: int
    /** The time of the last enemy step, in milliseconds. */
    var lastEnemyMove: int
    var gameIsStarted: bool
    var showPopup: bool

    /** Score and pending increment are never negative, the level starts at 1,
        and every enemy has taken at most ENEMY_STEPS_BEFORE_CHANGE steps. */
    ghost predicate Valid()
      reads this, ctx
    {
      scoreIncrement >= 0 && ctx.score >= 0 && ctx.level >= 1 &&
      forall i :: 0 <= i < |enemies| ==> enemies[i].steps <= ENEMY_STEPS_BEFORE_CHANGE
    }

    /** Coins still on the board plus coins picked up, counted or pending. */
    ghost function Collected(): int
      reads this, ctx
    {
      ctx.score + scoreIncrement
    }

    constructor (ctx: GameContext, w: int, h: int, now: int)
      requires ctx.score >= 0 && ctx.level >= 1
      ensures Valid() && this.ctx == ctx && width == w && height == h
      ensures playerPos == SPAWN && enemies == [] && walls == [] && coins == [] && door == None
      ensures playerDirection == None && scoreIncrement == 0 && lastEnemyMove == now
      ensures !gameIsStarted && !showPopup
    {
      this.ctx := ctx;
      width, height := w, h;
      playerPos := SPAWN;
      enemies, walls, coins, door := [], [], [], None;
      playerDirection := None;
      scoreIncrement, lastEnemyMove := 0, now;
      gameIsStarted, showPopup := false, false;
    }

    // ------------------------------------------------------------ input

    /** handleKeyDown: the first key press starts the game (and sets a reset or
        lost status to running); an arrow key sets the held direction, any other
        key (`None`) leaves it. */
    method KeyDown(key: Option<Move>)
      requires Valid()
      modifies this, ctx
      ensures Valid() && gameIsStarted
      ensures ctx.status == if !old(gameIsStarted) && old(ctx.status) != Running then Running else old(ctx.status)
      ensures playerDirection == if key.Some? then key else old(playerDirection)
      ensures ctx.score == old(ctx.score) && ctx.level == old(ctx.level)
      ensures unchanged(this`playerPos, this`enemies, this`walls, this`coins, this`door, this`showPopup)
      ensures scoreIncrement == old(scoreIncrement) && lastEnemyMove == old(lastEnemyMove)
      ensures width == old(width) && height == old(height)
    {
      var started := gameIsStarted;
      if !started {
        gameIsStarted := true;
      }
      if !started && ctx.status != Running {
        ctx.status := Running;
      }
      if key.Some? {
        playerDirection := key;
      }
    }

    /** handleKeyUp: releasing any key clears the held direction. */
    method KeyUp()
      modifies this`playerDirection
      ensures playerDirection == None
    {
      playerDirection := None;
    }

    // ------------------------------------------------------------ the frame loop

    /** movePlayer. */
    method MovePlayerTick()
      modifies this`playerPos
      ensures playerPos == MovePlayer(old(playerPos), playerDirection, walls, width, height)
    {
      playerPos := MovePlayer(playerPos, playerDirection, walls, width, height);
    }

    /** moveEnemies, at the current level. */
    method MoveEnemiesTick(d: Draws)
      requires Valid()
      modifies this`enemies
      ensures Valid()
      ensures |enemies| == |old(enemies)|
      ensures forall i :: 0 <= i < |enemies| ==>
        Steered(old(enemies)[i], enemies[i], ctx.level, walls, width, height, d.turn(i), j => d.retry(i, j))
    {
      var moved := MoveEnemies(enemies, ctx.level, walls, width, height, d.turn, d.retry);
      forall i | 0 <= i < |moved|
        ensures moved[i].steps <= ENEMY_STEPS_BEFORE_CHANGE
      {
        SteeredBounds(enemies[i], moved[i], ctx.level, walls, width, height, d.turn(i), j => d.retry(i, j));
      }
      enemies := moved;
    }

    /** gameLoop: while no popup is shown, the player moves every frame and the
        enemies move (once the game has started) when at least
        ENEMY_MOVE_INTERVAL ms have passed since their last step. */
    method GameLoop(now: int, d: Draws)
      requires Valid()
      modifies this`playerPos, this`enemies, this`lastEnemyMove
      ensures Valid()
      ensures old(showPopup) ==> unchanged(this)
      ensures !showPopup ==> playerPos == MovePlayer(old(playerPos), playerDirection, walls, width, height)
      ensures !showPopup && now - old(lastEnemyMove) >= ENEMY_MOVE_INTERVAL ==> lastEnemyMove == now
      ensures (showPopup || now - old(lastEnemyMove) < ENEMY_MOVE_INTERVAL || !gameIsStarted) ==>
        enemies == old(enemies) && lastEnemyMove == (if showPopup || now - old(lastEnemyMove) < ENEMY_MOVE_INTERVAL then old(lastEnemyMove) else now)
      ensures !showPopup && now - old(lastEnemyMove) >= ENEMY_MOVE_INTERVAL && gameIsStarted ==>
        |enemies| == |old(enemies)| &&
        forall i :: 0 <= i < |enemies| ==>
          Steered(old(enemies)[i], enemies[i], ctx.level, walls, width, height, d.turn(i), j => d.retry(i, j))
    {
      if !showPopup {
        MovePlayerTick();
        if now - lastEnemyMove >= ENEMY_MOVE_INTERVAL {
          if gameIsStarted {
            MoveEnemiesTick(d);
          }
          lastEnemyMove := now;
        }
      }
    }

    // ------------------------------------------------------------ loss

    /** handlePlayerLost: stop the player, mark the game lost and show the popup
        (which stops the frame loop). */
    method HandlePlayerLost()
      requires Valid()
      modifies this`playerDirection, this`showPopup, ctx`status
      ensures Valid()
      ensures playerDirection == None && ctx.status == Lost && showPopup
    {
      playerDirection := None;
      ctx.status := Lost;
      showPopup := true;
    }

    /** The status effect: a status set to lost (by a collision or the level
        timer) is handled as a loss. */
    method OnStatusChanged()
      requires Valid()
      modifies this`playerDirection, this`showPopup, ctx`status
      ensures Valid()
      ensures old(ctx.status) == Lost ==> playerDirection == None && ctx.status == Lost && showPopup
      ensures old(ctx.status) != Lost ==> unchanged(this, ctx)
    {
      if ctx.status == Lost {
        HandlePlayerLost();
      }
    }

    /** The collision effect: if the player's box overlaps the kind-sized box of
        any enemy, the game is lost. */
    method CheckEnemyCollision()
      requires Valid()
      modifies this`playerDirection, this`showPopup, ctx`status
      ensures Valid()
      ensures (exists i :: 0 <= i < |enemies| && Overlaps(PlayerBox(playerPos), EnemyBox(enemies[i]))) ==>
        playerDirection == None && ctx.status == Lost && showPopup
      ensures (forall i :: 0 <= i < |enemies| ==> !Overlaps(PlayerBox(playerPos), EnemyBox(enemies[i]))) ==>
        unchanged(this, ctx)
    {
      for i := 0 to |enemies|
        invariant Valid()
        invariant (exists k :: 0 <= k < i && Overlaps(PlayerBox(playerPos), EnemyBox(enemies[k]))) ==>
          playerDirection == None && ctx.status == Lost && showPopup
        invariant (forall k :: 0 <= k < i ==> !Overlaps(PlayerBox(playerPos), EnemyBox(enemies[k]))) ==>
          unchanged(this, ctx)
      {
        if Overlaps(PlayerBox(playerPos), EnemyBox(enemies[i])) {
          HandlePlayerLost();
        }
      }
    }

    // ------------------------------------------------------------ coins and score

    /** The pickup effect: coins under the player are removed, in order, and
        each one adds 1 to the pending increment. */
    method PickUpCoins()
      requires Valid()
      modifies this`coins, this`scoreIncrement
      ensures Valid()
      ensures coins == KeptCoins(old(coins), playerPos)
      ensures scoreIncrement == old(scoreIncrement) + CountTouching(old(coins), playerPos)
      ensures scoreIncrement - old(scoreIncrement) == |old(coins)| - |coins|
    {
      var kept: seq<Position> := [];
      var increment := scoreIncrement;
      for i := 0 to |coins|
        invariant kept == KeptCoins(coins[..i], playerPos)
        invariant increment == scoreIncrement + CountTouching(coins[..i], playerPos)
      {
        assert coins[..i + 1][..i] == coins[..i];
        if Touching(playerPos, coins[i]) {
          increment := increment + 1;
        } else {
          kept := kept + [coins[i]];
        }
      }
      assert coins[..|coins|] == coins;
      KeptCoinsSpec(coins, playerPos);
      coins, scoreIncrement := kept, increment;
    }

    /** The flush effect: a positive pending increment is added to the score and
        cleared, so the collected total is preserved. */
    method FlushScore()
      requires Valid()
      modifies this`scoreIncrement, ctx`score
      ensures Valid()
      ensures scoreIncrement == 0 || old(scoreIncrement) <= 0
      ensures Collected() == old(Collected())
      ensures ctx.score == old(ctx.score) + (if old(scoreIncrement) > 0 then old(scoreIncrement) else 0)
    {
      if scoreIncrement > 0 {
        ctx.score := ctx.score + scoreIncrement;
        scoreIncrement := 0;
      }
    }

    // ------------------------------------------------------------ the door

    /** The door effect: once all coins are collected in a started game and no
        door exists yet, the door is placed best-effort away from walls, enemies
        and the player. */
    method SpawnDoor(d: Draws)
      modifies this`door
      ensures (old(door) == None && door != None) <==> (|coins| == 0 && old(door) == None && gameIsStarted)
      ensures old(door) != None ==> door == old(door)
      ensures door != old(door) ==>
        exists n :: DoorPlaced(n, walls, enemies, playerPos, d.doorSpot, width, height, door.value)
    {
      if |coins| == 0 && door == None && gameIsStarted {
        var p, n := PlaceDoor(walls, enemies, playerPos, d.doorSpot, width, height);
        door := Some(p);
        assert DoorPlaced(n, walls, enemies, playerPos, d.doorSpot, width, height, door.value);
      }
    }

    /** resetGame: a fresh layout with the player back at its spawn point and the
        game not started; the new walls are passed to the enemy and coin
        generators, and the new enemies to the coin generator. */
    method ResetGame(d: Draws)
      requires Valid()
      modifies this`gameIsStarted, this`playerDirection, this`door, this`playerPos, this`walls, this`enemies, this`coins
      ensures Valid()
      ensures !gameIsStarted && playerDirection == None && door == None && playerPos == SPAWN
      ensures |walls| == NUM_WALLS && |enemies| == 15 && |coins| == NUM_COINS
      ensures forall i :: 0 <= i < |enemies| ==>
        enemies[i].kind == (if i < 10 then Normal else Doctor) && enemies[i].steps == 0
      ensures LaidOut(walls, enemies, coins, d, width, height, 5)
    {
      gameIsStarted := false;
      playerDirection := None;
      door := None;
      playerPos := SPAWN;
      walls, enemies, coins := GenerateLayout(d, width, height);
    }

    /** The pass-through effect: touching the door clears the direction, resets
        the layout and moves to the next level; score and status are kept. */
    method PassDoor(d: Draws)
      requires Valid()
      modifies this`gameIsStarted, this`playerDirection, this`door, this`playerPos, this`walls, this`enemies, this`coins,
               ctx`level
      ensures Valid()
      ensures var reached := old(door) != None && Overlaps(PlayerBox(old(playerPos)), DoorBox(old(door).value));
        (reached ==> ctx.level == old(ctx.level) + 1 && door == None && playerPos == SPAWN &&
                     playerDirection == None && !gameIsStarted &&
                     |walls| == NUM_WALLS && |enemies| == 15 && |coins| == NUM_COINS &&
                     LaidOut(walls, enemies, coins, d, width, height, 5)) &&
        (!reached ==> unchanged(this, ctx))
    {
      if door != None && Overlaps(PlayerBox(playerPos), DoorBox(door.value)) {
        playerDirection := None;
        ResetGame(d);
        ctx.level := ctx.level + 1;
      }
    }

    // ------------------------------------------------------------ layout effects

    /** The mount effect: the first walls. */
    method GenerateLevelWalls(d: Draws)
      modifies this`walls
      ensures |walls| == NUM_WALLS
      ensures forall i :: 0 <= i < NUM_WALLS ==> WallSized(walls[i].width) && WallSized(walls[i].height)
      ensures exists tries :: WallsPlaced(walls, tries, d.wall, width, height)
    {
      var ws, tries := GenerateWalls(d.wall, width, height);
      walls := ws;
      assert WallsPlaced(walls, tries, d.wall, width, height);
    }

    /** The walls effect: once there are walls, ten normal enemies and one doctor,
        then NUM_COINS coins placed against those walls and enemies. */
    method OnWallsChanged(d: Draws)
      requires Valid()
      modifies this`enemies, this`coins
      ensures Valid()
      ensures |walls| == 0 ==> enemies == old(enemies) && coins == old(coins)
      ensures |walls| > 0 ==> |enemies| == 11 && |coins| == NUM_COINS
      ensures |walls| > 0 ==>
        forall i :: 0 <= i < |enemies| ==> enemies[i].kind == (if i < 10 then Normal else Doctor) && enemies[i].steps == 0
      ensures |walls| > 0 ==> EnemiesAndCoinsLaidOut(walls, enemies, coins, d, width, height, 1)
    {
      if |walls| > 0 {
        var es, enemyTries := GenerateEnemies(10, 1, walls, SPAWN, d.enemySpot, d.heading, width, height);
        var cs, coinTries := GenerateCoins(NUM_COINS, walls, es, SPAWN, d.coinSpot, width, height);
        assert EnemiesPlaced(es, enemyTries, 10, 1, walls, SPAWN, d.enemySpot, d.heading, width, height);
        assert CoinsPlaced(cs, coinTries, NUM_COINS, walls, es, SPAWN, d.coinSpot, width, height);
        enemies, coins := es, cs;
      }
    }

    /** handleClosePopup: hide the popup, reset the layout, and start over at
        level 1 with score 0, no pending increment and a reset status. */
    method ClosePopup(d: Draws)
      requires Valid()
      modifies this, ctx
      ensures Valid()
      ensures !showPopup && ctx.level == 1 && ctx.score == 0 && ctx.status == Idle && scoreIncrement == 0
      ensures !gameIsStarted && playerDirection == None && door == None && playerPos == SPAWN
      ensures |walls| == NUM_WALLS && |enemies| == 15 && |coins| == NUM_COINS
      ensures LaidOut(walls, enemies, coins, d, width, height, 5)
      ensures width == old(width) && height == old(height) && lastEnemyMove == old(lastEnemyMove)
    {
      showPopup := false;
      ResetGame(d);
      ctx.level := 1;
      ctx.status := Idle;
      ctx.score := 0;
      scoreIncrement := 0;
    }

    /** handleResize: a new viewport gets a fresh layout, a reset status, score 0
        and no pending increment. */
    method Resize(w: int, h: int, d: Draws)
      requires Valid()
      modifies this, ctx
      ensures Valid()
      ensures width == w && height == h
      ensures ctx.status == Idle && ctx.score == 0 && scoreIncrement == 0 && ctx.level == old(ctx.level)
      ensures !gameIsStarted && playerDirection == None && door == None && playerPos == SPAWN
      ensures |walls| == NUM_WALLS && |enemies| == 15 && |coins| == NUM_COINS
      ensures LaidOut(walls, enemies, coins, d, width, height, 5)
      ensures showPopup == old(showPopup) && lastEnemyMove == old(lastEnemyMove)
    {
      width, height := w, h;
      ResetGame(d);
      ctx.status := Idle;
      ctx.score := 0;
      scoreIncrement := 0;
    }
  }
}
