/** The entities of one level (walls, enemies, coins, the door and the player),
    their hitboxes and the constants of the game. */
module Entities {
  import opened Geometry
  import opened Wrappers

  /** One Math.random() draw: a real in [0, 1). */
  type Unit = r: real | 0.0 <= r < 1.0

  /** An enemy heading: 0 up, 1 down, 2 left, 3 right. */
  type Dir = d: int | 0 <= d < 4

  const PLAYER_SPEED: real := 5.0
  const ENEMY_SPEED: int := 10
  const ENEMY_MOVE_INTERVAL: int := 250
  const ENEMY_STEPS_BEFORE_CHANGE: nat := 5
  const NUM_WALLS: nat := 10
  const MAX_WALL_GENERATION_ATTEMPTS: nat := 100
  const MAX_SPAWN_ATTEMPTS: nat := 100
  const NUM_COINS: nat := 5

  /** Pixels at the bottom of the viewport taken by the UI chrome. */
  const CHROME: real := 60.0
  /** The player's respawn anchor. */
  const SPAWN: Position := Position(90.0, 220.0)
  /** The rectangle no wall may be placed over. */
  const SAFE_AREA: Rect := Rect(90.0, 220.0, 100.0, 100.0)
  /** No enemy or coin may spawn with its anchor this close to the player's anchor. */
  const PLAYER_SAFE_RADIUS: real := 100.0

  const PLAYER_WIDTH: real := 40.0
  const PLAYER_HEIGHT: real := 50.0
  const COIN_SIZE: real := 40.0
  const DOOR_SIZE: real := 50.0
  /** The fixed enemy box coin placement tests against, whatever the enemy's kind. */
  const COIN_ENEMY_SIZE: real := 50.0

  /** "normal" and "doctor" enemies. */
  datatype Kind = Normal | Doctor

  datatype Enemy = Enemy(left: real, top: real, direction: Dir, steps: nat, kind: Kind)

  function EnemyWidth(k: Kind): real { if k == Doctor then 40.0 else 50.0 }
  function EnemyHeight(k: Kind): real { if k == Doctor then 80.0 else 50.0 }

  function EnemyPos(e: Enemy): Position { Position(e.left, e.top) }

  /** An enemy's hitbox, sized by its kind. */
  function EnemyBox(e: Enemy): Rect { Box(EnemyPos(e), EnemyWidth(e.kind), EnemyHeight(e.kind)) }

  function PlayerBox(p: Position): Rect { Box(p, PLAYER_WIDTH, PLAYER_HEIGHT) }
  function CoinBox(c: Position): Rect { Box(c, COIN_SIZE, COIN_SIZE) }
  function DoorBox(d: Position): Rect { Box(d, DOOR_SIZE, DOOR_SIZE) }

  /** Hitboxes of all enemies, in order. */
  function EnemyBoxes(es: seq<Enemy>): (r: seq<Rect>)
    ensures |r| == |es| && forall i :: 0 <= i < |es| ==> r[i] == EnemyBox(es[i])
  {
    seq(|es|, i requires 0 <= i < |es| => EnemyBox(es[i]))
  }

  /** The 50x50 boxes coin placement uses for enemies of either kind. */
  function CoinEnemyBoxes(es: seq<Enemy>): (r: seq<Rect>)
    ensures |r| == |es| && forall i :: 0 <= i < |es| ==> r[i] == Box(EnemyPos(es[i]), COIN_ENEMY_SIZE, COIN_ENEMY_SIZE)
  {
    seq(|es|, i requires 0 <= i < |es| => Box(EnemyPos(es[i]), COIN_ENEMY_SIZE, COIN_ENEMY_SIZE))
  }

  /** Hitboxes of all coins, in order. */
  function CoinBoxes(cs: seq<Position>): (r: seq<Rect>)
    ensures |r| == |cs| && forall i :: 0 <= i < |cs| ==> r[i] == CoinBox(cs[i])
  {
    seq(|cs|, i requires 0 <= i < |cs| => CoinBox(cs[i]))
  }

  /** Math.floor(Math.random() * 4): always a valid heading. */
  function Direction4(r: Unit): Dir {
    (r * 4.0).Floor
  }

  /** Math.ceil. */
  function Ceil(x: real): (n: int)
    ensures x <= n as real < x + 1.0
  {
    -((-x).Floor)
  }
}
