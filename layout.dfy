/** Best-effort procedural placement of walls, enemies, coins and the door.

    Every placement follows the retry policy of module Retry. Math.random() is
    replaced by caller-supplied draws: `draw(i, j)` is the j-th candidate drawn
    for the i-th entity of a call. */
module Layout {
  import opened Geometry
  import opened Entities
  import opened Retry

  datatype WallDraw = WallDraw(w: Unit, h: Unit, l: Unit, t: Unit)
  datatype SpotDraw = SpotDraw(l: Unit, t: Unit)

  // ---------------------------------------------------------------- walls

  /** A wall side: Math.ceil(random * (extent / 5) / 50) * 50, raised to at least 50;
      so a multiple of 50, at least 50, and at most a fifth of the extent rounded up to 50. */
  function WallSide(u: Unit, extent: int): (side: int)
    ensures side >= 50 && side % 50 == 0
    ensures extent >= 0 ==> side <= 50 * Units(extent as real / 250.0)
  {
    var x := Scaled(u, extent as real / 5.0) / 50.0;
    CeilMonotone(x, extent as real / 250.0);
    50 * Units(x)
  }

  /** Math.max(Math.ceil(x) * 50, 50) / 50: the number of 50px units, at least one. */
  function Units(x: real): (k: int)
    ensures k >= 1 && k >= Ceil(x)
    ensures (50 * k) % 50 == 0
  {
    MultipleOf50(Ceil(x));
    if Ceil(x) < 1 then 1 else Ceil(x)
  }

  lemma CeilMonotone(x: real, y: real)
    ensures x <= y ==> Units(x) <= Units(y)
  {
  }

  lemma MultipleOf50(k: int)
    ensures (50 * k) % 50 == 0
  {
  }

  /** A whole number of pixels, a multiple of 50 and at least 50. */
  predicate WallSized(x: real) {
    x == x.Floor as real && x.Floor >= 50 && x.Floor % 50 == 0
  }

  /** Math.random() * e lies in [0, e] when e is not negative. */
  lemma ScaleBounds(u: Unit, e: real)
    ensures e >= 0.0 ==> 0.0 <= u * e <= e
  {
    if e >= 0.0 {
      assert u * e <= 1.0 * e;
    }
  }

  /** Math.random() * e for a spot coordinate, with its range. */
  function Scaled(u: Unit, e: real): (x: real)
    ensures e >= 0.0 ==> 0.0 <= x <= e
  {
    ScaleBounds(u, e);
    u * e
  }

  /** The wall one draw produces in a w x h viewport. */
  function WallCandidate(d: WallDraw, w: int, h: int): (r: Rect)
    ensures WallSized(r.width) && WallSized(r.height)
    ensures r.width <= w as real ==> 0.0 <= r.left <= w as real - r.width
    ensures r.height + CHROME <= h as real ==> 0.0 <= r.top <= h as real - CHROME - r.height
  {
    var width := WallSide(d.w, w);
    var height := WallSide(d.h, h);
    Rect(Scaled(d.l, (w - width) as real), Scaled(d.t, (h - height) as real - CHROME), width as real, height as real)
  }

  /** A wall candidate is redrawn while it overlaps an earlier wall or the safe area. */
  predicate WallRejected(c: Rect, placed: seq<Rect>) {
    CollidesAny(c, placed) || Overlaps(c, SAFE_AREA)
  }

  /** generateWalls: NUM_WALLS walls, each placed best-effort against the walls before it. */
  method GenerateWalls(draw: (nat, nat) -> WallDraw, w: int, h: int) returns (walls: seq<Rect>, tries: seq<nat>)
    ensures |walls| == NUM_WALLS && |tries| == NUM_WALLS
    ensures forall i :: 0 <= i < NUM_WALLS ==> WallSized(walls[i].width) && WallSized(walls[i].height)
    ensures forall i :: 0 <= i < NUM_WALLS ==>
      Retried(tries[i], MAX_WALL_GENERATION_ATTEMPTS,
              j => WallCandidate(draw(i, j), w, h), c => WallRejected(c, walls[..i]), walls[i])
  {
    walls, tries := [], [];
    for i := 0 to NUM_WALLS
      invariant |walls| == i && |tries| == i
      invariant forall k :: 0 <= k < i ==> WallSized(walls[k].width) && WallSized(walls[k].height)
      invariant forall k :: 0 <= k < i ==>
        Retried(tries[k], MAX_WALL_GENERATION_ATTEMPTS,
                j => WallCandidate(draw(k, j), w, h), c => WallRejected(c, walls[..k]), walls[k])
    {
      var wall, n := BestEffort(MAX_WALL_GENERATION_ATTEMPTS, j => WallCandidate(draw(i, j), w, h),
                                c => WallRejected(c, walls), Rect(0.0, 0.0, 0.0, 0.0));
      assert wall == WallCandidate(draw(i, n - 1), w, h);
      assert (walls + [wall])[..i] == walls;
      forall k | 0 <= k < i
        ensures (walls + [wall])[..k] == walls[..k]
      {
      }
      walls, tries := walls + [wall], tries + [n];
    }
  }

  /** `walls` is what generateWalls leaves when wall i took `tries[i]` draws:
      NUM_WALLS wall-sized walls, each the retry loop's pick against the walls
      before it. */
  ghost predicate WallsPlaced(walls: seq<Rect>, tries: seq<nat>, draw: (nat, nat) -> WallDraw, w: int, h: int) {
    |walls| == NUM_WALLS && |tries| == NUM_WALLS &&
    (forall i :: 0 <= i < NUM_WALLS ==> WallSized(walls[i].width) && WallSized(walls[i].height)) &&
    forall i :: 0 <= i < NUM_WALLS ==>
      Retried(tries[i], MAX_WALL_GENERATION_ATTEMPTS,
              j => WallCandidate(draw(i, j), w, h), c => WallRejected(c, walls[..i]), walls[i])
  }

  /** Walls generated within the budget leave the player's spawn box clear:
      that box lies inside the safe area no wall may overlap. */
  lemma PlacedWallsClearSpawn(walls: seq<Rect>, tries: seq<nat>, draw: (nat, nat) -> WallDraw, w: int, h: int)
    requires WallsPlaced(walls, tries, draw, w, h)
    requires forall i :: 0 <= i < |tries| ==> tries[i] <= MAX_WALL_GENERATION_ATTEMPTS
    ensures forall i, j :: 0 <= i < |walls| && 0 <= j < |walls| && i != j ==> !Overlaps(walls[i], walls[j])
    ensures forall i :: 0 <= i < |walls| ==> !Overlaps(PlayerBox(SPAWN), walls[i])
  {
    GeneratedWallsDisjoint(walls, tries, draw, w, h);
    forall i | 0 <= i < |walls|
      ensures !Overlaps(PlayerBox(SPAWN), walls[i])
    {
      assert !Overlaps(walls[i], SAFE_AREA);
    }
  }

  /** Walls that were all accepted (no budget ran out) form a valid layout:
      they pairwise do not overlap and none overlaps the safe area. */
  lemma WallsDisjoint(walls: seq<Rect>)
    requires forall i :: 0 <= i < |walls| ==> !WallRejected(walls[i], walls[..i])
    ensures forall i, j :: 0 <= i < |walls| && 0 <= j < |walls| && i != j ==> !Overlaps(walls[i], walls[j])
    ensures forall i :: 0 <= i < |walls| ==> !Overlaps(walls[i], SAFE_AREA)
  {
    forall i, j | 0 <= i < |walls| && 0 <= j < |walls| && i != j
      ensures !Overlaps(walls[i], walls[j])
    {
      var lo, hi := if i < j then i else j, if i < j then j else i;
      CollidesAnyIff(walls[hi], walls[..hi]);
      assert walls[..hi][lo] == walls[lo];
      OverlapsSymmetric(walls[lo], walls[hi]);
    }
  }

  /** Within the budget, GenerateWalls yields a valid layout. */
  lemma GeneratedWallsDisjoint(walls: seq<Rect>, tries: seq<nat>, draw: (nat, nat) -> WallDraw, w: int, h: int)
    requires |walls| == |tries|
    requires forall i :: 0 <= i < |walls| ==>
      Retried(tries[i], MAX_WALL_GENERATION_ATTEMPTS,
              j => WallCandidate(draw(i, j), w, h), c => WallRejected(c, walls[..i]), walls[i])
    requires forall i :: 0 <= i < |tries| ==> tries[i] <= MAX_WALL_GENERATION_ATTEMPTS
    ensures forall i, j :: 0 <= i < |walls| && 0 <= j < |walls| && i != j ==> !Overlaps(walls[i], walls[j])
    ensures forall i :: 0 <= i < |walls| ==> !Overlaps(walls[i], SAFE_AREA)
  {
    forall i | 0 <= i < |walls|
      ensures !WallRejected(walls[i], walls[..i])
    {
      var rej := c => WallRejected(c, walls[..i]);
      assert !rej(walls[i]);
    }
    WallsDisjoint(walls);
  }

  // ---------------------------------------------------------------- enemies

  /** The spawn spot one draw produces for an enemy of kind `k`. */
  function EnemyCandidate(d: SpotDraw, k: Kind, w: int, h: int): (p: Position)
    ensures EnemyWidth(k) <= w as real ==> 0.0 <= p.left <= w as real - EnemyWidth(k)
    ensures EnemyHeight(k) + CHROME <= h as real ==> 0.0 <= p.top <= h as real - CHROME - EnemyHeight(k)
  {
    Position(Scaled(d.l, w as real - EnemyWidth(k)), Scaled(d.t, h as real - CHROME - EnemyHeight(k)))
  }

  /** An enemy candidate is redrawn while it hits a wall or its anchor is within
      PLAYER_SAFE_RADIUS of the player's anchor. */
  predicate EnemyRejected(p: Position, k: Kind, walls: seq<Rect>, player: Position) {
    !WallSpawn(Box(p, EnemyWidth(k), EnemyHeight(k)), walls) ||
    WithinRadius(p.left, p.top, PLAYER_SAFE_RADIUS, player)
  }

  /** generateEnemies: `normals` normal enemies, then `doctors` doctors; each is
      placed best-effort, then given a random heading and zero steps. Enemy i
      takes its spots from `spot(i, _)` and its heading from `turn(i)`. */
  method GenerateEnemies(normals: nat, doctors: nat, walls: seq<Rect>, player: Position,
                         spot: (nat, nat) -> SpotDraw, turn: nat -> Unit, w: int, h: int)
    returns (enemies: seq<Enemy>, tries: seq<nat>)
    ensures |enemies| == normals + doctors && |tries| == normals + doctors
    ensures forall i :: 0 <= i < |enemies| ==>
      enemies[i].kind == (if i < normals then Normal else Doctor) &&
      enemies[i].steps == 0 && enemies[i].direction == Direction4(turn(i))
    ensures forall i :: 0 <= i < |enemies| ==>
      Retried(tries[i], MAX_SPAWN_ATTEMPTS, j => EnemyCandidate(spot(i, j), enemies[i].kind, w, h),
              p => EnemyRejected(p, enemies[i].kind, walls, player), EnemyPos(enemies[i]))
  {
    enemies, tries := [], [];
    for i := 0 to normals + doctors
      invariant |enemies| == i && |tries| == i
      invariant forall k :: 0 <= k < i ==>
        enemies[k].kind == (if k < normals then Normal else Doctor) &&
        enemies[k].steps == 0 && enemies[k].direction == Direction4(turn(k))
      invariant forall k :: 0 <= k < i ==>
        Retried(tries[k], MAX_SPAWN_ATTEMPTS, j => EnemyCandidate(spot(k, j), enemies[k].kind, w, h),
                p => EnemyRejected(p, enemies[k].kind, walls, player), EnemyPos(enemies[k]))
    {
      var kind := if i < normals then Normal else Doctor;
      var p, n := BestEffort(MAX_SPAWN_ATTEMPTS, j => EnemyCandidate(spot(i, j), kind, w, h),
                             p => EnemyRejected(p, kind, walls, player), Position(0.0, 0.0));
      var e := Enemy(p.left, p.top, Direction4(turn(i)), 0, kind);
      assert EnemyPos(e) == p;
      enemies, tries := enemies + [e], tries + [n];
    }
  }

  /** `enemies` is what generateEnemies leaves when enemy i took `tries[i]` draws:
      the normals then the doctors, each at the retry loop's pick, with the
      heading of its own draw and zero steps. */
  ghost predicate EnemiesPlaced(enemies: seq<Enemy>, tries: seq<nat>, normals: nat, doctors: nat, walls: seq<Rect>,
                                player: Position, spot: (nat, nat) -> SpotDraw, turn: nat -> Unit, w: int, h: int) {
    |enemies| == normals + doctors && |tries| == normals + doctors &&
    (forall i :: 0 <= i < |enemies| ==>
      enemies[i].kind == (if i < normals then Normal else Doctor) &&
      enemies[i].steps == 0 && enemies[i].direction == Direction4(turn(i))) &&
    forall i :: 0 <= i < |enemies| ==>
      Retried(tries[i], MAX_SPAWN_ATTEMPTS, j => EnemyCandidate(spot(i, j), enemies[i].kind, w, h),
              p => EnemyRejected(p, enemies[i].kind, walls, player), EnemyPos(enemies[i]))
  }

  /** An accepted enemy overlaps no wall and is not within the safe radius. */
  lemma EnemyClear(e: Enemy, walls: seq<Rect>, player: Position)
    requires !EnemyRejected(EnemyPos(e), e.kind, walls, player)
    ensures forall i :: 0 <= i < |walls| ==> !Overlaps(EnemyBox(e), walls[i])
    ensures !WithinRadius(e.left, e.top, PLAYER_SAFE_RADIUS, player)
  {
    CollidesAnyIff(EnemyBox(e), walls);
  }

  // ---------------------------------------------------------------- coins

  /** The spot one draw produces for a coin. */
  function CoinCandidate(d: SpotDraw, w: int, h: int): (p: Position)
    ensures COIN_SIZE <= w as real ==> 0.0 <= p.left <= w as real - COIN_SIZE
    ensures COIN_SIZE + CHROME <= h as real ==> 0.0 <= p.top <= h as real - CHROME - COIN_SIZE
  {
    Position(Scaled(d.l, w as real - COIN_SIZE), Scaled(d.t, h as real - CHROME - COIN_SIZE))
  }

  /** A coin candidate is redrawn while it hits a wall, is within the safe radius,
      overlaps the fixed 50x50 box of any enemy, or overlaps an earlier coin. */
  predicate CoinRejected(p: Position, walls: seq<Rect>, enemies: seq<Enemy>, placed: seq<Position>, player: Position) {
    !WallSpawn(CoinBox(p), walls) ||
    WithinRadius(p.left, p.top, PLAYER_SAFE_RADIUS, player) ||
    CollidesAny(CoinBox(p), CoinEnemyBoxes(enemies)) ||
    CollidesAny(CoinBox(p), CoinBoxes(placed))
  }

  /** generateCoins: `count` coins, each placed best-effort against the coins before it. */
  method GenerateCoins(count: nat, walls: seq<Rect>, enemies: seq<Enemy>, player: Position,
                       spot: (nat, nat) -> SpotDraw, w: int, h: int)
    returns (coins: seq<Position>, tries: seq<nat>)
    ensures |coins| == count && |tries| == count
    ensures forall i :: 0 <= i < count ==>
      Retried(tries[i], MAX_SPAWN_ATTEMPTS, j => CoinCandidate(spot(i, j), w, h),
              p => CoinRejected(p, walls, enemies, coins[..i], player), coins[i])
  {
    coins, tries := [], [];
    for i := 0 to count
      invariant |coins| == i && |tries| == i
      invariant forall k :: 0 <= k < i ==>
        Retried(tries[k], MAX_SPAWN_ATTEMPTS, j => CoinCandidate(spot(k, j), w, h),
                p => CoinRejected(p, walls, enemies, coins[..k], player), coins[k])
    {
      var c, n := BestEffort(MAX_SPAWN_ATTEMPTS, j => CoinCandidate(spot(i, j), w, h),
                             p => CoinRejected(p, walls, enemies, coins, player), Position(0.0, 0.0));
      assert (coins + [c])[..i] == coins;
      forall k | 0 <= k < i
        ensures (coins + [c])[..k] == coins[..k]
      {
      }
      coins, tries := coins + [c], tries + [n];
    }
  }

  /** `coins` is what generateCoins leaves when coin i took `tries[i]` draws:
      `count` coins, each the retry loop's pick against the coins before it. */
  ghost predicate CoinsPlaced(coins: seq<Position>, tries: seq<nat>, count: nat, walls: seq<Rect>, enemies: seq<Enemy>,
                              player: Position, spot: (nat, nat) -> SpotDraw, w: int, h: int) {
    |coins| == count && |tries| == count &&
    forall i :: 0 <= i < count ==>
      Retried(tries[i], MAX_SPAWN_ATTEMPTS, j => CoinCandidate(spot(i, j), w, h),
              p => CoinRejected(p, walls, enemies, coins[..i], player), coins[i])
  }

  /** Coins that were all accepted hit no wall, no enemy's 50x50 box and no other coin. */
  lemma CoinsClear(coins: seq<Position>, walls: seq<Rect>, enemies: seq<Enemy>, player: Position)
    requires forall i :: 0 <= i < |coins| ==> !CoinRejected(coins[i], walls, enemies, coins[..i], player)
    ensures forall i, j :: 0 <= i < |coins| && 0 <= j < |coins| && i != j ==> !Overlaps(CoinBox(coins[i]), CoinBox(coins[j]))
    ensures forall i, k :: 0 <= i < |coins| && 0 <= k < |walls| ==> !Overlaps(CoinBox(coins[i]), walls[k])
    ensures forall i, k :: 0 <= i < |coins| && 0 <= k < |enemies| ==>
      !Overlaps(CoinBox(coins[i]), Box(EnemyPos(enemies[k]), COIN_ENEMY_SIZE, COIN_ENEMY_SIZE))
    ensures forall i :: 0 <= i < |coins| ==> !WithinRadius(coins[i].left, coins[i].top, PLAYER_SAFE_RADIUS, player)
  {
    forall i, j | 0 <= i < |coins| && 0 <= j < |coins| && i != j
      ensures !Overlaps(CoinBox(coins[i]), CoinBox(coins[j]))
    {
      var lo, hi := if i < j then i else j, if i < j then j else i;
      CollidesAnyIff(CoinBox(coins[hi]), CoinBoxes(coins[..hi]));
      assert CoinBoxes(coins[..hi])[lo] == CoinBox(coins[lo]);
      OverlapsSymmetric(CoinBox(coins[lo]), CoinBox(coins[hi]));
    }
    forall i | 0 <= i < |coins|
      ensures forall k :: 0 <= k < |walls| ==> !Overlaps(CoinBox(coins[i]), walls[k])
      ensures forall k :: 0 <= k < |enemies| ==>
        !Overlaps(CoinBox(coins[i]), Box(EnemyPos(enemies[k]), COIN_ENEMY_SIZE, COIN_ENEMY_SIZE))
    {
      CollidesAnyIff(CoinBox(coins[i]), walls);
      CollidesAnyIff(CoinBox(coins[i]), CoinEnemyBoxes(enemies));
    }
  }

  // ---------------------------------------------------------------- door

  /** The spot one draw produces for the door. */
  function DoorCandidate(d: SpotDraw, w: int, h: int): (p: Position)
    ensures DOOR_SIZE <= w as real ==> 0.0 <= p.left <= w as real - DOOR_SIZE
    ensures DOOR_SIZE + CHROME <= h as real ==> 0.0 <= p.top <= h as real - CHROME - DOOR_SIZE
  {
    Position(Scaled(d.l, w as real - DOOR_SIZE), Scaled(d.t, h as real - CHROME - DOOR_SIZE))
  }

  /** A door candidate is redrawn while it hits a wall, any enemy's kind-sized
      hitbox, or the player's hitbox. */
  predicate DoorRejected(p: Position, walls: seq<Rect>, enemies: seq<Enemy>, player: Position) {
    CollidesAny(DoorBox(p), walls) ||
    CollidesAny(DoorBox(p), EnemyBoxes(enemies)) ||
    Overlaps(DoorBox(p), PlayerBox(player))
  }

  /** `door` is what the door placement leaves after `tries` draws from `spot`. */
  ghost predicate DoorPlaced(tries: nat, walls: seq<Rect>, enemies: seq<Enemy>, player: Position,
                             spot: nat -> SpotDraw, w: int, h: int, door: Position) {
    Retried(tries, MAX_SPAWN_ATTEMPTS, j => DoorCandidate(spot(j), w, h),
            p => DoorRejected(p, walls, enemies, player), door)
  }

  /** The door placement of the door effect: one best-effort placement. */
  method PlaceDoor(walls: seq<Rect>, enemies: seq<Enemy>, player: Position, spot: nat -> SpotDraw, w: int, h: int)
    returns (door: Position, tries: nat)
    ensures DoorPlaced(tries, walls, enemies, player, spot, w, h, door)
  {
    door, tries := BestEffort(MAX_SPAWN_ATTEMPTS, j => DoorCandidate(spot(j), w, h),
                              p => DoorRejected(p, walls, enemies, player), Position(0.0, 0.0));
  }

  /** An accepted door hits no wall, no enemy and not the player. */
  lemma DoorClear(door: Position, walls: seq<Rect>, enemies: seq<Enemy>, player: Position)
    requires !DoorRejected(door, walls, enemies, player)
    ensures forall k :: 0 <= k < |walls| ==> !Overlaps(DoorBox(door), walls[k])
    ensures forall k :: 0 <= k < |enemies| ==> !Overlaps(DoorBox(door), EnemyBox(enemies[k]))
    ensures !Overlaps(PlayerBox(player), DoorBox(door))
  {
    CollidesAnyIff(DoorBox(door), walls);
    CollidesAnyIff(DoorBox(door), EnemyBoxes(enemies));
  }
}
