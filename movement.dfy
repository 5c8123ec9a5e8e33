/** Per-tick movement: the player follows the held arrow key and stops at walls;
    enemies steer semi-randomly and turn away from walls. */
module Movement {
  import opened Geometry
  import opened Entities
  import opened Wrappers
  import opened Retry

  /** The arrow key currently held. */
  datatype Move = Up | Down | Left | Right

  // ---------------------------------------------------------------- player

  /** The rectangle the player's anchor must stay in: the viewport minus the
      player's size and the bottom chrome. */
  predicate PlayerInBounds(p: Position, w: int, h: int) {
    0.0 <= p.left <= w as real - PLAYER_WIDTH && 0.0 <= p.top <= h as real - CHROME - PLAYER_HEIGHT
  }

  /** The spot one step of PLAYER_SPEED takes the player to, clamped on the side
      it moves towards. */
  function PlayerTarget(prev: Position, m: Move, w: int, h: int): (p: Position)
    ensures m == Left || m == Right ==> p.top == prev.top
    ensures m == Up || m == Down ==> p.left == prev.left
    ensures m == Left ==> p.left == (if prev.left >= PLAYER_SPEED then prev.left - PLAYER_SPEED else 0.0)
    ensures m == Right ==>
      p.left == (if prev.left + PLAYER_SPEED <= w as real - PLAYER_WIDTH then prev.left + PLAYER_SPEED
                 else w as real - PLAYER_WIDTH)
    ensures m == Up ==> p.top == (if prev.top >= PLAYER_SPEED then prev.top - PLAYER_SPEED else 0.0)
    ensures m == Down ==>
      p.top == (if prev.top + PLAYER_SPEED <= h as real - CHROME - PLAYER_HEIGHT then prev.top + PLAYER_SPEED
                else h as real - CHROME - PLAYER_HEIGHT)
    ensures PlayerInBounds(prev, w, h) ==> PlayerInBounds(p, w, h)
    ensures PlayerInBounds(prev, w, h) ==>
      (m == Left ==> prev.left - PLAYER_SPEED <= p.left <= prev.left) &&
      (m == Right ==> prev.left <= p.left <= prev.left + PLAYER_SPEED) &&
      (m == Up ==> prev.top - PLAYER_SPEED <= p.top <= prev.top) &&
      (m == Down ==> prev.top <= p.top <= prev.top + PLAYER_SPEED)
  {
    match m
    case Left => prev.(left := Max(prev.left - PLAYER_SPEED, 0.0))
    case Right => prev.(left := Min(prev.left + PLAYER_SPEED, w as real - PLAYER_WIDTH))
    case Up => prev.(top := Max(prev.top - PLAYER_SPEED, 0.0))
    case Down => prev.(top := Min(prev.top + PLAYER_SPEED, h as real - CHROME - PLAYER_HEIGHT))
  }

  /** movePlayer: no key held leaves the player where it is; otherwise the
      player takes the clamped step unless its box would then hit a wall, in
      which case the whole move is rejected. */
  function MovePlayer(prev: Position, dir: Option<Move>, walls: seq<Rect>, w: int, h: int): (p: Position)
    ensures dir == None ==> p == prev
    ensures dir.Some? && CollidesAny(PlayerBox(PlayerTarget(prev, dir.value, w, h)), walls) ==> p == prev
    ensures dir.Some? && !CollidesAny(PlayerBox(PlayerTarget(prev, dir.value, w, h)), walls) ==>
      p == PlayerTarget(prev, dir.value, w, h)
    ensures p != prev ==> dir.Some? && p == PlayerTarget(prev, dir.value, w, h) && !CollidesAny(PlayerBox(p), walls)
    ensures p.left == prev.left || p.top == prev.top
    ensures PlayerInBounds(prev, w, h) ==> PlayerInBounds(p, w, h)
  {
    match dir
    case None => prev
    case Some(m) =>
      var target := PlayerTarget(prev, m, w, h);
      if CollidesAny(PlayerBox(target), walls) then prev else target
  }

  /** A player that starts clear of every wall never ends a move inside one. */
  lemma MovePlayerKeepsClear(prev: Position, dir: Option<Move>, walls: seq<Rect>, w: int, h: int)
    requires forall k :: 0 <= k < |walls| ==> !Overlaps(PlayerBox(prev), walls[k])
    ensures forall k :: 0 <= k < |walls| ==> !Overlaps(PlayerBox(MovePlayer(prev, dir, walls, w, h)), walls[k])
  {
    var p := MovePlayer(prev, dir, walls, w, h);
    if p != prev {
      CollidesAnyIff(PlayerBox(p), walls);
    }
  }

  // ---------------------------------------------------------------- enemies

  /** `context.level ? context.level : 1`: a missing or zero level counts as 1. */
  function EffectiveLevel(level: int): int {
    if level != 0 then level else 1
  }

  /** ENEMY_SPEED * level for normal enemies, ENEMY_SPEED * 4 * level for doctors. */
  function Speed(k: Kind, level: int): real {
    if k == Doctor then (ENEMY_SPEED * 4 * EffectiveLevel(level)) as real
    else (ENEMY_SPEED * EffectiveLevel(level)) as real
  }

  /** Doctors are four times as fast as normal enemies, and both scale with the level. */
  lemma SpeedScaling(level: int)
    requires level >= 1
    ensures Speed(Doctor, level) == 4.0 * Speed(Normal, level)
    ensures Speed(Normal, level) == 10.0 * level as real
  {
  }

  /** One step of `speed` from `p` in heading `d`. */
  function Project(p: Position, d: Dir, speed: real): Position {
    if d == 0 then p.(top := p.top - speed)
    else if d == 1 then p.(top := p.top + speed)
    else if d == 2 then p.(left := p.left - speed)
    else p.(left := p.left + speed)
  }

  /** The heading an enemy switches to when its step hits a wall: (d + 2) % 4. */
  function Reverse(d: Dir): Dir {
    (d + 2) % 4
  }

  /** Reverse maps up to left and down to right (and back), so it is never the
      opposite heading: one step and one reversed step never return to the start. */
  lemma ReverseIsNotOpposite(p: Position, d: Dir, speed: real)
    requires speed > 0.0
    ensures Reverse(0) == 2 && Reverse(1) == 3 && Reverse(Reverse(d)) == d
    ensures Project(Project(p, d, speed), Reverse(d), speed) != p
  {
  }

  /** The kind-sized box of an enemy anchored at `p` hits a wall. */
  predicate Blocked(p: Position, k: Kind, walls: seq<Rect>) {
    CollidesAny(Box(p, EnemyWidth(k), EnemyHeight(k)), walls)
  }

  /** Math.max(0, Math.min(x, hi)). */
  function ClampCoord(x: real, hi: real): (c: real)
    ensures 0.0 <= c <= Max(0.0, hi)
    ensures 0.0 <= x <= hi ==> c == x
  {
    Max(0.0, Min(x, hi))
  }

  /** Keeps an enemy of kind `k` on screen. */
  function Clamp(p: Position, k: Kind, w: int, h: int): (c: Position)
    ensures 0.0 <= c.left <= Max(0.0, w as real - EnemyWidth(k))
    ensures 0.0 <= c.top <= Max(0.0, h as real - CHROME - EnemyHeight(k))
    ensures 0.0 <= p.left <= w as real - EnemyWidth(k) && 0.0 <= p.top <= h as real - CHROME - EnemyHeight(k) ==> c == p
  {
    Position(ClampCoord(p.left, w as real - EnemyWidth(k)), ClampCoord(p.top, h as real - CHROME - EnemyHeight(k)))
  }

  /** The step counter after one steering tick. */
  function NextSteps(steps: nat): nat {
    if steps >= ENEMY_STEPS_BEFORE_CHANGE then 1 else steps + 1
  }

  /** What one steering tick does to enemy `e` (`r` is the result): after
      ENEMY_STEPS_BEFORE_CHANGE steps the heading is redrawn from `turn`; the enemy
      keeps that heading if its step is free, else takes the reversed heading if
      that step is free, else redraws from `retry` up to four times and keeps the
      last; it moves one step of its speed in the chosen heading, clamped to the
      screen; its kind is kept and its step counter advances. */
  ghost predicate Steered(e: Enemy, r: Enemy, level: int, walls: seq<Rect>, w: int, h: int, turn: Unit, retry: nat -> Unit) {
    var d0 := if e.steps >= ENEMY_STEPS_BEFORE_CHANGE then Direction4(turn) else e.direction;
    var speed := Speed(e.kind, level);
    var from := EnemyPos(e);
    r.kind == e.kind &&
    r.steps == NextSteps(e.steps) &&
    EnemyPos(r) == Clamp(Project(from, r.direction, speed), e.kind, w, h) &&
    (!Blocked(Project(from, d0, speed), e.kind, walls) ==> r.direction == d0) &&
    (Blocked(Project(from, d0, speed), e.kind, walls) && !Blocked(Project(from, Reverse(d0), speed), e.kind, walls) ==>
       r.direction == Reverse(d0)) &&
    (Blocked(Project(from, d0, speed), e.kind, walls) && Blocked(Project(from, Reverse(d0), speed), e.kind, walls) ==>
       exists n :: RetriedTurn(n, from, speed, e.kind, walls, retry, r.direction))
  }

  /** `d` is the heading left after `n` retry draws, each redrawn while the
      step it gives is blocked, at most four draws. */
  ghost predicate RetriedTurn(n: nat, from: Position, speed: real, k: Kind, walls: seq<Rect>, retry: nat -> Unit, d: Dir) {
    Retried(n, 3, j => Direction4(retry(j)), x => Blocked(Project(from, x, speed), k, walls), d)
  }

  /** The body of the moveEnemies map callback for one enemy. */
  method StepEnemy(e: Enemy, level: int, walls: seq<Rect>, w: int, h: int, turn: Unit, retry: nat -> Unit)
    returns (r: Enemy)
    ensures Steered(e, r, level, walls, w, h, turn, retry)
  {
    var newTop, newLeft := e.top, e.left;
    var newDirection := e.direction;
    var newSteps := e.steps;
    if newSteps >= ENEMY_STEPS_BEFORE_CHANGE {
      newDirection := Direction4(turn);
      newSteps := 0;
    }
    var speed := Speed(e.kind, level);
    var from := Position(newLeft, newTop);
    var potential := Project(from, newDirection, speed);
    if Blocked(potential, e.kind, walls) {
      newDirection := Reverse(newDirection);
      potential := Project(from, newDirection, speed);
      if Blocked(potential, e.kind, walls) {
        ghost var d0 := if e.steps >= ENEMY_STEPS_BEFORE_CHANGE then Direction4(turn) else e.direction;
        ghost var rejected := d => Blocked(Project(from, d, speed), e.kind, walls);
        ghost var candidate := j => Direction4(retry(j));
        var attempts := 0;
        var again := true;
        while again
          invariant 0 <= attempts <= 4
          invariant attempts > 0 ==> newDirection == candidate(attempts - 1)
          invariant potential == Project(from, newDirection, speed)
          invariant forall j :: 0 <= j < attempts - 1 ==> rejected(candidate(j))
          invariant again ==> attempts == 0 || rejected(newDirection)
          invariant again ==> attempts < 4
          invariant !again ==> attempts > 0 && (attempts == 4 || !rejected(newDirection))
          decreases 4 - attempts
        {
          newDirection := Direction4(retry(attempts));
          potential := Project(from, newDirection, speed);
          attempts := attempts + 1;
          again := Blocked(potential, e.kind, walls) && attempts < 4;
        }
        assert RetriedTurn(attempts, from, speed, e.kind, walls, retry, newDirection);
      }
    }
    var clamped := Clamp(potential, e.kind, w, h);
    r := e.(left := clamped.left, top := clamped.top, direction := newDirection, steps := newSteps + 1);
  }

  /** moveEnemies: every enemy is stepped, one for one and in order; enemy i
      draws its new heading from `turn(i)` and its retries from `retry(i, _)`. */
  method MoveEnemies(enemies: seq<Enemy>, level: int, walls: seq<Rect>, w: int, h: int,
                     turn: nat -> Unit, retry: (nat, nat) -> Unit)
    returns (moved: seq<Enemy>)
    ensures |moved| == |enemies|
    ensures forall i :: 0 <= i < |enemies| ==> Steered(enemies[i], moved[i], level, walls, w, h, turn(i), j => retry(i, j))
  {
    moved := [];
    for i := 0 to |enemies|
      invariant |moved| == i
      invariant forall k :: 0 <= k < i ==> Steered(enemies[k], moved[k], level, walls, w, h, turn(k), j => retry(k, j))
    {
      var r := StepEnemy(enemies[i], level, walls, w, h, turn(i), j => retry(i, j));
      moved := moved + [r];
    }
  }

  /** A steering tick keeps the kind, keeps the step counter in 1..5 (from 0..5),
      and leaves the enemy on screen. */
  lemma SteeredBounds(e: Enemy, r: Enemy, level: int, walls: seq<Rect>, w: int, h: int, turn: Unit, retry: nat -> Unit)
    requires Steered(e, r, level, walls, w, h, turn, retry)
    requires e.steps <= ENEMY_STEPS_BEFORE_CHANGE
    ensures r.kind == e.kind
    ensures 1 <= r.steps <= ENEMY_STEPS_BEFORE_CHANGE
    ensures e.steps >= ENEMY_STEPS_BEFORE_CHANGE ==> r.steps == 1
    ensures e.steps < ENEMY_STEPS_BEFORE_CHANGE ==> r.steps == e.steps + 1
    ensures 0.0 <= r.left <= Max(0.0, w as real - EnemyWidth(r.kind))
    ensures 0.0 <= r.top <= Max(0.0, h as real - CHROME - EnemyHeight(r.kind))
  {
  }
}
