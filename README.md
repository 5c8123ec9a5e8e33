# A verified model of the maze game's simulation core

The game is a browser maze. The player steers a figure with the arrow keys
through a field of randomly placed walls. Enemies wander, and "doctor" enemies
are larger and four times faster. The player collects coins; once every coin is
collected, a door appears. Walking through the door starts the next, faster
level. Touching an enemy, or letting the 30-second level timer run out, loses
the game. A small sign-in form sanitises what the user types.

This project models, in Dafny:

- **The game deck** (`client/src/components/GameDeck.tsx`):
  - The strict axis-aligned overlap tests and the `some` fold over walls.
  - The squared-distance spawn radius.
  - The best-effort random placement of walls, enemies, coins and the door. The retry loop is modelled once, in module `Retry`.
  - Player movement and the enemy steering tick.
  - Coin pickup and the score flush.
  - The door, loss, reset, popup and resize transitions.
  - The component state is a class, `Deck.Game`, whose methods are the component's handlers and effects. The shared context (score, status, level) is the class `Context.GameContext`.
- **The navigation bar** (`client/src/components/Navbar.tsx`):
  - The timer display `formatTime`, with a proof that every display reads back as its time.
  - The timer colour band and the best-score rule.
  - The leaderboard order, as an insertion sort proved sorted and a permutation.
  - The timer state machine: interval tick, forced loss past the limit, level restart, and status changes. It is the class `Hud.Navbar`.
- **The input sanitiser** (`client/src/components/Login.tsx`). `sanitizeInput` is a chain of pure functions over strings: trim, five escaping replaces, control-character removal, an optional letters-and-digits filter, and truncation. Proved about it:
  - The five passes escape each character exactly once.
  - The output holds no markup character and no control character, and is a prefix of the cleaned text within the length limit.
  - The sanitiser is idempotent with the letters-and-digits filter and leaves short alphanumeric input unchanged. Without the filter it is not idempotent.

Randomness enters as parameters. Every `Math.random()` draw is a value of the
subset type `Unit` (a real in [0, 1)), taken from a caller-supplied function
indexed by the entity and the attempt. Placement contracts then say exactly which
candidate was kept and why, through the predicate `Retry.Retried`.

### Behaviour kept as the code has it

- Placement draws up to **101** candidates, not 100. The loop tests
  `attempts > 100` before each draw. When the budget runs out, the last candidate
  is kept even if it is rejected (`Retry.BestEffort`).
- The enemy "reverse" is `(d + 2) % 4`. It maps up to left and down to right,
  so it is not a half-turn (`Movement.ReverseIsNotOpposite`).
- The spawn-safety radius compares top-left anchors, not centres. Coin placement
  tests enemies with a fixed 50×50 box whatever their kind. Door placement uses
  the kind-sized box.
- The level timeout is strict. The game is lost only when the timer exceeds
  30000 ms. A timer of exactly 30000 ms does not trigger it (`Hud.Navbar.OnTimerChanged`,
  `Hud.TickAndCheck`).
- A level change restarts the timer only when it is below 30000 ms.
- Trimming happens before control characters are stripped, so sanitised text
  can begin with a space (`Login.SanitizeNotTrimmed`).
- `resetGame` asks for 10 normal enemies and 5 doctors. The walls effect asks for
  10 normal enemies and 1 doctor.

## Model

| member | source | states |
|---|---|---|
| Geometry.OverlapsSymmetric | client/src/components/GameDeck.tsx:78-83 | the strict rectangle test is symmetric in its two boxes |
| Geometry.OverlapsIffCommonPoint | client/src/components/GameDeck.tsx:78-83 | for boxes of positive size, the strict test holds exactly when the two open rectangles share a point |
| Geometry.CollidesAnyIff | client/src/components/GameDeck.tsx:93-99 | the short-circuit `walls.some(...)` fold is true iff some wall overlaps the box |
| Geometry.CollidesAnyAppend | client/src/components/GameDeck.tsx:109-115 | a box collides with `a + b` iff it collides with `a` or with `b` |
| Entities.Ceil | client/src/components/GameDeck.tsx:53-54 | Math.ceil: the least integer not below x |
| Retry.BestEffort | client/src/components/GameDeck.tsx:48-63 | the do-while placement loop: 1 to max+1 draws, every draw but the last rejected, the last kept, and accepted unless all max+1 draws were used |
| Layout.WallSide | client/src/components/GameDeck.tsx:53-56 | a wall side is a multiple of 50, at least 50, and at most a fifth of the viewport extent rounded up to 50 |
| Layout.Units | client/src/components/GameDeck.tsx:53-56 | the number of 50 px units is at least 1 and at least the ceiling of the scaled draw |
| Layout.Scaled | client/src/components/GameDeck.tsx:57-58 | `Math.random() * e` lies in [0, e] for non-negative e |
| Layout.WallCandidate | client/src/components/GameDeck.tsx:53-58 | a drawn wall has whole sides that are multiples of 50, at least 50, and lies inside the playfield whenever it fits |
| Layout.GenerateWalls | client/src/components/GameDeck.tsx:37-69 | exactly NUM_WALLS walls of legal size; wall i is what the retry loop keeps when candidates overlapping walls 0..i-1 or the safe area are rejected |
| Layout.WallsDisjoint | client/src/components/GameDeck.tsx:60-63 | walls each accepted against the walls before them are pairwise disjoint and all clear of the safe area |
| Layout.GeneratedWallsDisjoint | client/src/components/GameDeck.tsx:43-66 | if no wall used its whole budget, the generated layout is pairwise disjoint and clear of the safe area |
| Layout.PlacedWallsClearSpawn | client/src/components/GameDeck.tsx:43-66 | walls that generateWalls placed within the budget are pairwise disjoint and leave the player's 40x50 box at the spawn point (90, 220) clear |
| Layout.EnemyCandidate | client/src/components/GameDeck.tsx:154-162 | a drawn enemy spot keeps the kind-sized box inside the playfield whenever it fits |
| Layout.GenerateEnemies | client/src/components/GameDeck.tsx:139-187 | normals first, then doctors, all with zero steps and a heading from floor(r*4); each kept spot is the retry loop's result against walls and the player's safe radius |
| Layout.EnemyClear | client/src/components/GameDeck.tsx:164-167 | an accepted enemy spot hits no wall and lies outside the safe radius |
| Layout.CoinCandidate | client/src/components/GameDeck.tsx:208-209 | a drawn coin spot lies inside the playfield whenever the coin fits |
| Layout.GenerateCoins | client/src/components/GameDeck.tsx:189-233 | exactly `count` coins; coin i is the retry loop's result against walls, the safe radius, 50x50 enemy boxes and coins 0..i-1 |
| Layout.CoinsClear | client/src/components/GameDeck.tsx:211-228 | accepted coins are pairwise disjoint and clear of walls, of every enemy's 50x50 box and of the safe radius |
| Layout.DoorCandidate | client/src/components/GameDeck.tsx:534-535 | a drawn door spot lies inside the playfield whenever the door fits |
| Layout.PlaceDoor | client/src/components/GameDeck.tsx:525-552 | the door is the retry loop's result against walls, kind-sized enemy boxes and the player's box |
| Layout.DoorClear | client/src/components/GameDeck.tsx:537-550 | an accepted door hits no wall, no enemy and not the player |
| Movement.PlayerTarget | client/src/components/GameDeck.tsx:267-279 | the key's axis moves by exactly PLAYER_SPEED, or to the edge (0 or the far bound) when the full step would cross it; the other axis is kept; an on-screen player stays on screen |
| Movement.MovePlayer | client/src/components/GameDeck.tsx:263-287 | no key: no move; a step whose box hits a wall: no move; a step whose box hits no wall: the player is at PlayerTarget; one axis at a time; bounds preserved |
| Movement.MovePlayerKeepsClear | client/src/components/GameDeck.tsx:281-285 | a player clear of every wall stays clear after a move |
| Movement.SpeedScaling | client/src/components/GameDeck.tsx:307-311 | doctors move four times as fast as normal enemies, which move 10 px per level |
| Movement.ReverseIsNotOpposite | client/src/components/GameDeck.tsx:328 | `(d + 2) % 4` is an involution pairing up with left and down with right, so a step and its "reverse" never return to the start |
| Movement.ClampCoord | client/src/components/GameDeck.tsx:374-381 | `max(0, min(x, hi))` lies in [0, max(0, hi)] and is x when x is already in range |
| Movement.Clamp | client/src/components/GameDeck.tsx:374-381 | an enemy anchor is clamped into [0, max(0, W-ew)] x [0, max(0, H-60-eh)], unchanged when already there |
| Movement.StepEnemy | client/src/components/GameDeck.tsx:291-389 | one enemy's tick: heading redrawn after 5 steps; kept if free, else reversed if free, else up to four redraws keeping the last; one clamped step of its speed; kind kept; steps advanced |
| Movement.MoveEnemies | client/src/components/GameDeck.tsx:289-392 | every enemy is stepped one for one, in order |
| Movement.SteeredBounds | client/src/components/GameDeck.tsx:297-300 | after a tick the kind is unchanged, steps is 1 after reaching 5 and steps+1 otherwise (so stays in 1..5), and the enemy is on screen |
| Deck.KeptCoinsSpec | client/src/components/GameDeck.tsx:497-511 | pickup keeps exactly the coins the player's box does not overlap, and removes as many as it touches |
| Deck.KeptCoinsIdempotent | client/src/components/GameDeck.tsx:497-511 | a second pickup at the same position removes nothing |
| Deck.Game.constructor | client/src/components/GameDeck.tsx:236-246 | the initial state: player at (90, 220), no walls, enemies, coins or door, no key held, nothing pending, not started, no popup |
| Deck.Game.KeyDown | client/src/components/GameDeck.tsx:250-257 | the first key press starts the game and sets a non-running status to running; an arrow key sets the held direction |
| Deck.Game.KeyUp | client/src/components/GameDeck.tsx:259-261 | releasing a key clears the held direction |
| Deck.Game.MovePlayerTick | client/src/components/GameDeck.tsx:263-287 | the player's new position is MovePlayer of the old one |
| Deck.Game.MoveEnemiesTick | client/src/components/GameDeck.tsx:289-392 | the enemies are replaced by their steered successors, keeping every step counter at most 5 |
| Deck.Game.GameLoop | client/src/components/GameDeck.tsx:408-420 | with the popup shown nothing changes; otherwise the player moves, and enemies move only in a started game once 250 ms have passed, which also records the time |
| Deck.Game.HandlePlayerLost | client/src/components/GameDeck.tsx:438-445 | a loss clears the direction, sets status to lost and shows the popup |
| Deck.Game.OnStatusChanged | client/src/components/GameDeck.tsx:447-451 | a lost status is handled as a loss; any other status changes nothing |
| Deck.Game.CheckEnemyCollision | client/src/components/GameDeck.tsx:453-466 | overlapping any enemy's kind-sized box loses the game; overlapping none changes nothing |
| Deck.Game.PickUpCoins | client/src/components/GameDeck.tsx:497-511 | the coins become the kept coins, and the pending increment grows by the number removed |
| Deck.Game.FlushScore | client/src/components/GameDeck.tsx:513-518 | a positive increment moves into the score and is cleared, preserving score plus increment |
| Deck.Game.SpawnDoor | client/src/components/GameDeck.tsx:520-554 | a door appears iff there are no coins, no door, and the game has started; it is then a best-effort placement; an existing door stays |
| Deck.GenerateLayout | client/src/components/GameDeck.tsx:394-406 | 10 walls, 10 normal enemies then 5 doctors with zero steps, 5 coins, each wall, enemy (with its drawn heading) and coin the retry loop's pick from the draws, against the walls, enemies and coins placed before it (LaidOut) |
| Deck.Game.ResetGame | client/src/components/GameDeck.tsx:394-406 | not started, no direction, no door, player at (90, 220), and a fresh layout that is the generators' placement from the draws (LaidOut with 5 doctors) |
| Deck.Game.PassDoor | client/src/components/GameDeck.tsx:556-571 | reaching the door lays out a fresh generated layout (LaidOut) and raises the level by one; otherwise nothing changes |
| Deck.Game.GenerateLevelWalls | client/src/components/GameDeck.tsx:468-471 | the mount effect lays out NUM_WALLS walls of legal size, each the retry loop's pick against the walls before it (WallsPlaced) |
| Deck.Game.OnWallsChanged | client/src/components/GameDeck.tsx:473-480 | with walls present, 10 normal enemies then 1 doctor and 5 coins, placed by the generators from the draws against those walls (EnemiesAndCoinsLaidOut); with none, nothing changes |
| Deck.Game.ClosePopup | client/src/components/GameDeck.tsx:573-580 | the popup closes, a fresh generated layout is laid out (LaidOut), and the session restarts at level 1 with score 0, nothing pending and status reset |
| Deck.Game.Resize | client/src/components/GameDeck.tsx:482-495 | a resize takes the new size, lays out a fresh generated layout for it (LaidOut), sets status reset and score 0 and clears the increment; the level is kept |
| Context.GameContext.constructor | client/src/context/GameContext.tsx:18-21 | the shared context starts with score 0, status reset (and level 1) |
| Hud.NatToString | client/src/components/Navbar.tsx:97 | a number prints as non-empty decimal digits without a leading zero that read back as the number |
| Hud.PadStart3 | client/src/components/Navbar.tsx:97 | `padStart(3, "0")`: zeros in front up to length 3, the text itself at the end |
| Hud.FormatTimeReadsBack | client/src/components/Navbar.tsx:94-98 | for t >= 0 the display is seconds without leading zeros, a dot, exactly three digits and "s", and ReadDisplay gives back t |
| Hud.FormatTimeAtLimit | client/src/components/Navbar.tsx:94-98 | 30000 ms displays as "30.000s" |
| Hud.TimerBand | client/src/components/Navbar.tsx:133-139 | red iff the timer is above 25000, yellow iff it is in (15000, 25000], plain iff at most 15000 |
| Hud.TimerBandMonotone | client/src/components/Navbar.tsx:133-139 | the colour never gets less urgent as the timer grows |
| Hud.DisplayedBest | client/src/components/Navbar.tsx:48-59 | the shown best is one of the score and the server best (missing read as 0), at least the server best, and at least a non-zero score |
| Hud.DisplayedBestIsMax | client/src/components/Navbar.tsx:48-59 | for non-negative values the shown best is the larger of score and server best |
| Hud.Insert | client/src/components/Navbar.tsx:117-118 | inserting into a descending list keeps it descending and adds exactly one row |
| Hud.SortLeaderboard | client/src/components/Navbar.tsx:117-118 | the leaderboard is ordered by best score, highest first, and is a permutation of the rows |
| Hud.Navbar.constructor | client/src/components/Navbar.tsx:15-17 | timer 0, best score 0, no frozen result |
| Hud.Navbar.IntervalTick | client/src/components/Navbar.tsx:63-68 | the timer grows by 10 ms per tick while the game runs and not otherwise |
| Hud.Navbar.OnTimerChanged | client/src/components/Navbar.tsx:40-45 | strictly past 30000 the game is lost and the timer held at 30000; at or below nothing changes; afterwards the timer is at most 30000 |
| Hud.Navbar.OnLevelChanged | client/src/components/Navbar.tsx:34-38 | a level change zeroes the timer only when it is below 30000 |
| Hud.Navbar.OnStatusChanged | client/src/components/Navbar.tsx:61-91 | running clears the frozen result; lost freezes the timer value and zeroes the timer; reset clears the result, sets level 1 and zeroes the timer |
| Hud.Navbar.OnBestScoreData | client/src/components/Navbar.tsx:48-59 | the best score becomes DisplayedBest of the current score and the server's answer |
| Hud.TickAndCheck | client/src/components/Navbar.tsx:40-68 | a tick followed by the timer effect never leaves the timer past 30000; a running game at exactly 30000 is lost by the next tick, below that it keeps running |
| Login.TrimStart | client/src/components/Login.tsx:23 | the result is a suffix of the input, everything dropped is white space, and it does not start with white space |
| Login.TrimEnd | client/src/components/Login.tsx:23 | the result is a prefix of the input, everything dropped is white space, and it does not end with white space |
| Login.ReplaceChar | client/src/components/Login.tsx:25-29 | replacing a character that does not occur changes nothing, and with a replacement free of it, none remains |
| Login.EscapeEach | client/src/components/Login.tsx:24-29 | the per-character entity escape leaves no `<`, `>`, `"` or `'` |
| Login.EscapePassesChar | client/src/components/Login.tsx:24-29 | one character through the five passes becomes exactly its entity |
| Login.EscapePassesEscapeOnce | client/src/components/Login.tsx:24-29 | the five replace passes, ampersand first, equal escaping each character once, so no entity is escaped twice |
| Login.EscapedAmpersand | client/src/components/Login.tsx:25 | a leading `&` becomes `&amp;` even when the plain text after it already spells an entity |
| Login.StripControl | client/src/components/Login.tsx:30 | the result has no character in U+0000..U+001F or U+007F, adds no markup, and is the input when it had none |
| Login.StripControlChar | client/src/components/Login.tsx:30 | one character is dropped exactly when it is a control character and kept otherwise |
| Login.StripControlAppend | client/src/components/Login.tsx:30 | stripping a concatenation is the concatenation of the stripped parts, so every other character survives in order |
| Login.KeepAlphanumeric | client/src/components/Login.tsx:31-33 | only letters and digits remain, and alphanumeric input is unchanged |
| Login.KeepAlphanumericChar | client/src/components/Login.tsx:31-33 | one character is kept exactly when it is an ASCII letter or digit |
| Login.KeepAlphanumericAppend | client/src/components/Login.tsx:31-33 | filtering a concatenation is the concatenation of the filtered parts, so every letter and digit survives in order |
| Login.Truncate | client/src/components/Login.tsx:34-36 | the result is a prefix of length min(length, maxLength), or empty for a negative limit |
| Login.Cleaned | client/src/components/Login.tsx:23-33 | the text before truncation has no markup and no control characters, and only letters and digits when asked |
| Login.Sanitize | client/src/components/Login.tsx:18-38 | at most maxLength characters, a prefix of the cleaned text, no markup or control characters, only letters and digits when asked |
| Login.SanitizeInput | client/src/components/Login.tsx:18-22 | the output is at most the given maxLength (0 for a negative one) or 100 when none is given; allowAlphanumericOnly true leaves only letters and digits; it never holds markup or control characters |
| Login.SanitizeField | client/src/components/Login.tsx:55-58 | a form field keeps at most 50 characters, a prefix of its cleaned text, without markup or control characters |
| Login.SanitizeKeepsShortAlphanumeric | client/src/components/Login.tsx:18-38 | alphanumeric input within the limit comes back unchanged |
| Login.SanitizeAlphanumericIdempotent | client/src/components/Login.tsx:31-36 | with the filter and a non-negative limit, sanitising twice equals sanitising once |
| Login.SanitizeEscapesAgain | client/src/components/Login.tsx:23-36 | `&` followed by plain text sanitises to `&amp;` followed by that text |
| Login.SanitizeNotIdempotent | client/src/components/Login.tsx:25 | without the filter a second pass turns `&amp;` into `&amp;amp;` |
| Login.SanitizeNotTrimmed | client/src/components/Login.tsx:23-30 | "\x01 a" sanitises to " a": the result is not trimmed |
| Login.SanitizeAlphanumericAfterEscape | client/src/components/Login.tsx:24-33 | with the filter, `<` sanitises to "lt", the letters of its entity |

## Left out

- Host scheduling (`requestAnimationFrame`, `setInterval`, `Date.now`, event-listener registration and removal, `cancelAnimationFrame`). Each frame, tick and event is a method call, and the current time is a parameter.
- Setter batching and the order of React's effects. Each effect is a separate method, and how React chains them (for example the walls effect after `resetGame`) is not modelled.
- Deck.Game.ResetGame: passes the freshly generated walls and enemies to the enemy and coin generators. The code passes the walls and enemies captured by the render (stale values).
- Deck.Game.OnWallsChanged: passes the freshly generated enemies to the coin generator, where the code passes the enemies captured by the render.
- `Math.random()` is a caller-supplied draw in [0, 1). Its distribution is not modelled.
- Numbers are exact reals and integers. IEEE rounding is not modelled. `Math.sqrt(d) < r` is written `d < r*r`, the same test for the positive radius used.
- Hud.SortLeaderboard: states descending order and permutation, not the stability of `Array.prototype.sort`.
- Hud.Navbar.OnStatusChanged: does not model submitting the score to the server or re-fetching the best score after a loss. That is network I/O.
- Hud.Navbar.OnBestScoreData: the server's answer is an `Option<int>`. `data.bestScore || 0` also turns `NaN` or `null` into 0; that is the `None` case here. The loading and error flags that gate the effect are left to the caller.
- Login.SanitizeInput: characters are Unicode scalar values, not UTF-16 code units. A string holding characters outside the Basic Multilingual Plane has a different `length`, so truncation can differ. The code may cut a surrogate pair in half.
- The `username` and `password` state of the form, the submit handler and its `fetch` are out of scope: network I/O.
- The server (Express routes, MongoDB, JWT, bcrypt) and the `fetch` hooks are out of scope: I/O.
- Rendering, routing, the popup component and colour-mode class selection have no behaviour to verify and are not modelled.
- The shared context in `client/src/context/GameContext.tsx` does not declare the level. The model holds it as a field of `Context.GameContext` starting at 1.
