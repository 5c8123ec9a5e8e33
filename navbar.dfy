/** The navigation bar: the per-level timer and its forced loss, the timer
    display and colour, the best-score display and the leaderboard order. */
module Hud {
  import opened Context
  import opened Wrappers

  /** The level time limit, in milliseconds. */
  const LEVEL_TIME_LIMIT: int := 30000
  /** The timer interval adds this many milliseconds per tick. */
  const TICK: int := 10

  // ---------------------------------------------------------------- number formatting

  function DigitChar(d: int): char
    requires 0 <= d < 10
  {
    "0123456789"[d]
  }

  predicate IsDigit(c: char) { '0' <= c <= '9' }

  predicate AllDigits(s: string) { forall i :: 0 <= i < |s| ==> IsDigit(s[i]) }

  /** The decimal value of a string of digits (leading zeros allowed). */
  function DigitsValue(s: string): nat
    requires AllDigits(s)
  {
    if |s| == 0 then 0 else DigitsValue(s[..|s| - 1]) * 10 + (s[|s| - 1] - '0') as nat
  }

  /** Number.prototype.toString() for a non-negative integer. */
  function NatToString(n: nat): (s: string)
    ensures |s| >= 1 && AllDigits(s)
    ensures DigitsValue(s) == n
    ensures s[0] == '0' ==> n == 0
  {
    if n < 10 then [DigitChar(n)]
    else
      var init := NatToString(n / 10);
      var s := init + [DigitChar(n % 10)];
      assert s[..|s| - 1] == init;
      s
  }

  /** Number.prototype.toString() for any integer. */
  function IntToString(n: int): string {
    if n < 0 then "-" + NatToString(-n) else NatToString(n)
  }

  /** String.prototype.padStart(3, "0"). */
  function PadStart3(s: string): (r: string)
    ensures |r| == if |s| >= 3 then |s| else 3
    ensures r[|r| - |s|..] == s
    ensures forall i :: 0 <= i < |r| - |s| ==> r[i] == '0'
  {
    if |s| >= 3 then s else seq(3 - |s|, _ => '0') + s
  }

  /** `%` on numbers: the remainder takes the sign of the dividend. */
  function TruncRem(a: int, b: int): int
    requires b > 0
  {
    if a >= 0 then a % b else -((-a) % b)
  }

  /** formatTime: whole seconds (Math.floor(time / 1000)), a dot, the
      milliseconds (time % 1000) left-padded with zeros to three characters, and "s". */
  function FormatTime(time: int): string {
    IntToString(time / 1000) + "." + PadStart3(IntToString(TruncRem(time, 1000))) + "s"
  }

  /** Leading zeros do not change the value of a digit string. */
  lemma {:induction false} LeadingZeros(z: string, s: string)
    requires forall i :: 0 <= i < |z| ==> z[i] == '0'
    requires AllDigits(s)
    ensures AllDigits(z + s) && DigitsValue(z + s) == DigitsValue(s)
  {
    if |s| == 0 {
      assert z + s == z;
      AllZeros(z);
    } else {
      var zs := z + s;
      assert zs[..|zs| - 1] == z + s[..|s| - 1];
      LeadingZeros(z, s[..|s| - 1]);
    }
  }

  lemma {:induction false} AllZeros(z: string)
    requires forall i :: 0 <= i < |z| ==> z[i] == '0'
    ensures AllDigits(z) && DigitsValue(z) == 0
  {
    if |z| > 0 {
      AllZeros(z[..|z| - 1]);
    }
  }

  /** Milliseconds print as exactly three digits that read back as the value. */
  lemma PaddedMillis(m: nat)
    requires m < 1000
    ensures var p := PadStart3(NatToString(m));
      |p| == 3 && AllDigits(p) && DigitsValue(p) == m
  {
    var ms := NatToString(m);
    ShortNatToString(m);
    var p := PadStart3(ms);
    LeadingZeros(p[..|p| - |ms|], ms);
    assert p == p[..|p| - |ms|] + ms;
  }

  /** The parts of a display can be cut back out of it. */
  lemma DisplayParts(secs: string, millis: string)
    requires |millis| == 3
    ensures var s := secs + "." + millis + "s";
      |s| == |secs| + 5 && s[|s| - 1] == 's' && s[|s| - 5] == '.' &&
      s[..|s| - 5] == secs && s[|s| - 4..|s| - 1] == millis
  {
    var s := secs + "." + millis + "s";
    assert s[..|s| - 5] == secs;
    assert s[|s| - 4..|s| - 1] == millis;
  }

  /** Reads a display back: whole seconds written without leading zeros, a
      dot, exactly three millisecond digits and an `s`; any other text is not
      a display. */
  function ReadDisplay(s: string): Option<int> {
    if |s| >= 6 && s[|s| - 1] == 's' && s[|s| - 5] == '.' &&
       AllDigits(s[..|s| - 5]) && AllDigits(s[|s| - 4..|s| - 1]) && (s[0] == '0' ==> |s| == 6)
    then Some(DigitsValue(s[..|s| - 5]) * 1000 + DigitsValue(s[|s| - 4..|s| - 1]))
    else None
  }

  /** A non-negative time reads back from its display: the text before the dot
      is the whole seconds without leading zeros, the three digits after it
      the milliseconds, and together they give the time again. */
  lemma FormatTimeReadsBack(time: int)
    requires time >= 0
    ensures ReadDisplay(FormatTime(time)) == Some(time)
  {
    var secs := NatToString(time / 1000);
    var millis := PadStart3(NatToString(time % 1000));
    var s := secs + "." + millis + "s";
    assert ReadDisplay(s) == Some(time) by {
      PaddedMillis(time % 1000);
      if secs[0] == '0' {
        assert secs == [DigitChar(0)];
      }
      ReadParts(secs, millis);
      assert (time / 1000) * 1000 + time % 1000 == time;
    }
    assert FormatTime(time) == s by {
      NonNegativeDisplay(time);
    }
  }

  /** For a non-negative time the signed conversions and the JavaScript
      remainder are the plain ones. */
  lemma NonNegativeDisplay(time: int)
    requires time >= 0
    ensures FormatTime(time) == NatToString(time / 1000) + "." + PadStart3(NatToString(time % 1000)) + "s"
  {
    assert TruncRem(time, 1000) == time % 1000;
  }

  /** Seconds and milliseconds in display form read back as their values. */
  lemma ReadParts(secs: string, millis: string)
    requires |secs| >= 1 && AllDigits(secs) && (secs[0] == '0' ==> |secs| == 1)
    requires |millis| == 3 && AllDigits(millis)
    ensures ReadDisplay(secs + "." + millis + "s") == Some(DigitsValue(secs) * 1000 + DigitsValue(millis))
  {
    var s := secs + "." + millis + "s";
    DisplayParts(secs, millis);
    assert s[0] == secs[0];
  }

  /** A number below 1000 prints in at most three digits. */
  lemma ShortNatToString(n: nat)
    requires n < 1000
    ensures |NatToString(n)| <= 3
  {
    if n >= 10 {
      assert |NatToString(n)| == |NatToString(n / 10)| + 1;
      if n / 10 >= 10 {
        assert |NatToString(n / 10)| == |NatToString(n / 100)| + 1;
      }
    }
  }

  /** The display at the level time limit. */
  lemma FormatTimeAtLimit()
    ensures FormatTime(LEVEL_TIME_LIMIT) == "30.000s"
  {
    assert NatToString(3) == "3";
    assert NatToString(30) == NatToString(3) + "0";
    assert IntToString(LEVEL_TIME_LIMIT / 1000) == "30";
    assert IntToString(TruncRem(LEVEL_TIME_LIMIT, 1000)) == "0";
    assert PadStart3("0") == "000";
  }

  // ---------------------------------------------------------------- timer colour

  datatype Band = Plain | Yellow | Red

  /** The timer turns yellow after 15 s and red after 25 s. */
  function TimerBand(timer: int): (b: Band)
    ensures b == Red <==> timer > 25000
    ensures b == Yellow <==> 15000 < timer <= 25000
    ensures b == Plain <==> timer <= 15000
  {
    if timer > 25000 then Red else if timer > 15000 then Yellow else Plain
  }

  function BandRank(b: Band): nat {
    match b
    case Plain => 0
    case Yellow => 1
    case Red => 2
  }

  /** The colour only ever gets more urgent as the timer grows. */
  lemma TimerBandMonotone(t1: int, t2: int)
    requires t1 <= t2
    ensures BandRank(TimerBand(t1)) <= BandRank(TimerBand(t2))
  {
  }

  // ---------------------------------------------------------------- best score

  /** The best score shown: the current score when it is non-zero and beats the
      server's best, otherwise the server's best (a missing value read as 0). */
  function DisplayedBest(score: int, serverBest: Option<int>): (b: int)
    ensures var sb := if serverBest.Some? then serverBest.value else 0;
      b >= sb && (score != 0 ==> b >= score) && (b == sb || b == score)
  {
    var sb := if serverBest.Some? then serverBest.value else 0;
    if score != 0 && score > sb then score else sb
  }

  /** For non-negative values the displayed best is the larger of the two. */
  lemma DisplayedBestIsMax(score: int, serverBest: Option<int>)
    requires score >= 0 && (serverBest.Some? ==> serverBest.value >= 0)
    ensures DisplayedBest(score, serverBest) == if serverBest.Some? && serverBest.value > score then serverBest.value else score
  {
  }

  // ---------------------------------------------------------------- leaderboard

  datatype ScoreRow = ScoreRow(username: string, bestScore: int)

  predicate SortedDescending(rows: seq<ScoreRow>) {
    forall i, j :: 0 <= i < j < |rows| ==> rows[i].bestScore >= rows[j].bestScore
  }

  /** A row at least as high as the head of a descending list can go in front of it. */
  lemma SortedCons(x: ScoreRow, rows: seq<ScoreRow>)
    requires SortedDescending(rows)
    requires |rows| > 0 ==> x.bestScore >= rows[0].bestScore
    ensures SortedDescending([x] + rows)
  {
  }

  /** Inserts `row` into a descending list, before every row with an equal or
      lower score. */
  function Insert(row: ScoreRow, rows: seq<ScoreRow>): (r: seq<ScoreRow>)
    requires SortedDescending(rows)
    ensures SortedDescending(r)
    ensures multiset(r) == multiset(rows) + multiset{row}
    ensures |r| == |rows| + 1
    ensures r[0] == row || (|rows| > 0 && r[0] == rows[0])
  {
    if |rows| == 0 then [row]
    else if rows[0].bestScore <= row.bestScore then
      SortedCons(row, rows);
      [row] + rows
    else
      var rest := Insert(row, rows[1..]);
      assert rows == [rows[0]] + rows[1..];
      SortedCons(rows[0], rest);
      [rows[0]] + rest
  }

  /** The leaderboard order: `sort((a, b) => b.bestScore - a.bestScore)`, a
      stable sort by best score, highest first. */
  function SortLeaderboard(rows: seq<ScoreRow>): (r: seq<ScoreRow>)
    ensures SortedDescending(r)
    ensures multiset(r) == multiset(rows)
  {
    if |rows| == 0 then []
    else
      assert rows == [rows[0]] + rows[1..];
      Insert(rows[0], SortLeaderboard(rows[1..]))
  }

  // ---------------------------------------------------------------- the timer

  class Navbar {
    const ctx: GameContext
    /** Milliseconds spent in the current level. */
    var timer: int
    /** The best score shown on the button. */
    var bestScore: int
    /** The time frozen on the display once a game is lost. */
    var finalTimerResult: Option<int>

    /** The timer is a non-negative multiple of TICK. */
    ghost predicate Valid()
      reads this
    {
      timer >= 0 && timer % TICK == 0
    }

    constructor (ctx: GameContext)
      ensures Valid() && this.ctx == ctx && timer == 0 && bestScore == 0 && finalTimerResult == None
    {
      this.ctx := ctx;
      timer, bestScore, finalTimerResult := 0, 0, None;
    }

    /** One tick of the 10 ms interval, which only runs while the game runs. */
    method IntervalTick()
      requires Valid()
      modifies this`timer
      ensures Valid()
      ensures timer == if ctx.status == Running then old(timer) + TICK else old(timer)
    {
      if ctx.status == Running {
        timer := timer + TICK;
      }
    }

    /** The timer effect: past the limit (strictly) the game is lost and the
        timer is held at the limit; at or below it nothing happens. */
    method OnTimerChanged()
      requires Valid()
      modifies this`timer, ctx`status
      ensures Valid()
      ensures timer <= LEVEL_TIME_LIMIT
      ensures old(timer) > LEVEL_TIME_LIMIT ==> timer == LEVEL_TIME_LIMIT && ctx.status == Lost
      ensures old(timer) <= LEVEL_TIME_LIMIT ==> timer == old(timer) && ctx.status == old(ctx.status)
    {
      if timer > LEVEL_TIME_LIMIT {
        ctx.status := Lost;
        timer := LEVEL_TIME_LIMIT;
      }
    }

    /** The level effect: a new level restarts the timer, unless it has reached
        the limit. */
    method OnLevelChanged()
      requires Valid()
      modifies this`timer
      ensures Valid()
      ensures timer == if old(timer) < LEVEL_TIME_LIMIT then 0 else old(timer)
    {
      if timer < LEVEL_TIME_LIMIT {
        timer := 0;
      }
    }

    /** The status effect: running clears the frozen result; lost freezes the
        current time and zeroes the timer; reset clears the frozen result, goes
        back to level 1 and zeroes the timer. */
    method OnStatusChanged()
      requires Valid()
      modifies this`timer, this`finalTimerResult, ctx`level
      ensures Valid()
      ensures ctx.status == Running ==> finalTimerResult == None && timer == old(timer) && ctx.level == old(ctx.level)
      ensures ctx.status == Lost ==> finalTimerResult == Some(old(timer)) && timer == 0 && ctx.level == old(ctx.level)
      ensures ctx.status == Idle ==> finalTimerResult == None && timer == 0 && ctx.level == 1
    {
      match ctx.status
      case Running =>
        finalTimerResult := None;
      case Lost =>
        finalTimerResult := Some(timer);
        timer := 0;
      case Idle =>
        finalTimerResult := None;
        ctx.level := 1;
        timer := 0;
    }

    /** The best-score effect, run when the server's answer has arrived without error. */
    method OnBestScoreData(serverBest: Option<int>)
      modifies this`bestScore
      ensures bestScore == DisplayedBest(ctx.score, serverBest)
    {
      bestScore := DisplayedBest(ctx.score, serverBest);
    }

    /** The text of the timer: the frozen result if there is one, else the timer. */
    function DisplayedTime(): string
      reads this
    {
      FormatTime(if finalTimerResult.Some? then finalTimerResult.value else timer)
    }
  }

  /** Ticking and then running the timer effect never leaves the timer past the
      limit, and a game still running at the limit is not lost yet. */
  method TickAndCheck(nav: Navbar)
    requires nav.Valid() && nav.timer <= LEVEL_TIME_LIMIT
    modifies nav, nav.ctx
    ensures nav.Valid() && nav.timer <= LEVEL_TIME_LIMIT
    ensures old(nav.ctx.status) == Running && old(nav.timer) == LEVEL_TIME_LIMIT ==>
      nav.ctx.status == Lost && nav.timer == LEVEL_TIME_LIMIT
    ensures old(nav.ctx.status) == Running && old(nav.timer) < LEVEL_TIME_LIMIT ==>
      nav.ctx.status == Running && nav.timer == old(nav.timer) + TICK
  {
    nav.IntervalTick();
    nav.OnTimerChanged();
  }
}
