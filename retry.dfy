/** The bounded retry policy every random placement and the enemy steering use:
    draw a candidate, redraw it while it is rejected, give up after a fixed
    number of draws and keep the last candidate drawn. */
module Retry {

  /** `chosen` is what a retry loop leaves after `tries` draws from `candidate`
      when at most `max + 1` draws are allowed: every earlier draw was rejected,
      the last draw is kept, and it is accepted unless the whole budget was used. */
  ghost predicate Retried<T>(tries: nat, max: nat, candidate: nat -> T, rejected: T -> bool, chosen: T) {
    1 <= tries <= max + 1 &&
    chosen == candidate(tries - 1) &&
    (forall j :: 0 <= j < tries - 1 ==> rejected(candidate(j))) &&
    (tries <= max ==> !rejected(chosen))
  }

  /** The placement loop: do { if (attempts > max) break; draw; attempts++ } while (rejected).
      The counter is tested before each draw, so max + 1 candidates can be drawn;
      `init` stands for the zero coordinates the loop starts from (always overwritten). */
  method BestEffort<T>(max: nat, candidate: nat -> T, rejected: T -> bool, init: T) returns (chosen: T, tries: nat)
    ensures Retried(tries, max, candidate, rejected, chosen)
  {
    chosen, tries := init, 0;
    var again := true;
    while again
      invariant tries <= max + 1
      invariant tries > 0 ==> chosen == candidate(tries - 1)
      invariant forall j :: 0 <= j < tries - 1 ==> rejected(candidate(j))
      invariant again ==> tries == 0 || rejected(chosen)
      invariant !again ==> tries > 0 && !rejected(chosen)
      decreases max + 1 - tries
    {
      if tries > max {
        break;
      }
      chosen := candidate(tries);
      tries := tries + 1;
      again := rejected(chosen);
    }
  }
}
