/**
 The discovery wait of src/runtime.rs: read the match count, compare, look at the clock, sleep, repeat.
 Times are in nanoseconds.
 */
module Readiness {
  import opened Wrappers

  datatype WaitResult = Ready | ReadFailed(error: string) | TimedOut(count: int)

  /** A negative count converts to zero. */
  predicate Enough(count: int, required: nat) {
    (if count < 0 then 0 else count) >= required
  }

  /** A read that neither fails nor suffices. */
  predicate Short(read: Result<int, string>, required: nat) {
    read.Ok? && read.value < required
  }

  /** Sleeping takes at least as long as asked for: `clock(i)` is the time after the i-th read. */
  ghost predicate Sleeps(clock: nat -> int) {
    clock(0) <= clock(1) && forall i: nat :: i >= 1 ==> clock(i) + 10_000_000 <= clock(i + 1)
  }

  /** All reads before the last one fell short before the deadline. */
  ghost predicate KeptWaiting(read: nat -> Result<int, string>, clock: nat -> int, required: nat, timeout: nat,
                              rounds: nat)
  {
    forall i: nat :: i + 1 < rounds ==> Short(read(i), required) && clock(i + 1) < clock(0) + timeout
  }

  /** What a wait of `rounds` reads reports. */
  ghost predicate Reports(read: nat -> Result<int, string>, clock: nat -> int, required: nat, timeout: nat,
                          rounds: nat, result: WaitResult)
  {
    if required == 0 then rounds == 0 && result == Ready
    else
      && rounds > 0
      && KeptWaiting(read, clock, required, timeout, rounds)
      && match result
         case Ready => read(rounds - 1).Ok? && read(rounds - 1).value >= required
         case ReadFailed(e) => read(rounds - 1) == Err(e)
         case TimedOut(count) =>
           read(rounds - 1) == Ok(count) && count < required && clock(rounds) >= clock(0) + timeout
  }

  /** The readings determine the number of reads and the report. */
  lemma ReportUnique(read: nat -> Result<int, string>, clock: nat -> int, required: nat, timeout: nat, m: nat,
                     first: WaitResult, n: nat, second: WaitResult)
    requires Reports(read, clock, required, timeout, m, first) && Reports(read, clock, required, timeout, n, second)
    ensures m == n && first == second
  {
  }

  /** One more read fell short before the deadline. */
  lemma KeptLonger(read: nat -> Result<int, string>, clock: nat -> int, required: nat, timeout: nat, rounds: nat)
    requires KeptWaiting(read, clock, required, timeout, rounds) && rounds > 0
    requires Short(read(rounds - 1), required) && clock(rounds) < clock(0) + timeout
    ensures KeptWaiting(read, clock, required, timeout, rounds + 1)
  {
  }

  /**
   It reports success, failure or timeout exactly as the readings say, after at most ceil(timeout / 10 ms) + 1
   reads.
   */
  method WaitUntil(read: nat -> Result<int, string>, clock: nat -> int, required: nat, timeout: nat)
    returns (result: WaitResult, rounds: nat)
    requires Sleeps(clock)
    ensures Reports(read, clock, required, timeout, rounds, result)
    ensures rounds <= (timeout + 9_999_999) / 10_000_000 + 1
  {
    if required == 0 {
      return Ready, 0;
    }
    var deadline := clock(0) + timeout;
    rounds := 0;
    hide KeptWaiting;
    while true
      invariant KeptWaiting(read, clock, required, timeout, rounds + 1)
      invariant rounds > 0 ==> clock(rounds) >= clock(0) + 10_000_000 * (rounds - 1) && clock(rounds) < deadline
      decreases timeout + 10_000_000 - 10_000_000 * rounds
    {
      var current := read(rounds);
      rounds := rounds + 1;
      if current.Err? {
        return ReadFailed(current.error), rounds;
      }
      if Enough(current.value, required) {
        return Ready, rounds;
      }
      if clock(rounds) >= deadline {
        return TimedOut(current.value), rounds;
      }
      KeptLonger(read, clock, required, timeout, rounds);
    }
  }
}
