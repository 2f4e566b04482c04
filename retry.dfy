/** The bounded-attempt loop shape that the two ping loops and the health
    check share: `for attempt in range(max_retries)`, an early return on the
    first success, the output of the last failed attempt kept for the report,
    and a sleep after every attempt except the last.

    A loop's observable effects are logged one entry per attempt: what the
    attempt did (its actions, in order) and whether a sleep followed it. The
    length of the log is therefore the number of attempts made. */
module Retry {
  import opened Base

  datatype Attempt<A> = Attempt(actions: seq<A>, slept: bool)

  /** `max(0, n)`: the length of `range(n)`. */
  function Max0(n: int): nat {
    if n < 0 then 0 else n
  }

  /** The attempt index of the first success below `n`, if any: the attempt at
      which the loop returns. */
  function FirstSuccess(succeeds: nat -> bool, n: int): Option<nat> {
    FirstFrom(succeeds, 0, n)
  }

  function FirstFrom(succeeds: nat -> bool, i: nat, n: int): Option<nat>
    decreases n - i
  {
    if n <= i then None
    else if succeeds(i) then Some(i)
    else FirstFrom(succeeds, i + 1, n)
  }

  /** FirstSuccess finds exactly the least successful index below `n`. */
  lemma {:induction false} FirstFromIsLeast(succeeds: nat -> bool, i: nat, n: int)
    requires forall j: nat :: j < i ==> !succeeds(j)
    ensures match FirstFrom(succeeds, i, n)
            case Some(k) => k < n && succeeds(k) && forall j: nat :: j < k ==> !succeeds(j)
            case None => forall j: nat :: j < n ==> !succeeds(j)
    decreases n - i
  {
    if n <= i {
    } else if succeeds(i) {
    } else {
      FirstFromIsLeast(succeeds, i + 1, n);
    }
  }

  /** Both directions: FirstSuccess is `Some(k)` exactly when `k` is the least
      successful attempt below `n`, and `None` exactly when none succeeds. */
  lemma FirstSuccessCharacterized(succeeds: nat -> bool, n: int, k: nat)
    ensures FirstSuccess(succeeds, n) == Some(k)
            <==> k < n && succeeds(k) && forall j: nat :: j < k ==> !succeeds(j)
    ensures FirstSuccess(succeeds, n).None? <==> forall j: nat :: j < n ==> !succeeds(j)
  {
    FirstFromIsLeast(succeeds, 0, n);
    if k < n && succeeds(k) && forall j: nat :: j < k ==> !succeeds(j) {
      var first := FirstSuccess(succeeds, n);
      if first.Some? {
        assert !(first.value < k) && !(k < first.value);
      }
    }
  }

  /** Attempt `i` of the log slept exactly when `sleeps(i)`. */
  predicate SleptExactly<A>(log: seq<Attempt<A>>, sleeps: nat -> bool) {
    forall i :: 0 <= i < |log| ==> (log[i].slept <==> sleeps(i))
  }

  lemma SleptExactlyAppend<A>(log: seq<Attempt<A>>, a: Attempt<A>, sleeps: nat -> bool)
    requires SleptExactly(log, sleeps)
    requires a.slept <==> sleeps(|log|)
    ensures SleptExactly(log + [a], sleeps)
  {
    assert forall i :: 0 <= i < |log| ==> (log + [a])[i] == log[i];
  }

  /** The number of attempts that were followed by a sleep. */
  function SleepCount<A>(log: seq<Attempt<A>>): nat {
    if log == [] then 0
    else SleepCount(log[..|log| - 1]) + (if log[|log| - 1].slept then 1 else 0)
  }

  /** When exactly the attempts below `m` sleep, the loop sleeps
      `min(|log|, max(0, m))` times. */
  lemma {:induction false} SleepCountBelow<A>(log: seq<Attempt<A>>, m: int)
    requires forall i :: 0 <= i < |log| ==> (log[i].slept <==> i < m)
    ensures SleepCount(log) == if |log| <= m then |log| else Max0(m)
  {
    if log != [] {
      SleepCountBelow(log[..|log| - 1], m);
    }
  }

  /** When only attempts below `m` sleep, there are at most `max(0, m)` sleeps. */
  lemma {:induction false} SleepCountAtMost<A>(log: seq<Attempt<A>>, m: int)
    requires forall i :: 0 <= i < |log| && log[i].slept ==> i < m
    ensures SleepCount(log) <= Max0(m)
    ensures SleepCount(log) <= |log|
  {
    if log != [] {
      SleepCountAtMost(log[..|log| - 1], m);
      if log[|log| - 1].slept {
        assert |log| - 1 < m;
        SleepCountBelowLength(log[..|log| - 1], m);
      }
    }
  }

  lemma {:induction false} SleepCountBelowLength<A>(log: seq<Attempt<A>>, m: int)
    requires |log| < m
    ensures SleepCount(log) <= |log| < Max0(m)
  {
    if log != [] {
      SleepCountBelowLength(log[..|log| - 1], m);
    }
  }

  /** The report a loop gives once every attempt failed:
      "Failed after {max_retries} attempts. Last {what}: {last}". */
  function Exhausted(maxRetries: int, what: string, last: string): (message: string)
    ensures |message| >= |last| && message[|message| - |last|..] == last
  {
    "Failed after " + IntToString(maxRetries) + " attempts. Last " + what + ": " + last
  }
}
