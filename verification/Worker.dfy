/** One consumer's loop: its counters and its backoff, over any sequence of outcomes. */
module Worker {
  import opened Queue

  const BACKOFF_MIN: int := 500
  const BACKOFF_MAX: int := 15000

  /** One turn of the loop: the signal was seen at its top, or a dequeue answered. The signal may
      also arrive during the wait after a failure. */
  datatype Turn =
    | Signalled
    | Took(job: Job)
    | Idle
    | Interrupted
    | Failed(signalledInWait: bool)

  /** The turn after which the loop returns. */
  predicate Returns(t: Turn) {
    t.Signalled? || t.Interrupted? || (t.Failed? && t.signalledInWait)
  }

  predicate Continues(turns: seq<Turn>) {
    forall i :: 0 <= i < |turns| ==> !Returns(turns[i])
  }

  /** Failures since the last dequeue that was empty or successful. */
  function FailuresSince(turns: seq<Turn>): nat {
    if turns == [] then 0
    else
      match turns[|turns| - 1]
      case Took(_) => 0
      case Idle => 0
      case Failed(_) => FailuresSince(turns[..|turns| - 1]) + 1
      case _ => FailuresSince(turns[..|turns| - 1])
  }

  function Doubled(n: nat): int {
    if n == 0 then BACKOFF_MIN else 2 * Doubled(n - 1)
  }

  function Min(x: int, y: int): int {
    if x <= y then x else y
  }

  /** The backoff a history of outcomes determines. */
  function BackoffAfter(turns: seq<Turn>): int {
    Min(Doubled(FailuresSince(turns)), BACKOFF_MAX)
  }

  function Waits(turns: seq<Turn>): seq<int> {
    if turns == [] then []
    else
      var front := turns[..|turns| - 1];
      Waits(front) + if turns[|turns| - 1].Failed? then [BackoffAfter(front)] else []
  }

  function Jobs(turns: seq<Turn>): seq<Job> {
    if turns == [] then []
    else Jobs(turns[..|turns| - 1]) + if turns[|turns| - 1].Took? then [turns[|turns| - 1].job] else []
  }

  class Consumer {
    var backoff: int
    var done: seq<Job>    // executed, in order
    var failed: nat       // dequeues that failed
    var waits: seq<int>   // backoffs waited out, or being waited when the signal came

    constructor ()
      ensures backoff == BACKOFF_MIN && done == [] && failed == 0 && waits == []
    {
      backoff, done, failed, waits := BACKOFF_MIN, [], 0, [];
    }

    /** Consumes until the signal is seen or the outcomes end. */
    method Consume(turns: seq<Turn>) returns (n: nat)
      requires backoff == BACKOFF_MIN && done == [] && failed == 0 && waits == []
      modifies this
      ensures n <= |turns|
      ensures n < |turns| ==> n > 0 && Returns(turns[n - 1])
      ensures Continues(if n > 0 then turns[..n - 1] else [])
      ensures done == Jobs(turns[..n]) && waits == Waits(turns[..n]) && failed == |waits|
      ensures Continues(turns[..n]) ==> backoff == BackoffAfter(turns[..n])
    {
      n := 0;
      while n < |turns|
        invariant n <= |turns| && Continues(turns[..n])
        invariant done == Jobs(turns[..n]) && waits == Waits(turns[..n]) && failed == |waits|
        invariant backoff == BackoffAfter(turns[..n])
      {
        var turn := turns[n];
        assert turns[..n + 1][..n] == turns[..n];
        n := n + 1;
        match turn {
          case Signalled => return;
          case Interrupted => return;
          case Idle => backoff := BACKOFF_MIN;
          case Failed(signalled) =>
            failed := failed + 1;
            waits := waits + [backoff];
            if signalled {
              return;
            }
            backoff := backoff * 2;
            if backoff > BACKOFF_MAX {
              backoff := BACKOFF_MAX;
            }
          case Took(job) =>
            backoff := BACKOFF_MIN;
            done := done + [job];
        }
      }
    }
  }

  function Power2(n: nat): int {
    if n == 0 then 1 else 2 * Power2(n - 1)
  }

  lemma {:induction false} DoubledIs(n: nat)
    ensures Doubled(n) == 500 * Power2(n)
  {
    if n > 0 {
      DoubledIs(n - 1);
    }
  }

  /** Whatever came before, after an empty or successful dequeue and `k` failures the next wait is
      500 ms doubled `k` times, and never above fifteen seconds. */
  lemma {:induction false} BackoffIsDetermined(before: seq<Turn>, failures: seq<Turn>)
    requires before == [] || before[|before| - 1].Took? || before[|before| - 1].Idle?
    requires forall i :: 0 <= i < |failures| ==> failures[i].Failed?
    ensures FailuresSince(before + failures) == |failures|
    ensures BackoffAfter(before + failures) == Min(500 * Power2(|failures|), 15000)
  {
    DoubledIs(|failures|);
    if failures == [] {
      assert before + failures == before;
    } else {
      var n := |failures| - 1;
      assert (before + failures)[..|before + failures| - 1] == before + failures[..n];
      BackoffIsDetermined(before, failures[..n]);
    }
  }
}
