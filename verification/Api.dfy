/** The producer: batches of jobs, and readiness from probes of the queue. */
module Api {
  import opened Results
  import opened Queue

  const MAX_JOB_DURATION: int := 60000
  const DEFAULT_JOB_DURATION: int := 250
  const MAX_COUNT: int := 10000

  // ---------------------------------------------------------------- batches

  /** An integer that may be absent, or present but not an integer. */
  datatype Param = Missing | Garbled | Given(n: int)

  datatype Body = NoBody | BadBody | Fields(durationMS: Option<int>, count: Option<int>)

  datatype Request = Request(body: Body, durationMS: Param, count: Param)

  datatype Response = BadRequest | Unavailable(accepted: int, durationMS: int) | Accepted(accepted: int, durationMS: int)

  function OrElse(v: Option<int>, def: int): int {
    if v.Some? then v.value else def
  }

  /** The duration and count asked for: defaults, then the body, then the query parameters. */
  function Asked(r: Request): Result<(int, int), ()> {
    if r.body.BadBody? || r.durationMS.Garbled? || r.count.Garbled? then Err(())
    else
      var (d, c) := match r.body
                    case Fields(d, c) => (OrElse(d, DEFAULT_JOB_DURATION), OrElse(c, 1))
                    case _ => (DEFAULT_JOB_DURATION, 1);
      var duration := if r.durationMS.Given? then r.durationMS.n else d;
      var count := if r.count.Given? then r.count.n else c;
      if 0 <= duration <= MAX_JOB_DURATION && 1 <= count <= MAX_COUNT then Ok((duration, count)) else Err(())
  }

  /** The jobs of a batch, numbered from zero. */
  function Batch(name: int -> string, durationMS: int, now: int, n: nat): seq<Payload> {
    if n == 0 then []
    else Batch(name, durationMS, now, n - 1) + [Encoded(Job(name(n - 1), durationMS, now))]
  }

  /** Pushes a batch until it is complete or the store fails; `up` says which pushes succeed. The
      response counts exactly the jobs that reached the queue. */
  method HandleEnqueue(q: Queue, r: Request, name: int -> string, now: int, up: int -> bool) returns (resp: Response)
    requires q.Valid()
    modifies q
    ensures q.Valid() && q.popped == old(q.popped)
    ensures match Asked(r)
            case Err(_) => resp == BadRequest && q.pushed == old(q.pushed) && q.list == old(q.list)
            case Ok((duration, count)) =>
              && (resp.Accepted? || resp.Unavailable?)
              && resp.durationMS == duration && 0 <= resp.accepted <= count
              && q.pushed == old(q.pushed) + Batch(name, duration, now, resp.accepted)
              && (forall i :: 0 <= i < resp.accepted ==> up(i))
              && (resp.Accepted? <==> resp.accepted == count)
              && (resp.Unavailable? ==> !up(resp.accepted))
  {
    var asked := Asked(r);
    if asked.Err? {
      return BadRequest;
    }
    var (duration, count) := asked.value;
    assert q.pushed + [] == q.pushed;
    for i := 0 to count
      invariant q.Valid() && q.popped == old(q.popped)
      invariant q.pushed == old(q.pushed) + Batch(name, duration, now, i)
      invariant forall j :: 0 <= j < i ==> up(j)
    {
      var job := Job(name(i), duration, now);
      var ok := q.Enqueue(job, up(i));
      if !ok {
        return Unavailable(i, duration);
      }
      assert (old(q.pushed) + Batch(name, duration, now, i)) + [Encoded(job)]
          == old(q.pushed) + (Batch(name, duration, now, i) + [Encoded(job)]);
    }
    resp := Accepted(count, duration);
  }

  // ---------------------------------------------------------------- readiness

  /** Failures since the last successful probe, or since the start. */
  function FailuresSince(probes: seq<bool>): nat {
    if probes == [] || probes[|probes| - 1] then 0 else FailuresSince(probes[..|probes| - 1]) + 1
  }

  predicate EverSucceeded(probes: seq<bool>) {
    true in probes
  }

  predicate ReadyAfter(probes: seq<bool>) {
    EverSucceeded(probes) && FailuresSince(probes) < 3
  }

  class Server {
    var ready: bool
    var consecutiveFailures: nat

    constructor ()
      ensures !ready && consecutiveFailures == 0
    {
      ready, consecutiveFailures := false, 0;
    }

    method Probed(ok: bool)
      modifies this
      ensures consecutiveFailures == if ok then 0 else old(consecutiveFailures) + 1
      ensures ready == (ok || (old(ready) && consecutiveFailures < 3))
    {
      if !ok {
        consecutiveFailures := consecutiveFailures + 1;
        if consecutiveFailures >= 3 {
          ready := false;
        }
      } else {
        consecutiveFailures := 0;
        ready := true;
      }
    }

    /** The probe loop of a server that has just started. */
    method PublishQueueDepth(probes: seq<bool>)
      requires !ready && consecutiveFailures == 0
      modifies this
      ensures ready == ReadyAfter(probes) && consecutiveFailures == FailuresSince(probes)
    {
      for i := 0 to |probes|
        invariant consecutiveFailures == FailuresSince(probes[..i])
        invariant ready == ReadyAfter(probes[..i])
      {
        assert probes[..i + 1][..i] == probes[..i];
        assert probes[..i + 1] == probes[..i] + [probes[i]];
        Probed(probes[i]);
      }
      assert probes[..|probes|] == probes;
    }
  }

  lemma {:induction false} FailuresAre(probes: seq<bool>)
    ensures FailuresSince(probes) <= |probes|
    ensures forall i :: |probes| - FailuresSince(probes) <= i < |probes| ==> !probes[i]
    ensures FailuresSince(probes) < |probes| ==> probes[|probes| - FailuresSince(probes) - 1]
  {
    if probes != [] && !probes[|probes| - 1] {
      FailuresAre(probes[..|probes| - 1]);
    }
  }

  /** The server is ready exactly when one of the last three probes succeeded. */
  lemma {:induction false} ReadyExactlyWhen(probes: seq<bool>)
    ensures ReadyAfter(probes) <==> exists i :: 0 <= i < |probes| && |probes| - 3 <= i && probes[i]
  {
    FailuresAre(probes);
  }
}
