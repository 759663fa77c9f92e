/** The demonstrations: what a streamed pass means, over any behaviour of the cluster.

  Everything the cluster, the queue and the clock answer is a trace given to the run; a trace that
  ends stands for the run's context being cancelled.
 */
module Dashboard {
  import opened Results

  /** One line of a running demonstration; only the last may be terminal. */
  datatype Event =
    | Note(text: string)
    | Poll(replicas: int, depth: Option<int>)
    | Pass(text: string, peak: int)
    | Fail(text: string)

  predicate IsTerminal(e: Event) {
    e.Pass? || e.Fail?
  }

  predicate NoTerminal(events: seq<Event>) {
    forall i :: 0 <= i < |events| ==> !IsTerminal(events[i])
  }

  /** The stream grew by notes and polls only. */
  ghost predicate Quiet(before: seq<Event>, after: seq<Event>) {
    before <= after && NoTerminal(after[|before|..])
  }

  /** A stream that grew by notes and polls, then by one pass at the end if the run passed. */
  ghost predicate EndsWell(before: seq<Event>, after: seq<Event>, passed: bool) {
    if passed
    then after != [] && after[|after| - 1].Pass? && Quiet(before, after[..|after| - 1])
    else Quiet(before, after)
  }

  lemma {:induction false} QuietStep(before: seq<Event>, after: seq<Event>, e: Event)
    requires Quiet(before, after)
    ensures !IsTerminal(e) ==> Quiet(before, after + [e])
    ensures e.Pass? ==> EndsWell(before, after + [e], true)
  {
    assert (after + [e])[..|after|] == after;
    assert (after + [e])[|before|..] == after[|before|..] + [e];
  }

  lemma {:induction false} QuietChain(a: seq<Event>, b: seq<Event>, c: seq<Event>)
    requires Quiet(a, b) && Quiet(b, c)
    ensures Quiet(a, c)
  {
    assert c[|a|..] == b[|a|..] + c[|b|..];
  }

  class Stream {
    var events: seq<Event>

    constructor ()
      ensures events == []
    {
      events := [];
    }

    method Emit(e: Event)
      modifies this
      ensures events == old(events) + [e]
    {
      events := events + [e];
    }
  }

  // ---------------------------------------------------------------- load

  datatype Bounds = Bounds(min: int, max: int)

  /** One poll: the replica count and the queue depth if they could be read, whether the deadline
      has passed, and whether the run is cancelled before the next poll. */
  datatype Reading = Reading(replicas: Option<int>, depth: Option<int>, late: bool, cancelled: bool)

  datatype Stage = ScaleUp | Drain

  predicate Achieved(stage: Stage, start: int, replicas: int, depth: int) {
    match stage
    case ScaleUp => replicas > start
    case Drain => depth == 0
  }

  predicate InBounds(b: Bounds, replicas: int) {
    b.min <= replicas <= b.max
  }

  /** Every reading saw the deployment, within its bounds. */
  predicate AllInBounds(b: Bounds, readings: seq<Reading>) {
    forall i :: 0 <= i < |readings| ==> readings[i].replicas.Some? && InBounds(b, readings[i].replicas.value)
  }

  /** `peak` is the largest of the start and the polled counts. */
  predicate IsPeak(peak: int, start: int, readings: seq<Reading>) {
    && start <= peak
    && (forall i :: 0 <= i < |readings| && readings[i].replicas.Some? ==> readings[i].replicas.value <= peak)
    && (peak == start || exists i :: 0 <= i < |readings| && readings[i].replicas == Some(peak))
  }

  /** The polls of one stage ended with its goal met, and with none before it met in time. */
  predicate Succeeded(stage: Stage, start: int, readings: seq<Reading>) {
    && readings != []
    && (var last := readings[|readings| - 1];
        last.replicas.Some? && last.depth.Some? && Achieved(stage, start, last.replicas.value, last.depth.value))
    && forall i :: 0 <= i < |readings| - 1 ==> !readings[i].late && !readings[i].cancelled
  }

  method PollUntil(stage: Stage, b: Bounds, start: int, trace: seq<Reading>, stream: Stream)
      returns (r: Result<int, string>, n: nat)
    modifies stream
    ensures n <= |trace|
    ensures Quiet(old(stream.events), stream.events)
    ensures r.Ok? ==>
              && Succeeded(stage, start, trace[..n])
              && AllInBounds(b, trace[..n])
              && IsPeak(r.value, start, trace[..n])
  {
    var peak := start;
    n := 0;
    while n < |trace|
      invariant n <= |trace|
      invariant Quiet(old(stream.events), stream.events)
      invariant AllInBounds(b, trace[..n]) && IsPeak(peak, start, trace[..n])
      invariant forall i :: 0 <= i < n ==> !trace[i].late && !trace[i].cancelled
    {
      var now := trace[n];
      n := n + 1;
      if now.replicas.None? {
        return Err("lost sight of the worker tier"), n;
      }
      var replicas := now.replicas.value;
      if replicas > b.max {
        return Err("replicas above the authorised maximum"), n;
      }
      if replicas < b.min {
        return Err("replicas below the authorised minimum"), n;
      }
      if replicas > peak {
        peak := replicas;
      }
      assert trace[..n][n - 1] == now;
      QuietStep(old(stream.events), stream.events, Poll(replicas, now.depth));
      stream.Emit(Poll(replicas, now.depth));
      if now.depth.Some? && Achieved(stage, start, replicas, now.depth.value) {
        return Ok(peak), n;
      }
      if now.late {
        return Err("did not happen in time"), n;
      }
      if now.cancelled {
        return Err("cancelled"), n;
      }
    }
    r := Err("cancelled");
  }

  datatype LoadTrace = LoadTrace(
    bounds: Result<Bounds, string>,
    start: Result<int, string>,
    enqueued: Result<(), string>,
    rise: seq<Reading>,
    fall: seq<Reading>)

  /** What a passing load run has shown: the polls of both stages, each within bounds and each
      reaching its goal, and the largest count seen. */
  ghost predicate LoadShown(t: LoadTrace, m: nat, n: nat, peak: int) {
    && t.bounds.Ok? && t.start.Ok? && t.enqueued.Ok?
    && m <= |t.rise| && n <= |t.fall|
    && Succeeded(ScaleUp, t.start.value, t.rise[..m]) && AllInBounds(t.bounds.value, t.rise[..m])
    && Succeeded(Drain, t.start.value, t.fall[..n]) && AllInBounds(t.bounds.value, t.fall[..n])
    && IsPeak(peak, t.start.value, t.rise[..m] + t.fall[..n])
  }

  ghost predicate LoadPassed(t: LoadTrace, peak: int) {
    exists m: nat, n: nat :: LoadShown(t, m, n, peak)
  }

  lemma {:induction false} PeakOfBoth(start: int, a: seq<Reading>, b: seq<Reading>, x: int, y: int)
    requires IsPeak(x, start, a) && IsPeak(y, start, b)
    ensures IsPeak(if y > x then y else x, start, a + b)
  {
    var ab, peak := a + b, if y > x then y else x;
    forall i | 0 <= i < |ab| && ab[i].replicas.Some? ensures ab[i].replicas.value <= peak {
      assert ab[i] == if i < |a| then a[i] else b[i - |a|];
    }
    if peak != start {
      if y > x {
        var i :| 0 <= i < |b| && b[i].replicas == Some(y);
        assert ab[|a| + i] == b[i];
      } else {
        var i :| 0 <= i < |a| && a[i].replicas == Some(x);
        assert ab[i] == a[i];
      }
    }
  }

  /** Both stages, one after the other. */
  method WatchLoad(b: Bounds, start: int, rise: seq<Reading>, fall: seq<Reading>, stream: Stream)
      returns (r: Result<int, string>, m: nat, n: nat)
    modifies stream
    ensures Quiet(old(stream.events), stream.events)
    ensures m <= |rise| && n <= |fall|
    ensures r.Ok? ==>
              && Succeeded(ScaleUp, start, rise[..m]) && AllInBounds(b, rise[..m])
              && Succeeded(Drain, start, fall[..n]) && AllInBounds(b, fall[..n])
              && IsPeak(r.value, start, rise[..m] + fall[..n])
  {
    ghost var before := stream.events;
    n := 0;
    r, m := PollUntil(ScaleUp, b, start, rise, stream);
    if r.Err? {
      return;
    }
    ghost var risen := stream.events;
    var peak := r.value;
    stream.Emit(Note("scaled up"));
    stream.Emit(Note("waiting for the backlog to drain"));
    ghost var waiting := stream.events;
    QuietStep(before, risen, Note("scaled up"));
    QuietStep(before, risen + [Note("scaled up")], Note("waiting for the backlog to drain"));
    r, n := PollUntil(Drain, b, start, fall, stream);
    QuietChain(before, waiting, stream.events);
    if r.Err? {
      return;
    }
    PeakOfBoth(start, rise[..m], fall[..n], peak, r.value);
    if r.value > peak {
      peak := r.value;
    }
    r := Ok(peak);
  }

  method RunLoad(t: LoadTrace, stream: Stream) returns (r: Result<(), string>)
    modifies stream
    ensures EndsWell(old(stream.events), stream.events, r.Ok?)
    ensures r.Ok? ==> LoadPassed(t, stream.events[|stream.events| - 1].peak)
  {
    ghost var before := stream.events;
    if t.bounds.Err? {
      return Err(t.bounds.error);
    }
    stream.Emit(Note("bounds"));
    QuietStep(before, before, Note("bounds"));
    if t.start.Err? {
      return Err(t.start.error);
    }
    ghost var sofar := stream.events;
    stream.Emit(Note("starting"));
    stream.Emit(Note("putting jobs on the queue"));
    QuietStep(before, sofar, Note("starting"));
    QuietStep(before, sofar + [Note("starting")], Note("putting jobs on the queue"));
    if t.enqueued.Err? {
      return Err(t.enqueued.error);
    }
    sofar := stream.events;
    stream.Emit(Note("watching"));
    QuietStep(before, sofar, Note("watching"));
    sofar := stream.events;
    var watched, m, n := WatchLoad(t.bounds.value, t.start.value, t.rise, t.fall, stream);
    QuietChain(before, sofar, stream.events);
    if watched.Err? {
      return Err(watched.error);
    }
    assert LoadShown(t, m, n, watched.value);
    sofar := stream.events;
    stream.Emit(Pass("demand rose, replicas followed, and the backlog cleared", watched.value));
    QuietStep(before, sofar, Pass("demand rose, replicas followed, and the backlog cleared", watched.value));
    r := Ok(());
  }

  /** A replica count was read as `r` in the first `m` polls of the rise or the first `n` of the fall. */
  predicate Polled(t: LoadTrace, m: nat, n: nat, r: int)
    requires m <= |t.rise| && n <= |t.fall|
  {
    || (exists i :: 0 <= i < m && t.rise[i].replicas == Some(r))
    || (exists i :: 0 <= i < n && t.fall[i].replicas == Some(r))
  }

  /** A load pass is a statement about the trace: every poll saw the deployment between its bounds,
      some count exceeded the start, a later poll found the queue empty, and the reported peak was
      polled and is the largest count there was. */
  lemma {:induction false} LoadPassMeans(t: LoadTrace, peak: int) returns (m: nat, n: nat)
    requires LoadPassed(t, peak)
    ensures 0 < m <= |t.rise| && 0 < n <= |t.fall| && t.start.Ok? && t.bounds.Ok?
    ensures t.rise[m - 1].replicas.Some? && t.rise[m - 1].replicas.value > t.start.value
    ensures t.fall[n - 1].depth == Some(0)
    ensures forall i :: 0 <= i < m ==>
              t.rise[i].replicas.Some? && t.bounds.value.min <= t.rise[i].replicas.value <= t.bounds.value.max
    ensures forall i :: 0 <= i < n ==>
              t.fall[i].replicas.Some? && t.bounds.value.min <= t.fall[i].replicas.value <= t.bounds.value.max
    ensures Polled(t, m, n, peak) && t.start.value < peak
    ensures forall r :: Polled(t, m, n, r) ==> r <= peak
  {
    m, n :| LoadShown(t, m, n, peak);
    ShownCounts(t, m, n, peak);
    ShownPeak(t, m, n, peak);
  }

  lemma {:induction false} ShownCounts(t: LoadTrace, m: nat, n: nat, peak: int)
    requires LoadShown(t, m, n, peak)
    ensures 0 < m && 0 < n
    ensures t.rise[m - 1].replicas.Some? && t.rise[m - 1].replicas.value > t.start.value
    ensures t.fall[n - 1].depth == Some(0)
    ensures forall i :: 0 <= i < m ==>
              t.rise[i].replicas.Some? && t.bounds.value.min <= t.rise[i].replicas.value <= t.bounds.value.max
    ensures forall i :: 0 <= i < n ==>
              t.fall[i].replicas.Some? && t.bounds.value.min <= t.fall[i].replicas.value <= t.bounds.value.max
  {
    assert forall i :: 0 <= i < m ==> t.rise[..m][i] == t.rise[i];
    assert forall i :: 0 <= i < n ==> t.fall[..n][i] == t.fall[i];
  }

  lemma {:induction false} ShownPeak(t: LoadTrace, m: nat, n: nat, peak: int)
    requires LoadShown(t, m, n, peak)
    ensures Polled(t, m, n, peak) && t.start.value < peak
    ensures forall r :: Polled(t, m, n, r) ==> r <= peak
  {
    ShownCounts(t, m, n, peak);
    var ab := t.rise[..m] + t.fall[..n];
    assert forall i :: 0 <= i < m ==> ab[i] == t.rise[i];
    assert forall i :: 0 <= i < n ==> ab[m + i] == t.fall[i];
    assert ab[m - 1] == t.rise[m - 1];
    var i :| 0 <= i < |ab| && ab[i].replicas == Some(peak);
    assert ab[i] == if i < m then t.rise[i] else t.fall[i - m];
  }

  // ---------------------------------------------------------------- drift

  const DRIFTED: string := "999Mi"

  /** A read of the deployment's memory limit; `None` when the container has none. */
  type Limit = Result<Option<string>, string>

  datatype Watch = Watch(cancelled: bool, limit: Limit, late: bool)

  datatype DriftTrace = DriftTrace(declared: Limit, patched: Result<(), string>, reread: Limit, watch: seq<Watch>)

  function TextOf(v: Option<string>): string {
    if v.Some? then v.value else ""
  }

  /** What a passing drift run has shown: the limit was declared and not the drifted one, the drift
      was seen in place, and a later read found the declared limit back. */
  ghost predicate DriftShown(t: DriftTrace, n: nat) {
    && t.declared.Ok? && t.declared.value.Some? && t.declared.value.value !in {"", DRIFTED}
    && t.patched.Ok? && t.reread == Ok(Some(DRIFTED))
    && n < |t.watch|
    && t.watch[n].limit == Ok(t.declared.value)
    && forall i :: 0 <= i < n ==>
         !t.watch[i].cancelled && t.watch[i].limit.Ok? && t.watch[i].limit != Ok(t.declared.value) && !t.watch[i].late
  }

  ghost predicate DriftPassed(t: DriftTrace) {
    exists n: nat :: DriftShown(t, n)
  }

  method RunDrift(t: DriftTrace, stream: Stream) returns (r: Result<(), string>)
    modifies stream
    ensures EndsWell(old(stream.events), stream.events, r.Ok?)
    ensures r.Ok? ==> DriftPassed(t)
  {
    stream.Emit(Note("reading what Git declares"));
    if t.declared.Err? {
      return Err(t.declared.error);
    }
    var declared := TextOf(t.declared.value);
    if t.declared.value.None? || declared == "" {
      return Err("no memory limit");
    }
    stream.Emit(Note("declared " + declared));
    if declared == DRIFTED {
      return Err("the test would prove nothing");
    }
    if t.patched.Err? {
      return Err(t.patched.error);
    }
    if t.reread.Err? {
      return Err(t.reread.error);
    }
    if TextOf(t.reread.value) != DRIFTED {
      return Err("the drift did not apply");
    }
    stream.Emit(Note("drift applied"));
    stream.Emit(Note("waiting for the revert"));
    for i := 0 to |t.watch|
      invariant Quiet(old(stream.events), stream.events)
      invariant forall j :: 0 <= j < i ==>
                  !t.watch[j].cancelled && t.watch[j].limit.Ok? && t.watch[j].limit != Ok(t.declared.value) && !t.watch[j].late
    {
      var w := t.watch[i];
      if w.cancelled {
        return Err("cancelled");
      }
      if w.limit.Err? {
        return Err(w.limit.error);
      }
      var current := TextOf(w.limit.value);
      if current == declared {
        assert DriftShown(t, i);
        QuietStep(old(stream.events), stream.events, Pass("reverted", 0));
        stream.Emit(Pass("reverted", 0));
        return Ok(());
      }
      QuietStep(old(stream.events), stream.events, Note("still " + current));
      stream.Emit(Note("still " + current));
      if w.late {
        return Err("the manual change survived");
      }
    }
    r := Err("cancelled");
  }

  // ---------------------------------------------------------------- one run at a time

  datatype Demo = Load(load: LoadTrace) | Drift(drift: DriftTrace) | Unknown

  /** An accepted run streams its events and ends with exactly one terminal one. */
  method RunAccepted(demo: Demo, stream: Stream) returns (passed: bool)
    requires stream.events == []
    modifies stream
    ensures stream.events != []
    ensures IsTerminal(stream.events[|stream.events| - 1]) && NoTerminal(stream.events[..|stream.events| - 1])
    ensures passed <==> stream.events[|stream.events| - 1].Pass?
    ensures passed ==> match demo
                       case Load(t) => LoadPassed(t, stream.events[|stream.events| - 1].peak)
                       case Drift(t) => DriftPassed(t)
                       case Unknown => false
  {
    var r: Result<(), string>;
    match demo {
      case Load(t) => r := RunLoad(t, stream);
      case Drift(t) => r := RunDrift(t, stream);
      case Unknown => r := Err("unknown demonstration");
    }
    ghost var sofar := stream.events;
    assert sofar[0..] == sofar;
    if r.Err? {
      stream.Emit(Fail(r.error));
      assert stream.events[..|stream.events| - 1] == sofar;
      return false;
    }
    assert sofar[0..|sofar| - 1] == sofar[..|sofar| - 1];
    passed := true;
  }

  /** The server's busy marker, and the runs between taking and clearing it. */
  datatype Server = Server(running: string, active: set<nat>)

  /** Requests arrive and runs end in any interleaving; each step holds the mutex. */
  datatype Step = Request(id: nat, name: string) | End(id: nat)

  predicate Enabled(s: Server, step: Step) {
    match step
    case Request(id, name) => id !in s.active && name != ""
    case End(id) => id in s.active
  }

  function Next(s: Server, step: Step): Server
    requires Enabled(s, step)
  {
    match step
    case Request(id, name) => if s.running != "" then s else Server(name, s.active + {id})
    case End(id) => Server("", s.active - {id})
  }

  /** What the handler holds under its mutex; which requests are being served is bookkeeping. */
  class Runner {
    var running: string
    ghost var active: set<nat>

    ghost function State(): Server reads this {
      Server(running, active)
    }

    constructor ()
      ensures State() == Server("", {})
    {
      running := "";
      active := {};
    }

    method Begin(ghost id: nat, name: string) returns (accepted: bool)
      requires Enabled(State(), Request(id, name))
      modifies this
      ensures State() == Next(old(State()), Request(id, name))
      ensures accepted <==> id in active
    {
      if running != "" {
        return false;
      }
      running := name;
      active := active + {id};
      accepted := true;
    }

    method Finish(ghost id: nat)
      requires Enabled(State(), End(id))
      modifies this
      ensures State() == Next(old(State()), End(id))
    {
      running := "";
      active := active - {id};
    }
  }

  ghost predicate Exclusive(s: Server) {
    && |s.active| <= 1
    && (s.running == "" <==> s.active == {})
  }

  lemma {:induction false} StepKeepsExclusion(s: Server, step: Step)
    requires Exclusive(s) && Enabled(s, step)
    ensures Exclusive(Next(s, step))
    ensures step.Request? ==> (step.id in Next(s, step).active <==> s.active == {})
  {
    match step
    case Request(id, name) =>
    case End(id) =>
      assert |s.active - {id}| == |s.active| - 1;
  }

  ghost predicate IsRun(states: seq<Server>, steps: seq<Step>) {
    && |states| == |steps| + 1
    && states[0] == Server("", {})
    && forall i :: 0 <= i < |steps| ==> Enabled(states[i], steps[i]) && states[i + 1] == Next(states[i], steps[i])
  }

  /** In every reachable state at most one run is active, the marker is empty exactly when none
      is, and a request is accepted exactly then. */
  lemma {:induction false} OneRunAtATime(states: seq<Server>, steps: seq<Step>, n: nat)
    requires IsRun(states, steps) && n < |states|
    ensures Exclusive(states[n])
    ensures n < |steps| && steps[n].Request? ==> (steps[n].id in states[n + 1].active <==> states[n].active == {})
  {
    if n > 0 {
      OneRunAtATime(states, steps, n - 1);
      assert states[n - 1 + 1] == Next(states[n - 1], steps[n - 1]);
      StepKeepsExclusion(states[n - 1], steps[n - 1]);
    }
    if n < |steps| {
      StepKeepsExclusion(states[n], steps[n]);
    }
  }
}
