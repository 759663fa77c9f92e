/** Producers and consumers on the shared queue, in every interleaving.

  One step is one atomic action: a push, a consumer passing the signal check at the top of its loop,
  a pop together with the consumer's reaction to it, the end of a job, the end of a wait, the shutdown
  signal, or a consumer noticing it. Work is done under the signal's own context, so once the signal
  is there a job in hand may end early; the code counts it like any other.
 */
module Protocol {
  import opened Queue

  /** At the top of the loop, inside a dequeue, at work, backing off, or returned. */
  datatype Consumer = Top | Asking | Working(job: Job) | Waiting | Stopped

  /** Jobs that ended, with the consumer that ran them. */
  type Log = seq<(nat, Job)>

  datatype State = State(
    list: seq<Payload>,
    pushed: seq<Payload>,
    popped: seq<Payload>,
    consumers: seq<Consumer>,
    cancelled: bool,
    completed: Log,             // worked on for their whole duration
    cut: Log,                   // ended early because of the signal
    dropped: seq<Payload>,      // malformed entries, as they were popped
    failures: nat)              // pops that failed without taking an entry

  ghost predicate Init(s: State) {
    && s.list == s.pushed == s.popped == s.dropped == []
    && s.completed == s.cut == [] && s.failures == 0 && !s.cancelled
    && forall i :: 0 <= i < |s.consumers| ==> s.consumers[i] == Top
  }

  datatype Step =
    | Push(payload: Payload)
    | Cancel
    | Ask(c: nat)           // the signal was not there yet
    | PopNothing(c: nat)    // the blocking pop timed out
    | PopFails(c: nat)      // the store could not be reached
    | PopInterrupted(c: nat)
    | Pop(c: nat)
    | Finish(c: nat)
    | CutShort(c: nat)
    | Wake(c: nat)
    | Stop(c: nat)

  predicate Enabled(s: State, step: Step) {
    match step
    case Push(_) => true
    case Cancel => true
    case Ask(c) => c < |s.consumers| && s.consumers[c].Top? && !s.cancelled
    case PopNothing(c) => c < |s.consumers| && s.consumers[c].Asking?
    case PopFails(c) => c < |s.consumers| && s.consumers[c].Asking?
    case PopInterrupted(c) => c < |s.consumers| && s.consumers[c].Asking? && s.cancelled
    case Pop(c) => c < |s.consumers| && s.consumers[c].Asking? && s.list != []
    case Finish(c) => c < |s.consumers| && s.consumers[c].Working?
    case CutShort(c) => c < |s.consumers| && CanBeCut(s.consumers[c]) && s.cancelled
    case Wake(c) => c < |s.consumers| && s.consumers[c].Waiting?
    case Stop(c) => c < |s.consumers| && (s.consumers[c].Top? || s.consumers[c].Waiting?) && s.cancelled
  }

  /** A job without a duration ends at once; any other looks at the signal as it works. */
  predicate CanBeCut(c: Consumer) {
    c.Working? && c.job.durationMS > 0
  }

  function Set(s: State, c: nat, to: Consumer): State
    requires c < |s.consumers|
  {
    s.(consumers := s.consumers[c := to])
  }

  function Next(s: State, step: Step): State
    requires Enabled(s, step)
  {
    match step
    case Push(p) => s.(list := [p] + s.list, pushed := s.pushed + [p])
    case Cancel => s.(cancelled := true)
    case Ask(c) => Set(s, c, Asking)
    case PopNothing(c) => Set(s, c, Top)
    case PopFails(c) => Set(s, c, Waiting).(failures := s.failures + 1)
    case PopInterrupted(c) => Set(s, c, Stopped)
    case Pop(c) =>
      var entry := s.list[|s.list| - 1];
      var taken := s.(list := s.list[..|s.list| - 1], popped := s.popped + [entry]);
      (match entry
       case Encoded(job) => Set(taken, c, Working(job))
       case Malformed(_) => Set(taken, c, Waiting).(dropped := s.dropped + [entry]))
    case Finish(c) => Set(s, c, Top).(completed := s.completed + [(c, s.consumers[c].job)])
    case CutShort(c) => Set(s, c, Top).(cut := s.cut + [(c, s.consumers[c].job)])
    case Wake(c) => Set(s, c, Top)
    case Stop(c) => Set(s, c, Stopped)
  }

  // ---------------------------------------------------------------- accounting

  type Jobs = multiset<Job>

  function JobsOf(ps: seq<Payload>): Jobs {
    if ps == [] then multiset{}
    else JobsOf(ps[..|ps| - 1]) + match ps[|ps| - 1]
                                  case Encoded(job) => multiset{job}
                                  case Malformed(_) => multiset{}
  }

  function BadOf(ps: seq<Payload>): seq<Payload> {
    if ps == [] then []
    else BadOf(ps[..|ps| - 1]) + if ps[|ps| - 1].Malformed? then [ps[|ps| - 1]] else []
  }

  function Held(cs: seq<Consumer>): multiset<Job> {
    if cs == [] then multiset{}
    else Held(cs[..|cs| - 1]) + HeldBy(cs[|cs| - 1])
  }

  function HeldBy(c: Consumer): multiset<Job> {
    if c.Working? then multiset{c.job} else multiset{}
  }

  function Ended(log: Log): multiset<Job> {
    if log == [] then multiset{}
    else Ended(log[..|log| - 1]) + multiset{log[|log| - 1].1}
  }

  /** What every step keeps: first in, first out; each well-formed entry that was popped is held by a
      consumer, was completed or was cut short, once; each malformed one was dropped, once, in order. */
  ghost predicate Accounted(s: State) {
    && Fifo(s.pushed, s.popped, s.list)
    && JobsOf(s.popped) == Ended(s.completed) + Ended(s.cut) + Held(s.consumers)
    && s.dropped == BadOf(s.popped)
  }

  lemma {:induction false} AddToBoth(p: Jobs, q: Jobs, x: Jobs, a: Jobs, y: Jobs, b: Jobs, h: Jobs)
    requires p == x + h && q == y + h && x + a == y + b
    ensures p + a == q + b
  {
    assert (x + h) + a == (x + a) + h;
    assert (y + h) + b == (y + b) + h;
  }

  lemma {:induction false} HeldFront(cs: seq<Consumer>, front: seq<Consumer>)
    requires cs != [] && cs[..|cs| - 1] == front
    ensures Held(cs) == Held(front) + HeldBy(cs[|cs| - 1])
  {
  }

  lemma {:induction false} HeldExchange(cs: seq<Consumer>, i: nat, to: Consumer)
    requires i < |cs|
    ensures Held(cs[i := to]) + HeldBy(cs[i]) == Held(cs) + HeldBy(to)
  {
    var n, after := |cs| - 1, cs[i := to];
    var front := cs[..n];
    HeldFront(cs, front);
    if i < n {
      HeldExchange(front, i, to);
      HeldFront(after, front[i := to]);
      AddToBoth(Held(after), Held(cs), Held(front[i := to]), HeldBy(cs[i]), Held(front), HeldBy(to), HeldBy(cs[n]));
    } else {
      HeldFront(after, front);
      Swap(Held(front), HeldBy(to), HeldBy(cs[n]));
    }
  }

  lemma {:induction false} Swap(h: Jobs, a: Jobs, b: Jobs)
    ensures (h + a) + b == (h + b) + a
  {
  }

  /** What a consumer's change of state does to the jobs held. */
  lemma {:induction false} HeldAfter(cs: seq<Consumer>, i: nat, to: Consumer)
    requires i < |cs| && (cs[i].Working? ==> !to.Working?)
    ensures !cs[i].Working? ==> Held(cs[i := to]) == Held(cs) + HeldBy(to)
    ensures cs[i].Working? ==> Held(cs) == Held(cs[i := to]) + multiset{cs[i].job}
  {
    HeldExchange(cs, i, to);
    var x, y := Held(cs[i := to]), Held(cs);
    assert x + multiset{} == x && y + multiset{} == y;
  }

  lemma {:induction false} NothingHeld(cs: seq<Consumer>)
    requires forall i :: 0 <= i < |cs| ==> !cs[i].Working?
    ensures Held(cs) == multiset{}
  {
    if cs != [] {
      NothingHeld(cs[..|cs| - 1]);
    }
  }

  lemma {:induction false} JobsStep(ps: seq<Payload>, p: Payload)
    ensures JobsOf(ps + [p]) == JobsOf(ps) + (if p.Encoded? then multiset{p.job} else multiset{})
    ensures BadOf(ps + [p]) == BadOf(ps) + if p.Malformed? then [p] else []
  {
    assert (ps + [p])[..|ps|] == ps;
  }

  lemma {:induction false} EndedStep(log: Log, x: (nat, Job))
    ensures Ended(log + [x]) == Ended(log) + multiset{x.1}
  {
    assert (log + [x])[..|log|] == log;
  }

  lemma {:induction false} InitAccounted(s: State)
    requires Init(s)
    ensures Accounted(s)
  {
    NothingHeld(s.consumers);
  }

  lemma {:induction false} PopKeepsAccounts(s: State, c: nat)
    requires Accounted(s) && Enabled(s, Pop(c))
    ensures Accounted(Next(s, Pop(c)))
  {
    var entry := s.list[|s.list| - 1];
    PopKeepsFifo(s.pushed, s.popped, s.list);
    JobsStep(s.popped, entry);
    match entry
    case Encoded(job) =>
      HeldAfter(s.consumers, c, Working(job));
      MoveIn(JobsOf(s.popped), Ended(s.completed), Ended(s.cut), Held(s.consumers),
             Held(s.consumers[c := Working(job)]), multiset{job});
    case Malformed(_) =>
      HeldAfter(s.consumers, c, Waiting);
      MoveIn(JobsOf(s.popped), Ended(s.completed), Ended(s.cut), Held(s.consumers),
             Held(s.consumers[c := Waiting]), multiset{});
  }

  /** A job leaves the held ones for one of the two logs. */
  lemma {:induction false} MoveOut(all: Jobs, done: Jobs, cut: Jobs, held: Jobs, left: Jobs, j: Jobs)
    requires all == done + cut + held && held == left + j
    ensures all == (done + j) + cut + left
    ensures all == done + (cut + j) + left
  {
  }

  /** A job that is popped is held. */
  lemma {:induction false} MoveIn(all: Jobs, done: Jobs, cut: Jobs, held: Jobs, more: Jobs, j: Jobs)
    requires all == done + cut + held && more == held + j
    ensures all + j == done + cut + more
  {
  }

  lemma {:induction false} FinishKeepsAccounts(s: State, c: nat)
    requires Accounted(s) && Enabled(s, Finish(c))
    ensures Accounted(Next(s, Finish(c)))
  {
    var job := s.consumers[c].job;
    EndedStep(s.completed, (c, job));
    HeldAfter(s.consumers, c, Top);
    MoveOut(JobsOf(s.popped), Ended(s.completed), Ended(s.cut), Held(s.consumers),
            Held(s.consumers[c := Top]), multiset{job});
  }

  lemma {:induction false} CutKeepsAccounts(s: State, c: nat)
    requires Accounted(s) && Enabled(s, CutShort(c))
    ensures Accounted(Next(s, CutShort(c)))
  {
    var job := s.consumers[c].job;
    EndedStep(s.cut, (c, job));
    HeldAfter(s.consumers, c, Top);
    MoveOut(JobsOf(s.popped), Ended(s.completed), Ended(s.cut), Held(s.consumers),
            Held(s.consumers[c := Top]), multiset{job});
  }

  /** A consumer that holds nothing changes to another state in which it holds nothing. */
  lemma {:induction false} IdleKeepsAccounts(s: State, c: nat, to: Consumer)
    requires Accounted(s) && c < |s.consumers| && !s.consumers[c].Working? && !to.Working?
    ensures Accounted(Set(s, c, to))
  {
    HeldAfter(s.consumers, c, to);
    assert Held(s.consumers) + multiset{} == Held(s.consumers);
  }

  lemma {:induction false} StepKeepsAccounts(s: State, step: Step)
    requires Accounted(s) && Enabled(s, step)
    ensures Accounted(Next(s, step))
  {
    match step
    case Push(p) => PushKeepsFifo(s.pushed, s.popped, s.list, p);
    case Cancel =>
    case Ask(c) => IdleKeepsAccounts(s, c, Asking);
    case PopNothing(c) => IdleKeepsAccounts(s, c, Top);
    case PopFails(c) => IdleKeepsAccounts(s, c, Waiting);
    case PopInterrupted(c) => IdleKeepsAccounts(s, c, Stopped);
    case Pop(c) => PopKeepsAccounts(s, c);
    case Finish(c) => FinishKeepsAccounts(s, c);
    case CutShort(c) => CutKeepsAccounts(s, c);
    case Wake(c) => IdleKeepsAccounts(s, c, Top);
    case Stop(c) => IdleKeepsAccounts(s, c, Stopped);
  }

  // ---------------------------------------------------------------- whole runs

  ghost predicate IsRun(states: seq<State>, steps: seq<Step>) {
    && |states| == |steps| + 1
    && Init(states[0])
    && forall i :: 0 <= i < |steps| ==> Enabled(states[i], steps[i]) && states[i + 1] == Next(states[i], steps[i])
  }

  lemma {:induction false} RunsAreAccounted(states: seq<State>, steps: seq<Step>, n: nat)
    requires IsRun(states, steps) && n < |states|
    ensures Accounted(states[n])
  {
    if n == 0 {
      InitAccounted(states[0]);
    } else {
      RunsAreAccounted(states, steps, n - 1);
      assert states[n - 1 + 1] == Next(states[n - 1], steps[n - 1]);
      StepKeepsAccounts(states[n - 1], steps[n - 1]);
    }
  }

  ghost predicate AllReturned(s: State) {
    forall i :: 0 <= i < |s.consumers| ==> s.consumers[i].Stopped?
  }

  /** Once every consumer has returned, no entry is lost or run twice: each well-formed entry that was
      ever popped was completed or cut short, exactly once, each malformed one was dropped, and the
      rest is still in the list, oldest first. */
  lemma {:induction false} ShutdownAccountsForAll(states: seq<State>, steps: seq<Step>, n: nat)
    requires IsRun(states, steps) && n < |states| && AllReturned(states[n])
    ensures var s := states[n];
            && JobsOf(s.popped) == Ended(s.completed) + Ended(s.cut)
            && s.dropped == BadOf(s.popped)
            && s.pushed == s.popped + Reverse(s.list)
  {
    RunsAreAccounted(states, steps, n);
    NothingHeld(states[n].consumers);
  }

  // ---------------------------------------------------------------- what the signal cuts short

  /** What a consumer may be doing, and have had cut short, given what it did when the signal came. */
  ghost predicate Follows(start: Consumer, now: Consumer, cut: Log, c: nat) {
    && (forall i :: 0 <= i < |cut| && cut[i].0 == c ==>
          && (start == Working(cut[i].1) || start.Asking?)
          && (now.Top? || now.Stopped?))
    && (now.Asking? ==> start.Asking?)
    && (now.Working? ==> start == now || start.Asking?)
  }

  ghost predicate OncePerConsumer(cut: Log) {
    forall i, j :: 0 <= i < j < |cut| ==> cut[i].0 != cut[j].0
  }

  lemma {:induction false} UncancelledCutsNothing(states: seq<State>, steps: seq<Step>, n: nat)
    requires IsRun(states, steps) && n < |states| && !states[n].cancelled
    ensures states[n].cut == []
  {
    if n > 0 {
      assert states[n - 1 + 1] == Next(states[n - 1], steps[n - 1]);
      UncancelledCutsNothing(states, steps, n - 1);
    }
  }

  lemma {:induction false} StepFollows(at: State, s: State, step: Step)
    requires |s.consumers| == |at.consumers| && s.cancelled && Enabled(s, step)
    requires OncePerConsumer(s.cut) && forall i :: 0 <= i < |s.cut| ==> s.cut[i].0 < |s.consumers|
    requires forall c :: 0 <= c < |s.consumers| ==> Follows(at.consumers[c], s.consumers[c], s.cut, c)
    ensures var t := Next(s, step);
            && |t.consumers| == |at.consumers| && t.cancelled
            && OncePerConsumer(t.cut) && (forall i :: 0 <= i < |t.cut| ==> t.cut[i].0 < |t.consumers|)
            && forall c :: 0 <= c < |t.consumers| ==> Follows(at.consumers[c], t.consumers[c], t.cut, c)
  {
    var t := Next(s, step);
    if step.CutShort? {
      assert forall i :: 0 <= i < |s.cut| ==> s.cut[i].0 != step.c;
    }
    forall c | 0 <= c < |t.consumers| ensures Follows(at.consumers[c], t.consumers[c], t.cut, c) {
      assert Follows(at.consumers[c], s.consumers[c], s.cut, c);
    }
  }

  /** Whatever is cut short was in hand when the signal came, or was handed to a consumer that had
      asked for it before; and no consumer has more than one job cut short. */
  lemma {:induction false} OnlyJobsInFlightAreCut(states: seq<State>, steps: seq<Step>, k: nat, n: nat)
    requires IsRun(states, steps) && k < n < |states|
    requires !states[k].cancelled && steps[k] == Cancel
    ensures |states[n].consumers| == |states[k].consumers| && states[n].cancelled
    ensures OncePerConsumer(states[n].cut)
    ensures forall i :: 0 <= i < |states[n].cut| ==> states[n].cut[i].0 < |states[n].consumers|
    ensures forall c :: 0 <= c < |states[n].consumers| ==>
              Follows(states[k].consumers[c], states[n].consumers[c], states[n].cut, c)
  {
    assert states[n - 1 + 1] == Next(states[n - 1], steps[n - 1]);
    if n == k + 1 {
      UncancelledCutsNothing(states, steps, k);
    } else {
      OnlyJobsInFlightAreCut(states, steps, k, n - 1);
      StepFollows(states[k], states[n - 1], steps[n - 1]);
    }
  }

  // ---------------------------------------------------------------- when nothing can be cut short

  /** The steps can be taken one after the other. */
  ghost predicate Possible(s: State, steps: seq<Step>)
    decreases |steps|
  {
    steps != [] ==> Enabled(s, steps[0]) && Possible(Next(s, steps[0]), steps[1..])
  }

  ghost function After(s: State, steps: seq<Step>): State
    requires Possible(s, steps)
    decreases |steps|
  {
    if steps == [] then s else After(Next(s, steps[0]), steps[1..])
  }

  /** However the shutdown goes on from here, every job that was ever popped is completed once all
      consumers have returned. */
  ghost predicate Lossless(s: State) {
    forall more: seq<Step> ::
      Possible(s, more) && AllReturned(After(s, more))
      ==> JobsOf(After(s, more).popped) == Ended(After(s, more).completed)
  }

  predicate IsLong(p: Payload) {
    p.Encoded? && p.job.durationMS > 0
  }

  /** How many consumers are inside a dequeue. */
  function AskingIn(cs: seq<Consumer>): nat {
    if cs == [] then 0 else AskingIn(cs[..|cs| - 1]) + if cs[|cs| - 1].Asking? then 1 else 0
  }

  /** No consumer is at work on a job that takes time, and there is an entry for each that has asked,
      none of which is such a job. */
  ghost predicate NothingToCut(s: State) {
    && (forall c :: 0 <= c < |s.consumers| ==> !CanBeCut(s.consumers[c]))
    && Provided(s.list, AskingIn(s.consumers))
  }

  /** The `n` oldest entries are there, and none is a job that takes time. */
  ghost predicate Provided(list: seq<Payload>, n: nat) {
    n <= |list| && forall i :: |list| - n <= i < |list| ==> !IsLong(list[i])
  }

  lemma {:induction false} AskingAfter(cs: seq<Consumer>, c: nat, to: Consumer)
    requires c < |cs| && !to.Asking?
    ensures AskingIn(cs) == AskingIn(cs[c := to]) + if cs[c].Asking? then 1 else 0
  {
    var n := |cs| - 1;
    if c < n {
      assert cs[c := to][..n] == cs[..n][c := to];
      AskingAfter(cs[..n], c, to);
    } else {
      assert cs[c := to][..n] == cs[..n];
    }
  }

  lemma {:induction false} SomeoneAsks(cs: seq<Consumer>) returns (c: nat)
    requires AskingIn(cs) > 0
    ensures c < |cs| && cs[c].Asking?
  {
    var n := |cs| - 1;
    if cs[n].Asking? {
      c := n;
    } else {
      c := SomeoneAsks(cs[..n]);
    }
  }

  /** Nothing that happens after the signal makes something to cut. */
  lemma {:induction false} StepKeepsUncut(s: State, step: Step)
    requires s.cancelled && s.cut == [] && NothingToCut(s) && Enabled(s, step)
    ensures var t := Next(s, step);
            t.cancelled && t.cut == [] && NothingToCut(t)
  {
    match step
    case Push(p) =>
    case Cancel =>
    case Ask(c) =>
    case PopNothing(c) => AskingAfter(s.consumers, c, Top);
    case PopFails(c) => AskingAfter(s.consumers, c, Waiting);
    case PopInterrupted(c) => AskingAfter(s.consumers, c, Stopped);
    case Pop(c) =>
      var entry := s.list[|s.list| - 1];
      AskingAfter(s.consumers, c, if entry.Encoded? then Working(entry.job) else Waiting);
    case Finish(c) => AskingAfter(s.consumers, c, Top);
    case CutShort(c) =>
    case Wake(c) => AskingAfter(s.consumers, c, Top);
    case Stop(c) => AskingAfter(s.consumers, c, Stopped);
  }

  lemma {:induction false} StaysUncut(s: State, more: seq<Step>)
    requires Accounted(s) && s.cancelled && s.cut == [] && NothingToCut(s) && Possible(s, more)
    ensures Accounted(After(s, more)) && After(s, more).cut == []
    decreases |more|
  {
    if more != [] {
      StepKeepsAccounts(s, more[0]);
      StepKeepsUncut(s, more[0]);
      StaysUncut(Next(s, more[0]), more[1..]);
    }
  }

  lemma {:induction false} CutIsMissing(done: multiset<Job>, cut: Log, all: multiset<Job>)
    requires all == done + Ended(cut)
    ensures all == done <==> cut == []
  {
    if cut != [] {
      var last := cut[|cut| - 1].1;
      assert last in Ended(cut);
      assert all[last] == done[last] + Ended(cut)[last];
    }
  }

  lemma {:induction false} ReturnedExactlyUncut(t: State)
    requires Accounted(t) && AllReturned(t)
    ensures JobsOf(t.popped) == Ended(t.completed) <==> t.cut == []
  {
    NothingHeld(t.consumers);
    CutIsMissing(Ended(t.completed), t.cut, JobsOf(t.popped));
  }

  // ---------------------------------------------------------------- a shutdown that cuts

  lemma {:induction false} Then(s: State, step: Step, rest: seq<Step>)
    requires Enabled(s, step) && Possible(Next(s, step), rest)
    ensures Possible(s, [step] + rest) && After(s, [step] + rest) == After(Next(s, step), rest)
  {
    assert ([step] + rest)[1..] == rest;
  }

  lemma {:induction false} Onwards(s: State, first: seq<Step>, rest: seq<Step>)
    requires Possible(s, first) && Possible(After(s, first), rest)
    ensures Possible(s, first + rest) && After(s, first + rest) == After(After(s, first), rest)
    decreases |first|
  {
    if first == [] {
      assert first + rest == rest;
    } else {
      Onwards(Next(s, first[0]), first[1..], rest);
      Then(s, first[0], first[1..] + rest);
      assert first + rest == [first[0]] + (first[1..] + rest);
    }
  }

  /** After the signal the first `n` consumers can return without anything more being cut short. */
  lemma {:induction false} CanReturn(s: State, n: nat) returns (steps: seq<Step>)
    requires s.cancelled && n <= |s.consumers|
    requires forall i :: n <= i < |s.consumers| ==> s.consumers[i].Stopped?
    ensures Possible(s, steps) && AllReturned(After(s, steps)) && After(s, steps).cut == s.cut
    decreases n
  {
    if n == 0 {
      steps := [];
    } else {
      var c := n - 1;
      match s.consumers[c]
      case Stopped =>
        steps := CanReturn(s, c);
      case Working(_) =>
        var idle := Next(s, Finish(c));
        steps := CanReturn(Next(idle, Stop(c)), c);
        Then(idle, Stop(c), steps);
        Then(s, Finish(c), [Stop(c)] + steps);
        steps := [Finish(c)] + ([Stop(c)] + steps);
      case Asking =>
        steps := CanReturn(Next(s, PopInterrupted(c)), c);
        Then(s, PopInterrupted(c), steps);
        steps := [PopInterrupted(c)] + steps;
      case _ =>
        steps := CanReturn(Next(s, Stop(c)), c);
        Then(s, Stop(c), steps);
        steps := [Stop(c)] + steps;
    }
  }

  /** A consumer at work on a job that takes time is cut short. */
  lemma {:induction false} CutNow(s: State, c: nat)
    requires s.cancelled && c < |s.consumers| && CanBeCut(s.consumers[c])
    ensures Possible(s, [CutShort(c)]) && After(s, [CutShort(c)]).cancelled && After(s, [CutShort(c)]).cut != []
  {
    Then(s, CutShort(c), []);
    assert [CutShort(c)] + [] == [CutShort(c)];
  }

  /** A consumer that has asked is handed such a job, and cut short. */
  lemma {:induction false} PopAndCut(s: State, c: nat) returns (steps: seq<Step>)
    requires s.cancelled && c < |s.consumers| && s.consumers[c].Asking?
    requires s.list != [] && IsLong(s.list[|s.list| - 1])
    ensures Possible(s, steps) && After(s, steps).cancelled && After(s, steps).cut != []
  {
    CutNow(Next(s, Pop(c)), c);
    Then(s, Pop(c), [CutShort(c)]);
    steps := [Pop(c)] + [CutShort(c)];
  }

  lemma {:induction false} PushAndCut(s: State, c: nat) returns (steps: seq<Step>)
    requires s.cancelled && c < |s.consumers| && s.consumers[c].Asking? && s.list == []
    ensures Possible(s, steps) && After(s, steps).cancelled && After(s, steps).cut != []
  {
    var push := Push(Encoded(Job("", 1, 0)));
    var rest := PopAndCut(Next(s, push), c);
    Then(s, push, rest);
    steps := [push] + rest;
  }

  lemma {:induction false} StillUnprovided(list: seq<Payload>, n: nat)
    requires list != [] && n > 0 && !Provided(list, n) && !IsLong(list[|list| - 1])
    ensures !Provided(list[..|list| - 1], n - 1)
  {
    var front := list[..|list| - 1];
    if Provided(front, n - 1) {
      forall i | |list| - n <= i < |list| ensures !IsLong(list[i]) {
        assert i < |front| ==> list[i] == front[i];
      }
    }
  }

  /** Where something can be cut, it can happen: a consumer at work is cut, or those that have asked
      pop what is there until one of them is handed a job that takes time, from a producer if need be. */
  lemma {:induction false} CanCut(s: State) returns (steps: seq<Step>)
    requires s.cancelled && !NothingToCut(s)
    ensures Possible(s, steps) && After(s, steps).cancelled && After(s, steps).cut != []
    decreases |s.list|
  {
    if c :| 0 <= c < |s.consumers| && CanBeCut(s.consumers[c]) {
      CutNow(s, c);
      steps := [CutShort(c)];
    } else {
      var c := SomeoneAsks(s.consumers);
      if s.list == [] {
        steps := PushAndCut(s, c);
      } else if IsLong(s.list[|s.list| - 1]) {
        steps := PopAndCut(s, c);
      } else {
        PopKeepsCuttable(s, c);
        var rest := CanCut(Next(s, Pop(c)));
        Then(s, Pop(c), rest);
        steps := [Pop(c)] + rest;
      }
    }
  }

  lemma {:induction false} PopKeepsCuttable(s: State, c: nat)
    requires c < |s.consumers| && s.consumers[c].Asking? && s.list != [] && !IsLong(s.list[|s.list| - 1])
    requires !Provided(s.list, AskingIn(s.consumers))
    ensures !NothingToCut(Next(s, Pop(c)))
  {
    var entry := s.list[|s.list| - 1];
    AskingAfter(s.consumers, c, if entry.Encoded? then Working(entry.job) else Waiting);
    StillUnprovided(s.list, AskingIn(s.consumers));
  }

  lemma {:induction false} AccountedAfter(s: State, more: seq<Step>)
    requires Accounted(s) && Possible(s, more)
    ensures Accounted(After(s, more))
    decreases |more|
  {
    if more != [] {
      StepKeepsAccounts(s, more[0]);
      AccountedAfter(Next(s, more[0]), more[1..]);
    }
  }

  lemma {:induction false} LosesSomething(s: State)
    requires Accounted(s) && s.cancelled && !NothingToCut(s)
    ensures !Lossless(s)
  {
    var first := CanCut(s);
    var t := After(s, first);
    var rest := CanReturn(t, |t.consumers|);
    Onwards(s, first, rest);
    AccountedAfter(s, first + rest);
    ReturnedExactlyUncut(After(s, first + rest));
  }

  lemma {:induction false} LosesNothing(s: State)
    requires Accounted(s) && s.cancelled && s.cut == [] && NothingToCut(s)
    ensures Lossless(s)
  {
    forall more: seq<Step> | Possible(s, more) && AllReturned(After(s, more))
      ensures JobsOf(After(s, more).popped) == Ended(After(s, more).completed)
    {
      StaysUncut(s, more);
      ReturnedExactlyUncut(After(s, more));
    }
  }

  /** The moment the signal comes, every way the shutdown can go completes every job exactly when no
      consumer is at work on a job that takes time and the consumers inside a dequeue have an entry
      each, none of which is such a job. */
  lemma {:induction false} LosslessExactlyWhen(states: seq<State>, steps: seq<Step>, k: nat)
    requires IsRun(states, steps) && k < |steps| && !states[k].cancelled && steps[k] == Cancel
    ensures Lossless(states[k + 1]) <==> NothingToCut(states[k + 1])
  {
    var s := states[k + 1];
    assert s == Next(states[k], steps[k]);
    RunsAreAccounted(states, steps, k + 1);
    UncancelledCutsNothing(states, steps, k);
    if NothingToCut(s) {
      LosesNothing(s);
    } else {
      LosesSomething(s);
    }
  }

  /** So it is when no job that takes time is in hand and no consumer is inside a dequeue. */
  lemma {:induction false} IdleShutdownIsLossless(states: seq<State>, steps: seq<Step>, k: nat)
    requires IsRun(states, steps) && k < |steps| && !states[k].cancelled && steps[k] == Cancel
    requires forall c :: 0 <= c < |states[k].consumers| ==>
               !CanBeCut(states[k].consumers[c]) && !states[k].consumers[c].Asking?
    ensures Lossless(states[k + 1])
  {
    NooneAsks(states[k].consumers);
    assert states[k + 1] == Next(states[k], steps[k]);
    LosslessExactlyWhen(states, steps, k);
  }

  lemma {:induction false} NooneAsks(cs: seq<Consumer>)
    requires forall c :: 0 <= c < |cs| ==> !cs[c].Asking?
    ensures AskingIn(cs) == 0
  {
    if AskingIn(cs) > 0 {
      var c := SomeoneAsks(cs);
    }
  }

  /** A job in hand when the signal comes can always end early, and is then not completed: one
      consumer, one job, and the signal while it works. */
  lemma {:induction false} ShutdownCanCut(job: Job) returns (states: seq<State>, steps: seq<Step>)
    requires job.durationMS > 0
    ensures IsRun(states, steps) && AllReturned(states[|steps|])
    ensures states[|steps|].popped == [Encoded(job)]
    ensures states[|steps|].completed == [] && states[|steps|].cut == [(0, job)]
  {
    steps := [Push(Encoded(job)), Ask(0), Pop(0), Cancel, CutShort(0), Stop(0)];
    var s0 := State([], [], [], [Top], false, [], [], [], 0);
    var s1 := Next(s0, steps[0]);
    var s2 := Next(s1, steps[1]);
    var s3 := Next(s2, steps[2]);
    var s4 := Next(s3, steps[3]);
    var s5 := Next(s4, steps[4]);
    var s6 := Next(s5, steps[5]);
    states := [s0, s1, s2, s3, s4, s5, s6];
  }

  /** A consumer that has returned never works again, and the signal is never withdrawn. */
  lemma {:induction false} StoppedForGood(states: seq<State>, steps: seq<Step>, m: nat, n: nat, c: nat)
    requires IsRun(states, steps) && m <= n < |states|
    requires c < |states[m].consumers| && states[m].consumers[c].Stopped? && states[m].cancelled
    ensures c < |states[n].consumers| && states[n].consumers[c].Stopped? && states[n].cancelled
  {
    if m < n {
      StoppedForGood(states, steps, m, n - 1, c);
      assert states[n - 1 + 1] == Next(states[n - 1], steps[n - 1]);
      match steps[n - 1]
      case Pop(d) =>
      case _ =>
    }
  }
}
