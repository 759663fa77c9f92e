/** The shared work queue: a list pushed at its head and popped at its tail. */
module Queue {
  import opened Results

  datatype Job = Job(id: string, durationMS: int, enqueuedAt: int)

  /** What the list holds; an entry that does not decode to a job is malformed. */
  datatype Payload = Encoded(job: Job) | Malformed(bytes: string)

  /** What one dequeue answers its consumer. */
  datatype Dequeued = Got(job: Job) | Empty | Cancelled | Broken

  /** What the store answers a blocking pop: an entry if there is one in time, or none. */
  datatype Reply = Answered | TimedOut | Interrupted | Unreachable

  function Reverse<T>(s: seq<T>): (r: seq<T>)
    ensures |r| == |s|
    ensures forall i :: 0 <= i < |s| ==> r[i] == s[|s| - 1 - i]
  {
    if s == [] then [] else Reverse(s[1..]) + [s[0]]
  }

  /** Everything pushed, in order, is what was popped followed by the list from tail to head. */
  ghost predicate Fifo(pushed: seq<Payload>, popped: seq<Payload>, list: seq<Payload>) {
    pushed == popped + Reverse(list)
  }

  lemma {:induction false} PushKeepsFifo(pushed: seq<Payload>, popped: seq<Payload>, list: seq<Payload>, p: Payload)
    requires Fifo(pushed, popped, list)
    ensures Fifo(pushed + [p], popped, [p] + list)
  {
    assert ([p] + list)[1..] == list;
    assert (popped + Reverse(list)) + [p] == popped + (Reverse(list) + [p]);
  }

  lemma {:induction false} PopKeepsFifo(pushed: seq<Payload>, popped: seq<Payload>, list: seq<Payload>)
    requires Fifo(pushed, popped, list) && list != []
    ensures Fifo(pushed, popped + [list[|list| - 1]], list[..|list| - 1])
    ensures |popped| < |pushed| && list[|list| - 1] == pushed[|popped|]
  {
    var r, s := Reverse(list), Reverse(list[..|list| - 1]);
    assert r == [list[|list| - 1]] + s;
    assert popped + ([list[|list| - 1]] + s) == (popped + [list[|list| - 1]]) + s;
  }

  class Queue {
    var list: seq<Payload>
    ghost var pushed: seq<Payload>
    ghost var popped: seq<Payload>

    ghost predicate Valid()
      reads this
    {
      Fifo(pushed, popped, list)
    }

    constructor ()
      ensures Valid() && list == [] && pushed == [] && popped == []
    {
      list, pushed, popped := [], [], [];
    }

    /** Pushes at the head, if the store can be reached. */
    method Enqueue(job: Job, reachable: bool) returns (ok: bool)
      requires Valid()
      modifies this
      ensures Valid() && ok == reachable && popped == old(popped)
      ensures list == if ok then [Encoded(job)] + old(list) else old(list)
      ensures pushed == if ok then old(pushed) + [Encoded(job)] else old(pushed)
    {
      if !reachable {
        return false;
      }
      PushKeepsFifo(pushed, popped, list, Encoded(job));
      list := [Encoded(job)] + list;
      pushed := pushed + [Encoded(job)];
      ok := true;
    }

    /** Pops at the tail: the oldest entry there is. A malformed one is dropped, not put back. */
    method Dequeue(reply: Reply) returns (r: Dequeued)
      requires Valid()
      modifies this
      ensures Valid() && pushed == old(pushed)
      ensures if reply.Answered? && old(list) != [] then
                && |popped| == |old(popped)| + 1 && popped == pushed[..|popped|]
                && r == (match popped[|popped| - 1]
                         case Encoded(job) => Got(job)
                         case Malformed(_) => Broken)
              else
                && popped == old(popped) && list == old(list)
                && r == match reply
                        case Answered => Empty
                        case TimedOut => Empty
                        case Interrupted => Cancelled
                        case Unreachable => Broken
    {
      match reply {
        case TimedOut => return Empty;
        case Interrupted => return Cancelled;
        case Unreachable => return Broken;
        case Answered =>
      }
      if list == [] {
        return Empty;
      }
      PopKeepsFifo(pushed, popped, list);
      var entry := list[|list| - 1];
      list := list[..|list| - 1];
      popped := popped + [entry];
      match entry {
        case Encoded(job) => r := Got(job);
        case Malformed(_) => r := Broken;
      }
    }

    method Depth(reachable: bool) returns (r: Result<int, ()>)
      ensures r == if reachable then Ok(|list|) else Err(())
    {
      r := if reachable then Ok(|list|) else Err(());
    }
  }
}
