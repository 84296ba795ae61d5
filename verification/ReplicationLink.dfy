/** One follower's link at the leader: the backlog of lines and the flags that its mutex guards. */
module ReplicationLink {
  import opened ByteStrings

  /** How many lines may wait for a follower before it is dropped and synced afresh. */
  const MAX_QUEUE: nat := 100_000

  datatype Link = Link(queue: seq<Bytes>, streaming: bool, resync: bool, stop: bool)

  const IDLE_LINK: Link := Link([], false, false, false)

  /** One mutation, for one link: nothing before the cut, the whole backlog dropped on overflow. */
  function OnEnqueue(l: Link, line: Bytes): Link {
    if !l.streaming then l
    else if |l.queue| >= MAX_QUEUE then l.(queue := [], streaming := false, resync := true)
    else l.(queue := l.queue + [line])
  }

  /** The callback that runs inside the storage lock, together with the snapshot. */
  function OnCut(l: Link): Link {
    l.(queue := [], resync := false, streaming := true)
  }

  datatype Outcome = GiveUp | Idle | Line(line: Bytes)

  datatype Took = Took(link: Link, outcome: Outcome)

  /** The critical section of the send loop: give up, take the oldest line, or find nothing. */
  function OnTake(l: Link): Took {
    if l.stop || l.resync then Took(l.(resync := false), GiveUp)
    else if l.queue != [] then Took(l.(queue := l.queue[1..]), Line(l.queue[0]))
    else Took(l, Idle)
  }

  /** The end of a connection, on whichever path. */
  function OnCleanUp(l: Link): Link {
    l.(streaming := false, queue := [])
  }

  class LinkState {
    var queue: seq<Bytes>
    var streaming: bool
    var resync: bool
    var stop: bool

    function Current(): Link
      reads this
    {
      Link(queue, streaming, resync, stop)
    }

    constructor ()
      ensures Current() == IDLE_LINK
    {
      queue, streaming, resync, stop := [], false, false, false;
    }

    method Push(line: Bytes)
      modifies this
      ensures Current() == OnEnqueue(old(Current()), line)
      ensures |queue| <= |old(queue)| + 1 && (|old(queue)| <= MAX_QUEUE ==> |queue| <= MAX_QUEUE)
    {
      if !streaming {
        return;
      }
      if |queue| >= MAX_QUEUE {
        queue := [];
        streaming := false;
        resync := true;
        return;
      }
      queue := queue + [line];
    }

    method StartStreaming()
      modifies this
      ensures Current() == OnCut(old(Current()))
    {
      queue := [];
      resync := false;
      streaming := true;
    }

    method Take() returns (outcome: Outcome)
      modifies this
      ensures Took(Current(), outcome) == OnTake(old(Current()))
    {
      outcome := Idle;
      if stop || resync {
        resync := false;
        return GiveUp;
      }
      if queue != [] {
        outcome := Line(queue[0]);
        queue := queue[1..];
      }
    }

    method CleanUp() returns (stopping: bool)
      modifies this
      ensures Current() == OnCleanUp(old(Current())) && stopping == old(stop)
    {
      streaming := false;
      queue := [];
      stopping := stop;
    }

    method Shutdown()
      modifies this
      ensures Current() == old(Current()).(stop := true)
    {
      stop := true;
    }
  }
}
