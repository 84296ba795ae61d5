/** The worker pool: a bounded task queue, workers that sleep on a condition variable, and a
    shutdown that drains the queue. */
module ThreadPool {

  type Task = nat

  /** Where a worker is. `Ready` is about to take the lock and test the wait predicate, for the
      first time or after a wakeup. */
  datatype Worker = Ready | Asleep | Running(task: Task) | Exited

  /** What the mutex guards, and the notifications owed: `owedOne` counts submitters that have
      pushed a task and not yet called notify_one; `owedAll` says the destructor has set `stop`
      and not yet called notify_all. */
  datatype Shared = Shared(queue: seq<Task>, stop: bool, maxQueue: nat, owedOne: nat, owedAll: bool)

  datatype Submitted = Submitted(shared: Shared, taken: bool)

  /** The critical section of a submission: refused when stopped or full, otherwise queued last,
      with a notification to follow. */
  function OnSubmit(s: Shared, task: Task): Submitted {
    if s.stop then Submitted(s, false)
    else if s.maxQueue != 0 && |s.queue| >= s.maxQueue then Submitted(s, false)
    else Submitted(s.(queue := s.queue + [task], owedOne := s.owedOne + 1), true)
  }

  datatype Decision = Wait | Leave | Run(task: Task)

  datatype Checked = Checked(shared: Shared, decision: Decision)

  /** The critical section of a worker: wait, leave, or take the oldest task. */
  function OnCheck(s: Shared): Checked {
    if s.queue != [] then Checked(s.(queue := s.queue[1..]), Run(s.queue[0]))
    else Checked(s, if s.stop then Leave else Wait)
  }

  /** The critical section of the destructor, with the broadcast to follow. */
  function OnStop(s: Shared): Shared {
    s.(stop := true, owedAll := true)
  }

  /** `accepted`, `started` and `finished` are history. */
  datatype Pool = Pool(queue: seq<Task>, stop: bool, maxQueue: nat, workers: seq<Worker>,
                       owedOne: nat, owedAll: bool,
                       accepted: seq<Task>, started: seq<Task>, finished: multiset<Task>)

  function SharedOf(p: Pool): Shared {
    Shared(p.queue, p.stop, p.maxQueue, p.owedOne, p.owedAll)
  }

  function With(p: Pool, s: Shared): Pool {
    p.(queue := s.queue, stop := s.stop, maxQueue := s.maxQueue, owedOne := s.owedOne, owedAll := s.owedAll)
  }

  datatype Step =
    | Submit(task: Task)
    | NotifyOne(woken: nat)      // wakes some sleeper; nobody when nobody sleeps
    | WakeUp(w: nat)             // spuriously
    | Check(w: nat)              // the critical section of the worker loop
    | Finish(w: nat)             // the task returned or threw
    | Stop
    | NotifyAll

  predicate NobodyAsleep(ws: seq<Worker>) {
    forall i :: 0 <= i < |ws| ==> ws[i] != Asleep
  }

  predicate Enabled(p: Pool, step: Step) {
    match step
    case Submit(_) => true
    case NotifyOne(w) => p.owedOne > 0 && (NobodyAsleep(p.workers) || (w < |p.workers| && p.workers[w] == Asleep))
    case WakeUp(w) => w < |p.workers| && p.workers[w] == Asleep
    case Check(w) => w < |p.workers| && p.workers[w] == Ready
    case Finish(w) => w < |p.workers| && p.workers[w].Running?
    case Stop => !p.stop
    case NotifyAll => p.owedAll
  }

  function Woken(ws: seq<Worker>): (r: seq<Worker>)
    ensures |r| == |ws|
    ensures forall i :: 0 <= i < |ws| ==> r[i] == if ws[i] == Asleep then Ready else ws[i]
  {
    seq(|ws|, i requires 0 <= i < |ws| => if ws[i] == Asleep then Ready else ws[i])
  }

  /** Where a decision takes the worker. */
  function Moved(d: Decision): Worker {
    match d
    case Wait => Asleep
    case Leave => Exited
    case Run(t) => Running(t)
  }

  function Next(p: Pool, step: Step): Pool
    requires Enabled(p, step)
  {
    match step
    case Submit(t) =>
      var s := OnSubmit(SharedOf(p), t);
      With(p, s.shared).(accepted := if s.taken then p.accepted + [t] else p.accepted)
    case NotifyOne(w) =>
      var q := p.(owedOne := p.owedOne - 1);
      if NobodyAsleep(p.workers) then q else q.(workers := p.workers[w := Ready])
    case WakeUp(w) => p.(workers := p.workers[w := Ready])
    case Check(w) =>
      var c := OnCheck(SharedOf(p));
      With(p, c.shared).(workers := p.workers[w := Moved(c.decision)],
                         started := if c.decision.Run? then p.started + [c.decision.task] else p.started)
    case Finish(w) =>
      p.(workers := p.workers[w := Ready], finished := p.finished + multiset{p.workers[w].task})
    case Stop => With(p, OnStop(SharedOf(p)))
    case NotifyAll => p.(workers := Woken(p.workers), owedAll := false)
  }

  function Start(threads: nat, maxQueue: nat): Pool {
    var n := if threads == 0 then 1 else threads;
    Pool([], false, maxQueue, seq(n, _ => Ready), 0, false, [], [], multiset{})
  }

  /* ---------------- the invariant ---------------- */

  function Count(ws: seq<Worker>, x: Worker): nat {
    if ws == [] then 0 else (if ws[0] == x then 1 else 0) + Count(ws[1..], x)
  }

  /** Tasks start in the order accepted, and a started task is in one worker's hands or done. */
  ghost predicate Conserved(p: Pool) {
    && p.started + p.queue == p.accepted
    && forall t :: multiset(p.started)[t] == p.finished[t] + Count(p.workers, Running(t))
  }

  /** Whenever a worker sleeps, every queued task has a wakeup on its way or a worker about to
      look at the queue. */
  predicate NoLostWakeup(p: Pool) {
    Count(p.workers, Asleep) > 0 ==> |p.queue| <= p.owedOne + Count(p.workers, Ready)
  }

  predicate Orderly(p: Pool) {
    && |p.workers| > 0
    && (Exited in p.workers ==> p.stop && p.queue == [])
    && (p.stop && !p.owedAll ==> NobodyAsleep(p.workers))
    && (!p.stop ==> !p.owedAll)
    && (p.maxQueue != 0 ==> |p.queue| <= p.maxQueue)
  }

  ghost predicate Inv(p: Pool) {
    Conserved(p) && NoLostWakeup(p) && Orderly(p)
  }

  lemma {:induction false} CountUpdate(ws: seq<Worker>, w: nat, x: Worker, k: Worker)
    requires w < |ws|
    ensures Count(ws[w := x], k) + (if ws[w] == k then 1 else 0) == Count(ws, k) + (if x == k then 1 else 0)
    decreases ws
  {
    if w > 0 {
      CountUpdate(ws[1..], w - 1, x, k);
      assert ws[w := x][1..] == ws[1..][w - 1 := x];
    } else {
      assert ws[w := x][1..] == ws[1..];
    }
  }

  lemma {:induction false} CountPositive(ws: seq<Worker>, k: Worker)
    ensures Count(ws, k) > 0 <==> k in ws
    decreases ws
  {
    if ws != [] {
      CountPositive(ws[1..], k);
      assert ws == [ws[0]] + ws[1..];
    }
  }

  lemma SleeperCount(ws: seq<Worker>)
    ensures Count(ws, Asleep) > 0 <==> !NobodyAsleep(ws)
  {
    CountPositive(ws, Asleep);
  }

  lemma {:induction false} CountWoken(ws: seq<Worker>, t: Task)
    ensures Count(Woken(ws), Running(t)) == Count(ws, Running(t))
    decreases ws
  {
    if ws != [] {
      CountWoken(ws[1..], t);
      assert Woken(ws)[1..] == Woken(ws[1..]);
    }
  }

  lemma StepConserves(p: Pool, step: Step)
    requires Conserved(p) && Enabled(p, step)
    ensures Conserved(Next(p, step))
  {
    hide Count;
    var q := Next(p, step);
    StepKeepsOrder(p, step);
    hide Next, Enabled;
    forall t
      ensures multiset(q.started)[t] == q.finished[t] + Count(q.workers, Running(t))
    {
      assert multiset(p.started)[t] == p.finished[t] + Count(p.workers, Running(t));
      StepConservesTask(p, step, t);
    }
  }

  lemma StepKeepsOrder(p: Pool, step: Step)
    requires p.started + p.queue == p.accepted && Enabled(p, step)
    ensures Next(p, step).started + Next(p, step).queue == Next(p, step).accepted
  {
    hide Woken;
    if step.Submit? {
      assert p.started + (p.queue + [step.task]) == p.accepted + [step.task];
    } else if step.Check? && p.queue != [] {
      assert p.started + [p.queue[0]] + p.queue[1..] == p.started + p.queue;
    }
  }

  lemma StepConservesTask(p: Pool, step: Step, t: Task)
    requires Enabled(p, step) && multiset(p.started)[t] == p.finished[t] + Count(p.workers, Running(t))
    ensures var q := Next(p, step); multiset(q.started)[t] == q.finished[t] + Count(q.workers, Running(t))
  {
    hide Count, NobodyAsleep, Woken;
    match step
    case Submit(_) =>
    case NotifyOne(w) => if !NobodyAsleep(p.workers) { CountUpdate(p.workers, w, Ready, Running(t)); }
    case WakeUp(w) => CountUpdate(p.workers, w, Ready, Running(t));
    case Check(w) => CheckConservesTask(p, w, t);
    case Finish(w) => CountUpdate(p.workers, w, Ready, Running(t));
    case Stop =>
    case NotifyAll => CountWoken(p.workers, t);
  }

  lemma CheckConservesTask(p: Pool, w: nat, t: Task)
    requires Enabled(p, Check(w)) && multiset(p.started)[t] == p.finished[t] + Count(p.workers, Running(t))
    ensures var q := Next(p, Check(w)); multiset(q.started)[t] == q.finished[t] + Count(q.workers, Running(t))
  {
    hide Count;
    CountUpdate(p.workers, w, Moved(OnCheck(SharedOf(p)).decision), Running(t));
  }

  /** What moving one worker does to the numbers asleep and ready. */
  lemma MoveCounts(ws: seq<Worker>, w: nat, x: Worker)
    requires w < |ws|
    ensures Count(ws[w := x], Asleep) == Count(ws, Asleep) + (if x == Asleep then 1 else 0) - (if ws[w] == Asleep then 1 else 0)
    ensures Count(ws[w := x], Ready) == Count(ws, Ready) + (if x == Ready then 1 else 0) - (if ws[w] == Ready then 1 else 0)
  {
    hide Count;
    CountUpdate(ws, w, x, Asleep);
    CountUpdate(ws, w, x, Ready);
  }

  lemma StepKeepsWakeups(p: Pool, step: Step)
    requires NoLostWakeup(p) && Enabled(p, step)
    ensures NoLostWakeup(Next(p, step))
  {
    SleeperCount(p.workers);
    hide Count;
    match step
    case Submit(t) =>
    case NotifyOne(w) => if !NobodyAsleep(p.workers) { MoveCounts(p.workers, w, Ready); }
    case WakeUp(w) => MoveCounts(p.workers, w, Ready);
    case Check(w) =>
      MoveCounts(p.workers, w, if p.queue != [] then Running(p.queue[0]) else if p.stop then Exited else Asleep);
    case Finish(w) => MoveCounts(p.workers, w, Ready);
    case Stop =>
    case NotifyAll => SleeperCount(Woken(p.workers));
  }

  lemma MoveMembers(ws: seq<Worker>, w: nat, x: Worker)
    requires w < |ws|
    ensures Exited in ws[w := x] ==> Exited in ws || x == Exited
    ensures NobodyAsleep(ws) && x != Asleep ==> NobodyAsleep(ws[w := x])
  {
  }

  lemma StepStaysOrderly(p: Pool, step: Step)
    requires Orderly(p) && Enabled(p, step)
    ensures Orderly(Next(p, step))
  {
    match step
    case Submit(t) =>
    case NotifyOne(w) => if !NobodyAsleep(p.workers) { MoveMembers(p.workers, w, Ready); }
    case WakeUp(w) => MoveMembers(p.workers, w, Ready);
    case Check(w) =>
      hide NobodyAsleep;
      MoveMembers(p.workers, w, if p.queue != [] then Running(p.queue[0]) else if p.stop then Exited else Asleep);
    case Finish(w) => MoveMembers(p.workers, w, Ready);
    case Stop =>
    case NotifyAll => WokenMembers(p.workers);
  }

  lemma WokenMembers(ws: seq<Worker>)
    ensures Exited in Woken(ws) ==> Exited in ws
    ensures NobodyAsleep(Woken(ws))
  {
  }

  /* ---------------- whole runs ---------------- */

  predicate IsRun(p: Pool, steps: seq<Step>)
    decreases steps
  {
    steps == [] || (Enabled(p, steps[0]) && IsRun(Next(p, steps[0]), steps[1..]))
  }

  function After(p: Pool, steps: seq<Step>): Pool
    requires IsRun(p, steps)
    decreases steps
  {
    if steps == [] then p else After(Next(p, steps[0]), steps[1..])
  }

  lemma {:induction false} RunKeepsInv(p: Pool, steps: seq<Step>)
    requires Inv(p) && IsRun(p, steps)
    ensures Inv(After(p, steps))
    decreases steps
  {
    hide Enabled, Next, Conserved, NoLostWakeup, Orderly;
    if steps != [] {
      StepConserves(p, steps[0]);
      StepKeepsWakeups(p, steps[0]);
      StepStaysOrderly(p, steps[0]);
      RunKeepsInv(Next(p, steps[0]), steps[1..]);
    }
  }

  /** No thread is added or taken away, and the bound stays. */
  lemma {:induction false} RunKeepsCrew(p: Pool, steps: seq<Step>)
    requires IsRun(p, steps)
    ensures |After(p, steps).workers| == |p.workers| && After(p, steps).maxQueue == p.maxQueue
    decreases steps
  {
    if steps != [] {
      RunKeepsCrew(Next(p, steps[0]), steps[1..]);
    }
  }

  lemma StartInv(threads: nat, maxQueue: nat)
    ensures Inv(Start(threads, maxQueue))
  {
    var p := Start(threads, maxQueue);
    SleeperCount(p.workers);
    forall t
      ensures Count(p.workers, Running(t)) == 0
    {
      CountPositive(p.workers, Running(t));
    }
  }

  /** In every reachable state each accepted task is queued, in some worker's hands or finished,
      exactly once; tasks start in the order accepted; queued work always has a wakeup owed or a
      worker awake; and when all workers have exited, every accepted task is finished. */
  lemma NothingLost(threads: nat, maxQueue: nat, steps: seq<Step>)
    requires IsRun(Start(threads, maxQueue), steps)
    ensures var p := After(Start(threads, maxQueue), steps);
            && |p.workers| == (if threads == 0 then 1 else threads) && p.maxQueue == maxQueue
            && (forall t :: multiset(p.accepted)[t] == multiset(p.queue)[t] + Count(p.workers, Running(t)) + p.finished[t])
            && p.started <= p.accepted
            && (p.queue != [] ==> p.owedOne > 0 || exists i :: 0 <= i < |p.workers| && (p.workers[i] == Ready || p.workers[i].Running?))
            && ((forall i :: 0 <= i < |p.workers| ==> p.workers[i] == Exited) ==> multiset(p.accepted) == p.finished)
  {
    hide IsRun, After;
    StartInv(threads, maxQueue);
    RunKeepsCrew(Start(threads, maxQueue), steps);
    RunKeepsInv(Start(threads, maxQueue), steps);
    var p := After(Start(threads, maxQueue), steps);
    assert multiset(p.accepted) == multiset(p.started) + multiset(p.queue);
    SomebodyAwake(p);
    AllGone(p);
  }

  lemma AllGone(p: Pool)
    requires Inv(p)
    ensures (forall i :: 0 <= i < |p.workers| ==> p.workers[i] == Exited) ==>
              p.queue == [] && multiset(p.accepted) == p.finished
  {
    if forall i :: 0 <= i < |p.workers| ==> p.workers[i] == Exited {
      assert p.workers[0] in p.workers;
      assert p.accepted == p.started;
      forall t
        ensures multiset(p.accepted)[t] == p.finished[t]
      {
        CountPositive(p.workers, Running(t));
      }
    }
  }

  lemma SomebodyAwake(p: Pool)
    requires Inv(p)
    ensures p.queue != [] ==> p.owedOne > 0 || exists i :: 0 <= i < |p.workers| && (p.workers[i] == Ready || p.workers[i].Running?)
  {
    SleeperCount(p.workers);
    CountPositive(p.workers, Ready);
    if p.queue != [] && p.owedOne == 0 {
      assert p.workers[0] in p.workers;
    }
  }

  /* ---------------- draining ---------------- */

  function Weight(w: Worker): nat {
    match w
    case Running(_) => 2
    case Ready => 1
    case Asleep => 1
    case Exited => 0
  }

  function TotalWeight(ws: seq<Worker>): nat {
    if ws == [] then 0 else Weight(ws[0]) + TotalWeight(ws[1..])
  }

  function Remaining(p: Pool): nat {
    3 * |p.queue| + TotalWeight(p.workers)
  }

  lemma {:induction false} WeightUpdate(ws: seq<Worker>, w: nat, x: Worker)
    requires w < |ws|
    ensures TotalWeight(ws[w := x]) + Weight(ws[w]) == TotalWeight(ws) + Weight(x)
    decreases ws
  {
    if w > 0 {
      WeightUpdate(ws[1..], w - 1, x);
      assert ws[w := x][1..] == ws[1..][w - 1 := x];
    } else {
      assert ws[w := x][1..] == ws[1..];
    }
  }

  ghost predicate Draining(p: Pool) {
    Inv(p) && p.stop && !p.owedAll
  }

  predicate WorkerStep(step: Step) {
    step.Check? || step.Finish?
  }

  lemma DrainContinues(p: Pool, step: Step)
    requires Draining(p) && Enabled(p, step)
    ensures Draining(Next(p, step))
  {
    StepConserves(p, step);
    StepKeepsWakeups(p, step);
    StepStaysOrderly(p, step);
    hide Conserved, NoLostWakeup, Orderly, Woken, Count;
  }

  /** Once stopped and notified, every worker step uses up some of the remaining work and no
      other step adds any. */
  lemma DrainDecreases(p: Pool, step: Step)
    requires Draining(p) && Enabled(p, step)
    ensures Remaining(Next(p, step)) + (if WorkerStep(step) then 1 else 0) <= Remaining(p)
  {
    assert NobodyAsleep(p.workers);
    hide Conserved, NoLostWakeup, Orderly, TotalWeight, Count, Woken, NobodyAsleep;
    match step
    case Check(w) => CheckDecreases(p, w);
    case Finish(w) => WeightUpdate(p.workers, w, Ready);
    case _ =>
  }

  lemma CheckDecreases(p: Pool, w: nat)
    requires Enabled(p, Check(w)) && p.stop
    ensures Remaining(Next(p, Check(w))) < Remaining(p)
  {
    hide TotalWeight;
    WeightUpdate(p.workers, w, Moved(OnCheck(SharedOf(p)).decision));
  }

  /** Nothing can get stuck on the way: until all have exited, some worker can move. */
  lemma DrainProgresses(p: Pool)
    requires Draining(p) && exists i :: 0 <= i < |p.workers| && p.workers[i] != Exited
    ensures exists i :: 0 <= i < |p.workers| && (Enabled(p, Check(i)) || Enabled(p, Finish(i)))
  {
    var i :| 0 <= i < |p.workers| && p.workers[i] != Exited;
    assert Enabled(p, Check(i)) || Enabled(p, Finish(i));
  }

  function WorkerSteps(steps: seq<Step>): nat {
    if steps == [] then 0 else (if WorkerStep(steps[0]) then 1 else 0) + WorkerSteps(steps[1..])
  }

  /** Shutdown terminates: from a draining pool no run takes more worker steps than there is
      work remaining. */
  lemma {:induction false} DrainTerminates(p: Pool, steps: seq<Step>)
    requires Draining(p) && IsRun(p, steps)
    ensures WorkerSteps(steps) + Remaining(After(p, steps)) <= Remaining(p)
    decreases steps
  {
    hide Enabled, Next, Remaining, Draining;
    if steps != [] {
      DrainContinues(p, steps[0]);
      DrainDecreases(p, steps[0]);
      DrainTerminates(Next(p, steps[0]), steps[1..]);
    }
  }

  /** Shutdown ends: a draining run that has come to rest, with no worker able to move, has all
      workers gone and every accepted task finished. */
  lemma DrainEnds(p: Pool, steps: seq<Step>)
    requires Draining(p) && IsRun(p, steps)
    requires var q := After(p, steps); forall i :: 0 <= i < |q.workers| ==> !Enabled(q, Check(i)) && !Enabled(q, Finish(i))
    ensures var q := After(p, steps);
            && (forall i :: 0 <= i < |q.workers| ==> q.workers[i] == Exited)
            && q.queue == [] && multiset(q.accepted) == q.finished
  {
    hide IsRun, After;
    DrainRun(p, steps);
    var q := After(p, steps);
    if exists i :: 0 <= i < |q.workers| && q.workers[i] != Exited {
      DrainProgresses(q);
    }
    AllGone(q);
  }

  lemma {:induction false} DrainRun(p: Pool, steps: seq<Step>)
    requires Draining(p) && IsRun(p, steps)
    ensures Draining(After(p, steps))
    decreases steps
  {
    hide Enabled, Next, Draining;
    if steps != [] {
      DrainContinues(p, steps[0]);
      DrainRun(Next(p, steps[0]), steps[1..]);
    }
  }

  /* ---------------- the shared object ---------------- */

  class Tasks {
    var queue: seq<Task>
    var stop: bool
    const maxQueue: nat
    ghost var owedOne: nat
    ghost var owedAll: bool

    ghost function State(): Shared
      reads this
    {
      Shared(queue, stop, maxQueue, owedOne, owedAll)
    }

    constructor (maxQueue: nat)
      ensures forall threads :: State() == SharedOf(Start(threads, maxQueue))
    {
      queue, stop, this.maxQueue, owedOne, owedAll := [], false, maxQueue, 0, false;
    }

    method Submit(task: Task) returns (taken: bool)
      modifies this
      ensures Submitted(State(), taken) == OnSubmit(old(State()), task)
      ensures taken <==> !old(stop) && (maxQueue == 0 || |old(queue)| < maxQueue)
    {
      if stop {
        return false;
      }
      if maxQueue != 0 && |queue| >= maxQueue {
        return false;
      }
      queue := queue + [task];
      owedOne := owedOne + 1;
      return true;
    }

    /** What a worker does that holds the lock. */
    method Take() returns (d: Decision)
      modifies this
      ensures Checked(State(), d) == OnCheck(old(State()))
    {
      if !(stop || queue != []) {
        return Wait;
      }
      if queue == [] {
        return Leave;
      }
      d := Run(queue[0]);
      queue := queue[1..];
    }

    method Shutdown()
      modifies this
      ensures State() == OnStop(old(State()))
    {
      stop := true;
      owedAll := true;
    }
  }
}
