/** What holds of the scheduler after any sequence of calls. */
module SchedulerRuns {
  import opened Results
  import opened Counting
  import opened SchedulerMachine

  function Ids(tasks: seq<Task>): (r: seq<nat>)
    ensures |r| == |tasks| && forall k :: 0 <= k < |tasks| ==> r[k] == tasks[k].sequence
  {
    seq(|tasks|, k requires 0 <= k < |tasks| => tasks[k].sequence)
  }

  predicate Increasing(tasks: seq<Task>) {
    forall j, k :: 0 <= j < k < |tasks| ==> tasks[j].sequence < tasks[k].sequence
  }

  /** A queue holds tasks of its priority and of generation 0 or the current one, oldest first. */
  predicate QueueOk(s: State, p: nat)
    requires p < |s.queues|
  {
    && Increasing(s.queues[p])
    && forall k :: 0 <= k < |s.queues[p]| ==>
         s.queues[p][k].priority == p && Current(s.queues[p][k], s.generation) && s.queues[p][k].sequence < s.sequence
  }

  predicate Before(a: seq<Task>, b: seq<Task>, same: bool) {
    forall j, k :: 0 <= j < |a| && 0 <= k < |b| && (same ==> a[j].priority == b[k].priority) ==> a[j].sequence < b[k].sequence
  }

  predicate InOrder(a: seq<Task>, same: bool) {
    forall j, k :: 0 <= j < k < |a| && (same ==> a[j].priority == a[k].priority) ==> a[j].sequence < a[k].sequence
  }

  /** Tasks ran in acceptance order, in FIFO mode among all of them, else within each priority. */
  predicate RanInOrder(s: State)
    requires |s.queues| == 4
  {
    && InOrder(s.ran, !s.config.fifo)
    && (forall k :: 0 <= k < |s.ran| ==> s.ran[k].sequence < s.sequence)
    && (forall p :: 0 <= p < 4 ==> Before(s.ran, s.queues[p], !s.config.fifo))
  }

  function InQueues(s: State, t: nat): nat
    requires |s.queues| == 4
  {
    Times(Ids(s.queues[0]), t) + Times(Ids(s.queues[1]), t) + Times(Ids(s.queues[2]), t) + Times(Ids(s.queues[3]), t)
  }

  /** An accepted task is queued, or has run, or was discarded: one of these, once. */
  ghost predicate Accounted(s: State, t: nat)
    requires |s.queues| == 4
  {
    InQueues(s, t) + Times(Ids(s.ran), t) + Times(Ids(s.discarded), t) == if t < s.sequence then 1 else 0
  }

  predicate Shape(s: State) {
    |s.queues| == 4 && s.pending == |s.queues[0]| + |s.queues[1]| + |s.queues[2]| + |s.queues[3]|
  }

  ghost predicate Good(s: State) {
    && Shape(s)
    && s.sequence == |s.ran| + |s.discarded| + s.pending
    && (forall p :: 0 <= p < 4 ==> QueueOk(s, p))
    && RanInOrder(s)
    && (forall t: nat :: Accounted(s, t))
  }

  // ----- Filtering a queue -----

  lemma {:induction false} KeptMember(queue: seq<Task>, g: nat, k: nat) returns (i: nat)
    requires k < |Kept(queue, g)|
    ensures i < |queue| && queue[i] == Kept(queue, g)[k] && Current(queue[i], g)
    decreases |queue|
  {
    var n := |queue| - 1;
    if k < |Kept(queue[..n], g)| {
      i := KeptMember(queue[..n], g, k);
    } else {
      i := n;
    }
  }

  lemma {:induction false} KeptIncreasing(queue: seq<Task>, g: nat)
    requires Increasing(queue)
    ensures Increasing(Kept(queue, g))
    decreases |queue|
  {
    if queue != [] {
      var n := |queue| - 1;
      KeptIncreasing(queue[..n], g);
      forall k | 0 <= k < |Kept(queue[..n], g)|
        ensures Kept(queue[..n], g)[k].sequence < queue[n].sequence
      {
        var i := KeptMember(queue[..n], g, k);
        assert queue[i] == queue[..n][i];
      }
    }
  }

  lemma {:induction false} IdsJoin(a: seq<Task>, b: seq<Task>, t: nat)
    ensures Times(Ids(a + b), t) == Times(Ids(a), t) + Times(Ids(b), t)
  {
    assert Ids(a + b) == Ids(a) + Ids(b);
    TimesJoin(Ids(a), Ids(b), t);
  }

  lemma {:induction false} FilterTimes(queue: seq<Task>, g: nat, t: nat)
    ensures Times(Ids(queue), t) == Times(Ids(Kept(queue, g)), t) + Times(Ids(Dropped(queue, g)), t)
    ensures |queue| == |Kept(queue, g)| + |Dropped(queue, g)|
    decreases |queue|
  {
    hide Times;
    if queue == [] {
      TimesOne(0, t);
      assert Ids([]) == [];
    } else {
      var n := |queue| - 1;
      FilterTimes(queue[..n], g, t);
      assert queue == queue[..n] + [queue[n]];
      IdsJoin(queue[..n], [queue[n]], t);
      if Current(queue[n], g) {
        IdsJoin(Kept(queue[..n], g), [queue[n]], t);
        assert Dropped(queue, g) == Dropped(queue[..n], g);
      } else {
        IdsJoin([queue[n]], Dropped(queue[..n], g), t);
        assert Kept(queue, g) == Kept(queue[..n], g);
      }
    }
  }

  // ----- The steps -----

  lemma {:induction false} AppendQueue(s: State, p: nat, task: Task, q: nat)
    requires |s.queues| == 4 && p < 4 && q < 4 && QueueOk(s, q)
    requires task.priority == p && Current(task, s.generation) && task.sequence == s.sequence
    ensures QueueOk(Append(s, p, task), q)
  {
  }

  lemma {:induction false} AppendBehind(s: State, p: nat, task: Task, q: nat)
    requires |s.queues| == 4 && p < 4 && q < 4 && task.sequence == s.sequence
    requires Before(s.ran, s.queues[q], !s.config.fifo)
    requires forall k :: 0 <= k < |s.ran| ==> s.ran[k].sequence < s.sequence
    ensures Before(s.ran, Append(s, p, task).queues[q], !s.config.fifo)
  {
  }

  lemma {:induction false} ScheduleKeeps(s: State, p: nat, g: nat, at: real)
    requires Good(s)
    ensures Good(Scheduled(s, p, g, at))
  {
    var s' := Scheduled(s, p, g, at);
    if s' != s {
      var task := Task(p, g, s.sequence, at);
      forall t: nat ensures Accounted(s', t) {
        AppendAccounted(s, p, task, t);
      }
      hide Accounted, QueueOk, Before, InOrder;
      forall q | 0 <= q < 4 ensures QueueOk(s', q) && Before(s'.ran, s'.queues[q], !s'.config.fifo) {
        AppendQueue(s, p, task, q);
        AppendBehind(s, p, task, q);
      }
    }
  }

  lemma {:induction false} AppendAccounted(s: State, p: nat, task: Task, t: nat)
    requires |s.queues| == 4 && p < 4 && task.sequence == s.sequence && Accounted(s, t)
    ensures Accounted(Append(s, p, task), t)
  {
    hide Times, Ids;
    IdsJoin(s.queues[p], [task], t);
    assert Ids([task]) == [task.sequence] by { OneId(task); }
    TimesOne(task.sequence, t);
  }

  lemma {:induction false} OneId(task: Task)
    ensures Ids([task]) == [task.sequence] && Ids([]) == []
  {
  }

  lemma {:induction false} PopAccounted(s: State, p: nat, t: nat)
    requires |s.queues| == 4 && p < 4 && Waits(s, p) && Accounted(s, t)
    ensures Accounted(Popped(s, p), t)
  {
    hide Times, Ids;
    var head, rest := s.queues[p][0], s.queues[p][1..];
    assert s.queues[p] == [head] + rest;
    IdsJoin([head], rest, t);
    IdsJoin(s.ran, [head], t);
  }

  /** The chosen head is the earliest of all in FIFO mode. */
  lemma {:induction false} EarliestLeast(s: State, n: nat, q: nat)
    requires |s.queues| == 4 && q < n <= 4 && Waits(s, q)
    ensures Earliest(s, n).Some? && s.queues[Earliest(s, n).value][0].sequence <= s.queues[q][0].sequence
    decreases n
  {
    if q < n - 1 {
      EarliestLeast(s, n - 1, q);
    }
  }

  lemma {:induction false} PopOrder(s: State, p: nat)
    requires |s.queues| == 4 && p < 4 && Waits(s, p) && RanInOrder(s)
    requires forall q :: 0 <= q < 4 ==> QueueOk(s, q)
    requires s.config.fifo ==> forall q :: 0 <= q < 4 && Waits(s, q) ==> s.queues[p][0].sequence <= s.queues[q][0].sequence
    requires s.config.fifo ==> forall q :: 0 <= q < 4 && q != p && Waits(s, q) ==> s.queues[p][0].sequence != s.queues[q][0].sequence
    ensures RanInOrder(Popped(s, p))
  {
    var s', head := Popped(s, p), s.queues[p][0];
    assert QueueOk(s, p) && Before(s.ran, s.queues[p], !s.config.fifo);
    forall q | 0 <= q < 4 ensures Before(s'.ran, s'.queues[q], !s.config.fifo) {
      assert QueueOk(s, q) && Before(s.ran, s.queues[q], !s.config.fifo);
      HeadFirst(s, p, q);
    }
  }

  lemma {:induction false} HeadFirst(s: State, p: nat, q: nat)
    requires |s.queues| == 4 && p < 4 && q < 4 && Waits(s, p) && QueueOk(s, p) && QueueOk(s, q)
    requires s.config.fifo && Waits(s, q) ==> s.queues[p][0].sequence <= s.queues[q][0].sequence
    requires s.config.fifo && q != p && Waits(s, q) ==> s.queues[p][0].sequence != s.queues[q][0].sequence
    ensures Before([s.queues[p][0]], Popped(s, p).queues[q], !s.config.fifo)
  {
    var rest := Popped(s, p).queues[q];
    forall k | 0 <= k < |rest| && (s.config.fifo || rest[k].priority == p)
      ensures s.queues[p][0].sequence < rest[k].sequence
    {
      if q == p {
        assert rest[k] == s.queues[p][k + 1];
      }
    }
  }

  lemma {:induction false} DistinctHeads(s: State, p: nat, q: nat)
    requires |s.queues| == 4 && p < 4 && q < 4 && p != q && Waits(s, p) && Waits(s, q)
    requires Accounted(s, s.queues[p][0].sequence)
    ensures s.queues[p][0].sequence != s.queues[q][0].sequence
  {
    var t := s.queues[p][0].sequence;
    hide Times, Ids;
    if t == s.queues[q][0].sequence {
      HeadCounted(s.queues[p]);
      HeadCounted(s.queues[q]);
    }
  }

  lemma {:induction false} HeadCounted(queue: seq<Task>)
    requires queue != []
    ensures Times(Ids(queue), queue[0].sequence) >= 1
  {
    TimesIn(Ids(queue), queue[0].sequence);
    assert Ids(queue)[0] == queue[0].sequence;
  }

  lemma {:induction false} PopKeeps(s: State, now: real)
    requires Good(s) && Choice(s, now).Some?
    ensures Good(Popped(s, Choice(s, now).value))
  {
    hide Popped;
    var p := Choice(s, now).value;
    PopRest(s, p);
    forall t: nat ensures Accounted(Popped(s, p), t) {
      PopAccounted(s, p, t);
    }
    if s.config.fifo {
      forall q | 0 <= q < 4 && Waits(s, q)
        ensures s.queues[p][0].sequence <= s.queues[q][0].sequence
        ensures q != p ==> s.queues[p][0].sequence != s.queues[q][0].sequence
      {
        EarliestLeast(s, 4, q);
        if q != p {
          DistinctHeads(s, p, q);
        }
      }
    }
    hide Accounted, Choice;
    PopOrder(s, p);
    hide RanInOrder;
  }

  lemma {:induction false} PopRest(s: State, p: nat)
    requires Shape(s) && s.sequence == |s.ran| + |s.discarded| + s.pending && p < 4 && Waits(s, p)
    requires forall q :: 0 <= q < 4 ==> QueueOk(s, q)
    ensures var r := Popped(s, p);
      && Shape(r) && r.sequence == |r.ran| + |r.discarded| + r.pending
      && forall q :: 0 <= q < 4 ==> QueueOk(r, q)
  {
    forall q | 0 <= q < 4 ensures QueueOk(Popped(s, p), q) {
      assert QueueOk(s, q);
    }
  }

  lemma {:induction false} GenerationAccounted(s: State, g: nat, t: nat)
    requires |s.queues| == 4 && Accounted(s, t)
    ensures Accounted(WithGeneration(s, g), t)
  {
    hide Times, Ids, Kept, Dropped;
    var q := s.queues;
    var a, b, c, d := Dropped(q[3], g), Dropped(q[2], g), Dropped(q[1], g), Dropped(q[0], g);
    FilterTimes(q[0], g, t);
    FilterTimes(q[1], g, t);
    FilterTimes(q[2], g, t);
    FilterTimes(q[3], g, t);
    IdsJoin(s.discarded, a + b + c + d, t);
    IdsJoin(a + b + c, d, t);
    IdsJoin(a + b, c, t);
    IdsJoin(a, b, t);
  }

  lemma {:induction false} KeptSubset(queue: seq<Task>, g: nat)
    ensures forall x :: x in Kept(queue, g) ==> x in queue && Current(x, g)
  {
    forall x | x in Kept(queue, g)
      ensures x in queue && Current(x, g)
    {
      var k :| 0 <= k < |Kept(queue, g)| && Kept(queue, g)[k] == x;
      var i := KeptMember(queue, g, k);
    }
  }

  /** A part of a queue in the same order. */
  lemma {:induction false} PartOk(s: State, s': State, p: nat, queue: seq<Task>, part: seq<Task>)
    requires p < |s.queues| == |s'.queues| && s.queues[p] == queue && s'.queues[p] == part
    requires QueueOk(s, p) && Before(s.ran, queue, !s.config.fifo) && Increasing(part)
    requires forall x :: x in part ==> x in queue && Current(x, s'.generation)
    requires s'.sequence == s.sequence && s'.ran == s.ran && s'.config == s.config
    ensures QueueOk(s', p) && Before(s'.ran, part, !s.config.fifo)
  {
    forall k | 0 <= k < |part|
      ensures part[k].priority == p && Current(part[k], s'.generation) && part[k].sequence < s.sequence
      ensures forall j :: 0 <= j < |s.ran| && (!s.config.fifo ==> s.ran[j].priority == part[k].priority) ==>
        s.ran[j].sequence < part[k].sequence
    {
      assert part[k] in part;
      var i :| 0 <= i < |queue| && queue[i] == part[k];
    }
  }

  lemma {:induction false} GenerationQueue(s: State, g: nat, p: nat)
    requires |s.queues| == 4 && p < 4 && QueueOk(s, p) && Before(s.ran, s.queues[p], !s.config.fifo)
    ensures QueueOk(WithGeneration(s, g), p)
    ensures Before(s.ran, WithGeneration(s, g).queues[p], !s.config.fifo)
    ensures |s.queues[p]| == |Kept(s.queues[p], g)| + |Dropped(s.queues[p], g)|
  {
    QueueIncreasing(s, p);
    KeptIncreasing(s.queues[p], g);
    FilterTimes(s.queues[p], g, 0);
    KeptSubset(s.queues[p], g);
    hide Kept, Dropped, QueueOk, Before, Increasing;
    PartOk(s, WithGeneration(s, g), p, s.queues[p], Kept(s.queues[p], g));
  }

  lemma {:induction false} QueueIncreasing(s: State, p: nat)
    requires p < |s.queues| && QueueOk(s, p)
    ensures Increasing(s.queues[p])
  {
  }

  lemma {:induction false} GenerationKeeps(s: State, g: nat)
    requires Good(s)
    ensures Good(WithGeneration(s, g))
  {
    var s' := WithGeneration(s, g);
    forall t: nat ensures Accounted(s', t) {
      GenerationAccounted(s, g, t);
    }
    hide Accounted, Kept, Dropped;
    forall p | 0 <= p < 4
      ensures QueueOk(s', p) && Before(s.ran, s'.queues[p], !s.config.fifo)
      ensures |s.queues[p]| == |Kept(s.queues[p], g)| + |Dropped(s.queues[p], g)|
    {
      GenerationQueue(s, g, p);
    }
    hide QueueOk, Before;
    assert |s.queues[0]| == |Kept(s.queues[0], g)| + |Dropped(s.queues[0], g)|;
    assert |s.queues[1]| == |Kept(s.queues[1], g)| + |Dropped(s.queues[1], g)|;
    assert |s.queues[2]| == |Kept(s.queues[2], g)| + |Dropped(s.queues[2], g)|;
    assert |s.queues[3]| == |Kept(s.queues[3], g)| + |Dropped(s.queues[3], g)|;
  }

  lemma {:induction false} ClearAccounted(s: State, t: nat)
    requires |s.queues| == 4 && Accounted(s, t)
    ensures Accounted(Cleared(s), t)
  {
    hide Times;
    var q := s.queues;
    TimesOne(0, t);
    OneId(Task(0, 0, 0, 0.0));
    hide Ids;
    IdsJoin(s.discarded, q[3] + q[2] + q[1] + q[0], t);
    IdsJoin(q[3] + q[2] + q[1], q[0], t);
    IdsJoin(q[3] + q[2], q[1], t);
    IdsJoin(q[3], q[2], t);
  }

  lemma {:induction false} StepKeeps(s: State, e: Step)
    requires Good(s)
    ensures Good(Next(s, e))
  {
    match e {
      case Schedule(p, g, at) =>
        hide Good, Scheduled;
        ScheduleKeeps(s, p, g, at);
      case Run(now) =>
        if Choice(s, now).Some? {
          hide Good, Choice, Popped;
          PopKeeps(s, now);
        }
      case SetFrame(_, _) =>
        FrameKeeps(s, Next(s, e));
      case SetGeneration(g) =>
        hide Good, WithGeneration;
        GenerationKeeps(s, g);
      case Clear =>
        forall t: nat ensures Accounted(Cleared(s), t) {
          ClearAccounted(s, t);
        }
        hide Accounted;
    }
  }

  lemma {:induction false} FrameKeeps(s: State, s': State)
    requires Good(s) && s' == s.(armed := s'.armed, deadline := s'.deadline)
    ensures Good(s')
  {
    forall p | 0 <= p < 4 ensures QueueOk(s', p) {
      assert QueueOk(s, p);
    }
    forall t: nat ensures Accounted(s', t) {
      assert Accounted(s, t);
    }
  }

  // ----- All runs -----

  function After(s: State, steps: seq<Step>): State
    requires Shape(s)
    decreases |steps|
  {
    if steps == [] then s
    else
      var before := After(s, steps[..|steps| - 1]);
      if |before.queues| == 4 then Next(before, steps[|steps| - 1]) else before
  }

  lemma {:induction false} CreateGood(config: Config)
    ensures Good(Create(config))
  {
    var s := Create(config);
    assert Ids([]) == [];
    forall t: nat ensures Accounted(s, t) {
      TimesOne(0, t);
    }
  }

  /** After any calls every accepted task is queued, or has run, or was discarded, once; queues hold
      only tasks of generation 0 or the current one, oldest first; and tasks of one priority, in FIFO
      mode all tasks, have run in the order they were accepted. */
  lemma {:induction false} AlwaysGood(config: Config, steps: seq<Step>)
    ensures Good(After(Create(config), steps)) && After(Create(config), steps).config == config
    decreases |steps|
  {
    hide Good, Next;
    CreateGood(config);
    if steps != [] {
      AlwaysGood(config, steps[..|steps| - 1]);
      GoodShape(After(Create(config), steps[..|steps| - 1]));
      StepKeeps(After(Create(config), steps[..|steps| - 1]), steps[|steps| - 1]);
      SameConfig(After(Create(config), steps[..|steps| - 1]), steps[|steps| - 1]);
    }
  }

  lemma {:induction false} GoodShape(s: State)
    requires Good(s)
    ensures |s.queues| == 4
  {
  }

  lemma {:induction false} SameConfig(s: State, e: Step)
    requires |s.queues| == 4
    ensures Next(s, e).config == s.config
  {
  }

  /** A task is held back for a frame exactly when only timers wait and the guard is on; a call finds
      nothing exactly when nothing waits. */
  lemma {:induction false} HeldExactly(s: State, now: real)
    requires Good(s)
    ensures RunOne(s, now).1.HeldForFrame? <==>
      && !s.config.fifo && s.armed && s.deadline - now <= s.config.guard
      && s.queues[3] != [] && s.queues[0] == s.queues[1] == s.queues[2] == []
    ensures RunOne(s, now).1.Empty? <==> s.pending == 0
  {
    hide RanInOrder, Accounted, QueueOk;
    if s.config.fifo && s.pending != 0 {
      var q := if Waits(s, RENDER) then RENDER else if Waits(s, INPUT) then INPUT else if Waits(s, NORMAL) then NORMAL else TIMER;
      EarliestLeast(s, 4, q);
    }
  }

  /** Who runs: a timer overtakes normal tasks when it has waited long enough or the burst is over,
      and nothing else overtakes a lower number. */
  lemma {:induction false} TurnOrder(s: State, now: real)
    requires Good(s) && !s.config.fifo && RunOne(s, now).1.Ran?
    ensures var task, q := RunOne(s, now).1.task, s.queues;
      var free := !(s.armed && s.deadline - now <= s.config.guard);
      var due := q[3] != [] && free &&
        (now - q[3][0].enqueuedAt >= s.config.starvation || s.burst >= s.config.maxBurst);
      && task.priority < 4 && q[task.priority] != [] && task == q[task.priority][0]
      && (task.priority == 0 <==> q[0] != [])
      && (task.priority == 1 <==> q[0] == [] && q[1] != [])
      && (task.priority == 2 <==> q[0] == [] && q[1] == [] && q[2] != [] && !due)
      && (task.priority == 3 <==> q[0] == [] && q[1] == [] && q[3] != [] && free && (due || q[2] == []))
  {
    hide RanInOrder, Accounted;
    assert QueueOk(s, Choice(s, now).value);
  }

  /** In FIFO mode the task that runs was accepted before every task that waits. */
  lemma {:induction false} FifoFirst(s: State, now: real, p: nat, k: nat)
    requires Good(s) && s.config.fifo && p < 4 && k < |s.queues[p]|
    ensures RunOne(s, now).1.Ran?
    ensures RunOne(s, now).1.task.sequence <= s.queues[p][k].sequence
  {
    hide RanInOrder, Accounted;
    assert Waits(s, p) && QueueOk(s, p);
    EarliestLeast(s, 4, p);
    assert k > 0 ==> s.queues[p][0].sequence < s.queues[p][k].sequence;
  }

  // ----- The burst limit -----

  /** Calls during which a timer waits unguarded at every turn and none gets one. */
  predicate TimersWait(s: State, steps: seq<Step>)
    requires |s.queues| == 4
    decreases |steps|
  {
    steps == [] ||
    (var e := steps[0];
     && !e.Clear?
     && (e.Run? ==> Waits(s, TIMER) && !Guarded(s, e.now) && Choice(s, e.now) != Some(TIMER))
     && TimersWait(Next(s, e), steps[1..]))
  }

  function NormalRuns(s: State, steps: seq<Step>): nat
    requires |s.queues| == 4
    decreases |steps|
  {
    if steps == [] then 0
    else
      var e := steps[0];
      (if e.Run? && Choice(s, e.now) == Some(NORMAL) then 1 else 0) + NormalRuns(Next(s, e), steps[1..])
  }

  /** While a timer waits unguarded, at most maxBurst normal tasks run before one does. */
  lemma {:induction false} BurstBound(s: State, steps: seq<Step>)
    requires |s.queues| == 4 && !s.config.fifo && TimersWait(s, steps)
    ensures NormalRuns(s, steps) <= if s.burst >= s.config.maxBurst then 0 else s.config.maxBurst - s.burst
    decreases |steps|
  {
    if steps != [] {
      SameConfig(s, steps[0]);
      BurstBound(Next(s, steps[0]), steps[1..]);
    }
  }

  /** Calls during which a timer waits unguarded at every turn, whoever gets it. */
  predicate TimersReady(s: State, steps: seq<Step>)
    requires |s.queues| == 4
    decreases |steps|
  {
    steps == [] ||
    (var e := steps[0];
     && !e.Clear?
     && (e.Run? ==> Waits(s, TIMER) && !Guarded(s, e.now))
     && TimersReady(Next(s, e), steps[1..]))
  }

  function TimerRuns(s: State, steps: seq<Step>): nat
    requires |s.queues| == 4
    decreases |steps|
  {
    if steps == [] then 0
    else
      var e := steps[0];
      (if e.Run? && Choice(s, e.now) == Some(TIMER) then 1 else 0) + TimerRuns(Next(s, e), steps[1..])
  }

  /** A timer that waits has been waiting for at least the starvation time at every turn. */
  predicate TimersAged(s: State, steps: seq<Step>)
    requires |s.queues| == 4
    decreases |steps|
  {
    steps == [] ||
    (var e := steps[0];
     && (e.Run? && Waits(s, TIMER) ==> e.now - s.queues[TIMER][0].enqueuedAt >= s.config.starvation)
     && TimersAged(Next(s, e), steps[1..]))
  }

  lemma {:induction false} Share(burst: nat, timers: nat)
    ensures burst * (timers + 2) == burst * (timers + 1) + burst
  {
  }

  /** Over any calls, normal tasks get at most maxBurst turns for each turn of a timer, and one burst
      more. */
  lemma {:induction false} FairShare(s: State, steps: seq<Step>)
    requires |s.queues| == 4 && !s.config.fifo && TimersReady(s, steps)
    ensures NormalRuns(s, steps) + Min(s.burst, s.config.maxBurst) <= s.config.maxBurst * (TimerRuns(s, steps) + 1)
    decreases |steps|
  {
    if steps != [] {
      var e := steps[0];
      var s' := Next(s, e);
      SameConfig(s, e);
      FairShare(s', steps[1..]);
      Share(s.config.maxBurst, TimerRuns(s', steps[1..]));
      BurstStep(s, e);
      hide Choice, Next, TimersReady;
    }
  }

  /** What one call does to the burst, when a timer waits unguarded at its turn. */
  lemma {:induction false} BurstStep(s: State, e: Step)
    requires |s.queues| == 4 && !s.config.fifo && !e.Clear?
    requires e.Run? ==> Waits(s, TIMER) && !Guarded(s, e.now)
    ensures var s' := Next(s, e);
      if e.Run? && Choice(s, e.now) == Some(TIMER) then s'.burst == 0
      else if e.Run? && Choice(s, e.now) == Some(NORMAL) then s.burst < s.config.maxBurst && s'.burst == s.burst + 1
      else s'.burst >= s.burst
  {
  }

  /** A timer that has waited long enough is never passed by a normal task. */
  lemma {:induction false} AgedFirst(s: State, steps: seq<Step>)
    requires |s.queues| == 4 && !s.config.fifo && TimersReady(s, steps) && TimersAged(s, steps)
    ensures NormalRuns(s, steps) == 0
    decreases |steps|
  {
    if steps != [] {
      SameConfig(s, steps[0]);
      AgedFirst(Next(s, steps[0]), steps[1..]);
    }
  }
}
