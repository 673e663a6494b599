/** Every task carries what the call that scheduled it said, and that decides whether it may run. */
module SchedulerLog {
  import opened SchedulerMachine
  import opened SchedulerRuns

  /** An accepted call: what it asked for, and which call of the run it was. */
  datatype Request = Request(priority: nat, generation: nat, at: real, step: nat)

  /** The generation set last, 0 before the first. */
  function LastSet(steps: seq<Step>): nat
    decreases |steps|
  {
    if steps == [] then 0
    else if steps[|steps| - 1].SetGeneration? then steps[|steps| - 1].generation
    else LastSet(steps[..|steps| - 1])
  }

  /** The calls of a run that schedule a task: the priority is one of the four, and the generation none
      or the one set last. */
  function Requests(steps: seq<Step>): seq<Request>
    decreases |steps|
  {
    if steps == [] then []
    else
      var n := |steps| - 1;
      var before, e := Requests(steps[..n]), steps[n];
      if e.Schedule? && e.priority <= 3 && (e.generation == 0 || e.generation == LastSet(steps[..n]))
      then before + [Request(e.priority, e.generation, e.at, n)] else before
  }

  /** The task is the one that request scheduled: the sequence-th accepted. */
  predicate From(task: Task, log: seq<Request>) {
    && task.sequence < |log|
    && task.priority == log[task.sequence].priority && task.generation == log[task.sequence].generation
    && task.enqueuedAt == log[task.sequence].at
  }

  /** A clear ousts every task, another generation those that have one. */
  predicate Ousts(e: Step, generation: nat) {
    e.Clear? || (e.SetGeneration? && generation != 0 && e.generation != generation)
  }

  /** Nothing since it was scheduled has ousted the task. */
  predicate Standing(task: Task, log: seq<Request>, steps: seq<Step>) {
    task.sequence < |log| ==>
      forall m :: log[task.sequence].step < m < |steps| ==> !Ousts(steps[m], task.generation)
  }

  /** Something has. */
  ghost predicate Ousted(task: Task, log: seq<Request>, steps: seq<Step>) {
    task.sequence < |log| ==>
      exists m :: log[task.sequence].step < m < |steps| && Ousts(steps[m], task.generation)
  }

  ghost predicate Queued(tasks: seq<Task>, log: seq<Request>, steps: seq<Step>) {
    forall k :: 0 <= k < |tasks| ==> From(tasks[k], log) && Standing(tasks[k], log, steps)
  }

  ghost predicate Gone(tasks: seq<Task>, log: seq<Request>, steps: seq<Step>) {
    forall k :: 0 <= k < |tasks| ==> From(tasks[k], log) && Ousted(tasks[k], log, steps)
  }

  predicate AllFrom(tasks: seq<Task>, log: seq<Request>) {
    forall k :: 0 <= k < |tasks| ==> From(tasks[k], log)
  }

  ghost predicate Logged(s: State, steps: seq<Step>) {
    var log := Requests(steps);
    && |s.queues| == 4 && s.sequence == |log| && s.generation == LastSet(steps)
    && (forall k :: 0 <= k < |log| ==> log[k].step < |steps|)
    && (forall p :: 0 <= p < 4 ==> Queued(s.queues[p], log, steps))
    && AllFrom(s.ran, log) && Gone(s.discarded, log, steps)
  }

  // ----- One step more -----

  /** How a log goes on. */
  ghost predicate Grows(log: seq<Request>, log': seq<Request>, n: nat) {
    && |log| <= |log'| && log'[..|log|] == log
    && (forall k :: 0 <= k < |log| ==> log[k].step < n)
    && (forall k :: |log| <= k < |log'| ==> log'[k].step == n)
  }

  lemma {:induction false} LogGrows(steps: seq<Step>, e: Step)
    requires forall k :: 0 <= k < |Requests(steps)| ==> Requests(steps)[k].step < |steps|
    ensures Grows(Requests(steps), Requests(steps + [e]), |steps|)
    ensures LastSet(steps + [e]) == if e.SetGeneration? then e.generation else LastSet(steps)
  {
    assert (steps + [e])[..|steps|] == steps;
  }

  lemma {:induction false} LogSame(steps: seq<Step>, e: Step)
    requires !e.Schedule?
    ensures Requests(steps + [e]) == Requests(steps)
  {
    assert (steps + [e])[..|steps|] == steps;
  }

  /** What stands goes on standing unless the step ousts it. */
  lemma {:induction false} StandingMore(task: Task, log: seq<Request>, log': seq<Request>, steps: seq<Step>, e: Step)
    requires Grows(log, log', |steps|) && From(task, log) && Standing(task, log, steps) && !Ousts(e, task.generation)
    ensures From(task, log') && Standing(task, log', steps + [e])
  {
    assert log'[..|log|][task.sequence] == log'[task.sequence];
    forall m | log[task.sequence].step < m < |steps| + 1
      ensures !Ousts((steps + [e])[m], task.generation)
    {
      if m < |steps| {
        assert (steps + [e])[m] == steps[m];
      }
    }
  }

  lemma {:induction false} OustedMore(task: Task, log: seq<Request>, log': seq<Request>, steps: seq<Step>, e: Step)
    requires Grows(log, log', |steps|) && From(task, log) && (Ousted(task, log, steps) || Ousts(e, task.generation))
    ensures From(task, log') && Ousted(task, log', steps + [e])
  {
    assert log'[..|log|][task.sequence] == log'[task.sequence];
    if Ousted(task, log, steps) {
      var m :| log[task.sequence].step < m < |steps| && Ousts(steps[m], task.generation);
      assert Ousts((steps + [e])[m], task.generation);
    } else {
      assert Ousts((steps + [e])[|steps|], task.generation);
    }
  }

  lemma {:induction false} FromMore(tasks: seq<Task>, log: seq<Request>, log': seq<Request>, n: nat)
    requires Grows(log, log', n) && AllFrom(tasks, log)
    ensures AllFrom(tasks, log')
  {
    forall k | 0 <= k < |tasks| ensures From(tasks[k], log') {
      assert log'[..|log|][tasks[k].sequence] == log'[tasks[k].sequence];
    }
  }

  lemma {:induction false} QueuedMore(tasks: seq<Task>, log: seq<Request>, log': seq<Request>, steps: seq<Step>,
                                      e: Step)
    requires Grows(log, log', |steps|) && Queued(tasks, log, steps)
    requires forall k :: 0 <= k < |tasks| ==> !Ousts(e, tasks[k].generation)
    ensures Queued(tasks, log', steps + [e])
  {
    hide Grows, From, Standing, Ousts;
    forall k | 0 <= k < |tasks|
      ensures From(tasks[k], log') && Standing(tasks[k], log', steps + [e])
    {
      StandingMore(tasks[k], log, log', steps, e);
    }
  }

  lemma {:induction false} GoneMore(tasks: seq<Task>, log: seq<Request>, log': seq<Request>, steps: seq<Step>, e: Step)
    requires Grows(log, log', |steps|) && Gone(tasks, log, steps)
    ensures Gone(tasks, log', steps + [e])
  {
    hide Grows, From, Ousted, Ousts;
    forall k | 0 <= k < |tasks|
      ensures From(tasks[k], log') && Ousted(tasks[k], log', steps + [e])
    {
      OustedMore(tasks[k], log, log', steps, e);
    }
  }

  /** Queued tasks the step ousts. */
  lemma {:induction false} GoneNow(tasks: seq<Task>, log: seq<Request>, log': seq<Request>, steps: seq<Step>, e: Step)
    requires Grows(log, log', |steps|) && Queued(tasks, log, steps)
    requires forall k :: 0 <= k < |tasks| ==> Ousts(e, tasks[k].generation)
    ensures Gone(tasks, log', steps + [e])
  {
    hide Grows, From, Ousted, Ousts, Standing;
    forall k | 0 <= k < |tasks|
      ensures From(tasks[k], log') && Ousted(tasks[k], log', steps + [e])
    {
      OustedMore(tasks[k], log, log', steps, e);
    }
  }

  lemma {:induction false} GoneJoin(a: seq<Task>, b: seq<Task>, log: seq<Request>, steps: seq<Step>)
    requires Gone(a, log, steps) && Gone(b, log, steps)
    ensures Gone(a + b, log, steps)
  {
    hide From, Ousted;
  }

  /** The part of a queue that a filter keeps or drops. */
  lemma {:induction false} QueuedPart(queue: seq<Task>, part: seq<Task>, log: seq<Request>, steps: seq<Step>)
    requires Queued(queue, log, steps) && forall x :: x in part ==> x in queue
    ensures Queued(part, log, steps)
  {
    hide From, Standing;
    forall k | 0 <= k < |part|
      ensures From(part[k], log) && Standing(part[k], log, steps)
    {
      assert part[k] in part;
    }
  }

  lemma {:induction false} DroppedSubset(queue: seq<Task>, g: nat)
    ensures forall x :: x in Dropped(queue, g) ==> x in queue && x.generation != 0 && x.generation != g
    decreases |queue|
  {
    if queue != [] {
      DroppedSubset(queue[..|queue| - 1], g);
    }
  }

  /** One queue under a new generation: the kept tasks stand, the dropped are ousted. */
  lemma {:induction false} FilterLogged(queue: seq<Task>, log: seq<Request>, steps: seq<Step>, g: nat)
    requires Queued(queue, log, steps) && Grows(log, log, |steps|)
    ensures var more := steps + [SetGeneration(g)];
      Queued(Kept(queue, g), log, more) && Gone(Dropped(queue, g), log, more)
  {
    KeptSubset(queue, g);
    DroppedSubset(queue, g);
    var kept, dropped, e := Kept(queue, g), Dropped(queue, g), SetGeneration(g);
    hide Kept, Dropped, Queued, Gone, Grows;
    QueuedPart(queue, kept, log, steps);
    QueuedPart(queue, dropped, log, steps);
    forall k | 0 <= k < |kept| ensures !Ousts(e, kept[k].generation) {
      assert kept[k] in kept;
    }
    forall k | 0 <= k < |dropped| ensures Ousts(e, dropped[k].generation) {
      assert dropped[k] in dropped;
    }
    QueuedMore(kept, log, log, steps, e);
    GoneNow(dropped, log, log, steps, e);
  }

  // ----- Each step -----

  lemma {:induction false} ScheduleLogged(s: State, steps: seq<Step>, e: Step)
    requires Logged(s, steps) && e.Schedule?
    ensures Logged(Next(s, e), steps + [e])
  {
    LogGrows(steps, e);
    var log, log', s', more := Requests(steps), Requests(steps + [e]), Next(s, e), steps + [e];
    var accepted := e.priority <= TIMER && Accepts(s, e.generation);
    var task := Task(e.priority, e.generation, s.sequence, e.at);
    assert accepted ==> log' == log + [Request(e.priority, e.generation, e.at, |steps|)] by {
      assert more[..|steps|] == steps;
    }
    assert !accepted ==> log' == log by {
      assert more[..|steps|] == steps;
    }
    hide Queued, Gone, AllFrom, Requests, LastSet, Grows;
    FromMore(s.ran, log, log', |steps|);
    GoneMore(s.discarded, log, log', steps, e);
    forall p | 0 <= p < 4
      ensures Queued(s'.queues[p], log', more)
    {
      QueuedMore(s.queues[p], log, log', steps, e);
      if accepted && p == e.priority {
        NewQueued(s.queues[p], task, log', more);
      }
    }
  }

  lemma {:induction false} NewQueued(queue: seq<Task>, task: Task, log: seq<Request>, steps: seq<Step>)
    requires Queued(queue, log, steps) && From(task, log) && log[task.sequence].step == |steps| - 1
    ensures Queued(queue + [task], log, steps)
  {
    hide From;
  }

  /** A step that neither schedules nor ousts. */
  lemma {:induction false} QuietLogged(s: State, s': State, steps: seq<Step>, e: Step)
    requires Logged(s, steps) && (e.Run? || e.SetFrame?)
    requires |s'.queues| == 4 && s'.sequence == s.sequence && s'.generation == s.generation && s'.discarded == s.discarded
    requires forall p, x :: 0 <= p < 4 && x in s'.queues[p] ==> x in s.queues[p]
    requires forall x :: x in s'.ran ==> x in s.ran || exists p :: 0 <= p < 4 && x in s.queues[p]
    ensures Logged(s', steps + [e])
  {
    LogGrows(steps, e);
    var log, more := Requests(steps), steps + [e];
    LogSame(steps, e);
    hide Requests, LastSet, Grows;
    forall k | 0 <= k < |s'.ran| ensures From(s'.ran[k], log) {
      assert s'.ran[k] in s'.ran;
    }
    GoneMore(s.discarded, log, log, steps, e);
    hide Queued, Gone, AllFrom;
    forall p | 0 <= p < 4
      ensures Queued(s'.queues[p], log, more)
    {
      QueuedPart(s.queues[p], s'.queues[p], log, steps);
      QueuedMore(s'.queues[p], log, log, steps, e);
    }
  }

  lemma {:induction false} RunLogged(s: State, steps: seq<Step>, e: Step)
    requires Logged(s, steps) && e.Run?
    ensures Logged(Next(s, e), steps + [e])
  {
    hide Logged, Choice;
    LoggedShape(s, steps);
    if Choice(s, e.now).Some? {
      assert s.queues[Choice(s, e.now).value][0] in s.queues[Choice(s, e.now).value];
    }
    QuietLogged(s, Next(s, e), steps, e);
  }

  lemma {:induction false} LoggedShape(s: State, steps: seq<Step>)
    requires Logged(s, steps)
    ensures |s.queues| == 4
  {
  }

  lemma {:induction false} GenerationLogged(s: State, steps: seq<Step>, e: Step)
    requires Logged(s, steps) && e.SetGeneration?
    ensures Logged(Next(s, e), steps + [e])
  {
    LogGrows(steps, e);
    var log, more, g, q := Requests(steps), steps + [e], e.generation, s.queues;
    LogSame(steps, e);
    hide Queued, Gone, AllFrom, Requests, LastSet, Grows, Kept, Dropped;
    FromMore(s.ran, log, log, |steps|);
    GoneMore(s.discarded, log, log, steps, e);
    FilterLogged(q[0], log, steps, g);
    FilterLogged(q[1], log, steps, g);
    FilterLogged(q[2], log, steps, g);
    FilterLogged(q[3], log, steps, g);
    GoneJoin(Dropped(q[3], g), Dropped(q[2], g), log, more);
    GoneJoin(Dropped(q[3], g) + Dropped(q[2], g), Dropped(q[1], g), log, more);
    GoneJoin(Dropped(q[3], g) + Dropped(q[2], g) + Dropped(q[1], g), Dropped(q[0], g), log, more);
    GoneJoin(s.discarded, Dropped(q[3], g) + Dropped(q[2], g) + Dropped(q[1], g) + Dropped(q[0], g), log, more);
  }

  lemma {:induction false} ClearLogged(s: State, steps: seq<Step>, e: Step)
    requires Logged(s, steps) && e.Clear?
    ensures Logged(Next(s, e), steps + [e])
  {
    hide Queued, Gone, AllFrom, Requests, LastSet, Grows;
    LogGrows(steps, e);
    LogSame(steps, e);
    var log, more, q := Requests(steps), steps + [e], s.queues;
    FromMore(s.ran, log, log, |steps|);
    GoneMore(s.discarded, log, log, steps, e);
    forall p | 0 <= p < 4
      ensures Gone(q[p], log, more)
    {
      AllOusted(q[p], log, steps, e);
    }
    GoneJoin(q[3], q[2], log, more);
    GoneJoin(q[3] + q[2], q[1], log, more);
    GoneJoin(q[3] + q[2] + q[1], q[0], log, more);
    GoneJoin(s.discarded, q[3] + q[2] + q[1] + q[0], log, more);
    NoTasks(log, more);
  }

  lemma {:induction false} AllOusted(queue: seq<Task>, log: seq<Request>, steps: seq<Step>, e: Step)
    requires Grows(log, log, |steps|) && Queued(queue, log, steps) && e.Clear?
    ensures Gone(queue, log, steps + [e])
  {
    hide Queued, Gone, Grows;
    GoneNow(queue, log, log, steps, e);
  }

  lemma {:induction false} NoTasks(log: seq<Request>, steps: seq<Step>)
    ensures Queued([], log, steps)
  {
  }

  lemma {:induction false} StepLogged(s: State, steps: seq<Step>, e: Step)
    requires Logged(s, steps)
    ensures |s.queues| == 4 && Logged(Next(s, e), steps + [e])
  {
    LoggedShape(s, steps);
    hide Logged;
    match e {
      case Schedule(_, _, _) => ScheduleLogged(s, steps, e);
      case Run(_) => RunLogged(s, steps, e);
      case SetFrame(_, _) => QuietLogged(s, Next(s, e), steps, e);
      case SetGeneration(_) => GenerationLogged(s, steps, e);
      case Clear => ClearLogged(s, steps, e);
    }
  }

  // ----- All runs -----

  lemma {:induction false} AlwaysLogged(config: Config, steps: seq<Step>)
    ensures Logged(After(Create(config), steps), steps)
    decreases |steps|
  {
    hide Logged, Next;
    if steps == [] {
      StartLogged(config);
    } else {
      var n := |steps| - 1;
      AlwaysLogged(config, steps[..n]);
      StepLogged(After(Create(config), steps[..n]), steps[..n], steps[n]);
      assert steps[..n] + [steps[n]] == steps;
    }
  }

  lemma {:induction false} StartLogged(config: Config)
    ensures Logged(Create(config), [])
  {
  }

  /** The k-th accepted task has the priority, the generation and the time of the k-th accepted call,
      wherever it is. */
  lemma {:induction false} CarriesRequest(config: Config, steps: seq<Step>)
    ensures var s, log := After(Create(config), steps), Requests(steps);
      && |s.queues| == 4 && s.sequence == |log| && s.generation == LastSet(steps)
      && (forall p :: 0 <= p < 4 ==> AllFrom(s.queues[p], log))
      && AllFrom(s.ran, log) && AllFrom(s.discarded, log)
  {
    AlwaysLogged(config, steps);
    hide Requests, LastSet, After, From, Standing, Ousted;
  }

  /** A task runs only while nothing since its call has ousted it: no clear, and if it was scheduled
      under a generation, no other one. */
  lemma {:induction false} RunsStanding(config: Config, steps: seq<Step>, now: real)
    ensures var s := After(Create(config), steps);
      |s.queues| == 4 &&
      match RunOne(s, now).1
      case Ran(task) => From(task, Requests(steps)) && Standing(task, Requests(steps), steps)
      case _ => true
  {
    AlwaysLogged(config, steps);
    hide Requests, LastSet, After, From, Standing, Ousted, Choice;
  }

  /** A task is discarded only when something since its call has ousted it: one scheduled under no
      generation only by a clear. */
  lemma {:induction false} DiscardedOusted(config: Config, steps: seq<Step>, k: nat)
    requires k < |After(Create(config), steps).discarded|
    ensures var task := After(Create(config), steps).discarded[k];
      From(task, Requests(steps)) && Ousted(task, Requests(steps), steps)
  {
    AlwaysLogged(config, steps);
    hide Requests, LastSet, After, From, Standing, Ousted;
  }

  /** A change of generation lets exactly the tasks scheduled under none or under the new one wait on. */
  lemma {:induction false} GenerationExactly(config: Config, steps: seq<Step>, g: nat, p: nat, task: Task)
    requires p < 4
    ensures var s, s' := After(Create(config), steps), After(Create(config), steps + [SetGeneration(g)]);
      && |s.queues| == 4 == |s'.queues|
      && (task in s'.queues[p] <==> task in s.queues[p] && (task.generation == 0 || task.generation == g))
  {
    AlwaysLogged(config, steps);
    AlwaysLogged(config, steps + [SetGeneration(g)]);
    var s := After(Create(config), steps);
    assert (steps + [SetGeneration(g)])[..|steps|] == steps;
    LoggedShape(s, steps);
    KeptExactly(s.queues[p], g, task);
    hide Logged, Kept, Dropped;
  }

  lemma {:induction false} KeptExactly(queue: seq<Task>, g: nat, task: Task)
    ensures task in Kept(queue, g) <==> task in queue && (task.generation == 0 || task.generation == g)
    decreases |queue|
  {
    if queue != [] {
      KeptExactly(queue[..|queue| - 1], g, task);
    }
  }
}
