/** src/scheduler.c as a state machine.

    Four queues by priority hold tasks with the sequence numbers they were accepted under. A frame
    guard holds timers back, age and a burst limit let them pass normal tasks, and a change of
    generation drops what is stale. The lists of tasks that ran and were discarded are kept for the
    statements about runs.
*/
module SchedulerMachine {
  import opened Results

  const RENDER: nat := 0
  const INPUT: nat := 1
  const NORMAL: nat := 2
  const TIMER: nat := 3

  datatype Task = Task(priority: nat, generation: nat, sequence: nat, enqueuedAt: real)

  datatype Config = Config(fifo: bool, starvation: real, maxBurst: nat, guard: real)

  /** ran and discarded list what has left the queues, in order. */
  datatype State = State(
    config: Config,
    queues: seq<seq<Task>>,
    sequence: nat,
    generation: nat,
    pending: int,
    burst: nat,
    armed: bool,
    deadline: real,
    ran: seq<Task>,
    discarded: seq<Task>)

  datatype Result = Empty | HeldForFrame | Ran(task: Task)

  function Create(config: Config): State {
    State(config, [[], [], [], []], 0, 0, 0, 0, false, 0.0, [], [])
  }

  function Append(s: State, p: nat, task: Task): State
    requires |s.queues| == 4 && p < 4
  {
    s.(queues := s.queues[p := s.queues[p] + [task]], sequence := s.sequence + 1, pending := s.pending + 1)
  }

  predicate Accepts(s: State, generation: nat) {
    generation == 0 || generation == s.generation
  }

  function Scheduled(s: State, p: nat, generation: nat, at: real): State
    requires |s.queues| == 4
  {
    if p <= TIMER && Accepts(s, generation) then Append(s, p, Task(p, generation, s.sequence, at)) else s
  }

  predicate Waits(s: State, p: nat)
    requires |s.queues| == 4 && p < 4
  {
    s.queues[p] != []
  }

  predicate Guarded(s: State, now: real) {
    s.armed && s.deadline - now <= s.config.guard
  }

  /** The queue of the earliest task among the first n, if any waits. */
  function Earliest(s: State, n: nat): Option<nat>
    requires |s.queues| == 4 && n <= 4
    ensures Earliest(s, n).Some? ==> Earliest(s, n).value < n && Waits(s, Earliest(s, n).value)
  {
    if n == 0 then None
    else
      var best := Earliest(s, n - 1);
      if Waits(s, n - 1) && (best.None? || s.queues[n - 1][0].sequence < s.queues[best.value][0].sequence)
      then Some(n - 1) else best
  }

  /** The queue the priorities choose. */
  function Preferred(s: State, now: real): Option<nat>
    requires |s.queues| == 4
  {
    var timer := Waits(s, TIMER) && !Guarded(s, now);
    if Waits(s, RENDER) then Some(RENDER)
    else if Waits(s, INPUT) then Some(INPUT)
    else if timer && now - s.queues[TIMER][0].enqueuedAt >= s.config.starvation then Some(TIMER)
    else if timer && s.burst >= s.config.maxBurst then Some(TIMER)
    else if Waits(s, NORMAL) then Some(NORMAL)
    else if timer then Some(TIMER)
    else None
  }

  function Choice(s: State, now: real): (r: Option<nat>)
    requires |s.queues| == 4
    ensures r.Some? ==> r.value < 4 && Waits(s, r.value)
  {
    if s.config.fifo then Earliest(s, 4) else Preferred(s, now)
  }

  function Popped(s: State, p: nat): State
    requires |s.queues| == 4 && p < 4 && Waits(s, p)
  {
    s.(queues := s.queues[p := s.queues[p][1..]], pending := s.pending - 1,
       burst := if p == TIMER then 0 else s.burst + 1,
       ran := s.ran + [s.queues[p][0]])
  }

  function RunOne(s: State, now: real): (State, Result)
    requires |s.queues| == 4
  {
    match Choice(s, now)
    case Some(p) => (Popped(s, p), Ran(s.queues[p][0]))
    case None => (s, if s.pending != 0 then HeldForFrame else Empty)
  }

  // ----- Generations -----

  predicate Current(task: Task, generation: nat) {
    task.generation == 0 || task.generation == generation
  }

  function Kept(queue: seq<Task>, generation: nat): seq<Task>
    decreases |queue|
  {
    if queue == [] then []
    else
      var last := queue[|queue| - 1];
      Kept(queue[..|queue| - 1], generation) + if Current(last, generation) then [last] else []
  }

  /** The others, last first: they are collected on the front of a list. */
  function Dropped(queue: seq<Task>, generation: nat): seq<Task>
    decreases |queue|
  {
    if queue == [] then []
    else
      var last := queue[|queue| - 1];
      (if Current(last, generation) then [] else [last]) + Dropped(queue[..|queue| - 1], generation)
  }

  function WithGeneration(s: State, g: nat): State
    requires |s.queues| == 4
  {
    var q := s.queues;
    var out := Dropped(q[3], g) + Dropped(q[2], g) + Dropped(q[1], g) + Dropped(q[0], g);
    s.(generation := g,
       queues := [Kept(q[0], g), Kept(q[1], g), Kept(q[2], g), Kept(q[3], g)],
       pending := s.pending - |out|,
       discarded := s.discarded + out)
  }

  function Cleared(s: State): State
    requires |s.queues| == 4
  {
    var q := s.queues;
    s.(queues := [[], [], [], []], pending := 0, burst := 0,
       discarded := s.discarded + (q[3] + q[2] + q[1] + q[0]))
  }

  datatype Step =
    | Schedule(priority: nat, generation: nat, at: real)
    | Run(now: real)
    | SetFrame(armed: bool, deadline: real)
    | SetGeneration(generation: nat)
    | Clear

  function Next(s: State, e: Step): State
    requires |s.queues| == 4
  {
    match e
    case Schedule(p, g, at) => Scheduled(s, p, g, at)
    case Run(now) => RunOne(s, now).0
    case SetFrame(armed, deadline) => s.(armed := armed, deadline := deadline)
    case SetGeneration(g) => WithGeneration(s, g)
    case Clear => Cleared(s)
  }
}
