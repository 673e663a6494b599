/** The scheduler of src/scheduler.c as an object.

    Its methods loop over the queues as the C functions do: picking the earliest head, filtering for
    a generation, collecting what is discarded on the front of a list. Each is proved to be the
    machine's step, and to keep the invariant of SchedulerRuns.
*/
module SchedulerObject {
  import opened Results
  import opened SchedulerMachine
  import opened SchedulerRuns

  class Scheduler {
    const config: Config
    var queues: seq<seq<Task>>
    var sequence: nat
    var generation: nat
    var pending: int
    var burst: nat
    var armed: bool
    var deadline: real
    ghost var ran: seq<Task>
    ghost var discarded: seq<Task>

    ghost function Abs(): State
      reads this
    {
      State(config, queues, sequence, generation, pending, burst, armed, deadline, ran, discarded)
    }

    ghost predicate Valid()
      reads this
    {
      Good(Abs())
    }

    constructor (config: Config)
      ensures Valid() && Abs() == Create(config)
    {
      this.config := config;
      queues, sequence, generation, pending, burst := [[], [], [], []], 0, 0, 0, 0;
      armed, deadline, ran, discarded := false, 0.0, [], [];
      new;
      CreateGood(config);
    }

    method Schedule(p: nat, g: nat, at: real) returns (accepted: bool)
      requires Valid()
      modifies this
      ensures Valid() && Abs() == Scheduled(old(Abs()), p, g, at)
      ensures accepted <==> p <= TIMER && old(Accepts(Abs(), g))
    {
      ScheduleKeeps(Abs(), p, g, at);
      hide Good;
      GoodQueues();
      if p > TIMER {
        return false;
      }
      if g != 0 && g != generation {
        return false;
      }
      var task := Task(p, g, sequence, at);
      sequence := sequence + 1;
      queues := queues[p := queues[p] + [task]];
      pending := pending + 1;
      accepted := true;
    }

    lemma {:induction false} GoodQueues()
      requires Valid()
      ensures |queues| == 4
    {
      GoodShape(Abs());
    }

    method Pop(p: nat) returns (task: Task)
      requires |queues| == 4 && p < 4 && Waits(Abs(), p)
      modifies this
      ensures task == old(queues)[p][0] && Abs() == Popped(old(Abs()), p)
    {
      task := queues[p][0];
      queues := queues[p := queues[p][1..]];
      pending := pending - 1;
      if p == TIMER {
        burst := 0;
      } else {
        burst := burst + 1;
      }
      ran := ran + [task];
    }

    method PickFifo() returns (selected: Option<nat>)
      requires |queues| == 4
      ensures selected == Earliest(Abs(), 4)
    {
      selected := None;
      var i := 0;
      while i < 4
        invariant i <= 4 && selected == Earliest(Abs(), i)
      {
        if queues[i] != [] && (selected.None? || queues[i][0].sequence < queues[selected.value][0].sequence) {
          selected := Some(i);
        }
        i := i + 1;
      }
    }

    method PickPriority(now: real) returns (selected: Option<nat>)
      requires |queues| == 4
      ensures selected == Preferred(Abs(), now)
    {
      if queues[RENDER] != [] {
        return Some(RENDER);
      }
      var guarded := armed && deadline - now <= config.guard;
      if queues[INPUT] != [] {
        return Some(INPUT);
      }
      var timer := queues[TIMER];
      if timer != [] && !guarded && now - timer[0].enqueuedAt >= config.starvation {
        return Some(TIMER);
      }
      if timer != [] && !guarded && burst >= config.maxBurst {
        return Some(TIMER);
      }
      if queues[NORMAL] != [] {
        return Some(NORMAL);
      }
      if timer != [] && !guarded {
        return Some(TIMER);
      }
      selected := None;
    }

    method RunNext(now: real) returns (result: Result)
      requires Valid()
      modifies this
      ensures Valid() && (Abs(), result) == RunOne(old(Abs()), now)
    {
      StepKeeps(Abs(), Run(now));
      hide Good;
      GoodQueues();
      var selected;
      if config.fifo {
        selected := PickFifo();
      } else {
        selected := PickPriority(now);
      }
      if selected.None? {
        return if pending != 0 then HeldForFrame else Empty;
      }
      var task := Pop(selected.value);
      result := Ran(task);
    }

    method SetFrameDeadline(armed: bool, deadline: real)
      requires Valid()
      modifies this
      ensures Valid() && Abs() == Next(old(Abs()), SetFrame(armed, deadline))
    {
      StepKeeps(Abs(), SetFrame(armed, deadline));
      hide Good;
      this.armed, this.deadline := armed, deadline;
    }

    /** Splits one queue, keeping its order; what goes is put on the front of a list. */
    method Filter(queue: seq<Task>, g: nat, out: seq<Task>) returns (kept: seq<Task>, out': seq<Task>)
      ensures kept == Kept(queue, g) && out' == Dropped(queue, g) + out
    {
      kept, out' := [], out;
      var i := 0;
      while i < |queue|
        invariant i <= |queue| && kept == Kept(queue[..i], g) && out' == Dropped(queue[..i], g) + out
      {
        var task := queue[i];
        assert queue[..i + 1][..i] == queue[..i];
        if task.generation == 0 || task.generation == g {
          kept := kept + [task];
        } else {
          out' := [task] + out';
        }
        i := i + 1;
      }
      assert queue[..i] == queue;
    }

    /** Destroys a list of tasks. */
    method Discard(out: seq<Task>)
      modifies `discarded
      ensures discarded == old(discarded) + out
    {
      var i := 0;
      while i < |out|
        invariant i <= |out| && discarded == old(discarded) + out[..i]
      {
        discarded := discarded + [out[i]];
        i := i + 1;
      }
    }

    /** What is dropped from the first n queues. */
    ghost function Out(q: seq<seq<Task>>, g: nat, n: nat): seq<Task>
      requires n <= |q|
    {
      if n == 0 then [] else Dropped(q[n - 1], g) + Out(q, g, n - 1)
    }

    lemma {:induction false} OutAll(q: seq<seq<Task>>, g: nat)
      requires |q| == 4
      ensures Out(q, g, 4) == Dropped(q[3], g) + Dropped(q[2], g) + Dropped(q[1], g) + Dropped(q[0], g)
    {
      hide Dropped;
      var a, b, c, d := Dropped(q[3], g), Dropped(q[2], g), Dropped(q[1], g), Dropped(q[0], g);
      assert Out(q, g, 0) == [];
      assert Out(q, g, 1) == d;
      assert Out(q, g, 2) == c + d;
      assert Out(q, g, 3) == b + (c + d);
      assert a + (b + (c + d)) == a + b + c + d;
    }

    lemma {:induction false} GenerationIs(s: State, s': State, g: nat, out: seq<Task>)
      requires |s.queues| == 4 == |s'.queues|
      requires forall p :: 0 <= p < 4 ==> s'.queues[p] == Kept(s.queues[p], g)
      requires out == Dropped(s.queues[3], g) + Dropped(s.queues[2], g) + Dropped(s.queues[1], g) + Dropped(s.queues[0], g)
      requires s' == s.(generation := g, queues := s'.queues, pending := s.pending - |out|, discarded := s.discarded + out)
      ensures s' == WithGeneration(s, g)
    {
      hide Kept, Dropped;
      assert s'.queues == WithGeneration(s, g).queues;
    }

    /** Filters all queues; what goes is still to be destroyed. */
    method FilterAll(g: nat) returns (out: seq<Task>)
      requires |queues| == 4
      modifies `queues, `pending
      ensures out == Out(old(queues), g, 4) && pending == old(pending) - |out|
      ensures |queues| == 4 && forall p :: 0 <= p < 4 ==> queues[p] == Kept(old(queues)[p], g)
    {
      hide Kept, Dropped;
      ghost var q := queues;
      out := [];
      var i := 0;
      while i < 4
        invariant i <= 4 && |queues| == 4 && out == Out(q, g, i) && pending == old(pending) - |out|
        invariant forall p :: 0 <= p < 4 ==> queues[p] == if p < i then Kept(q[p], g) else q[p]
      {
        var before := |out|;
        var kept;
        kept, out := Filter(queues[i], g, out);
        pending := pending - (|out| - before);
        queues := queues[i := kept];
        i := i + 1;
      }
    }

    method DropStale(g: nat)
      requires |queues| == 4
      modifies this
      ensures Abs() == WithGeneration(old(Abs()), g)
    {
      hide Kept, Dropped, Out, WithGeneration;
      OutAll(queues, g);
      generation := g;
      var out := FilterAll(g);
      Discard(out);
      GenerationIs(old(Abs()), Abs(), g, out);
    }

    method SetGeneration(g: nat)
      requires Valid()
      modifies this
      ensures Valid() && Abs() == WithGeneration(old(Abs()), g)
    {
      GenerationKeeps(Abs(), g);
      hide Good, WithGeneration;
      GoodQueues();
      DropStale(g);
    }

    ghost function Rest(q: seq<seq<Task>>, n: nat): seq<Task>
      requires n <= |q|
    {
      if n == 0 then [] else q[n - 1] + Rest(q, n - 1)
    }

    lemma {:induction false} RestAll(q: seq<seq<Task>>)
      requires |q| == 4
      ensures Rest(q, 4) == q[3] + q[2] + q[1] + q[0]
    {
      assert Rest(q, 0) == [];
      assert Rest(q, 1) == q[0];
      assert Rest(q, 2) == q[1] + q[0];
      assert Rest(q, 3) == q[2] + (q[1] + q[0]);
    }

    /** Empties all queues. */
    method TakeAll() returns (out: seq<Task>)
      requires |queues| == 4
      modifies `queues
      ensures out == Rest(old(queues), 4) && queues == [[], [], [], []]
    {
      ghost var q := queues;
      out := [];
      var i := 0;
      while i < 4
        invariant i <= 4 && |queues| == 4 && out == Rest(q, i)
        invariant forall p :: 0 <= p < 4 ==> queues[p] == if p < i then [] else q[p]
      {
        out := queues[i] + out;
        queues := queues[i := []];
        i := i + 1;
      }
    }

    method Clear()
      requires Valid()
      modifies this
      ensures Valid() && Abs() == Cleared(old(Abs()))
    {
      StepKeeps(Abs(), SchedulerMachine.Clear);
      hide Good, Rest;
      GoodQueues();
      RestAll(queues);
      var out := TakeAll();
      pending, burst := 0, 0;
      Discard(out);
    }
  }
}
