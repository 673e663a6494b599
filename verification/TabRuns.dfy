/** All interleavings of the window thread and the loader. */
module TabRuns {
  import opened Results
  import opened Counting
  import opened TabMachine
  import opened TabCustody
  import opened TabOrder

  /** The state a run reaches, if every step was possible. */
  ghost function Reached(steps: seq<Step>): Option<State>
    decreases |steps|
  {
    if steps == [] then Some(INITIAL)
    else
      match Reached(steps[..|steps| - 1])
      case None => None
      case Some(s) => Reply(s, steps[|steps| - 1])
  }

  ghost function Reply(s: State, e: Step): Option<State> {
    if Wired(s) && Enabled(s, e) then Some(Next(s, e)) else None
  }

  lemma {:induction false} InitialGood()
    ensures Good(INITIAL) && OncePerTask(INITIAL)
  {
    assert forall t: nat :: Census(INITIAL, t) == 0;
  }

  lemma {:induction false} OnceReleased(s: State)
    requires OncePerTask(s)
    ensures ReleasedExist(s)
  {
    forall k | 0 <= k < |s.released|
      ensures s.released[k] < |s.tasks|
    {
      TimesIn(s.released, s.released[k]);
      assert Census(s, s.released[k]) > 0;
    }
  }

  lemma {:induction false} ReplyKeeps(s: State, e: Step)
    requires Good(s) && OncePerTask(s) && Reply(s, e).Some?
    ensures Good(Reply(s, e).value) && OncePerTask(Reply(s, e).value)
  {
    hide Good, OncePerTask, Enabled, Next, Wired;
    OnceReleased(s);
    StepKeeps(s, e);
    OnceKept(s, e);
  }

  /** In every reachable state each task is in exactly one place, and the loads of each tab are in
      order. */
  lemma {:induction false} AlwaysGood(steps: seq<Step>)
    requires Reached(steps).Some?
    ensures Good(Reached(steps).value) && OncePerTask(Reached(steps).value)
    decreases |steps|
  {
    hide Good, OncePerTask, Reply;
    if steps == [] {
      InitialGood();
    } else {
      AlwaysGood(steps[..|steps| - 1]);
      ReplyKeeps(Reached(steps[..|steps| - 1]).value, steps[|steps| - 1]);
    }
  }

  /** At the end every task ever created has been released, once. */
  lemma {:induction false} AllReleasedOnce(steps: seq<Step>, t: nat)
    requires Reached(steps).Some? && Reached(steps).value.collected
    ensures var s := Reached(steps).value;
      Times(s.released, t) == if t < |s.tasks| then 1 else 0
  {
    hide Good, OncePerTask, Reached, Times;
    AlwaysGood(steps);
    EmptyElsewhere(Reached(steps).value, t);
  }

  lemma {:induction false} EmptyElsewhere(s: State, t: nat)
    requires Good(s) && OncePerTask(s) && s.collected
    ensures Times(s.released, t) == if t < |s.tasks| then 1 else 0
  {
    hide Wired, Ordered, Windowed;
    assert Census(s, t) == Times(s.released, t);
  }

  /** No run lets the loader or a tab hold a released task, nor two places hold one task. */
  lemma {:induction false} ReleasedIsGone(steps: seq<Step>, t: nat)
    requires Reached(steps).Some? && t in Reached(steps).value.released
    ensures var s := Reached(steps).value;
      && Times(s.released, t) == 1
      && t !in s.queue && s.hand != Some(t) && t !in s.active && t !in s.completed && t !in OnDesk(s)
      && forall id :: id in s.slots ==> s.slots[id].pending != Some(t)
  {
    hide Reached;
    AlwaysGood(steps);
    var s := Reached(steps).value;
    hide Wired, Windowed, Phases, Times, InboxTimes;
    TimesIn(s.released, t);
    TimesIn(s.queue, t);
    TimesIn(Hand(s), t);
    TimesIn(s.active, t);
    TimesIn(s.completed, t);
    TimesIn(OnDesk(s), t);
    assert Census(s, t) <= 1;
  }

  /** The generations committed into one tab strictly increase, over any run. */
  lemma {:induction false} CommittedInOrder(steps: seq<Step>, j: nat, k: nat)
    requires Reached(steps).Some?
    requires j < k < |Reached(steps).value.commits|
    ensures var commits := Reached(steps).value.commits;
      commits[j].0 == commits[k].0 ==> commits[j].1 < commits[k].1
  {
    hide Reached, OncePerTask;
    AlwaysGood(steps);
    hide Wired, Windowed, Phases;
  }

  /** What commits into a tab is its newest load, and no later completion on the desk can follow it. */
  lemma {:induction false} OnlyNewestCommits(steps: seq<Step>, w: nat, t: nat)
    requires Reached(steps).Some? && Wired(Reached(steps).value)
    requires w < |Reached(steps).value.windows| && t < |Reached(steps).value.tasks|
    requires Current(Reached(steps).value, w, t)
    ensures var s := Reached(steps).value;
      && (forall u :: 0 <= u < |s.tasks| && s.tasks[u].tab == s.tasks[t].tab ==> s.tasks[u].generation <= s.tasks[t].generation)
      && (forall v, u :: 0 <= v < |s.windows| && 0 <= u < |s.tasks| && s.tasks[u].tab == s.tasks[t].tab && u != t ==>
            !Current(s, v, u))
  {
    hide Reached, OncePerTask;
    AlwaysGood(steps);
    hide Windowed, Phases, PlacesIn, TabsIn;
  }

  /** A load that is still held, and that no newer one of its tab has replaced, is the one the tab
      waits for; every other held load is cancelled. */
  lemma {:induction false} OnlyPendingLives(steps: seq<Step>, t: nat)
    requires Reached(steps).Some? && t < |Reached(steps).value.tasks| && t !in Reached(steps).value.released
    ensures var s := Reached(steps).value;
      s.tasks[t].cancelled <==> s.tasks[t].tab !in s.slots || s.slots[s.tasks[t].tab].pending != Some(t)
  {
    hide Reached, OncePerTask;
    AlwaysGood(steps);
    hide Wired, Windowed, Phases;
  }
}
