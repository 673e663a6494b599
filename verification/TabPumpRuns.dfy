/** The pump of src/tabset.c while the loader runs: its end is the same, whatever the loader does. */
module TabPumpRuns {
  import opened Results
  import opened Counting
  import opened Sessions
  import opened TabMachine
  import opened TabCustody
  import opened TabOrder
  import opened TabRuns
  import opened TabPump

  predicate LoaderStep(e: Step) {
    e.Take? || e.CompleteStart? || e.Activate? || e.FinishLoad? || e.Reap? || e.NetworkFails? || e.Exit?
  }

  /** A step of the loader, or the next one of the pump; the pages of `unfit` cannot be resized. */
  predicate Allowed(s: State, e: Step, unfit: set<nat>) {
    LoaderStep(e) || e.RouteOne? || e.OpenInbox? ||
    (e.CommitOne? && s.desk.Committing? && s.desk.items != [] && e.resized == (s.desk.items[0] !in unfit))
  }

  /** The steps lead from s to a. */
  ghost predicate Pumping(s: State, steps: seq<Step>, unfit: set<nat>, a: State)
    decreases |steps|
  {
    if steps == [] then a == s
    else
      Wired(s) && Enabled(s, steps[0]) && Allowed(s, steps[0], unfit) &&
      Pumping(Next(s, steps[0]), steps[1..], unfit, a)
  }

  // ----- What is still to come -----

  predicate Busy(s: State) {
    Wired(s) && !s.desk.Idle?
  }

  lemma {:induction false} DeskKnown(s: State)
    requires Busy(s)
    ensures s.desk.window < |s.windows| && Tasks(s, s.desk.items)
  {
  }

  /** What the pump will bring to commit. */
  ghost function Coming(s: State): seq<nat>
    requires Busy(s)
  {
    DeskKnown(s);
    if s.desk.Routing? then s.windows[s.desk.window].inbox + OwnedPart(s, s.desk.window, s.desk.items) else s.desk.items
  }

  /** What the pump will release because no window has its tab. */
  ghost function Lost(s: State): seq<nat>
    requires Busy(s)
  {
    DeskKnown(s);
    if s.desk.Routing? then OwnedPart(s, |s.windows|, s.desk.items) else []
  }

  /** The windows once the inbox is taken. */
  ghost function Shelved(s: State): seq<Window>
    requires Busy(s)
  {
    DeskKnown(s);
    var w := s.desk.window;
    if s.desk.Routing? then Sorted(s, s.desk.items)[w := s.windows[w].(inbox := [])] else s.windows
  }

  /** a is how the pump that is at s ends, but for the loader's own lists. */
  ghost predicate Ends(s: State, unfit: set<nat>, a: State)
    requires Busy(s)
  {
    && a.windows == Shelved(s) && a.released == s.released + Lost(s) + Coming(s)
    && SettledSlots(s.slots, a.slots, s.tasks, Coming(s), unfit)
  }

  // ----- The loader's steps change nothing of it -----

  /** The loader leaves all tasks alone but those it has. */
  lemma {:induction false} LoaderTask(s: State, e: Step, t: nat)
    requires Wired(s) && Enabled(s, e) && LoaderStep(e) && t < |s.tasks|
    requires t !in Hand(s) && t !in s.active
    ensures t < |Next(s, e).tasks| && Next(s, e).tasks[t] == s.tasks[t] && Next(s, e).desk == s.desk
  {
    LoaderDesk(s, e);
    hide Wired, AddTab, Request, AskTraversal, CommitTask, RouteTask, Close, MovePageTo, RecordIn, Cancelled, Elements, Loads;
    if e.CompleteStart? {
      assert s.hand.value in Hand(s);
    }
  }

  lemma {:induction false} InboxCounted(windows: seq<Window>, w: nat, t: nat)
    requires w < |windows|
    ensures Times(windows[w].inbox, t) <= InboxTimes(windows, t)
    decreases |windows|
  {
    hide Times;
    if w < |windows| - 1 {
      InboxCounted(windows[..|windows| - 1], w, t);
    }
  }

  /** A task on the desk or in an inbox is not with the loader. */
  lemma {:induction false} Elsewhere(s: State, w: nat, t: nat)
    requires OncePerTask(s) && w < |s.windows| && (t in OnDesk(s) || t in s.windows[w].inbox)
    ensures t !in Hand(s) && t !in s.active
  {
    hide Times, InboxTimes;
    InboxCounted(s.windows, w, t);
    TimesIn(OnDesk(s), t);
    TimesIn(s.windows[w].inbox, t);
    TimesIn(Hand(s), t);
    TimesIn(s.active, t);
    assert Census(s, t) <= 1;
  }

  lemma {:induction false} SettledFrame(slots: map<nat, Slot>, slots': map<nat, Slot>, a: seq<Task>, b: seq<Task>,
                                        items: seq<nat>, unfit: set<nat>)
    requires SettledSlots(slots, slots', b, items, unfit) && |a| == |b|
    requires forall t :: t in items && t < |a| ==> a[t] == b[t]
    ensures SettledSlots(slots, slots', a, items, unfit)
  {
    hide CommittedHistory, Sound;
  }

  lemma {:induction false} SortedFrame(s: State, s': State, items: seq<nat>)
    requires Tasks(s, items) && SameTabs(s.tasks, s'.tasks) && s'.windows == s.windows
    ensures Tasks(s', items) && Sorted(s', items) == Sorted(s, items)
    ensures forall v: nat :: OwnedPart(s', v, items) == OwnedPart(s, v, items)
  {
    forall v: nat ensures OwnedPart(s', v, items) == OwnedPart(s, v, items) {
      OwnedFrame(s, s', v, items);
    }
    hide OwnedPart;
  }

  lemma {:induction false} LoaderTabs(s: State, e: Step)
    requires Wired(s) && Enabled(s, e) && LoaderStep(e)
    ensures var s' := Next(s, e);
      && s'.windows == s.windows && s'.slots == s.slots && s'.released == s.released && s'.desk == s.desk
      && SameTabs(s.tasks, s'.tasks)
  {
    QuietLoader(s, e);
    LoaderDesk(s, e);
    hide Wired, Next, Enabled, SameSlots, SameOrders;
  }

  lemma {:induction false} LoaderDesk(s: State, e: Step)
    requires Wired(s) && Enabled(s, e) && LoaderStep(e)
    ensures Next(s, e).desk == s.desk
  {
    hide Wired, AddTab, Request, AskTraversal, CommitTask, RouteTask, Close, MovePageTo, RecordIn, Cancelled, Finished,
      Elements, Loads;
  }

  lemma {:induction false} ComingFrame(s: State, s': State)
    requires Busy(s) && Busy(s') && s'.windows == s.windows && s'.desk == s.desk && SameTabs(s.tasks, s'.tasks)
    ensures Coming(s') == Coming(s) && Lost(s') == Lost(s) && Shelved(s') == Shelved(s)
  {
    DeskKnown(s);
    SortedFrame(s, s', s.desk.items);
    hide Wired, OwnedPart, Sorted, SameTabs, Tasks;
  }

  lemma {:induction false} ComingWhere(s: State, t: nat)
    requires Busy(s) && t in Coming(s)
    ensures s.desk.window < |s.windows| && (t in OnDesk(s) || t in s.windows[s.desk.window].inbox)
  {
    DeskKnown(s);
    if s.desk.Routing? {
      OwnedHas(s, s.desk.window, s.desk.items, t);
    }
    hide Wired, OwnedPart, Owner;
  }

  lemma {:induction false} LoaderEnds(s: State, e: Step, unfit: set<nat>, a: State)
    requires Busy(s) && OncePerTask(s) && Enabled(s, e) && LoaderStep(e)
    requires Busy(Next(s, e)) && Ends(Next(s, e), unfit, a)
    ensures Ends(s, unfit, a)
  {
    LoaderTabs(s, e);
    var s' := Next(s, e);
    ComingFrame(s, s');
    hide Coming, Lost, Shelved, OncePerTask, SettledSlots, Hand;
    forall t | t in Coming(s) && t < |s.tasks|
      ensures s.tasks[t] == s'.tasks[t]
    {
      ComingWhere(s, t);
      Elsewhere(s, s.desk.window, t);
      LoaderTask(s, e, t);
    }
    hide Next, Enabled, Wired;
    SettledFrame(s.slots, a.slots, s.tasks, s'.tasks, Coming(s), unfit);
  }

  // ----- The pump's own steps -----

  lemma {:induction false} RoutingParts(s: State)
    requires Busy(s) && s.desk.Routing?
    ensures s.desk.window < |s.windows| && Tasks(s, s.desk.items)
    ensures Coming(s) == Sorted(s, s.desk.items)[s.desk.window].inbox
    ensures Lost(s) == OwnedPart(s, |s.windows|, s.desk.items)
    ensures Shelved(s) ==
      Sorted(s, s.desk.items)[s.desk.window := s.windows[s.desk.window].(inbox := [])]
  {
    DeskKnown(s);
    hide OwnedPart, Wired;
  }

  lemma {:induction false} RouteEnds(s: State, unfit: set<nat>, a: State)
    requires Busy(s) && Enabled(s, RouteOne) && Busy(Next(s, RouteOne)) && Ends(Next(s, RouteOne), unfit, a)
    ensures Ends(s, unfit, a)
  {
    hide Next, Wired, Owner, SettledSlots, Coming, Lost, Shelved, Sorted, OwnedPart, Tasks;
    RouteShape(s);
    var s', items, w := Next(s, RouteOne), s.desk.items, s.desk.window;
    RoutingParts(s);
    RoutingParts(s');
    RoutedStep(s, s', items);
    assert s'.windows[w].(inbox := []) == s.windows[w].(inbox := []);
    hide *;
  }

  lemma {:induction false} InboxEnds(s: State, unfit: set<nat>, a: State)
    requires Busy(s) && Enabled(s, OpenInbox) && Busy(Next(s, OpenInbox)) && Ends(Next(s, OpenInbox), unfit, a)
    ensures Ends(s, unfit, a)
  {
    DeskKnown(s);
    InboxIs(s);
    SortedNone(s);
    var s', w := Next(s, OpenInbox), s.desk.window;
    assert s'.desk == Committing(w, s.windows[w].inbox) && s.desk.items == [];
    hide Next, Enabled, Wired, SettledSlots, Sorted;
    assert s.windows[w].inbox + [] == s.windows[w].inbox;
    assert s.released + [] == s.released;
  }

  lemma {:induction false} CommitEnds(s: State, resized: bool, unfit: set<nat>, a: State)
    requires Good(s) && s.desk.Committing? && s.desk.items != [] && resized == (s.desk.items[0] !in unfit)
    requires Enabled(s, CommitOne(resized)) && Busy(Next(s, CommitOne(resized)))
    requires Ends(Next(s, CommitOne(resized)), unfit, a)
    ensures Busy(s) && Ends(s, unfit, a)
  {
    CommitDeskNext(s, resized);
    CommitOneSettles(s, resized, unfit);
    var s', items := Next(s, CommitOne(resized)), s.desk.items;
    hide Ordered, Windowed, Phases, Wired, Next, Enabled, SettledSlots;
    SettledMore(s.slots, s'.slots, a.slots, s.tasks, items, unfit);
    FrontBack(s.released, items);
    assert s.released + [] == s.released && s'.released + [] == s'.released;
  }

  lemma {:induction false} RouteComing(s: State)
    requires Busy(s) && Enabled(s, RouteOne) && Busy(Next(s, RouteOne))
    ensures var s' := Next(s, RouteOne);
      Coming(s') == Coming(s) && s'.slots == s.slots && s'.tasks == s.tasks && s'.commits == s.commits
  {
    hide Next, Wired, Owner, Coming, Sorted, OwnedPart, Tasks;
    RouteShape(s);
    RoutingParts(s);
    RoutingParts(Next(s, RouteOne));
    RoutedStep(s, Next(s, RouteOne), s.desk.items);
  }

  lemma {:induction false} InboxComing(s: State)
    requires Busy(s) && Enabled(s, OpenInbox) && Busy(Next(s, OpenInbox))
    ensures var s' := Next(s, OpenInbox);
      Coming(s') == Coming(s) && s'.slots == s.slots && s'.tasks == s.tasks && s'.commits == s.commits
  {
    InboxIs(s);
    var s', w := Next(s, OpenInbox), s.desk.window;
    assert s'.desk == Committing(w, s.windows[w].inbox) && s'.commits == s.commits;
    hide Next, Enabled, Wired;
    assert s.windows[w].inbox + [] == s.windows[w].inbox;
  }

  /** The pump ends as its state foretells, and the loader's steps do not change what it foretells. */
  lemma {:induction false} PumpingEnds(s: State, steps: seq<Step>, unfit: set<nat>, a: State)
    requires Good(s) && OncePerTask(s) && Busy(s) && Pumping(s, steps, unfit, a)
    requires a.desk.Committing? && a.desk.items == []
    ensures Ends(s, unfit, a) && Good(a) && OncePerTask(a)
    decreases |steps|
  {
    if steps == [] {
      AllSound(s);
      SettledNone(s.slots, s.tasks, unfit);
      hide Good, OncePerTask, SettledSlots;
      assert s.released + [] + [] == s.released;
    } else {
      var e, s' := steps[0], Next(s, steps[0]);
      hide Ends, OncePerTask;
      OnceReleased(s);
      StepKeeps(s, e);
      OnceKept(s, e);
      StillBusy(s, e, unfit);
      hide Ordered, Windowed, Phases, Wired, Enabled, Next;
      PumpingEnds(s', steps[1..], unfit, a);
      if LoaderStep(e) {
        LoaderEnds(s, e, unfit, a);
      } else if e.RouteOne? {
        RouteEnds(s, unfit, a);
      } else if e.OpenInbox? {
        InboxEnds(s, unfit, a);
      } else {
        CommitEnds(s, e.resized, unfit, a);
      }
    }
  }

  lemma {:induction false} StillBusy(s: State, e: Step, unfit: set<nat>)
    requires Wired(s) && Enabled(s, e) && Allowed(s, e, unfit) && !s.desk.Idle?
    ensures !Next(s, e).desk.Idle?
  {
    hide Wired, RouteTask, CommitTask, AddTab, Request, AskTraversal, Close;
    if LoaderStep(e) {
      LoaderDesk(s, e);
    }
  }

  lemma {:induction false} BegunEnds(s: State, w: nat, steps: seq<Step>, unfit: set<nat>, a: State)
    requires Good(s) && OncePerTask(s) && Enabled(s, BeginPump(w))
    requires Pumping(Next(s, BeginPump(w)), steps, unfit, a) && a.desk.Committing? && a.desk.items == []
    ensures w < |s.windows| && Tasks(s, s.completed) && Good(a)
    ensures a.windows == Sorted(s, s.completed)[w := s.windows[w].(inbox := [])]
    ensures a.released == s.released + OwnedPart(s, |s.windows|, s.completed) + Arrived(s, w)
    ensures SettledSlots(s.slots, a.slots, s.tasks, Arrived(s, w), unfit)
  {
    BeginGood(s, w);
    OnceKept(s, BeginPump(w));
    var begun := Next(s, BeginPump(w));
    hide Next, Enabled, OncePerTask, Ordered, Windowed, Phases, Pumping, SettledSlots;
    assert Busy(begun);
    PumpingEnds(begun, steps, unfit, a);
    BegunSame(s, begun, w);
    hide Coming, Lost, Shelved;
    RoutingParts(begun);
    hide Wired, OwnedPart;
  }

  /** However the loader's steps fall between those of a pump of w, the pump leaves windows, released
      tasks and slots as it does alone: every completion published before it began is with its window
      or released, and every tab it had arrived for is settled. */
  lemma {:induction false} PumpSettlesAnyway(before: seq<Step>, w: nat, steps: seq<Step>, unfit: set<nat>, a: State)
    requires Reached(before).Some?
    requires var s := Reached(before).value; Wired(s) && Enabled(s, BeginPump(w))
    requires Pumping(Next(Reached(before).value, BeginPump(w)), steps, unfit, a)
    requires a.desk.Committing? && a.desk.items == []
    ensures var s := Reached(before).value;
      && w < |s.windows| && Tasks(s, s.completed)
      && Wired(a) && Enabled(a, EndPump)
      && var r := Next(a, EndPump);
         && r.desk.Idle? && r.windows == Sorted(s, s.completed)[w := s.windows[w].(inbox := [])]
         && r.released == s.released + OwnedPart(s, |s.windows|, s.completed) + Arrived(s, w)
         && SettledSlots(s.slots, r.slots, s.tasks, Arrived(s, w), unfit)
  {
    var s := Reached(before).value;
    hide Reached, Next, Enabled, OncePerTask, Ordered, Windowed, Phases, Pumping, SettledSlots, Sorted, OwnedPart;
    AlwaysGood(before);
    BegunEnds(s, w, steps, unfit, a);
    EndGood(a);
  }

  /** So whatever the loader does meanwhile, no tab of the window still waits for a load that had
      completed before the pump began. */
  lemma {:induction false} NobodyLeftWaitingAnyway(before: seq<Step>, w: nat, steps: seq<Step>, unfit: set<nat>, a: State,
                                                   id: nat)
    requires Reached(before).Some?
    requires var s := Reached(before).value; Wired(s) && Enabled(s, BeginPump(w))
    requires Pumping(Next(Reached(before).value, BeginPump(w)), steps, unfit, a)
    requires a.desk.Committing? && a.desk.items == []
    requires var s := Reached(before).value;
      && w < |s.windows| && id in s.windows[w].order && id in s.slots && s.slots[id].pending.Some?
      && (s.slots[id].pending.value in s.completed || s.slots[id].pending.value in s.windows[w].inbox)
    ensures Wired(a) && Enabled(a, EndPump)
    ensures id in Next(a, EndPump).slots && Next(a, EndPump).slots[id].pending == None
  {
    var s := Reached(before).value;
    var t := s.slots[id].pending.value;
    hide Reached, Next, Enabled, OncePerTask, Ordered, Phases, Pumping, SettledSlots, Sorted, OwnedPart, Owner;
    AlwaysGood(before);
    PumpSettlesAnyway(before, w, steps, unfit, a);
    PendingTask(s, id);
    OnlyOwner(s, t, w, id);
    OwnedHas(s, w, s.completed, t);
    hide Wired;
    SettledPending(s.slots, Next(a, EndPump).slots, s.tasks, Arrived(s, w), unfit, id);
  }
}
