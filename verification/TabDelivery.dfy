/** From the end of a load to the session: its page survives publication and is shown. */
module TabDelivery {
  import opened Results
  import opened Counting
  import opened Sessions
  import opened UrlParse
  import opened TabMachine
  import opened TabCustody
  import opened TabOrder
  import opened TabRuns
  import opened TabHistory
  import opened TabPump
  import opened TabPumpRuns

  // ----- What a task keeps -----

  /** A load the loader has not started, or has in its hand, has not ended. */
  ghost predicate Pristine(s: State) {
    && (forall k :: 0 <= k < |s.queue| ==> s.queue[k] < |s.tasks| && !s.tasks[s.queue[k]].completed)
    && (s.hand.Some? ==> s.hand.value < |s.tasks| && !s.tasks[s.hand.value].completed)
  }

  /** What was asked stays what was asked, and a page stays the page. */
  predicate Keeps(a: Task, b: Task) {
    && b.tab == a.tab && b.generation == a.generation && b.url == a.url && b.kind == a.kind
    && (a.completed ==> b.completed && b.page == a.page)
  }

  predicate AllKeep(a: seq<Task>, b: seq<Task>) {
    |a| <= |b| && forall t :: 0 <= t < |a| ==> Keeps(a[t], b[t])
  }

  lemma {:induction false} CancelKeeps(tasks: seq<Task>, ids: set<nat>)
    ensures AllKeep(tasks, Cancelled(tasks, ids))
    ensures forall t :: 0 <= t < |tasks| ==> Cancelled(tasks, ids)[t].completed == tasks[t].completed
  {
  }

  lemma {:induction false} FinishKeeps(tasks: seq<Task>, t: nat, page: Option<string>)
    requires t < |tasks| && (tasks[t].completed ==> page == tasks[t].page)
    ensures AllKeep(tasks, Finished(tasks, t, page))
    ensures Finished(tasks, t, page)[t].completed && Finished(tasks, t, page)[t].page == page
  {
  }

  lemma {:induction false} AddedKeeps(s: State, s': State, superseded: set<nat>, task: Task)
    requires Pristine(s) && s'.tasks == Cancelled(s.tasks, superseded) + [task] && !task.completed
    requires s'.queue == s.queue + [|s.tasks|] && s'.hand == s.hand
    ensures AllKeep(s.tasks, s'.tasks) && Pristine(s')
  {
    CancelKeeps(s.tasks, superseded);
    var cancelled := Cancelled(s.tasks, superseded);
    hide Cancelled;
    assert forall t :: 0 <= t < |s.tasks| ==> s'.tasks[t] == cancelled[t];
    hide Keeps;
  }

  lemma {:induction false} NothingCancelled(tasks: seq<Task>)
    ensures Cancelled(tasks, {}) == tasks
  {
  }

  lemma {:induction false} SameKeep(tasks: seq<Task>)
    ensures AllKeep(tasks, tasks)
  {
  }

  lemma {:induction false} RequestTasks(s: State, id: nat, url: string, kind: LoadKind)
    requires Pristine(s) && id in s.slots
    ensures AllKeep(s.tasks, Request(s, id, url, kind).tasks) && Pristine(Request(s, id, url, kind))
  {
    SameKeep(s.tasks);
    hide Pristine, AllKeep, Cancelled;
    var slot, s' := s.slots[id], Request(s, id, url, kind);
    if slot.generation != UINT64_MAX {
      AddedKeeps(s, s', if slot.pending.Some? then {slot.pending.value} else {},
                 Fresh(id, slot.generation + 1, url, kind));
    }
  }

  lemma {:induction false} AddTabTasks(s: State, w: nat, url: string)
    requires Pristine(s) && w < |s.windows|
    ensures AllKeep(s.tasks, AddTab(s, w, url).tasks) && Pristine(AddTab(s, w, url))
  {
    SameKeep(s.tasks);
    NothingCancelled(s.tasks);
    hide Pristine, AllKeep, Cancelled;
    var s' := AddTab(s, w, url);
    if s' != s {
      AddedKeeps(s, s', {}, Fresh(s.nextTab, 1, url, Navigation));
    }
  }

  lemma {:induction false} TraverseTasks(s: State, id: nat, move: Move)
    requires Pristine(s) && id in s.slots && PendingKnown(s, id)
    ensures AllKeep(s.tasks, AskTraversal(s, id, move).tasks) && Pristine(AskTraversal(s, id, move))
  {
    SameKeep(s.tasks);
    hide Pristine, AllKeep, Request, VirtualHistory;
    var slot := s.slots[id];
    var target := MoveTarget(VirtualHistory(slot.session, PendingKind(s, slot)), move);
    if target.Some? && 0 <= target.value < |slot.session.urls| {
      RequestTasks(s, id, slot.session.urls[target.value], Traversal(target.value));
    }
  }

  /** The steps that publish or finish a load. */
  predicate Finishes(e: Step) {
    e.CompleteStart? || e.FinishLoad? || e.Reap?
  }

  function Touched(s: State, e: Step): nat
    requires Wired(s) && Enabled(s, e) && Finishes(e)
  {
    if e.CompleteStart? then s.hand.value else s.active[e.index]
  }

  lemma {:induction false} FinishTasks(s: State, e: Step)
    requires Wired(s) && Enabled(s, e) && Pristine(s) && Finishes(e)
    ensures AllKeep(s.tasks, Next(s, e).tasks) && |Next(s, e).tasks| == |s.tasks|
    ensures forall t :: 0 <= t < |s.tasks| && t != Touched(s, e) ==> Next(s, e).tasks[t] == s.tasks[t]
    ensures Next(s, e).queue == s.queue && Next(s, e).hand == if e.CompleteStart? then None else s.hand
    ensures if e.CompleteStart? then Touched(s, e) in Hand(s) else Touched(s, e) in s.active
  {
    var t := Touched(s, e);
    var page := if !e.Reap? then e.page else if s.tasks[t].completed then s.tasks[t].page else None;
    assert t < |s.tasks|;
    assert if e.CompleteStart? then t in Hand(s) else t in s.active;
    hide Wired, AddTab, Request, AskTraversal, CommitTask, RouteTask, Close, Loads, Keeps, AllKeep;
    FinishKeeps(s.tasks, t, page);
  }

  lemma {:induction false} WithLoader(s: State, t: nat)
    requires OncePerTask(s)
    ensures t in s.queue ==> t !in Hand(s) && t !in s.active
    ensures t in Hand(s) ==> t !in s.active
  {
    hide Times, InboxTimes;
    TimesIn(s.queue, t);
    TimesIn(Hand(s), t);
    TimesIn(s.active, t);
    assert Census(s, t) <= 1;
  }

  lemma {:induction false} FinishPristine(s: State, e: Step)
    requires Wired(s) && Enabled(s, e) && Pristine(s) && OncePerTask(s) && Finishes(e)
    ensures Pristine(Next(s, e))
  {
    FinishTasks(s, e);
    var t := Touched(s, e);
    WithLoader(s, t);
    hide Next, Enabled, Wired, OncePerTask, Touched, AllKeep;
    if s.hand.Some? {
      assert s.hand.value in Hand(s);
    }
  }

  /** The steps that leave all tasks alone but may take one from the queue. */
  lemma {:induction false} OtherPristine(s: State, e: Step)
    requires Wired(s) && Enabled(s, e) && Pristine(s)
    requires !e.NewTab? && !e.Navigate? && !e.Traverse? && !e.CloseWindow? && !e.Stop? && !Finishes(e)
    ensures Next(s, e).tasks == s.tasks && Pristine(Next(s, e))
  {
    hide Next, Enabled, Wired;
    TasksSame(s, e);
    PlacesShrink(s, e);
    Shrunk(s, Next(s, e));
  }

  lemma {:induction false} Shrunk(s: State, s': State)
    requires Pristine(s) && s'.tasks == s.tasks
    requires s'.queue == s.queue || s'.queue == [] || (s.queue != [] && s'.queue == s.queue[1..])
    requires s'.hand == s.hand || s'.hand == None || (s.queue != [] && s'.hand == Some(s.queue[0]))
    ensures Pristine(s')
  {
  }

  lemma {:induction false} PlacesShrink(s: State, e: Step)
    requires Wired(s) && Enabled(s, e)
    requires !e.NewTab? && !e.Navigate? && !e.Traverse? && !e.CloseWindow? && !e.Stop? && !Finishes(e)
    ensures var s' := Next(s, e);
      && (s'.queue == s.queue || s'.queue == [] || (s.queue != [] && s'.queue == s.queue[1..]))
      && (s'.hand == s.hand || s'.hand == None || (s.queue != [] && s'.hand == Some(s.queue[0])))
  {
    if e.CommitOne? {
      CommitPlaces(s, e.resized);
      hide Next, Enabled, Wired;
    } else {
      hide Wired, AddTab, Request, AskTraversal, CommitTask, Close, Publish, MovePageTo, RecordIn, Finished, Cancelled,
        Elements, Loads;
      if e.RouteOne? {
        RouteShape(s);
      }
      hide RouteTask;
    }
  }

  /** Every step keeps what was asked for, and every page a load has ended with. */
  lemma {:induction false} StepTasks(s: State, e: Step)
    requires Wired(s) && Enabled(s, e) && Pristine(s) && OncePerTask(s)
    ensures AllKeep(s.tasks, Next(s, e).tasks) && Pristine(Next(s, e))
  {
    hide Pristine, OncePerTask, AllKeep, PlacesIn;
    if e.NewTab? {
      AddTabTasks(s, e.window, e.url);
    } else if e.Navigate? {
      SelectedWired(s, e.window);
      RequestTasks(s, Selected(s, e.window).value, e.url, Navigation);
    } else if e.Traverse? {
      TraverseTasks(s, Selected(s, e.window).value, e.move);
    } else if e.CloseWindow? || e.Stop? {
      CancelStep(s, e);
    } else if Finishes(e) {
      FinishTasks(s, e);
      FinishPristine(s, e);
    } else {
      OtherPristine(s, e);
      SameKeep(s.tasks);
    }
  }

  lemma {:induction false} CancelStep(s: State, e: Step)
    requires Wired(s) && Enabled(s, e) && Pristine(s) && (e.CloseWindow? || e.Stop?)
    ensures AllKeep(s.tasks, Next(s, e).tasks) && Pristine(Next(s, e))
  {
    hide Wired, Cancelled, PendingOf, Elements, Unregistered, Keeps;
    if e.CloseWindow? {
      CancelKeeps(s.tasks, PendingOf(s.slots, s.windows[e.window].order));
    } else {
      CancelKeeps(s.tasks, Elements(s.queue));
    }
  }

  // ----- Over runs -----

  lemma {:induction false} AlwaysPristine(steps: seq<Step>)
    requires Reached(steps).Some?
    ensures Pristine(Reached(steps).value)
    decreases |steps|
  {
    hide Pristine, Wired, Enabled, Next, Good, OncePerTask;
    if steps == [] {
      StartPristine();
    } else {
      AlwaysPristine(steps[..|steps| - 1]);
      AlwaysGood(steps[..|steps| - 1]);
      StepTasks(Reached(steps[..|steps| - 1]).value, steps[|steps| - 1]);
    }
  }

  lemma {:induction false} StartPristine()
    ensures Pristine(INITIAL)
  {
  }

  lemma {:induction false} KeepsMore(a: seq<Task>, b: seq<Task>, c: seq<Task>)
    requires AllKeep(a, b) && AllKeep(b, c)
    ensures AllKeep(a, c)
  {
  }

  lemma {:induction false} ReachedBefore(steps: seq<Step>, n: nat)
    requires Reached(steps).Some? && n <= |steps|
    ensures Reached(steps[..n]).Some?
    decreases |steps|
  {
    if n < |steps| {
      ReachedBefore(steps[..|steps| - 1], n);
      assert steps[..|steps| - 1][..n] == steps[..n];
    } else {
      assert steps[..n] == steps;
    }
  }

  /** Whatever the threads do, a load keeps its tab, its URL and its kind, and from its end on, through
      the active list, publication, routing and the inbox, the page it ended with. */
  lemma {:induction false} PageStays(steps: seq<Step>, n: nat)
    requires Reached(steps).Some? && n <= |steps|
    ensures Reached(steps[..n]).Some? && AllKeep(Reached(steps[..n]).value.tasks, Reached(steps).value.tasks)
    decreases |steps|
  {
    hide AllKeep, Pristine, Wired, Enabled, Next, Good, OncePerTask;
    ReachedBefore(steps, n);
    if n == |steps| {
      assert steps[..n] == steps;
      SameKeep(Reached(steps).value.tasks);
    } else {
      var front := steps[..|steps| - 1];
      ReachedBefore(steps, |front|);
      PageStays(front, n);
      assert front[..n] == steps[..n];
      AlwaysPristine(front);
      AlwaysGood(front);
      StepTasks(Reached(front).value, steps[|front|]);
      KeepsMore(Reached(steps[..n]).value.tasks, Reached(front).value.tasks, Reached(steps).value.tasks);
    }
  }

  /** A load whose end is this step, and the page it ends with. */
  ghost predicate EndsWith(s: State, e: Step, t: nat, page: Option<string>) {
    || (e.CompleteStart? && s.hand == Some(t) && page == e.page)
    || (e.FinishLoad? && e.index < |s.active| && s.active[e.index] == t && page == e.page)
  }

  /** In particular the page the network delivered, or the loader made at once. */
  lemma {:induction false} EndedPageStays(steps: seq<Step>, n: nat, t: nat, page: Option<string>)
    requires Reached(steps).Some? && n < |steps|
    requires Reached(steps[..n]).Some? && EndsWith(Reached(steps[..n]).value, steps[n], t, page)
    ensures t < |Reached(steps).value.tasks| && Reached(steps).value.tasks[t].page == page
  {
    ReachedBefore(steps, n + 1);
    assert steps[..n + 1][..n] == steps[..n];
    EndHere(Reached(steps[..n]).value, steps[n], t, page);
    PageStays(steps, n + 1);
    hide Reached;
  }

  lemma {:induction false} EndHere(s: State, e: Step, t: nat, page: Option<string>)
    requires Wired(s) && Enabled(s, e) && EndsWith(s, e, t, page)
    ensures t < |Next(s, e).tasks| && Next(s, e).tasks[t].completed && Next(s, e).tasks[t].page == page
  {
    hide TabsIn;
  }

  // ----- Into the session -----

  /** A tab whose pending load has its page, which its session accepts, among those the pump brings. */
  ghost predicate Awaits(s: State, id: nat, t: nat, unfit: set<nat>)
    requires Busy(s)
  {
    && id in s.slots && s.slots[id].pending == Some(t) && t < |s.tasks| && t in Coming(s) && t !in unfit
    && s.tasks[t].page.Some? && Accepts(s.slots[id].session, s.tasks[t].page.value, s.tasks[t].kind)
  }

  lemma {:induction false} CommitLogs(s: State, resized: bool, id: nat, t: nat)
    requires Good(s) && s.desk.Committing? && s.desk.items != [] && s.desk.items[0] == t && resized
    requires id in s.slots && s.slots[id].pending == Some(t) && t < |s.tasks|
    requires s.tasks[t].page.Some? && Accepts(s.slots[id].session, s.tasks[t].page.value, s.tasks[t].kind)
    requires Enabled(s, CommitOne(resized))
    ensures (id, s.slots[id].generation) in Next(s, CommitOne(resized)).commits
  {
    CommitDesk(s);
    CurrentExactly(s, s.desk.window, t);
    OnlyItsTab(s, t);
    assert Current(s, s.desk.window, t) && s.tasks[t].generation == s.slots[id].generation;
    hide Good, Wired, CommittedHistory, Accepts, Current;
  }

  lemma {:induction false} CommitsStay(s: State, e: Step, x: (nat, nat))
    requires Wired(s) && Enabled(s, e) && x in s.commits
    requires LoaderStep(e) || e.RouteOne? || e.OpenInbox? || e.CommitOne?
    ensures x in Next(s, e).commits
  {
    if LoaderStep(e) {
      QuietLoader(s, e);
      hide Wired, Next, Enabled, SameLoads, SameSlots, SameOrders;
    } else if e.RouteOne? {
      RouteShape(s);
      hide Wired, Next, Enabled;
    } else if e.CommitOne? {
      hide Wired, CommittedHistory, Accepts, Current;
    } else {
      hide Wired;
    }
  }

  lemma {:induction false} PumpingLog(s: State, steps: seq<Step>, unfit: set<nat>, a: State, x: (nat, nat))
    requires Pumping(s, steps, unfit, a) && x in s.commits
    ensures x in a.commits
    decreases |steps|
  {
    if steps != [] {
      hide Next, Enabled, Wired;
      CommitsStay(s, steps[0], x);
      PumpingLog(Next(s, steps[0]), steps[1..], unfit, a, x);
    }
  }

  lemma {:induction false} LoaderAwaits(s: State, e: Step, id: nat, t: nat, unfit: set<nat>)
    requires Busy(s) && OncePerTask(s) && Enabled(s, e) && LoaderStep(e) && Busy(Next(s, e)) && Awaits(s, id, t, unfit)
    ensures Awaits(Next(s, e), id, t, unfit) && Next(s, e).slots == s.slots
  {
    hide Coming, Accepts, OncePerTask;
    LoaderTabs(s, e);
    ComingFrame(s, Next(s, e));
    ComingWhere(s, t);
    Elsewhere(s, s.desk.window, t);
    LoaderTask(s, e, t);
    hide Wired, Next, Enabled;
  }

  /** Another tab's completion, or a stale one, leaves the slot alone. */
  lemma {:induction false} OtherCommit(s: State, resized: bool, id: nat, t: nat, unfit: set<nat>)
    requires Good(s) && Busy(s) && s.desk.Committing? && s.desk.items != [] && s.desk.items[0] != t
    requires resized == (s.desk.items[0] !in unfit) && Enabled(s, CommitOne(resized))
    requires Busy(Next(s, CommitOne(resized))) && Awaits(s, id, t, unfit)
    ensures Awaits(Next(s, CommitOne(resized)), id, t, unfit) && Next(s, CommitOne(resized)).slots[id] == s.slots[id]
  {
    CommitDeskNext(s, resized);
    CommitOneSettles(s, resized, unfit);
    hide Good, Wired, Next, Enabled, Accepts, Sound, CommittedHistory;
  }

  /** Whatever the loader does meanwhile, the pump logs the commit. */
  lemma {:induction false} PumpingCommits(s: State, steps: seq<Step>, unfit: set<nat>, a: State, id: nat, t: nat)
    requires Good(s) && OncePerTask(s) && Busy(s) && Pumping(s, steps, unfit, a)
    requires a.desk.Committing? && a.desk.items == [] && Awaits(s, id, t, unfit)
    ensures (id, s.slots[id].generation) in a.commits
    decreases |steps|
  {
    if steps == [] {
      assert false;
    } else {
      var e, s' := steps[0], Next(s, steps[0]);
      hide OncePerTask, Accepts, Coming;
      OnceReleased(s);
      StepKeeps(s, e);
      OnceKept(s, e);
      StillBusy(s, e, unfit);
      hide Ordered, Windowed, Phases, Wired, Next;
      if LoaderStep(e) {
        LoaderAwaits(s, e, id, t, unfit);
      } else if e.RouteOne? {
        RouteComing(s);
      } else if e.OpenInbox? {
        InboxComing(s);
      } else if s.desk.items[0] == t {
        CommitLogs(s, e.resized, id, t);
        PumpingLog(s', steps[1..], unfit, a, (id, s.slots[id].generation));
        return;
      } else {
        OtherCommit(s, e.resized, id, t, unfit);
      }
      hide Enabled;
      PumpingCommits(s', steps[1..], unfit, a, id, t);
    }
  }

  /** The session when the page p of a load has taken its place. */
  predicate Shows(before: History, after: History, p: string, kind: LoadKind) {
    && after.page == Some(p)
    && match kind
       case Navigation =>
         && after.urls == before.urls[..if before.urls == [] || before.index >= |before.urls| then 0 else before.index + 1] + [p]
         && after.index == |after.urls| - 1
       case Traversal(target) => after.urls == before.urls && after.index == target
  }

  lemma {:induction false} CommitShows(h: History, p: string, kind: LoadKind)
    requires Sound(h) && Accepts(h, p, kind)
    ensures Shows(h, CommittedHistory(h, p, kind), p, kind)
  {
  }

  lemma {:induction false} SlotShows(slots: map<nat, Slot>, slots': map<nat, Slot>, tasks: seq<Task>, items: seq<nat>,
                                     unfit: set<nat>, id: nat, t: nat)
    requires SettledSlots(slots, slots', tasks, items, unfit) && id in slots && slots[id].pending == Some(t)
    requires t in items && t < |tasks| && t !in unfit && tasks[t].page.Some?
    requires Accepts(slots[id].session, tasks[t].page.value, tasks[t].kind)
    ensures id in slots' && slots'[id].pending == None && slots'[id].generation == slots[id].generation
    ensures Shows(slots[id].session, slots'[id].session, tasks[t].page.value, tasks[t].kind)
  {
    CommitShows(slots[id].session, tasks[t].page.value, tasks[t].kind);
    hide CommittedHistory, Shows, Accepts, Sound;
  }

  /** The page of a tab's pending load that has been published is shown by the next pump of its window,
      whatever the loader does meanwhile, if it fits the viewport and, for a traversal, its entry: the
      session takes it in and the commit is logged. */
  lemma {:induction false} Delivered(before: seq<Step>, w: nat, steps: seq<Step>, unfit: set<nat>, a: State, id: nat,
                                     t: nat)
    requires Reached(before).Some?
    requires var s := Reached(before).value; Wired(s) && Enabled(s, BeginPump(w))
    requires Pumping(Next(Reached(before).value, BeginPump(w)), steps, unfit, a)
    requires a.desk.Committing? && a.desk.items == []
    requires var s := Reached(before).value;
      && w < |s.windows| && id in s.windows[w].order && id in s.slots && s.slots[id].pending == Some(t)
      && (t in s.completed || t in s.windows[w].inbox) && t < |s.tasks| && t !in unfit && s.tasks[t].page.Some?
      && (s.tasks[t].kind.Traversal? ==>
            Traversable(s.slots[id].session, s.tasks[t].page.value, s.tasks[t].kind.target))
    ensures Wired(a) && Enabled(a, EndPump)
    ensures var s, r := Reached(before).value, Next(a, EndPump);
      && id in r.slots && r.slots[id].pending == None && (id, s.slots[id].generation) in r.commits
      && Shows(s.slots[id].session, r.slots[id].session, s.tasks[t].page.value, s.tasks[t].kind)
  {
    var s := Reached(before).value;
    hide Reached, Next, Enabled, OncePerTask, Ordered, Phases, Pumping, SettledSlots, Sorted, OwnedPart, Owner, Shows;
    AlwaysGood(before);
    PumpSettlesAnyway(before, w, steps, unfit, a);
    BegunEnds(s, w, steps, unfit, a);
    PendingTask(s, id);
    OnlyOwner(s, t, w, id);
    OwnedHas(s, w, s.completed, t);
    hide Windowed;
    SlotShows(s.slots, Next(a, EndPump).slots, s.tasks, Arrived(s, w), unfit, id, t);
    PumpLogs(before, w, steps, unfit, a, id, t);
  }

  lemma {:induction false} PumpLogs(before: seq<Step>, w: nat, steps: seq<Step>, unfit: set<nat>, a: State, id: nat,
                                    t: nat)
    requires Reached(before).Some?
    requires var s := Reached(before).value; Wired(s) && Enabled(s, BeginPump(w)) && w < |s.windows|
    requires Pumping(Next(Reached(before).value, BeginPump(w)), steps, unfit, a)
    requires a.desk.Committing? && a.desk.items == [] && Good(a) && Enabled(a, EndPump)
    requires var s := Reached(before).value;
      && id in s.slots && s.slots[id].pending == Some(t) && t in Arrived(s, w) && t < |s.tasks| && t !in unfit
      && s.tasks[t].page.Some? && Accepts(s.slots[id].session, s.tasks[t].page.value, s.tasks[t].kind)
    ensures (id, Reached(before).value.slots[id].generation) in Next(a, EndPump).commits
  {
    hide Reached, Next, Enabled, OncePerTask, Ordered, Windowed, Phases, Pumping, Coming, Accepts, Arrived;
    var s := Reached(before).value;
    var begun := Next(s, BeginPump(w));
    AlwaysGood(before);
    BeginGood(s, w);
    OnceKept(s, BeginPump(w));
    BegunComing(s, w);
    EndGood(a);
    hide Wired;
    PumpingCommits(begun, steps, unfit, a, id, t);
  }

  lemma {:induction false} BegunComing(s: State, w: nat)
    requires Wired(s) && Enabled(s, BeginPump(w)) && w < |s.windows| && Busy(Next(s, BeginPump(w)))
    ensures Coming(Next(s, BeginPump(w))) == Arrived(s, w)
  {
    var begun := Next(s, BeginPump(w));
    assert begun == s.(desk := Routing(w, s.completed), completed := []);
    BegunSame(s, begun, w);
    hide Wired, Coming, OwnedPart, Sorted;
    RoutingParts(begun);
  }

  /** Asking for a page: a new load of that URL is what the tab waits for. */
  lemma {:induction false} AskedFor(s: State, w: nat, url: string)
    requires Wired(s) && Enabled(s, Navigate(w, url)) && Asks(s, w)
    ensures var s', id, t := Next(s, Navigate(w, url)), Selected(s, w).value, |s.tasks|;
      && |s'.tasks| == t + 1 && id in s'.slots && s'.slots[id].pending == Some(t) && t in s'.queue
      && s'.tasks[t].tab == id && s'.tasks[t].url == url && s'.tasks[t].kind == Navigation && !s'.tasks[t].cancelled
      && s'.slots[id].session == s.slots[id].session
  {
    hide Wired;
  }

  /** A new tab waits for the page it was opened with. */
  lemma {:induction false} OpenedFor(s: State, w: nat, url: string)
    requires Wired(s) && Enabled(s, NewTab(w, url))
    requires |s.windows[w].order| < 25 && s.nextTab != 0xFFFF_FFFF_FFFF_FFFF
    ensures var s', id, t := Next(s, NewTab(w, url)), s.nextTab, |s.tasks|;
      && |s'.tasks| == t + 1 && id in s'.slots && s'.slots[id].pending == Some(t) && t in s'.queue
      && s'.tasks[t].tab == id && s'.tasks[t].url == url && s'.tasks[t].kind == Navigation && !s'.tasks[t].cancelled
      && w < |s'.windows| && Selected(s', w) == Some(id) && s'.slots[id].session.urls == []
  {
    hide Wired;
  }

  lemma {:induction false} ReachedNext(steps: seq<Step>, n: nat)
    requires Reached(steps).Some? && n < |steps|
    ensures Reached(steps[..n]).Some? && Reached(steps[..n + 1]).Some?
    ensures var s := Reached(steps[..n]).value;
      Wired(s) && Enabled(s, steps[n]) && Reached(steps[..n + 1]).value == Next(s, steps[n])
  {
    ReachedBefore(steps, n);
    ReachedBefore(steps, n + 1);
    assert steps[..n + 1][..n] == steps[..n];
    hide Wired, Enabled, Next;
  }

  /** The load asked for keeps asking for that URL. */
  lemma {:induction false} AskedStays(steps: seq<Step>, asked: nat, w: nat, url: string)
    requires Reached(steps).Some? && asked < |steps| && steps[asked] == Navigate(w, url)
    requires Reached(steps[..asked]).Some? && Asks(Reached(steps[..asked]).value, w)
    ensures var t := |Reached(steps[..asked]).value.tasks|;
      && t < |Reached(steps).value.tasks|
      && Reached(steps).value.tasks[t].url == url && Reached(steps).value.tasks[t].kind == Navigation
  {
    ReachedNext(steps, asked);
    hide Reached, Next, Enabled, Wired;
    AskedFor(Reached(steps[..asked]).value, w, url);
    PageStays(steps, asked + 1);
  }

  /** The tab that asks has a generation left. */
  predicate Asks(s: State, w: nat) {
    && w < |s.windows| && Selected(s, w).Some? && Selected(s, w).value in s.slots
    && s.slots[Selected(s, w).value].generation < UINT64_MAX
  }

  /** So what the tab shows in the end is the page of the URL it was asked for. */
  lemma {:induction false} ShownAsAsked(steps: seq<Step>, asked: nat, ended: nat, w: nat, url: string, t: nat,
                                        page: string)
    requires Reached(steps).Some? && asked < ended < |steps| && steps[asked] == Navigate(w, url)
    requires Reached(steps[..asked]).Some? && Asks(Reached(steps[..asked]).value, w)
    requires t == |Reached(steps[..asked]).value.tasks|
    requires Reached(steps[..ended]).Some? && EndsWith(Reached(steps[..ended]).value, steps[ended], t, Some(page))
    ensures t < |Reached(steps).value.tasks|
    ensures var task := Reached(steps).value.tasks[t];
      task.url == url && task.kind == Navigation && task.page == Some(page) && page == Canonical(url)
  {
    ReachedNext(steps, ended);
    hide Reached, Canonical, Wired, Enabled, EndsWith;
    EndedLoads(Reached(steps[..ended]).value, steps[ended], t, page);
    AskedStays(steps, asked, w, url);
    EndedPageStays(steps, ended, t, Some(page));
    assert steps[..ended][..asked] == steps[..asked];
    AskedStays(steps[..ended], asked, w, url);
  }

  lemma {:induction false} EndedLoads(s: State, e: Step, t: nat, page: string)
    requires Wired(s) && Enabled(s, e) && EndsWith(s, e, t, Some(page))
    ensures t < |s.tasks| && page == Canonical(s.tasks[t].url)
  {
    hide TabsIn, Canonical;
  }
}
