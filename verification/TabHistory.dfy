/** The virtual history predicts what a commit does.

    While a load is pending, the tab shows the history as it will be after the commit. That it comes
    out this way depends on two things a run must take care of: URLs that print stably, so that a page
    is known again at its entry, and fragments that spare the target of a pending traversal.
    FragmentExactly says which fragments do; TabRefusal.dfy is a run with one that does not.
*/
module TabHistory {
  import opened Results
  import opened Sessions
  import opened UrlParse
  import opened UrlFixpoint
  import opened TabMachine
  import opened TabOrder
  import opened TabRuns

  predicate Printed(url: string) {
    Canonical(url) == url
  }

  ghost predicate PagesMatch(s: State) {
    forall t :: 0 <= t < |s.tasks| ==> Loads(s.tasks[t], s.tasks[t].page)
  }

  /** The entries of a session are printed URLs. */
  ghost predicate Clean(h: History) {
    && (h.page.Some? ==> Printed(h.page.value))
    && forall k :: 0 <= k < |h.urls| ==> Printed(h.urls[k])
  }

  /** A load that will be accepted when it comes to commit. */
  ghost predicate Welcome(h: History, url: string, kind: LoadKind) {
    match kind
    case Navigation => Printed(Canonical(url))
    case Traversal(target) => target < |h.urls| && url == h.urls[target]
  }

  ghost predicate SteadySlot(slot: Slot, tasks: seq<Task>) {
    && Clean(slot.session)
    && (slot.pending.Some? ==> slot.pending.value < |tasks|)
    && (slot.pending.Some? ==> Welcome(slot.session, tasks[slot.pending.value].url, tasks[slot.pending.value].kind))
  }

  ghost predicate Steady(s: State) {
    PagesMatch(s) && forall id :: id in s.slots ==> SteadySlot(s.slots[id], s.tasks)
  }

  /** A fragment that leaves the target of a pending traversal where it is. */
  predicate SparesTarget(h: History, url: string, kind: LoadKind) {
    match kind
    case Navigation => true
    case Traversal(target) =>
      h.page == Some(url) ==> target <= h.index || (target == h.index + 1 && target < |h.urls| && url == h.urls[target])
  }

  /** The steps whose URLs print stably and whose fragments spare a pending traversal. */
  predicate Careful(s: State, e: Step)
    requires Wired(s) && Enabled(s, e)
  {
    match e
    case NewTab(_, url) => Printed(Canonical(url))
    case Navigate(_, url) => Printed(Canonical(url))
    case MovePage(_, url) => Printed(url)
    case RecordFragment(w, url) =>
      var slot := s.slots[Selected(s, w).value];
      slot.pending.Some? && slot.pending.value < |s.tasks| ==>
        SparesTarget(slot.session, url, s.tasks[slot.pending.value].kind)
    case _ => true
  }

  // ----- What a session keeps -----

  /** Recording a fragment keeps the target of a traversal valid in exactly these cases. */
  lemma {:induction false} FragmentExactly(h: History, url: string, target: nat)
    requires Sound(h) && target < |h.urls| && h.page == Some(url)
    ensures Traversable(Recorded(h, url), h.urls[target], target) <==> SparesTarget(h, url, Traversal(target))
  {
  }

  /** Clicking a fragment reference of a printed page is careful outside views of a file's source. */
  lemma {:induction false} FragmentCareful(s: State, id: nat, text: string, fragment: string)
    requires var e := MovePage(id, Serialized(ResolveFragment(Parsed(text), fragment))); Wired(s) && Enabled(s, e)
    requires !FileSource(Parsed(text))
    ensures Careful(s, MovePage(id, Serialized(ResolveFragment(Parsed(text), fragment))))
  {
    hide Parsed, Serialized, ResolveFragment, Canonical, Wired, Enabled;
    FragmentTarget(text, fragment);
  }

  lemma {:induction false} RecordedSteady(h: History, url: string, load: string, kind: LoadKind)
    requires Sound(h) && Clean(h)
    ensures Clean(Recorded(h, url))
    ensures Welcome(h, load, kind) && SparesTarget(h, url, kind) ==> Welcome(Recorded(h, url), load, kind)
  {
    hide Canonical;
  }

  /** A welcome load is accepted, and the session becomes what the virtual history said. */
  lemma {:induction false} Predicted(h: History, url: string, kind: LoadKind)
    requires Sound(h) && Clean(h) && Welcome(h, url, kind)
    ensures Accepts(h, Canonical(url), kind)
    ensures var r := CommittedHistory(h, Canonical(url), kind);
      && VirtualHistory(h, Some(kind)) == (|r.urls|, r.index)
      && Sound(r) && Clean(r) && r.page == Some(Canonical(url)) && r.urls[r.index] == Canonical(url)
  {
    hide Canonical;
  }

  /** A move within the virtual history finds its entry. */
  lemma {:induction false} MoveFinds(h: History, kind: Option<LoadKind>, move: Move)
    requires Sound(h)
    requires kind.Some? && kind.value.Traversal? ==> kind.value.target < |h.urls|
    ensures var target := MoveTarget(VirtualHistory(h, kind), move);
      target.Some? ==> 0 <= target.value < |h.urls|
  {
  }

  // ----- Every careful step -----

  predicate SameUrls(a: seq<Task>, b: seq<Task>) {
    |a| <= |b| && forall t :: 0 <= t < |a| ==> a[t].url == b[t].url && a[t].kind == b[t].kind
  }

  lemma {:induction false} SteadyFrame(slot: Slot, a: seq<Task>, b: seq<Task>)
    requires SteadySlot(slot, a) && SameUrls(a, b)
    ensures SteadySlot(slot, b)
  {
    hide Clean, Welcome;
  }

  lemma {:induction false} AllSteady(s: State, s': State)
    requires Steady(s) && SameUrls(s.tasks, s'.tasks) && PagesMatch(s')
    requires forall id :: id in s'.slots ==> (id in s.slots && s'.slots[id] == s.slots[id]) || SteadySlot(s'.slots[id], s'.tasks)
    ensures Steady(s')
  {
    hide SteadySlot, SameUrls, PagesMatch;
    forall id | id in s'.slots
      ensures SteadySlot(s'.slots[id], s'.tasks)
    {
      if id in s.slots && s'.slots[id] == s.slots[id] {
        SteadyFrame(s.slots[id], s.tasks, s'.tasks);
      }
    }
  }

  lemma {:induction false} CancelKeepsUrls(tasks: seq<Task>, ids: set<nat>)
    ensures SameUrls(tasks, Cancelled(tasks, ids))
    ensures forall t :: 0 <= t < |tasks| ==> Cancelled(tasks, ids)[t].page == tasks[t].page
  {
  }

  lemma {:induction false} FinishKeepsUrls(tasks: seq<Task>, t: nat, page: Option<string>)
    requires t < |tasks| && Loads(tasks[t], page)
    requires forall u :: 0 <= u < |tasks| ==> Loads(tasks[u], tasks[u].page)
    ensures var r := Finished(tasks, t, page);
      SameUrls(tasks, r) && forall u :: 0 <= u < |r| ==> Loads(r[u], r[u].page)
  {
    hide Canonical;
  }

  lemma {:induction false} UrlsKept(s: State, e: Step)
    requires Wired(s) && Enabled(s, e) && PagesMatch(s)
    requires !e.NewTab? && !e.Navigate? && !e.Traverse?
    ensures SameUrls(s.tasks, Next(s, e).tasks) && PagesMatch(Next(s, e))
  {
    hide Canonical, CommittedHistory, Recorded, PendingOf, Elements;
    if e.CloseWindow? {
      hide Wired;
      CancelKeepsUrls(s.tasks, PendingOf(s.slots, s.windows[e.window].order));
    } else if e.Stop? {
      hide Wired;
      CancelKeepsUrls(s.tasks, Elements(s.queue));
    } else if e.CompleteStart? {
      FinishKeepsUrls(s.tasks, s.hand.value, e.page);
    } else if e.FinishLoad? {
      FinishKeepsUrls(s.tasks, s.active[e.index], e.page);
    } else if e.Reap? {
      var t := s.active[e.index];
      assert Loads(s.tasks[t], s.tasks[t].page);
      FinishKeepsUrls(s.tasks, t, if s.tasks[t].completed then s.tasks[t].page else None);
    } else {
      TasksSame(s, e);
      hide *;
      PagesFrame(s, Next(s, e));
    }
  }

  lemma {:induction false} PagesFrame(s: State, s': State)
    requires PagesMatch(s) && s'.tasks == s.tasks
    ensures PagesMatch(s') && SameUrls(s.tasks, s'.tasks)
  {
  }

  lemma {:induction false} TasksSame(s: State, e: Step)
    requires Wired(s) && Enabled(s, e)
    requires !e.NewTab? && !e.Navigate? && !e.Traverse? && !e.CloseWindow? && !e.Stop?
    requires !e.CompleteStart? && !e.FinishLoad? && !e.Reap?
    ensures Next(s, e).tasks == s.tasks
  {
    hide TabsIn, Owner, AddTab, Request, AskTraversal, CommitTask, Close, Publish, Finished, Cancelled, Elements, Recorded;
    if e.CommitOne? {
      CommitTasks(s, s.desk.window, s.desk.items[0], e.resized);
    }
  }

  lemma {:induction false} CommitTasks(s: State, w: nat, t: nat, resized: bool)
    requires Wired(s) && w < |s.windows| && t < |s.tasks|
    ensures CommitTask(s, w, t, resized).tasks == s.tasks
  {
    hide CommittedHistory, Accepts;
  }

  lemma {:induction false} NewSteady(s: State, w: nat, url: string)
    requires Steady(s) && w < |s.windows| && Printed(Canonical(url))
    ensures Steady(AddTab(s, w, url))
  {
    hide Canonical, SteadySlot, Printed;
    var s' := AddTab(s, w, url);
    if s' != s {
      assert SteadySlot(s'.slots[s.nextTab], s'.tasks) by { FreshSteady(s'.slots[s.nextTab], s'.tasks); }
      AllSteady(s, s');
    }
  }

  lemma {:induction false} FreshSteady(slot: Slot, tasks: seq<Task>)
    requires slot.pending.Some? && slot.pending.value < |tasks| && Clean(slot.session)
    requires Welcome(slot.session, tasks[slot.pending.value].url, tasks[slot.pending.value].kind)
    ensures SteadySlot(slot, tasks)
  {
  }

  lemma {:induction false} CancelledUrls(tasks: seq<Task>, ids: set<nat>, task: Task)
    ensures SameUrls(tasks, Cancelled(tasks, ids) + [task])
    ensures forall t :: 0 <= t < |tasks| ==> Cancelled(tasks, ids)[t].page == tasks[t].page
  {
  }

  lemma {:induction false} AddedPages(a: seq<Task>, b: seq<Task>)
    requires SameUrls(a, b) && |b| == |a| + 1 && b[|a|].page == None
    requires forall t :: 0 <= t < |a| ==> Loads(a[t], a[t].page) && b[t].page == a[t].page
    ensures forall t :: 0 <= t < |b| ==> Loads(b[t], b[t].page)
  {
    hide Canonical;
  }

  lemma {:induction false} RequestSteady(s: State, id: nat, url: string, kind: LoadKind)
    requires Steady(s) && id in s.slots && Welcome(s.slots[id].session, url, kind)
    ensures Steady(Request(s, id, url, kind))
  {
    var s' := Request(s, id, url, kind);
    if s' != s {
      var superseded := if s.slots[id].pending.Some? then {s.slots[id].pending.value} else {};
      CancelledUrls(s.tasks, superseded, Fresh(id, s.slots[id].generation + 1, url, kind));
      assert Clean(s.slots[id].session);
      hide Canonical, Clean, Welcome, Cancelled, SteadySlot;
      FreshSteady(s'.slots[id], s'.tasks);
      assert forall t :: 0 <= t < |s.tasks| ==> s'.tasks[t].page == s.tasks[t].page;
      AddedPages(s.tasks, s'.tasks);
      hide SameUrls;
      AllSteady(s, s');
    }
  }

  lemma {:induction false} TraverseSteady(s: State, id: nat, move: Move)
    requires Steady(s) && id in s.slots && PendingKnown(s, id)
    ensures Steady(AskTraversal(s, id, move))
  {
    hide Request, Canonical;
    var slot := s.slots[id];
    var target := MoveTarget(VirtualHistory(slot.session, PendingKind(s, slot)), move);
    if target.Some? && 0 <= target.value < |slot.session.urls| {
      RequestSteady(s, id, slot.session.urls[target.value], Traversal(target.value));
    }
  }

  lemma {:induction false} IdleSteady(slot: Slot, tasks: seq<Task>)
    requires slot.pending.None? && Clean(slot.session)
    ensures SteadySlot(slot, tasks)
  {
  }

  lemma {:induction false} CommitSlot(s: State, w: nat, t: nat, resized: bool)
    requires Wired(s) && w < |s.windows| && t < |s.tasks| && Current(s, w, t)
    ensures var id := s.tasks[t].tab;
      var slots' := CommitTask(s, w, t, resized).slots;
      && id in s.slots && Sound(s.slots[id].session) && slots' == s.slots[id := slots'[id]]
      && slots'[id].pending == None
      && (slots'[id].session == s.slots[id].session ||
          (s.tasks[t].page.Some? &&
           slots'[id].session == CommittedHistory(s.slots[id].session, s.tasks[t].page.value, s.tasks[t].kind)))
  {
    assert Sound(s.slots[s.tasks[t].tab].session);
    hide PlacesIn, TabsIn, CommittedHistory, Accepts, Sound;
  }

  lemma {:induction false} CommitSteady(s: State, w: nat, t: nat, resized: bool)
    requires Wired(s) && Steady(s) && w < |s.windows| && t < |s.tasks|
    ensures forall id :: id in CommitTask(s, w, t, resized).slots ==>
      (id in s.slots && CommitTask(s, w, t, resized).slots[id] == s.slots[id]) ||
      SteadySlot(CommitTask(s, w, t, resized).slots[id], s.tasks)
  {
    hide Canonical, CommittedHistory, Clean, Welcome, VirtualHistory, Sound, PlacesIn, TabsIn;
    if Current(s, w, t) {
      CommitSlot(s, w, t, resized);
      var id := s.tasks[t].tab;
      var slot := s.slots[id];
      assert SteadySlot(slot, s.tasks);
      assert Loads(s.tasks[t], s.tasks[t].page);
      assert slot.pending == Some(t);
      Predicted(slot.session, s.tasks[t].url, s.tasks[t].kind);
      hide CommitTask, Steady, SteadySlot, Loads;
      IdleSteady(CommitTask(s, w, t, resized).slots[id], s.tasks);
    }
  }

  /** Careful steps keep every pending load welcome. */
  lemma {:induction false} CarefulKeeps(s: State, e: Step)
    requires Good(s) && Enabled(s, e) && Careful(s, e) && Steady(s)
    ensures Steady(Next(s, e))
  {
    hide Windowed, Ordered, Phases, Canonical, Steady;
    if e.NewTab? {
      NewSteady(s, e.window, e.url);
    } else if e.Navigate? {
      NavigateWelcome(s, e.window, e.url);
      RequestSteady(s, Selected(s, e.window).value, e.url, Navigation);
    } else if e.Traverse? {
      TraverseSteady(s, Selected(s, e.window).value, e.move);
    } else {
      hide Next, Enabled, Wired, Careful, SteadySlot, SameUrls, PagesMatch;
      SteadyPages(s);
      UrlsKept(s, e);
      OtherSteady(s, e);
      AllSteady(s, Next(s, e));
    }
  }

  lemma {:induction false} SteadyPages(s: State)
    requires Steady(s)
    ensures PagesMatch(s)
  {
  }

  lemma {:induction false} NavigateWelcome(s: State, w: nat, url: string)
    requires Wired(s) && w < |s.windows| && Selected(s, w).Some? && Printed(Canonical(url))
    ensures Selected(s, w).value in s.slots
    ensures Welcome(s.slots[Selected(s, w).value].session, url, Navigation)
  {
    hide Canonical;
  }

  lemma {:induction false} OtherSteady(s: State, e: Step)
    requires Wired(s) && Enabled(s, e) && Careful(s, e) && Steady(s)
    requires !e.NewTab? && !e.Navigate? && !e.Traverse?
    ensures var s' := Next(s, e);
      forall id :: id in s'.slots ==> (id in s.slots && s'.slots[id] == s.slots[id]) || SteadySlot(s'.slots[id], s'.tasks)
  {
    hide *;
    if e.MovePage? || e.RecordFragment? {
      SessionSteady(s, e);
    } else if e.CommitOne? {
      CommitNext(s, e);
    } else {
      SlotsSame(s, e);
    }
  }

  lemma {:induction false} CommitNext(s: State, e: Step)
    requires Wired(s) && Enabled(s, e) && Steady(s) && e.CommitOne?
    ensures var s' := Next(s, e);
      forall id :: id in s'.slots ==> (id in s.slots && s'.slots[id] == s.slots[id]) || SteadySlot(s'.slots[id], s'.tasks)
  {
    hide CommitTask, Steady, SteadySlot, TabsIn;
    CommitSteady(s, s.desk.window, s.desk.items[0], e.resized);
    CommitTasks(s, s.desk.window, s.desk.items[0], e.resized);
    hide Wired;
  }

  lemma {:induction false} SlotsSame(s: State, e: Step)
    requires Wired(s) && Enabled(s, e)
    requires !e.NewTab? && !e.Navigate? && !e.Traverse? && !e.MovePage? && !e.RecordFragment? && !e.CommitOne?
    ensures forall id :: id in Next(s, e).slots ==> id in s.slots && Next(s, e).slots[id] == s.slots[id]
  {
    hide Wired, AddTab, Request, AskTraversal, CommitTask, MovePageTo, RecordIn, Cancelled, Finished, PendingOf, Elements;
  }

  lemma {:induction false} SessionSteady(s: State, e: Step)
    requires Wired(s) && Enabled(s, e) && Careful(s, e) && Steady(s)
    requires e.MovePage? || e.RecordFragment?
    ensures var s' := Next(s, e);
      forall id :: id in s'.slots ==> (id in s.slots && s'.slots[id] == s.slots[id]) || SteadySlot(s'.slots[id], s'.tasks)
  {
    hide Canonical;
    if e.MovePage? {
      assert SteadySlot(s.slots[e.tab], s.tasks);
    } else {
      var id := Selected(s, e.window).value;
      var slot := s.slots[id];
      assert SteadySlot(slot, s.tasks) && Sound(slot.session);
      if slot.pending.Some? {
        RecordedSteady(slot.session, e.url, s.tasks[slot.pending.value].url, s.tasks[slot.pending.value].kind);
      } else {
        RecordedSteady(slot.session, e.url, "", Navigation);
      }
      hide Recorded, Clean, Welcome, SparesTarget, Sound, Wired;
    }
  }

  // ----- Careful runs -----

  ghost predicate CarefulRun(steps: seq<Step>)
    decreases |steps|
  {
    steps == [] ||
    (CarefulRun(steps[..|steps| - 1]) &&
     match Reached(steps[..|steps| - 1])
     case None => false
     case Some(s) => Wired(s) && Enabled(s, steps[|steps| - 1]) && Careful(s, steps[|steps| - 1]))
  }

  lemma {:induction false} AlwaysSteady(steps: seq<Step>)
    requires CarefulRun(steps) && Reached(steps).Some?
    ensures Good(Reached(steps).value) && Steady(Reached(steps).value)
    decreases |steps|
  {
    AlwaysGood(steps);
    if steps != [] {
      hide Good, Steady, Enabled, Next, Careful, Wired;
      AlwaysSteady(steps[..|steps| - 1]);
      CarefulKeeps(Reached(steps[..|steps| - 1]).value, steps[|steps| - 1]);
    }
  }

  /** The first completion on the desk, if it is current and has a page, takes its place in the
      session as the virtual history showed. */
  ghost predicate CommitsShown(s: State)
    requires Wired(s) && s.desk.Committing? && s.desk.items != []
  {
    var t, id := s.desk.items[0], s.tasks[s.desk.items[0]].tab;
    Current(s, s.desk.window, t) && s.tasks[t].page.Some? ==>
      var s' := CommitTask(s, s.desk.window, t, true);
      && id in s'.slots
      && VirtualHistory(s.slots[id].session, Some(s.tasks[t].kind)) ==
           (|s'.slots[id].session.urls|, s'.slots[id].session.index)
      && s'.slots[id].session.page == s.tasks[t].page
      && s'.commits == s.commits + [(id, s.tasks[t].generation)]
  }

  /** On a careful run no current page is refused its place in the history, and the session takes
      exactly the shape its virtual history showed. */
  lemma {:induction false} CommitsAsShown(steps: seq<Step>)
    requires CarefulRun(steps) && Reached(steps).Some?
    requires var s := Reached(steps).value; s.desk.Committing? && s.desk.items != []
    ensures Wired(Reached(steps).value) && CommitsShown(Reached(steps).value)
  {
    AlwaysSteady(steps);
    hide Reached, CarefulRun, Windowed, Ordered, Phases;
    CommitShown(Reached(steps).value);
  }

  lemma {:induction false} CommitShown(s: State)
    requires Wired(s) && Steady(s) && s.desk.Committing? && s.desk.items != []
    ensures CommitsShown(s)
  {
    hide Canonical;
    var t := s.desk.items[0];
    if Current(s, s.desk.window, t) && s.tasks[t].page.Some? {
      var slot := s.slots[s.tasks[t].tab];
      assert SteadySlot(slot, s.tasks) && Sound(slot.session);
      assert Loads(s.tasks[t], s.tasks[t].page);
      hide Steady, PlacesIn, TabsIn;
      Predicted(slot.session, s.tasks[t].url, s.tasks[t].kind);
      hide CommittedHistory, Clean, Welcome, VirtualHistory, Sound;
    }
  }

  /** On a careful run a traversal within the virtual history always becomes a load of the entry it
      asks for. */
  lemma {:induction false} TraversalFinds(steps: seq<Step>, id: nat, move: Move)
    requires CarefulRun(steps) && Reached(steps).Some? && id in Reached(steps).value.slots
    ensures var s := Reached(steps).value;
      PendingKnown(s, id) &&
      var slot := s.slots[id];
      match MoveTarget(VirtualHistory(slot.session, PendingKind(s, slot)), move)
      case None => AskTraversal(s, id, move) == s
      case Some(target) =>
        0 <= target < |slot.session.urls| &&
        AskTraversal(s, id, move) == Request(s, id, slot.session.urls[target], Traversal(target))
  {
    AlwaysSteady(steps);
    var s := Reached(steps).value;
    hide Windowed, Ordered, Phases, Canonical, Reached, CarefulRun;
    var slot := s.slots[id];
    assert SteadySlot(slot, s.tasks) && Sound(slot.session);
    MoveFinds(slot.session, PendingKind(s, slot), move);
  }

  /** A URL is safe to navigate to exactly when it prints stably. */
  lemma {:induction false} SafeToNavigate(url: string)
    ensures Printed(Canonical(url)) <==> !FileSource(Parsed(url)) || SelfKeyed(Parsed(url).path)
  {
    hide Parsed, Canonical, SelfKeyed;
    Stable(url);
  }
}
