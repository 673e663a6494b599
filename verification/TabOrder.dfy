/** Only the current load of a tab may commit, and it is neither cancelled nor released.

    Every tab belongs to one window; a pending load is of its tab's newest generation, live and
    uncancelled; every other load a thread still holds is cancelled; the generations committed into
    a tab increase. Each step of either thread keeps all of this, and the lemmas go through the steps
    one by one.
*/
module TabOrder {
  import opened Results
  import opened Sessions
  import opened TabMachine

  // ----- Windows and their tabs -----

  ghost predicate EveryTabShown(s: State) {
    forall id :: id in s.slots ==> id < s.nextTab && exists w :: 0 <= w < |s.windows| && id in s.windows[w].order
  }

  ghost predicate ShownOnce(s: State) {
    forall w, v, id :: 0 <= w < |s.windows| && 0 <= v < |s.windows| && id in s.windows[w].order && id in s.windows[v].order
      ==> w == v
  }

  predicate InWindow(s: State, w: nat, ids: seq<nat>)
    requires w < |s.windows|
  {
    forall k :: 0 <= k < |ids| ==> ids[k] < |s.tasks| && s.tasks[ids[k]].tab in s.windows[w].order
  }

  /** A routed completion is for a tab of the window it lies at. */
  ghost predicate Delivered(s: State) {
    && (forall w :: 0 <= w < |s.windows| ==> InWindow(s, w, s.windows[w].inbox))
    && (s.desk.Committing? ==> s.desk.window < |s.windows| && InWindow(s, s.desk.window, s.desk.items))
  }

  // ----- Tabs and their loads -----

  ghost predicate PendingLive(s: State) {
    forall id :: id in s.slots && s.slots[id].pending.Some? ==>
      var t := s.slots[id].pending.value;
      && t < |s.tasks| && t !in s.released && !s.tasks[t].cancelled
      && s.tasks[t].tab == id && s.tasks[t].generation == s.slots[id].generation
  }

  ghost predicate OthersCancelled(s: State) {
    forall t :: 0 <= t < |s.tasks| && t !in s.released && !s.tasks[t].cancelled ==>
      s.tasks[t].tab in s.slots && s.slots[s.tasks[t].tab].pending == Some(t)
  }

  ghost predicate Numbered(s: State) {
    forall t :: 0 <= t < |s.tasks| ==>
      && s.tasks[t].tab < s.nextTab
      && (s.tasks[t].tab in s.slots ==> s.tasks[t].generation <= s.slots[s.tasks[t].tab].generation)
  }

  /** The generations committed into a tab increase, and stay below a pending one. */
  ghost predicate CommitsIncrease(s: State) {
    && (forall j, k :: 0 <= j < k < |s.commits| && s.commits[j].0 == s.commits[k].0 ==> s.commits[j].1 < s.commits[k].1)
    && (forall k :: 0 <= k < |s.commits| ==>
          && s.commits[k].0 < s.nextTab
          && (s.commits[k].0 in s.slots ==>
                var slot := s.slots[s.commits[k].0];
                s.commits[k].1 <= slot.generation && (slot.pending.Some? ==> s.commits[k].1 < slot.generation)))
  }

  ghost predicate Phases(s: State) {
    && (s.stopping ==> s.windows == [] && s.desk.Idle?)
    && (s.exited ==> s.stopping && s.hand.None? && s.active == [] && s.queue == [])
    && (s.collected ==> s.exited && s.completed == [])
  }

  ghost predicate Windowed(s: State) {
    EveryTabShown(s) && ShownOnce(s) && Delivered(s)
  }

  ghost predicate Ordered(s: State) {
    PendingLive(s) && OthersCancelled(s) && Numbered(s) && CommitsIncrease(s)
  }

  ghost predicate Good(s: State) {
    Wired(s) && Windowed(s) && Ordered(s) && Phases(s)
  }

  // ----- Steps that leave tabs and their loads alone -----

  predicate SameLoads(a: seq<Task>, b: seq<Task>) {
    && |a| == |b|
    && forall t :: 0 <= t < |a| ==> a[t].tab == b[t].tab && a[t].generation == b[t].generation && a[t].cancelled == b[t].cancelled
  }

  predicate SameSlots(a: map<nat, Slot>, b: map<nat, Slot>) {
    && a.Keys == b.Keys
    && forall id :: id in a ==> a[id].generation == b[id].generation && a[id].pending == b[id].pending
  }

  lemma {:induction false} OrderedFrame(s: State, s': State)
    requires Ordered(s)
    requires SameLoads(s.tasks, s'.tasks) && SameSlots(s.slots, s'.slots)
    requires s'.nextTab == s.nextTab && s'.released == s.released && s'.commits == s.commits
    ensures Ordered(s')
  {
  }

  predicate SameOrders(a: seq<Window>, b: seq<Window>) {
    |a| == |b| && forall w :: 0 <= w < |a| ==> a[w].order == b[w].order
  }

  lemma {:induction false} ShownFrame(s: State, s': State)
    requires EveryTabShown(s) && ShownOnce(s)
    requires SameOrders(s.windows, s'.windows) && s.slots.Keys == s'.slots.Keys && s.nextTab == s'.nextTab
    ensures EveryTabShown(s') && ShownOnce(s')
  {
    forall id | id in s'.slots
      ensures id < s'.nextTab && exists w :: 0 <= w < |s'.windows| && id in s'.windows[w].order
    {
      var w :| 0 <= w < |s.windows| && id in s.windows[w].order;
      assert id in s'.windows[w].order;
    }
  }

  lemma {:induction false} InWindowFrame(s: State, s': State, w: nat, ids: seq<nat>)
    requires w < |s.windows| && InWindow(s, w, ids)
    requires SameOrders(s.windows, s'.windows) && |s.tasks| <= |s'.tasks|
    requires forall t :: 0 <= t < |s.tasks| ==> s'.tasks[t].tab == s.tasks[t].tab
    ensures InWindow(s', w, ids)
  {
  }

  lemma {:induction false} DeliveredFrame(s: State, s': State)
    requires Delivered(s) && SameOrders(s.windows, s'.windows) && |s.tasks| <= |s'.tasks|
    requires forall t :: 0 <= t < |s.tasks| ==> s'.tasks[t].tab == s.tasks[t].tab
    requires forall w :: 0 <= w < |s.windows| ==> s'.windows[w].inbox == s.windows[w].inbox
    requires s'.desk == s.desk || !s'.desk.Committing?
    ensures Delivered(s')
  {
    hide SameOrders;
    forall w | 0 <= w < |s'.windows| ensures InWindow(s', w, s'.windows[w].inbox) {
      assert |s'.windows| == |s.windows| by { assert SameOrders(s.windows, s'.windows); SameCount(s.windows, s'.windows); }
      InWindowFrame(s, s', w, s.windows[w].inbox);
    }
    if s'.desk.Committing? {
      InWindowFrame(s, s', s.desk.window, s.desk.items);
      SameCount(s.windows, s'.windows);
    }
  }

  lemma {:induction false} SameCount(a: seq<Window>, b: seq<Window>)
    requires SameOrders(a, b)
    ensures |a| == |b|
  {
  }

  /** The steps that change neither tabs nor which loads are current. */
  predicate Quiet(e: Step) {
    e.Select? || e.MovePage? || e.RecordFragment? || e.BeginPump? || e.EndPump? ||
    e.Take? || e.CompleteStart? || e.Activate? || e.FinishLoad? || e.Reap? || e.NetworkFails? || e.Exit?
  }

  ghost predicate Unmoved(s: State, s': State) {
    && SameLoads(s.tasks, s'.tasks) && SameSlots(s.slots, s'.slots) && SameOrders(s.windows, s'.windows)
    && s'.nextTab == s.nextTab && s'.released == s.released && s'.commits == s.commits
    && (forall w :: 0 <= w < |s.windows| ==> s'.windows[w].inbox == s.windows[w].inbox)
    && (s'.desk == s.desk || !s'.desk.Committing?)
  }

  lemma {:induction false} QuietStep(s: State, e: Step)
    requires Wired(s) && Enabled(s, e) && Quiet(e)
    ensures Unmoved(s, Next(s, e))
  {
    hide Tasks, AddTab, Request, AskTraversal, CommitTask, RouteTask, Close, Publish, Cancelled, Elements;
    if e.RecordFragment? {
      assert Selected(s, e.window).value in s.slots;
      assert Sound(s.slots[Selected(s, e.window).value].session);
      hide PlacesIn, TabsIn, Recorded, Sound;
    } else if e.Select? || e.MovePage? || e.BeginPump? || e.EndPump? {
      hide PlacesIn, TabsIn;
    } else {
      QuietLoader(s, e);
    }
  }

  lemma {:induction false} QuietLoader(s: State, e: Step)
    requires PlacesIn(s) && Wired(s) && Enabled(s, e)
    requires e.Take? || e.CompleteStart? || e.Activate? || e.FinishLoad? || e.Reap? || e.NetworkFails? || e.Exit?
    ensures Unmoved(s, Next(s, e))
    ensures Next(s, e).windows == s.windows && Next(s, e).slots == s.slots
  {
    hide TabsIn, SameLoads, AddTab, Request, AskTraversal, CommitTask, RouteTask, Close, MovePageTo, RecordIn, Cancelled, Elements;
    if e.CompleteStart? || e.FinishLoad? || e.Reap? {
      FinishLoads(s, e);
    } else {
      assert SameLoads(s.tasks, s.tasks) by {
        SameItself(s.tasks);
      }
    }
  }

  lemma {:induction false} SameItself(a: seq<Task>)
    ensures SameLoads(a, a)
  {
  }

  lemma {:induction false} FinishLoads(s: State, e: Step)
    requires Wired(s) && Enabled(s, e) && (e.CompleteStart? || e.FinishLoad? || e.Reap?)
    ensures SameLoads(s.tasks, Next(s, e).tasks)
  {
    hide TabsIn;
  }

  lemma {:induction false} QuietKeeps(s: State, e: Step)
    requires Wired(s) && Enabled(s, e) && Quiet(e) && Windowed(s) && Ordered(s)
    ensures Windowed(Next(s, e)) && Ordered(Next(s, e))
  {
    QuietStep(s, e);
    hide Next, Enabled, Wired, Ordered, Delivered, EveryTabShown, ShownOnce, SameOrders;
    OrderedFrame(s, Next(s, e));
    SameKeys(s.slots, Next(s, e).slots);
    ShownFrame(s, Next(s, e));
    assert |s.tasks| == |Next(s, e).tasks|;
    hide SameSlots;
    DeliveredFrame(s, Next(s, e));
  }

  lemma {:induction false} SameKeys(a: map<nat, Slot>, b: map<nat, Slot>)
    requires SameSlots(a, b)
    ensures a.Keys == b.Keys
  {
  }

  // ----- Opening windows and tabs -----

  lemma {:induction false} OpenWired(s: State, s': State)
    requires Wired(s) && s' == s.(windows := s.windows + [Window([], 0, [])])
    ensures Wired(s')
  {
    hide Sound;
    forall v | 0 <= v < |s'.windows| ensures Tasks(s', s'.windows[v].inbox) {
      if v < |s.windows| {
        assert Tasks(s, s.windows[v].inbox);
      }
    }
  }

  lemma {:induction false} OpenWindowed(s: State, s': State)
    requires Windowed(s) && s' == s.(windows := s.windows + [Window([], 0, [])])
    ensures Windowed(s')
  {
    forall id | id in s'.slots
      ensures id < s'.nextTab && exists w :: 0 <= w < |s'.windows| && id in s'.windows[w].order
    {
      var w :| 0 <= w < |s.windows| && id in s.windows[w].order;
      assert id in s'.windows[w].order;
    }
    forall w | 0 <= w < |s'.windows| ensures InWindow(s', w, s'.windows[w].inbox) {
      if w < |s.windows| {
        assert InWindow(s, w, s.windows[w].inbox);
      }
    }
  }

  lemma {:induction false} OpenKeeps(s: State)
    requires Wired(s) && Windowed(s) && Ordered(s)
    ensures var s' := s.(windows := s.windows + [Window([], 0, [])]);
      Wired(s') && Windowed(s') && Ordered(s')
  {
    var s' := s.(windows := s.windows + [Window([], 0, [])]);
    hide Wired, Windowed, Ordered;
    OpenWired(s, s');
    OpenWindowed(s, s');
    OrderedFrame(s, s');
  }

  ghost predicate OrdersIn(s: State) {
    forall v, id :: 0 <= v < |s.windows| && id in s.windows[v].order ==> id in s.slots
  }

  lemma {:induction false} WiredOrders(s: State)
    requires Wired(s)
    ensures OrdersIn(s)
  {
  }

  lemma {:induction false} AddWired(s: State, w: nat, url: string)
    requires Wired(s) && w < |s.windows|
    ensures Wired(AddTab(s, w, url))
  {
    var s' := AddTab(s, w, url);
    assert Sound(EMPTY);
    forall v | 0 <= v < |s'.windows| ensures Tasks(s', s'.windows[v].inbox) {
      assert Tasks(s, s.windows[v].inbox);
    }
    AddOrders(s, w, url);
    hide Sound, OrdersIn;
  }

  lemma {:induction false} AddOrders(s: State, w: nat, url: string)
    requires Wired(s) && w < |s.windows|
    ensures var s' := AddTab(s, w, url);
      forall v, k :: 0 <= v < |s'.windows| && 0 <= k < |s'.windows[v].order| ==> s'.windows[v].order[k] in s'.slots
  {
    WiredOrders(s);
    hide Wired;
    var s' := AddTab(s, w, url);
    forall v, k | 0 <= v < |s'.windows| && 0 <= k < |s'.windows[v].order|
      ensures s'.windows[v].order[k] in s'.slots
    {
      assert k < |s.windows[v].order| ==> s'.windows[v].order[k] in s.windows[v].order;
    }
  }

  lemma {:induction false} AddShown(s: State, s': State, w: nat, win: Window)
    requires EveryTabShown(s) && w < |s.windows|
    requires s'.windows == s.windows[w := win] && win.order == s.windows[w].order + [s.nextTab]
    requires s'.slots.Keys == s.slots.Keys + {s.nextTab} && s'.nextTab == s.nextTab + 1
    ensures EveryTabShown(s')
  {
    forall id | id in s'.slots
      ensures id < s'.nextTab && exists v :: 0 <= v < |s'.windows| && id in s'.windows[v].order
    {
      if id in s.slots {
        var v :| 0 <= v < |s.windows| && id in s.windows[v].order;
        assert id in s'.windows[v].order;
      } else {
        assert id in s'.windows[w].order;
      }
    }
  }

  lemma {:induction false} AddOnce(s: State, s': State, w: nat, win: Window)
    requires ShownOnce(s) && OrdersIn(s) && w < |s.windows| && s.nextTab !in s.slots
    requires s'.windows == s.windows[w := win] && win.order == s.windows[w].order + [s.nextTab]
    ensures ShownOnce(s')
  {
    forall v, u, id | 0 <= v < |s'.windows| && 0 <= u < |s'.windows| && id in s'.windows[v].order && id in s'.windows[u].order
      ensures v == u
    {
      if id != s.nextTab {
        assert id in s.windows[v].order && id in s.windows[u].order;
      }
    }
  }

  lemma {:induction false} AddDelivered(s: State, s': State, w: nat, win: Window)
    requires Delivered(s) && w < |s.windows| && !s.desk.Committing? && s'.desk == s.desk
    requires s'.windows == s.windows[w := win] && win.order == s.windows[w].order + [s.nextTab]
    requires win.inbox == s.windows[w].inbox
    requires |s'.tasks| == |s.tasks| + 1 && s'.tasks[..|s.tasks|] == s.tasks
    ensures Delivered(s')
  {
    forall v | 0 <= v < |s'.windows| ensures InWindow(s', v, s'.windows[v].inbox) {
      assert InWindow(s, v, s.windows[v].inbox);
      assert forall t :: 0 <= t < |s.tasks| ==> s'.tasks[t] == s'.tasks[..|s.tasks|][t];
    }
  }

  lemma {:induction false} NextTabFree(s: State)
    requires EveryTabShown(s)
    ensures s.nextTab !in s.slots
  {
  }

  lemma {:induction false} AddWindowed(s: State, w: nat, url: string)
    requires Wired(s) && w < |s.windows| && Windowed(s) && !s.desk.Committing?
    ensures Windowed(AddTab(s, w, url))
  {
    WiredOrders(s);
    NextTabFree(s);
    hide Wired, EveryTabShown, ShownOnce, Delivered, OrdersIn;
    var s' := AddTab(s, w, url);
    if s' != s {
      assert s'.tasks[..|s.tasks|] == s.tasks;
      AddShown(s, s', w, s'.windows[w]);
      AddOnce(s, s', w, s'.windows[w]);
      AddDelivered(s, s', w, s'.windows[w]);
    }
  }

  lemma {:induction false} TaskAdded(s: State, s': State, id: nat)
    requires PendingLive(s) && OthersCancelled(s) && Numbered(s)
    requires forall k :: 0 <= k < |s.released| ==> s.released[k] < |s.tasks|
    requires id in s'.slots && s'.released == s.released && id < s'.nextTab && s.nextTab <= s'.nextTab
    requires |s'.tasks| == |s.tasks| + 1
    requires s'.tasks[|s.tasks|].tab == id && !s'.tasks[|s.tasks|].cancelled
    requires s'.slots[id].pending == Some(|s.tasks|) && s'.slots[id].generation == s'.tasks[|s.tasks|].generation
    requires s'.slots == s.slots[id := s'.slots[id]]
    requires id !in s.slots ==> id >= s.nextTab
    requires id in s.slots ==> s.slots[id].generation < s'.slots[id].generation
    requires forall t :: 0 <= t < |s.tasks| ==>
      && s'.tasks[t].tab == s.tasks[t].tab && s'.tasks[t].generation == s.tasks[t].generation
      && s'.tasks[t].cancelled == (s.tasks[t].cancelled || (id in s.slots && s.slots[id].pending == Some(t)))
    ensures PendingLive(s') && OthersCancelled(s') && Numbered(s')
  {
    assert |s.tasks| !in s.released;
    assert forall x :: x in s'.slots && x != id ==> s'.slots[x] == s.slots[x];
  }

  lemma {:induction false} CommitsFrame(s: State, s': State, id: nat)
    requires CommitsIncrease(s) && s'.commits == s.commits && s.nextTab <= s'.nextTab && id in s'.slots
    requires s'.slots == s.slots[id := s'.slots[id]]
    requires id !in s.slots ==> id >= s.nextTab
    requires id in s.slots ==> s.slots[id].generation < s'.slots[id].generation
    ensures CommitsIncrease(s')
  {
    assert forall x :: x in s'.slots && x != id ==> s'.slots[x] == s.slots[x];
  }

  ghost predicate ReleasedExist(s: State) {
    forall k :: 0 <= k < |s.released| ==> s.released[k] < |s.tasks|
  }

  lemma {:induction false} AddOrdered(s: State, w: nat, url: string)
    requires w < |s.windows| && Ordered(s) && EveryTabShown(s) && ReleasedExist(s)
    ensures Ordered(AddTab(s, w, url))
  {
    NextTabFree(s);
    hide EveryTabShown, PendingLive, OthersCancelled, Numbered, CommitsIncrease;
    var s' := AddTab(s, w, url);
    if s' != s {
      TaskAdded(s, s', s.nextTab);
      CommitsFrame(s, s', s.nextTab);
    }
  }

  // ----- A new load for a tab -----

  lemma {:induction false} RequestWired(s: State, id: nat, url: string, kind: LoadKind)
    requires Wired(s) && id in s.slots
    ensures Wired(Request(s, id, url, kind))
  {
    hide Cancelled;
    var s' := Request(s, id, url, kind);
    forall v | 0 <= v < |s'.windows| ensures Tasks(s', s'.windows[v].inbox) {
      assert Tasks(s, s.windows[v].inbox);
    }
  }

  lemma {:induction false} CancelledTabs(tasks: seq<Task>, ids: set<nat>)
    ensures forall t :: 0 <= t < |tasks| ==>
      && Cancelled(tasks, ids)[t].tab == tasks[t].tab && Cancelled(tasks, ids)[t].generation == tasks[t].generation
      && Cancelled(tasks, ids)[t].cancelled == (tasks[t].cancelled || t in ids)
  {
  }

  lemma {:induction false} RequestShape(s: State, id: nat, url: string, kind: LoadKind)
    requires id in s.slots && Request(s, id, url, kind) != s
    ensures var s' := Request(s, id, url, kind);
      && s'.windows == s.windows && s'.desk == s.desk && s'.nextTab == s.nextTab
      && s'.released == s.released && s'.commits == s.commits
      && |s'.tasks| == |s.tasks| + 1
      && id in s'.slots && s'.slots == s.slots[id := s'.slots[id]]
      && s'.slots[id].generation == s.slots[id].generation + 1
      && s'.slots[id].pending == Some(|s.tasks|)
      && s'.tasks[|s.tasks|] == Fresh(id, s.slots[id].generation + 1, url, kind)
      && forall t :: 0 <= t < |s.tasks| ==>
           && s'.tasks[t].tab == s.tasks[t].tab && s'.tasks[t].generation == s.tasks[t].generation
           && s'.tasks[t].cancelled == (s.tasks[t].cancelled || s.slots[id].pending == Some(t))
  {
    var superseded := if s.slots[id].pending.Some? then {s.slots[id].pending.value} else {};
    CancelledTabs(s.tasks, superseded);
  }

  lemma {:induction false} RequestWindowed(s: State, id: nat, url: string, kind: LoadKind)
    requires id in s.slots && Windowed(s)
    ensures Windowed(Request(s, id, url, kind))
  {
    var s' := Request(s, id, url, kind);
    if s' != s {
      RequestShape(s, id, url, kind);
      hide Request, EveryTabShown, ShownOnce, Delivered;
      assert s'.slots.Keys == s.slots.Keys;
      ShownFrame(s, s');
      DeliveredFrame(s, s');
    }
  }

  lemma {:induction false} RequestOrdered(s: State, id: nat, url: string, kind: LoadKind)
    requires id in s.slots && Ordered(s) && id < s.nextTab && ReleasedExist(s)
    ensures Ordered(Request(s, id, url, kind))
  {
    var s' := Request(s, id, url, kind);
    if s' != s {
      RequestShape(s, id, url, kind);
      hide Request, PendingLive, OthersCancelled, Numbered, CommitsIncrease;
      TaskAdded(s, s', id);
      CommitsFrame(s, s', id);
    }
  }

  lemma {:induction false} TraverseKeeps(s: State, id: nat, move: Move)
    requires Wired(s) && Windowed(s) && Ordered(s) && id in s.slots && PendingKnown(s, id)
    requires ReleasedExist(s)
    ensures var s' := AskTraversal(s, id, move);
      Wired(s') && Windowed(s') && Ordered(s')
  {
    assert id < s.nextTab;
    hide Request, Wired, Ordered, Delivered, EveryTabShown, ShownOnce;
    var slot := s.slots[id];
    var target := MoveTarget(VirtualHistory(slot.session, PendingKind(s, slot)), move);
    if target.Some? && 0 <= target.value < |slot.session.urls| {
      RequestWired(s, id, slot.session.urls[target.value], Traversal(target.value));
      RequestWindowed(s, id, slot.session.urls[target.value], Traversal(target.value));
      RequestOrdered(s, id, slot.session.urls[target.value], Traversal(target.value));
    }
  }

  // ----- Letting go of a task -----

  /** A task no tab waits for may go. */
  lemma {:induction false} ReleaseOrdered(s: State, s': State, t: nat)
    requires Ordered(s)
    requires s'.tasks == s.tasks && s'.slots == s.slots && s'.nextTab == s.nextTab && s'.commits == s.commits
    requires s'.released == s.released + [t]
    requires forall id :: id in s.slots ==> s.slots[id].pending != Some(t)
    ensures Ordered(s')
  {
  }

  lemma {:induction false} OwnerFound(s: State, t: nat, w: nat)
    requires t < |s.tasks| && w < |s.windows| && OwnedBy(s, w, t)
    ensures Owner(s, t, 0) < |s.windows|
  {
  }

  lemma {:induction false} NobodyWaits(s: State, t: nat)
    requires EveryTabShown(s) && PendingLive(s) && t < |s.tasks| && Owner(s, t, 0) == |s.windows|
    ensures forall id :: id in s.slots ==> s.slots[id].pending != Some(t)
  {
    forall id | id in s.slots && s.slots[id].pending == Some(t)
      ensures false
    {
      var w :| 0 <= w < |s.windows| && id in s.windows[w].order;
      assert s.tasks[t].tab == id;
      OwnerFound(s, t, w);
    }
  }

  lemma {:induction false} RouteShape(s: State)
    requires Wired(s) && Enabled(s, RouteOne)
    ensures s.desk.items[0] < |s.tasks|
    ensures var s', t := Next(s, RouteOne), s.desk.items[0];
      var w := Owner(s, t, 0);
      && s'.tasks == s.tasks && s'.slots == s.slots && s'.nextTab == s.nextTab && s'.commits == s.commits
      && s'.queue == s.queue && s'.active == s.active && s'.completed == s.completed && s'.hand == s.hand
      && s'.desk == Routing(s.desk.window, s.desk.items[1..])
      && if w < |s.windows| then
           s'.released == s.released &&
           s'.windows == s.windows[w := s.windows[w].(inbox := s.windows[w].inbox + [t])]
         else s'.windows == s.windows && s'.released == s.released + [t]
  {
    DeskInRange(s);
  }

  lemma {:induction false} RouteWired(s: State)
    requires Wired(s) && Enabled(s, RouteOne)
    ensures Wired(Next(s, RouteOne))
  {
    RouteShape(s);
    var s' := Next(s, RouteOne);
    hide Next, Enabled, Owner;
    forall v | 0 <= v < |s'.windows| ensures Tasks(s', s'.windows[v].inbox) {
      assert Tasks(s, s.windows[v].inbox);
    }
    forall v, k | 0 <= v < |s'.windows| && 0 <= k < |s'.windows[v].order|
      ensures s'.windows[v].order[k] in s'.slots
    {
      assert s.windows[v].order[k] in s.slots;
    }
  }

  lemma {:induction false} RouteDelivered(s: State, s': State, w: nat, t: nat)
    requires Delivered(s) && t < |s.tasks| && w < |s.windows| && OwnedBy(s, w, t)
    requires s'.tasks == s.tasks && s'.desk.Routing?
    requires s'.windows == s.windows[w := s.windows[w].(inbox := s.windows[w].inbox + [t])]
    ensures Delivered(s')
  {
    forall v | 0 <= v < |s'.windows| ensures InWindow(s', v, s'.windows[v].inbox) {
      assert InWindow(s, v, s.windows[v].inbox);
    }
  }

  /** The windows once t has gone to the inbox of w, or nowhere. */
  lemma {:induction false} RoutedWindows(s: State, s': State, w: nat, t: nat)
    requires Windowed(s) && t < |s.tasks| && s'.tasks == s.tasks && s'.slots == s.slots && s'.nextTab == s.nextTab
    requires s'.desk.Routing?
    requires if w < |s.windows| then
        OwnedBy(s, w, t) && s'.windows == s.windows[w := s.windows[w].(inbox := s.windows[w].inbox + [t])]
      else s'.windows == s.windows
    ensures Windowed(s')
  {
    assert SameOrders(s.windows, s'.windows);
    hide EveryTabShown, ShownOnce, Delivered, SameOrders, OwnedBy;
    ShownFrame(s, s');
    if w < |s.windows| {
      RouteDelivered(s, s', w, t);
    } else {
      DeliveredFrame(s, s');
    }
  }

  lemma {:induction false} RouteWindowed(s: State)
    requires Wired(s) && Enabled(s, RouteOne) && Windowed(s)
    ensures Windowed(Next(s, RouteOne))
  {
    assert s.desk.Routing? && s.desk.items != [];
    hide *;
    RouteShape(s);
    RoutedWindows(s, Next(s, RouteOne), Owner(s, s.desk.items[0], 0), s.desk.items[0]);
  }

  lemma {:induction false} RouteOrdered(s: State)
    requires Wired(s) && Enabled(s, RouteOne) && EveryTabShown(s) && Ordered(s)
    ensures Ordered(Next(s, RouteOne))
  {
    RouteShape(s);
    OrderedPending(s);
    var s', t := Next(s, RouteOne), s.desk.items[0];
    hide Next, Enabled, Wired, EveryTabShown, Ordered, PendingLive;
    if Owner(s, t, 0) < |s.windows| {
      OrderedFrame(s, s');
    } else {
      NobodyWaits(s, t);
      ReleaseOrdered(s, s', t);
    }
  }

  lemma {:induction false} OrderedPending(s: State)
    requires Ordered(s)
    ensures PendingLive(s)
  {
  }

  lemma {:induction false} InboxWindowed(s: State)
    requires Wired(s) && Enabled(s, OpenInbox) && Windowed(s)
    ensures Windowed(Next(s, OpenInbox))
  {
    DeskInRange(s);
    var s' := Next(s, OpenInbox);
    hide Wired;
    ShownFrame(s, s');
    forall v | 0 <= v < |s'.windows| ensures InWindow(s', v, s'.windows[v].inbox) {
      assert InWindow(s, v, s.windows[v].inbox);
    }
    assert InWindow(s, s.desk.window, s.windows[s.desk.window].inbox);
  }

  lemma {:induction false} DeskInRange(s: State)
    requires Wired(s) && !s.desk.Idle?
    ensures s.desk.window < |s.windows| && forall k :: 0 <= k < |s.desk.items| ==> s.desk.items[k] < |s.tasks|
  {
  }

  lemma {:induction false} InboxKeeps(s: State)
    requires Wired(s) && Enabled(s, OpenInbox) && Windowed(s) && Ordered(s)
    ensures var s' := Next(s, OpenInbox); Wired(s') && Windowed(s') && Ordered(s')
  {
    InboxWindowed(s);
    OrderedFrame(s, Next(s, OpenInbox));
    hide Ordered, Windowed;
  }

  // ----- Committing -----

  lemma {:induction false} CurrentExactly(s: State, w: nat, t: nat)
    requires Wired(s) && w < |s.windows| && t < |s.tasks| && OwnedBy(s, w, t) && PendingLive(s)
    ensures s.tasks[t].tab in s.slots
    ensures Current(s, w, t) <==> s.slots[s.tasks[t].tab].pending == Some(t)
  {
  }

  lemma {:induction false} CommitSlots(s: State, w: nat, t: nat, resized: bool)
    requires Wired(s) && w < |s.windows| && t < |s.tasks| && OwnedBy(s, w, t) && PendingLive(s)
    ensures s.tasks[t].tab in s.slots
    ensures var s', id := CommitTask(s, w, t, resized), s.tasks[t].tab;
      && s'.tasks == s.tasks && s'.windows == s.windows && s'.nextTab == s.nextTab && s'.released == s.released + [t]
      && s'.queue == s.queue && s'.active == s.active && s'.completed == s.completed && s'.hand == s.hand
      && s'.slots.Keys == s.slots.Keys
      && (forall x :: x in s.slots && x != id ==> s'.slots[x] == s.slots[x])
      && s'.slots[id].generation == s.slots[id].generation
      && s'.slots[id].pending == (if s.slots[id].pending == Some(t) then None else s.slots[id].pending)
      && (s'.commits == s.commits ||
          (s.slots[id].pending == Some(t) && s'.commits == s.commits + [(id, s.slots[id].generation)]))
  {
    CurrentExactly(s, w, t);
    assert Sound(s.slots[s.tasks[t].tab].session);
    if Current(s, w, t) {
      assert s.tasks[t].generation == s.slots[s.tasks[t].tab].generation;
    }
    hide Wired, PendingLive, Current, CommittedHistory, Accepts;
  }

  lemma {:induction false} CommitOrdered(s: State, s': State, t: nat)
    requires Ordered(s) && t < |s.tasks| && s.tasks[t].tab in s.slots
    requires s'.tasks == s.tasks && s'.nextTab == s.nextTab && s'.released == s.released + [t]
    requires s'.slots.Keys == s.slots.Keys
    requires forall x :: x in s.slots && x != s.tasks[t].tab ==> s'.slots[x] == s.slots[x]
    requires s'.slots[s.tasks[t].tab].generation == s.slots[s.tasks[t].tab].generation
    requires s'.slots[s.tasks[t].tab].pending ==
      (if s.slots[s.tasks[t].tab].pending == Some(t) then None else s.slots[s.tasks[t].tab].pending)
    requires s'.commits == s.commits ||
      (s.slots[s.tasks[t].tab].pending == Some(t) &&
       s'.commits == s.commits + [(s.tasks[t].tab, s.slots[s.tasks[t].tab].generation)])
    ensures Ordered(s')
  {
    CommitLog(s, s', t);
    hide CommitsIncrease;
  }

  lemma {:induction false} CommitLog(s: State, s': State, t: nat)
    requires CommitsIncrease(s) && Numbered(s) && t < |s.tasks| && s.tasks[t].tab in s.slots
    requires s'.nextTab == s.nextTab && s'.slots.Keys == s.slots.Keys
    requires forall x :: x in s.slots && x != s.tasks[t].tab ==> s'.slots[x] == s.slots[x]
    requires s'.slots[s.tasks[t].tab].generation == s.slots[s.tasks[t].tab].generation
    requires s'.slots[s.tasks[t].tab].pending ==
      (if s.slots[s.tasks[t].tab].pending == Some(t) then None else s.slots[s.tasks[t].tab].pending)
    requires s'.commits == s.commits ||
      (s.slots[s.tasks[t].tab].pending == Some(t) &&
       s'.commits == s.commits + [(s.tasks[t].tab, s.slots[s.tasks[t].tab].generation)])
    ensures CommitsIncrease(s')
  {
  }

  lemma {:induction false} CommitSound(s: State, w: nat, t: nat, resized: bool)
    requires Wired(s) && w < |s.windows| && t < |s.tasks|
    ensures var s' := CommitTask(s, w, t, resized); forall x :: x in s'.slots ==> Sound(s'.slots[x].session)
    ensures s.slots.Keys <= CommitTask(s, w, t, resized).slots.Keys
  {
    if Current(s, w, t) {
      assert Sound(s.slots[s.tasks[t].tab].session);
    }
  }

  lemma {:induction false} CommitDesk(s: State)
    requires Wired(s) && Delivered(s) && s.desk.Committing? && s.desk.items != []
    ensures s.desk.window < |s.windows| && s.desk.items[0] < |s.tasks| && OwnedBy(s, s.desk.window, s.desk.items[0])
    ensures InWindow(s, s.desk.window, s.desk.items[1..])
  {
    assert InWindow(s, s.desk.window, s.desk.items);
  }

  lemma {:induction false} CommitKeeps(s: State, resized: bool)
    requires Wired(s) && Enabled(s, CommitOne(resized)) && Windowed(s) && Ordered(s)
    ensures var s' := Next(s, CommitOne(resized)); Wired(s') && Windowed(s') && Ordered(s')
  {
    CommitDesk(s);
    var s', w, t := Next(s, CommitOne(resized)), s.desk.window, s.desk.items[0];
    CommitSlots(s, w, t, resized);
    CommitSound(s, w, t, resized);
    hide Wired, Ordered, CommitTask, Current, EveryTabShown, ShownOnce, PendingLive, OthersCancelled, Numbered, CommitsIncrease, InWindow, Delivered;
    CommitWired(s, s');
    CommitOrdered(s, s', t);
    ShownFrame(s, s');
    CommitDelivered(s, s');
  }

  lemma {:induction false} CommitDelivered(s: State, s': State)
    requires Delivered(s) && s.desk.Committing? && s.desk.items != []
    requires s'.tasks == s.tasks && s'.windows == s.windows
    requires s'.desk == Committing(s.desk.window, s.desk.items[1..])
    ensures Delivered(s')
  {
    assert InWindow(s, s.desk.window, s.desk.items);
    forall v | 0 <= v < |s'.windows| ensures InWindow(s', v, s'.windows[v].inbox) {
      assert InWindow(s, v, s.windows[v].inbox);
    }
  }

  lemma {:induction false} CommitWired(s: State, s': State)
    requires Wired(s) && s.desk.Committing? && s.desk.items != []
    requires s'.tasks == s.tasks && s'.windows == s.windows && s'.queue == s.queue && s'.active == s.active
    requires s'.completed == s.completed && s'.hand == s.hand
    requires s'.desk == Committing(s.desk.window, s.desk.items[1..])
    requires s.slots.Keys <= s'.slots.Keys && forall x :: x in s'.slots ==> Sound(s'.slots[x].session)
    ensures Wired(s')
  {
    forall v | 0 <= v < |s'.windows| ensures Tasks(s', s'.windows[v].inbox) {
      assert Tasks(s, s.windows[v].inbox);
    }
    forall v, k | 0 <= v < |s'.windows| && 0 <= k < |s'.windows[v].order|
      ensures s'.windows[v].order[k] in s'.slots
    {
      assert s.windows[v].order[k] in s.slots;
    }
  }

  // ----- Closing -----

  lemma {:induction false} Rest(windows: seq<Window>, w: nat, v: nat)
    requires w < |windows| && v < |windows| && v != w
    ensures var rest := windows[..w] + windows[w + 1..];
      var u := if v < w then v else v - 1;
      u < |rest| == |windows| - 1 && rest[u] == windows[v]
  {
  }

  lemma {:induction false} Kept(windows: seq<Window>, w: nat, u: nat) returns (v: nat)
    requires w < |windows| && u < |windows| - 1
    ensures v < |windows| && v != w && (windows[..w] + windows[w + 1..])[u] == windows[v]
    ensures v == if u < w then u else u + 1
  {
    v := if u < w then u else u + 1;
  }

  lemma {:induction false} CloseShown(s: State, w: nat)
    requires Wired(s) && w < |s.windows| && EveryTabShown(s) && ShownOnce(s)
    ensures EveryTabShown(Close(s, w)) && ShownOnce(Close(s, w))
    ensures forall u, k :: 0 <= u < |Close(s, w).windows| && 0 <= k < |Close(s, w).windows[u].order| ==>
      Close(s, w).windows[u].order[k] in Close(s, w).slots
  {
    var s' := Close(s, w);
    forall id | id in s'.slots
      ensures id < s'.nextTab && exists u :: 0 <= u < |s'.windows| && id in s'.windows[u].order
    {
      var v :| 0 <= v < |s.windows| && id in s.windows[v].order;
      Rest(s.windows, w, v);
      assert id in s'.windows[if v < w then v else v - 1].order;
    }
    forall u1, u2, id | 0 <= u1 < |s'.windows| && 0 <= u2 < |s'.windows| && id in s'.windows[u1].order && id in s'.windows[u2].order
      ensures u1 == u2
    {
      var v1 := Kept(s.windows, w, u1);
      var v2 := Kept(s.windows, w, u2);
      assert id in s.windows[v1].order && id in s.windows[v2].order;
    }
    forall u, k | 0 <= u < |s'.windows| && 0 <= k < |s'.windows[u].order|
      ensures s'.windows[u].order[k] in s'.slots
    {
      var v := Kept(s.windows, w, u);
      assert s.windows[v].order[k] in s.windows[v].order;
      assert s.windows[v].order[k] in s.slots;
    }
  }

  lemma {:induction false} CloseDelivered(s: State, w: nat)
    requires Wired(s) && w < |s.windows| && Delivered(s) && s.desk.Idle?
    ensures Delivered(Close(s, w))
    ensures forall u :: 0 <= u < |Close(s, w).windows| ==> Tasks(Close(s, w), Close(s, w).windows[u].inbox)
  {
    var s' := Close(s, w);
    forall u | 0 <= u < |s'.windows|
      ensures InWindow(s', u, s'.windows[u].inbox) && Tasks(s', s'.windows[u].inbox)
    {
      var v := Kept(s.windows, w, u);
      assert InWindow(s, v, s.windows[v].inbox);
    }
  }

  lemma {:induction false} CloseShape(s: State, w: nat)
    requires w < |s.windows|
    ensures var s', order := Close(s, w), s.windows[w].order;
      && s'.nextTab == s.nextTab && s'.commits == s.commits && s'.released == s.released + s.windows[w].inbox
      && |s'.tasks| == |s.tasks|
      && (forall t :: 0 <= t < |s.tasks| ==>
            && s'.tasks[t].tab == s.tasks[t].tab && s'.tasks[t].generation == s.tasks[t].generation
            && s'.tasks[t].cancelled == (s.tasks[t].cancelled || t in PendingOf(s.slots, order)))
      && (forall id :: id in s'.slots <==> id in s.slots && id !in order)
      && (forall id :: id in s'.slots ==> s'.slots[id] == s.slots[id])
  {
    hide PendingOf;
    CancelledTabs(s.tasks, PendingOf(s.slots, s.windows[w].order));
  }

  lemma {:induction false} CloseLive(s: State, w: nat)
    requires w < |s.windows| && PendingLive(s) && InWindow(s, w, s.windows[w].inbox)
    ensures PendingLive(Close(s, w))
  {
    CloseShape(s, w);
    hide Close;
    var s', order := Close(s, w), s.windows[w].order;
    forall id | id in s'.slots && s'.slots[id].pending.Some?
      ensures s'.slots[id].pending.value !in s'.released && !s'.tasks[s'.slots[id].pending.value].cancelled
    {
      var t := s.slots[id].pending.value;
      assert s.tasks[t].tab == id && id !in order;
    }
  }

  lemma {:induction false} CloseOthers(s: State, w: nat)
    requires w < |s.windows| && OthersCancelled(s)
    ensures OthersCancelled(Close(s, w))
  {
    CloseShape(s, w);
    hide Close;
    var s', order := Close(s, w), s.windows[w].order;
    forall t | 0 <= t < |s'.tasks| && t !in s'.released && !s'.tasks[t].cancelled
      ensures s'.tasks[t].tab in s'.slots && s'.slots[s'.tasks[t].tab].pending == Some(t)
    {
      assert s.slots[s.tasks[t].tab].pending == Some(t);
      assert s.tasks[t].tab in order ==> t in PendingOf(s.slots, order);
    }
  }

  lemma {:induction false} CloseOrdered(s: State, w: nat)
    requires w < |s.windows| && Ordered(s) && Delivered(s)
    ensures Ordered(Close(s, w))
  {
    assert InWindow(s, w, s.windows[w].inbox);
    CloseLive(s, w);
    CloseOthers(s, w);
    CloseShape(s, w);
    hide Close, PendingLive, OthersCancelled, Delivered, PendingOf;
  }

  lemma {:induction false} CloseWired(s: State, w: nat)
    requires Wired(s) && w < |s.windows| && s.desk.Idle?
    requires forall u, k :: 0 <= u < |Close(s, w).windows| && 0 <= k < |Close(s, w).windows[u].order| ==>
      Close(s, w).windows[u].order[k] in Close(s, w).slots
    requires forall u :: 0 <= u < |Close(s, w).windows| ==> Tasks(Close(s, w), Close(s, w).windows[u].inbox)
    ensures Wired(Close(s, w))
  {
    hide PendingOf;
  }

  lemma {:induction false} CloseKeeps(s: State, w: nat)
    requires Wired(s) && w < |s.windows| && Windowed(s) && Ordered(s) && s.desk.Idle?
    ensures Wired(Close(s, w)) && Windowed(Close(s, w)) && Ordered(Close(s, w))
  {
    hide Close, Wired, Ordered, EveryTabShown, ShownOnce, Delivered;
    CloseShown(s, w);
    CloseDelivered(s, w);
    CloseOrdered(s, w);
    CloseWired(s, w);
  }

  lemma {:induction false} NoWindows(s: State)
    requires Wired(s) && EveryTabShown(s) && s.windows == []
    ensures s.slots == map[]
  {
    assert forall id :: id !in s.slots;
  }

  lemma {:induction false} StopKeeps(s: State)
    requires Good(s) && Enabled(s, Stop)
    ensures Wired(Next(s, Stop)) && Windowed(Next(s, Stop)) && Ordered(Next(s, Stop))
  {
    NoWindows(s);
  }

  lemma {:induction false} CollectKeeps(s: State)
    requires Good(s) && Enabled(s, Collect)
    ensures Wired(Next(s, Collect)) && Windowed(Next(s, Collect)) && Ordered(Next(s, Collect))
  {
    NoWindows(s);
  }

  lemma {:induction false} PhasesKept(s: State, e: Step)
    requires Wired(s) && Phases(s) && Enabled(s, e)
    ensures Phases(Next(s, e))
  {
    hide Cancelled, PendingOf, Wired, Finished, CommittedHistory, Accepts, Recorded, Owner, VirtualHistory, MoveTarget;
  }

  lemma {:induction false} QuietWired(s: State, e: Step)
    requires Wired(s) && Enabled(s, e) && Quiet(e)
    ensures Wired(Next(s, e))
  {
    if e.Select? || e.MovePage? || e.RecordFragment? {
      SessionWired(s, e);
    } else {
      hide Sound;
      PlacesWired(s, e);
    }
  }

  lemma {:induction false} SlotWired(s: State, id: nat, slot: Slot)
    requires Wired(s) && id in s.slots && Sound(slot.session)
    ensures Wired(SetSlot(s, id, slot))
  {
    hide Sound;
    forall v | 0 <= v < |s.windows| ensures Tasks(SetSlot(s, id, slot), s.windows[v].inbox) {
      assert Tasks(s, s.windows[v].inbox);
    }
  }

  lemma {:induction false} SelectWired(s: State, w: nat, i: nat)
    requires Wired(s) && w < |s.windows|
    ensures Wired(s.(windows := s.windows[w := s.windows[w].(active := i)]))
  {
    hide Sound;
    var s' := s.(windows := s.windows[w := s.windows[w].(active := i)]);
    forall v | 0 <= v < |s.windows| ensures Tasks(s', s'.windows[v].inbox) {
      assert Tasks(s, s.windows[v].inbox);
    }
    forall v, k | 0 <= v < |s'.windows| && 0 <= k < |s'.windows[v].order|
      ensures s'.windows[v].order[k] in s'.slots
    {
      assert s.windows[v].order[k] in s.slots;
    }
  }

  lemma {:induction false} SessionWired(s: State, e: Step)
    requires Wired(s) && Enabled(s, e) && (e.Select? || e.MovePage? || e.RecordFragment?)
    ensures Wired(Next(s, e))
  {
    if e.Select? {
      SelectWired(s, e.window, e.index);
    } else {
      var id := if e.MovePage? then e.tab else Selected(s, e.window).value;
      SlotSound(s, e, id);
      hide PlacesIn, TabsIn, Sound;
      SlotWired(s, id, Next(s, e).slots[id]);
    }
  }

  lemma {:induction false} SlotSound(s: State, e: Step, id: nat)
    requires Wired(s) && Enabled(s, e) && (e.MovePage? || e.RecordFragment?)
    requires id == if e.MovePage? then e.tab else Selected(s, e.window).value
    ensures id in s.slots && id in Next(s, e).slots && Sound(Next(s, e).slots[id].session)
    ensures Next(s, e) == SetSlot(s, id, Next(s, e).slots[id])
  {
    hide PlacesIn;
    if e.RecordFragment? {
      assert id in s.windows[e.window].order;
    }
    assert Sound(s.slots[id].session);
  }

  lemma {:induction false} TabsInFrame(s: State, s': State)
    requires TabsIn(s) && s'.windows == s.windows && s'.slots == s.slots && |s'.tasks| == |s.tasks|
    ensures TabsIn(s')
  {
    hide Sound;
    forall v | 0 <= v < |s'.windows| ensures Tasks(s', s'.windows[v].inbox) {
      assert Tasks(s, s.windows[v].inbox);
    }
  }

  lemma {:induction false} PlacesWired(s: State, e: Step)
    requires Wired(s) && Enabled(s, e) && Quiet(e) && !e.Select? && !e.MovePage? && !e.RecordFragment?
    ensures Wired(Next(s, e))
  {
    hide TabsIn;
    if !e.BeginPump? && !e.EndPump? {
      LoaderPlaces(s, e);
    }
    TabsInFrame(s, Next(s, e));
  }

  lemma {:induction false} LoaderPlaces(s: State, e: Step)
    requires Wired(s) && Enabled(s, e)
    requires e.Take? || e.CompleteStart? || e.Activate? || e.FinishLoad? || e.Reap? || e.NetworkFails? || e.Exit?
    ensures PlacesIn(Next(s, e))
  {
    hide TabsIn, AddTab, Request, AskTraversal, CommitTask, RouteTask, Close, MovePageTo, RecordIn, Cancelled, Elements;
    if e.CompleteStart? || e.FinishLoad? || e.Reap? {
      FinishPlaces(s, e);
    }
  }

  lemma {:induction false} FinishPlaces(s: State, e: Step)
    requires Wired(s) && Enabled(s, e) && (e.CompleteStart? || e.FinishLoad? || e.Reap?)
    ensures PlacesIn(Next(s, e))
  {
    hide TabsIn, Loads;
  }

  lemma {:induction false} WindowStepKeeps(s: State, e: Step)
    requires Good(s) && Enabled(s, e) && ReleasedExist(s)
    requires e.OpenWindow? || e.NewTab? || e.Navigate? || e.Traverse? || e.CloseWindow?
    ensures Wired(Next(s, e)) && Windowed(Next(s, e)) && Ordered(Next(s, e))
  {
    EverySlotBelow(s);
    hide Ordered, Windowed, Phases;
    if e.OpenWindow? {
      hide Wired;
      OpenKeeps(s);
    } else if e.NewTab? {
      hide AddTab;
      AddWired(s, e.window, e.url);
      AddWindowed(s, e.window, e.url);
      WindowedShown(s);
      AddOrdered(s, e.window, e.url);
    } else if e.Navigate? {
      hide Request;
      var id := Selected(s, e.window).value;
      RequestWired(s, id, e.url, Navigation);
      RequestWindowed(s, id, e.url, Navigation);
      RequestOrdered(s, id, e.url, Navigation);
    } else if e.Traverse? {
      hide AskTraversal;
      TraverseKeeps(s, Selected(s, e.window).value, e.move);
    } else {
      hide Close;
      CloseKeeps(s, e.window);
    }
  }

  lemma {:induction false} WindowedShown(s: State)
    requires Windowed(s)
    ensures EveryTabShown(s)
  {
  }

  lemma {:induction false} EverySlotBelow(s: State)
    requires Good(s)
    ensures forall id :: id in s.slots ==> id < s.nextTab
  {
  }

  /** Every step keeps the order of loads, whichever thread takes it. */
  lemma {:induction false} StepKeeps(s: State, e: Step)
    requires Good(s) && Enabled(s, e) && ReleasedExist(s)
    ensures Good(Next(s, e))
  {
    PhasesKept(s, e);
    if Quiet(e) {
      hide Wired, Ordered, Windowed, Phases, Next, Enabled;
      QuietWired(s, e);
      QuietKeeps(s, e);
    } else {
      hide Wired, Ordered, Windowed, Phases, Next, Enabled;
      if e.RouteOne? {
        WindowedShown(s);
        RouteWired(s);
        RouteWindowed(s);
        RouteOrdered(s);
      } else if e.OpenInbox? {
        InboxKeeps(s);
      } else if e.CommitOne? {
        CommitKeeps(s, e.resized);
      } else if e.Stop? {
        StopKeeps(s);
      } else if e.Collect? {
        CollectKeeps(s);
      } else {
        WindowStepKeeps(s, e);
      }
    }
  }
}
