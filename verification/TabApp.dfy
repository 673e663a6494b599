/** The app of src/tabset.c as an object.

    Its methods are the pieces the two threads run under the mutex or alone: each is one step of
    TabMachine, with the loops of the C code that search for a tab, cancel the loads of a window and
    release completions.
*/
module TabApp {
  import opened Results
  import opened Sessions
  import opened TabMachine
  import TabOrder
  import TabPump

  /** A load the loader takes off its active list. */
  predicate Due(s: State, t: nat, forced: bool)
    requires t < |s.tasks|
  {
    s.tasks[t].completed || forced || s.tasks[t].cancelled
  }

  /** One pass over the active list from position i on. */
  function Reaped(s: State, i: nat, forced: bool): State
    requires Wired(s) && i <= |s.active| && (forced ==> s.failed || s.stopping)
    decreases |s.active| - i
  {
    if i == |s.active| then s
    else if Due(s, s.active[i], forced) then
      ReapWired(s, i);
      Reaped(Next(s, Reap(i)), i, forced)
    else Reaped(s, i + 1, forced)
  }

  lemma {:induction false} ReapWired(s: State, i: nat)
    requires Wired(s) && i < |s.active|
    requires s.tasks[s.active[i]].completed || s.tasks[s.active[i]].cancelled || s.failed || s.stopping
    ensures Enabled(s, Reap(i)) && Wired(Next(s, Reap(i)))
    ensures |Next(s, Reap(i)).active| == |s.active| - 1
  {
    var s' := Next(s, Reap(i));
    forall v | 0 <= v < |s'.windows| ensures Tasks(s', s'.windows[v].inbox) {
      assert Tasks(s, s.windows[v].inbox);
    }
  }

  /** A pass leaves no load that is due, and none at all when it is forced. */
  lemma {:induction false} NothingDue(s: State, i: nat, forced: bool)
    requires Wired(s) && i <= |s.active| && (forced ==> s.failed || s.stopping)
    requires (forced ==> i == 0) && forall k :: 0 <= k < i ==> !Due(s, s.active[k], forced)
    requires forall j, k :: 0 <= j < k < |s.active| ==> s.active[j] != s.active[k]
    ensures var r := Reaped(s, i, forced);
      && Wired(r)
      && (forall k :: 0 <= k < |r.active| ==> !Due(r, r.active[k], forced))
      && (forced ==> r.active == [])
    decreases |s.active| - i
  {
    if i < |s.active| {
      if Due(s, s.active[i], forced) {
        ReapWired(s, i);
        ReapShape(s, i);
        var s' := Next(s, Reap(i));
        hide Next, Enabled, Wired;
        NothingDue(s', i, forced);
      } else {
        NothingDue(s, i + 1, forced);
      }
    }
  }

  lemma {:induction false} ReapShape(s: State, i: nat)
    requires Wired(s) && Enabled(s, Reap(i))
    ensures var s' := Next(s, Reap(i));
      && s'.active == s.active[..i] + s.active[i + 1..] && |s'.tasks| == |s.tasks|
      && s'.failed == s.failed && s'.stopping == s.stopping
      && forall t :: 0 <= t < |s.tasks| && t != s.active[i] ==> s'.tasks[t] == s.tasks[t]
  {
  }

  lemma {:induction false} OwnerFrom(s: State, t: nat, w: nat)
    requires t < |s.tasks| && w <= |s.windows|
    requires forall v :: 0 <= v < w ==> !OwnedBy(s, v, t)
    ensures Owner(s, t, 0) == Owner(s, t, w)
    decreases w
  {
    if w > 0 {
      OwnerFrom(s, t, w - 1);
    }
  }

  lemma {:induction false} WindowTabs(s: State, w: nat)
    requires Wired(s) && w < |s.windows|
    ensures forall k :: 0 <= k < |s.windows[w].order| ==> s.windows[w].order[k] in s.slots
  {
  }

  lemma {:induction false} ActiveTask(s: State, i: nat)
    requires Wired(s) && i < |s.active|
    ensures s.active[i] < |s.tasks|
  {
  }

  class App {
    var tasks: seq<Task>
    var slots: map<nat, Slot>
    var windows: seq<Window>
    var nextTab: nat
    var desk: Desk
    var stopping: bool
    var queue: seq<nat>
    var hand: Option<nat>
    var active: seq<nat>
    var failed: bool
    var exited: bool
    var completed: seq<nat>
    var collected: bool
    ghost var released: seq<nat>
    ghost var commits: seq<(nat, nat)>

    ghost function Abs(): State
      reads this
    {
      State(tasks, slots, windows, nextTab, desk, stopping, queue, hand, active, failed, exited, completed,
            collected, released, commits)
    }

    constructor ()
      ensures Abs() == INITIAL
    {
      tasks, slots, windows, nextTab, desk := [], map[], [], 1, Idle;
      stopping, queue, hand, active, failed := false, [], None, [], false;
      exited, completed, collected, released, commits := false, [], false, [], [];
    }

    // ----- Window thread -----

    method CreateWindow()
      requires Wired(Abs()) && Enabled(Abs(), OpenWindow)
      modifies this
      ensures Abs() == Next(old(Abs()), OpenWindow)
    {
      windows := windows + [Window([], 0, [])];
    }

    method AppendNewSlot(w: nat, url: string) returns (ok: bool)
      requires Wired(Abs()) && Enabled(Abs(), NewTab(w, url))
      modifies this
      ensures Abs() == Next(old(Abs()), NewTab(w, url))
      ensures ok <==> |old(windows)[w].order| < MAX_TABS && old(nextTab) != UINT64_MAX
    {
      hide TabsIn, PlacesIn;
      var win := windows[w];
      if |win.order| >= MAX_TABS {
        return false;
      }
      if nextTab == UINT64_MAX {
        return false;
      }
      var t := |tasks|;
      tasks := tasks + [Fresh(nextTab, 1, url, Navigation)];
      slots := slots[nextTab := Slot(1, Some(t), EMPTY)];
      windows := windows[w := win.(order := win.order + [nextTab], active := |win.order|)];
      nextTab := nextTab + 1;
      queue := queue + [t];
      ok := true;
    }

    method Publish(id: nat, url: string, kind: LoadKind) returns (ok: bool)
      requires id in slots && (slots[id].pending.Some? ==> slots[id].pending.value < |tasks|)
      modifies this
      ensures Abs() == Request(old(Abs()), id, url, kind)
      ensures ok <==> old(slots)[id].generation != UINT64_MAX
    {
      var slot := slots[id];
      if slot.generation == UINT64_MAX {
        return false;
      }
      var t := |tasks|;
      if slot.pending.Some? {
        tasks := tasks[slot.pending.value := tasks[slot.pending.value].(cancelled := true)];
        assert tasks == Cancelled(old(tasks), {slot.pending.value});
      } else {
        assert tasks == Cancelled(old(tasks), {});
      }
      tasks := tasks + [Fresh(id, slot.generation + 1, url, kind)];
      slots := slots[id := slot.(generation := slot.generation + 1, pending := Some(t))];
      queue := queue + [t];
      ok := true;
    }

    method VirtualView(slot: Slot) returns (count: int, index: int)
      requires slot.pending.Some? ==> slot.pending.value < |tasks|
      ensures (count, index) == VirtualHistory(slot.session, PendingKind(Abs(), slot))
    {
      count, index := |slot.session.urls|, slot.session.index;
      if slot.pending.Some? {
        var kind := tasks[slot.pending.value].kind;
        if kind.Navigation? {
          count := if count > 0 then index + 2 else 1;
          index := count - 1;
        } else {
          index := kind.target;
        }
      }
    }

    method TraverseTab(id: nat, move: Move) returns (ok: bool)
      requires id in slots && (slots[id].pending.Some? ==> slots[id].pending.value < |tasks|)
      modifies this
      ensures Abs() == AskTraversal(old(Abs()), id, move)
    {
      hide Request, VirtualHistory;
      var slot := slots[id];
      var count, index := VirtualView(slot);
      if (move.Back? && index == 0) || (move.Forward? && index + 1 >= count) {
        return true;
      }
      var target := if move.Back? then index - 1 else index + 1;
      if target < 0 || target >= |slot.session.urls| {
        return false;
      }
      ok := Publish(id, slot.session.urls[target], Traversal(target));
    }

    method History(w: nat, move: Move) returns (ok: bool)
      requires Wired(Abs()) && Enabled(Abs(), Traverse(w, move))
      modifies this
      ensures Abs() == Next(old(Abs()), Traverse(w, move))
    {
      hide AskTraversal;
      var win := windows[w];
      ok := TraverseTab(win.order[win.active], move);
    }

    method NavigateUrl(w: nat, url: string) returns (ok: bool)
      requires Wired(Abs()) && Enabled(Abs(), Navigate(w, url)) && PendingKnown(Abs(), Selected(Abs(), w).value)
      modifies this
      ensures Abs() == Next(old(Abs()), Navigate(w, url))
    {
      hide Request;
      var win := windows[w];
      ok := Publish(win.order[win.active], url, Navigation);
    }

    method StartRouting(w: nat)
      requires Wired(Abs()) && Enabled(Abs(), BeginPump(w))
      modifies this
      ensures Abs() == Next(old(Abs()), BeginPump(w))
    {
      desk, completed := Routing(w, completed), [];
    }

    /** tabset_owning: the first window with the tab of t. */
    method FindOwner(t: nat) returns (w: nat)
      requires Wired(Abs()) && t < |tasks|
      ensures w == Owner(Abs(), t, 0)
    {
      w := 0;
      while w < |windows|
        invariant w <= |windows|
        invariant forall v :: 0 <= v < w ==> !OwnedBy(Abs(), v, t)
      {
        var found := HasTab(w, tasks[t].tab);
        if found {
          break;
        }
        w := w + 1;
      }
      OwnerFrom(Abs(), t, w);
    }

    /** slot_by_id. */
    method HasTab(w: nat, id: nat) returns (found: bool)
      requires w < |windows|
      ensures found <==> id in windows[w].order
    {
      var order := windows[w].order;
      var i := 0;
      while i < |order|
        invariant i <= |order| && forall k :: 0 <= k < i ==> order[k] != id
      {
        if order[i] == id {
          return true;
        }
        i := i + 1;
      }
      found := false;
    }

    method Route()
      requires Wired(Abs()) && Enabled(Abs(), RouteOne)
      modifies this
      ensures Abs() == Next(old(Abs()), RouteOne)
    {
      hide Owner, TabsIn;
      assert desk.items[0] < |tasks|;
      hide PlacesIn;
      var t := desk.items[0];
      var w := FindOwner(t);
      if w < |windows| {
        windows := windows[w := windows[w].(inbox := windows[w].inbox + [t])];
      } else {
        released := released + [t];
      }
      desk := Routing(desk.window, desk.items[1..]);
    }

    method TakeInbox()
      requires Wired(Abs()) && Enabled(Abs(), OpenInbox)
      modifies this
      ensures Abs() == Next(old(Abs()), OpenInbox)
    {
      var w := desk.window;
      desk := Committing(w, windows[w].inbox);
      windows := windows[w := windows[w].(inbox := [])];
    }

    /** What a page may do for its tab. */
    method CommitPage(slot: Slot, task: Task, resized: bool) returns (after: Slot, ok: bool)
      requires Sound(slot.session)
      modifies `commits
      ensures after.generation == slot.generation && after.pending == None
      ensures after.session ==
        if task.page.Some? && resized then CommittedHistory(slot.session, task.page.value, task.kind) else slot.session
      ensures commits == old(commits) +
        if task.page.Some? && resized && Accepts(slot.session, task.page.value, task.kind)
        then [(task.tab, task.generation)] else []
      ensures ok <==> task.page.Some? ==> resized && Accepts(slot.session, task.page.value, task.kind)
    {
      after, ok := slot.(pending := None), true;
      if task.page.Some? {
        if !resized {
          return after, false;
        }
        match task.kind {
          case Navigation =>
            after := after.(session := Navigated(slot.session, task.page.value));
            commits := commits + [(task.tab, task.generation)];
          case Traversal(target) =>
            if target < |slot.session.urls| && task.page.value == slot.session.urls[target] {
              after := after.(session := Traversed(slot.session, task.page.value, target));
              commits := commits + [(task.tab, task.generation)];
            } else {
              ok := false;
            }
        }
      }
    }

    method CommitTask(w: nat, t: nat, resized: bool) returns (changed: bool, ok: bool)
      requires Wired(Abs()) && w < |windows| && t < |tasks|
      modifies this
      ensures Abs() == TabMachine.CommitTask(old(Abs()), w, t, resized)
      ensures changed <==> Current(old(Abs()), w, t)
      ensures ok <==> (changed && old(tasks)[t].page.Some? ==>
        resized && Accepts(old(slots)[old(tasks)[t].tab].session, old(tasks)[t].page.value, old(tasks)[t].kind))
    {
      changed, ok := false, true;
      var task := tasks[t];
      var owned := HasTab(w, task.tab);
      assert owned ==> task.tab in slots && Sound(slots[task.tab].session);
      hide PlacesIn, TabsIn, CommittedHistory, Accepts, Sound;
      if owned && slots[task.tab].generation == task.generation && slots[task.tab].pending == Some(t) {
        changed := true;
        var after;
        after, ok := CommitPage(slots[task.tab], task, resized);
        slots := slots[task.tab := after];
      }
      released := released + [t];
    }

    method Commit(resized: bool) returns (changed: bool, ok: bool)
      requires Wired(Abs()) && Enabled(Abs(), CommitOne(resized))
      modifies this
      ensures Abs() == Next(old(Abs()), CommitOne(resized))
      ensures old(desk).items[0] < |old(tasks)|
      ensures changed <==> Current(old(Abs()), old(desk).window, old(desk).items[0])
      ensures var task := old(tasks)[old(desk).items[0]];
        ok <==> (changed && task.page.Some? ==>
          resized && Accepts(old(slots)[task.tab].session, task.page.value, task.kind))
    {
      hide TabsIn, Current, TabMachine.CommitTask;
      var w, rest := desk.window, desk.items[1..];
      changed, ok := CommitTask(w, desk.items[0], resized);
      desk := Committing(w, rest);
    }

    method FinishPump()
      requires Wired(Abs()) && Enabled(Abs(), EndPump)
      modifies this
      ensures Abs() == Next(old(Abs()), EndPump)
    {
      desk := Idle;
    }

    /** The loop of route_completions. */
    method RouteAll()
      requires TabOrder.Good(Abs()) && desk.Routing?
      modifies this
      ensures Abs() == TabPump.RoutedAll(old(Abs()))
    {
      hide Next, Enabled, Wired, TabOrder.Windowed, TabOrder.Ordered, TabOrder.Phases;
      while |desk.items| > 0
        invariant TabOrder.Good(Abs()) && desk.Routing? && TabPump.RoutedAll(Abs()) == TabPump.RoutedAll(old(Abs()))
        decreases |desk.items|
      {
        TabPump.RouteGood(Abs());
        Route();
      }
    }

    /** The loop of tai_tabset_pump. */
    method CommitAll(unfit: set<nat>) returns (changed: bool, ok: bool)
      requires TabOrder.Good(Abs()) && desk.Committing?
      modifies this
      ensures Abs() == TabPump.CommittedAll(old(Abs()), unfit)
      ensures changed <==> TabPump.Disturbs(old(slots), old(desk).items)
      ensures ok <==> !TabPump.Refuses(old(slots), old(tasks), old(desk).items, unfit)
    {
      hide Next, Enabled, Wired, TabOrder.Windowed, TabOrder.Ordered, TabOrder.Phases, TabPump.SettledSlots,
        TabPump.Disturbs, TabPump.Refuses, Current, Accepts;
      changed, ok := false, true;
      while |desk.items| > 0
        invariant TabOrder.Good(Abs()) && desk.Committing?
        invariant TabPump.CommittedAll(Abs(), unfit) == TabPump.CommittedAll(old(Abs()), unfit)
        invariant TabPump.Disturbs(old(slots), old(desk).items) <==> changed || TabPump.Disturbs(slots, desk.items)
        invariant TabPump.Refuses(old(slots), old(tasks), old(desk).items, unfit) <==>
          !ok || TabPump.Refuses(slots, tasks, desk.items, unfit)
        decreases |desk.items|
      {
        ghost var before := Abs();
        var resized := desk.items[0] !in unfit;
        TabPump.CommitGood(before, resized);
        TabPump.CommitOneSettles(before, resized, unfit);
        TabPump.OneReports(before, unfit);
        var disturbed, took := Commit(resized);
        TabPump.DisturbsNext(before.slots, slots, tasks, before.desk.items, unfit);
        TabPump.RefusesNext(before.slots, slots, tasks, before.desk.items, unfit);
        changed, ok := changed || disturbed, ok && took;
      }
      TabPump.NothingReported(slots, tasks, unfit);
    }

    /** tai_tabset_pump, with no step of the loader in between; the pages of `unfit` cannot be
        resized. It reports whether a load was still current, and whether every page of one took its
        place. */
    method Pump(w: nat, unfit: set<nat>) returns (changed: bool, ok: bool)
      requires TabOrder.Good(Abs()) && Enabled(Abs(), BeginPump(w))
      modifies this
      ensures Abs() == TabPump.Pumped(old(Abs()), w, unfit) && w < |old(windows)|
      ensures changed <==> TabPump.Disturbs(old(slots), TabPump.Arrived(old(Abs()), w))
      ensures ok <==> !TabPump.Refuses(old(slots), old(tasks), TabPump.Arrived(old(Abs()), w), unfit)
    {
      hide Next, Enabled, Wired, TabOrder.Windowed, TabOrder.Ordered, TabOrder.Phases,
        TabPump.RoutedAll, TabPump.CommittedAll, TabPump.Disturbs, TabPump.Refuses;
      TabPump.TakenShape(Abs(), w);
      TabPump.BeginGood(Abs(), w);
      StartRouting(w);
      RouteAll();
      TabPump.InboxGood(Abs());
      TakeInbox();
      changed, ok := CommitAll(unfit);
      TabPump.EndGood(Abs());
      FinishPump();
    }

    method CancelPending(order: seq<nat>)
      requires forall k :: 0 <= k < |order| ==> order[k] in slots
      requires forall id :: id in slots && slots[id].pending.Some? ==> slots[id].pending.value < |tasks|
      modifies `tasks
      ensures tasks == Cancelled(old(tasks), PendingOf(slots, order))
    {
      var i := 0;
      while i < |order|
        invariant i <= |order|
        invariant |tasks| == |old(tasks)| && tasks == Cancelled(old(tasks), PendingOf(slots, order[..i]))
      {
        var pending := slots[order[i]].pending;
        assert order[..i + 1] == order[..i] + [order[i]];
        if pending.Some? {
          tasks := tasks[pending.value := tasks[pending.value].(cancelled := true)];
          assert PendingOf(slots, order[..i + 1]) == PendingOf(slots, order[..i]) + {pending.value};
        } else {
          assert PendingOf(slots, order[..i + 1]) == PendingOf(slots, order[..i]);
        }
        i := i + 1;
      }
      assert order[..i] == order;
    }

    /** tai_tabset_destroy: the loads of its tabs are cancelled, the tabs go, and so does its inbox. */
    method DestroyTabs(w: nat)
      requires w < |windows| && forall k :: 0 <= k < |windows[w].order| ==> windows[w].order[k] in slots
      requires forall id :: id in slots && slots[id].pending.Some? ==> slots[id].pending.value < |tasks|
      modifies this
      ensures Abs() == Close(old(Abs()), w)
    {
      hide Cancelled, PendingOf, Unregistered;
      var win := windows[w];
      CancelPending(win.order);
      windows := windows[..w] + windows[w + 1..];
      slots := Unregistered(slots, win.order);
      released := released + win.inbox;
    }

    method DestroyWindow(w: nat)
      requires Wired(Abs()) && Enabled(Abs(), CloseWindow(w))
      requires forall id :: id in slots && slots[id].pending.Some? ==> slots[id].pending.value < |tasks|
      modifies this
      ensures Abs() == Next(old(Abs()), CloseWindow(w))
    {
      WindowTabs(Abs(), w);
      hide Close, PlacesIn, TabsIn;
      DestroyTabs(w);
    }

    method CancelAll(ids: seq<nat>)
      requires forall k :: 0 <= k < |ids| ==> ids[k] < |tasks|
      modifies `tasks
      ensures tasks == Cancelled(old(tasks), Elements(ids))
    {
      var i := 0;
      while i < |ids|
        invariant i <= |ids|
        invariant |tasks| == |old(tasks)| && tasks == Cancelled(old(tasks), Elements(ids[..i]))
      {
        tasks := tasks[ids[i] := tasks[ids[i]].(cancelled := true)];
        assert ids[..i + 1] == ids[..i] + [ids[i]];
        assert Elements(ids[..i + 1]) == Elements(ids[..i]) + {ids[i]};
        i := i + 1;
      }
      assert ids[..i] == ids;
    }

    method BeginShutdown()
      requires Wired(Abs()) && Enabled(Abs(), Stop)
      modifies this
      ensures Abs() == Next(old(Abs()), Stop)
    {
      hide Cancelled, Elements, TabsIn;
      stopping := true;
      CancelAll(queue);
    }

    method FreeAll(ids: seq<nat>)
      modifies `released
      ensures released == old(released) + ids
    {
      var i := 0;
      while i < |ids|
        invariant i <= |ids| && released == old(released) + ids[..i]
      {
        released := released + [ids[i]];
        i := i + 1;
      }
    }

    /** What no thread will ever take any more. */
    method ReleaseRest()
      modifies this
      ensures Abs() == old(Abs()).(released := old(released) + old(completed) + old(queue),
                                   completed := [], queue := [], collected := true)
    {
      FreeAll(completed);
      FreeAll(queue);
      completed, queue, collected := [], [], true;
    }

    method Release()
      requires Wired(Abs()) && Enabled(Abs(), Collect)
      modifies this
      ensures Abs() == Next(old(Abs()), Collect)
    {
      hide PlacesIn, TabsIn;
      ReleaseRest();
    }

    // ----- Loader thread -----

    method TakeQueued()
      requires Wired(Abs()) && Enabled(Abs(), Take)
      modifies this
      ensures Abs() == Next(old(Abs()), Take)
    {
      hand, queue := Some(queue[0]), queue[1..];
    }

    method AppendCompletion(t: nat, page: Option<string>)
      requires t < |tasks|
      modifies this
      ensures Abs() == TabMachine.Publish(old(Abs()), t, page)
    {
      tasks := tasks[t := tasks[t].(completed := true, page := page)];
      completed := completed + [t];
    }

    method StartCompletes(page: Option<string>)
      requires Wired(Abs()) && Enabled(Abs(), CompleteStart(page))
      modifies this
      ensures Abs() == Next(old(Abs()), CompleteStart(page))
    {
      var t := hand.value;
      hand := None;
      AppendCompletion(t, page);
    }

    method StartActive()
      requires Wired(Abs()) && Enabled(Abs(), Activate)
      modifies this
      ensures Abs() == Next(old(Abs()), Activate)
    {
      active, hand := [hand.value] + active, None;
    }

    /** cancel_or_reap_loads. */
    method CancelOrReap(forced: bool)
      requires Wired(Abs()) && (forced ==> failed || stopping)
      modifies this
      ensures Abs() == Reaped(old(Abs()), 0, forced)
    {
      hide TabMachine.Publish, TabsIn, Reaped;
      var i := 0;
      while i < |active|
        invariant i <= |active| && Wired(Abs()) && (forced ==> failed || stopping)
        invariant Reaped(Abs(), i, forced) == Reaped(old(Abs()), 0, forced)
        decreases |active| - i
      {
        var t := active[i];
        ReapedOnce(Abs(), i, forced);
        if tasks[t].completed || forced || tasks[t].cancelled {
          ReapOne(i);
        } else {
          i := i + 1;
        }
      }
      ReapedEnd(Abs(), i, forced);
    }

    method ReapOne(i: nat)
      requires Wired(Abs()) && Enabled(Abs(), Reap(i))
      modifies this
      ensures Abs() == Next(old(Abs()), Reap(i)) && Wired(Abs())
      ensures |active| == |old(active)| - 1 && failed == old(failed) && stopping == old(stopping)
    {
      hide TabsIn, PlacesIn, Finished;
      ReapWired(Abs(), i);
      ActiveTask(Abs(), i);
      var t := active[i];
      active := active[..i] + active[i + 1..];
      AppendCompletion(t, if tasks[t].completed then tasks[t].page else None);
    }
  }

  lemma {:induction false} ReapedOnce(s: State, i: nat, forced: bool)
    requires Wired(s) && i < |s.active| && (forced ==> s.failed || s.stopping)
    ensures Due(s, s.active[i], forced) ==> Enabled(s, Reap(i))
    ensures Due(s, s.active[i], forced) ==> Wired(Next(s, Reap(i))) && |Next(s, Reap(i)).active| == |s.active| - 1
    ensures Reaped(s, i, forced) ==
      if Due(s, s.active[i], forced) then Reaped(Next(s, Reap(i)), i, forced) else Reaped(s, i + 1, forced)
  {
    hide TabsIn;
    if Due(s, s.active[i], forced) {
      ReapWired(s, i);
    }
  }

  lemma {:induction false} ReapedEnd(s: State, i: nat, forced: bool)
    requires Wired(s) && i == |s.active| && (forced ==> s.failed || s.stopping)
    ensures Reaped(s, i, forced) == s
  {
  }
}
