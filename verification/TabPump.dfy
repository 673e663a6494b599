/** tai_tabset_pump of src/tabset.c as a whole: what one pump of a window leaves behind. */
module TabPump {
  import opened Results
  import opened Sessions
  import opened TabMachine
  import opened TabOrder

  // ----- Its loops -----

  lemma {:induction false} RouteGood(s: State)
    requires Good(s) && s.desk.Routing? && s.desk.items != []
    ensures Enabled(s, RouteOne) && Good(Next(s, RouteOne))
    ensures Next(s, RouteOne).desk == Routing(s.desk.window, s.desk.items[1..])
  {
    assert Enabled(s, RouteOne);
    RouteShape(s);
    PhasesKept(s, RouteOne);
    hide Wired, Ordered, Windowed, Phases, Next, Enabled;
    WindowedShown(s);
    RouteWired(s);
    RouteWindowed(s);
    RouteOrdered(s);
  }

  lemma {:induction false} CommitGood(s: State, resized: bool)
    requires Good(s) && s.desk.Committing? && s.desk.items != []
    ensures Enabled(s, CommitOne(resized)) && Good(Next(s, CommitOne(resized)))
    ensures Next(s, CommitOne(resized)).desk == Committing(s.desk.window, s.desk.items[1..])
  {
    assert Enabled(s, CommitOne(resized));
    CommitDeskNext(s, resized);
    PhasesKept(s, CommitOne(resized));
    hide Wired, Ordered, Windowed, Phases, Next, Enabled;
    CommitKeeps(s, resized);
  }

  lemma {:induction false} CommitDeskNext(s: State, resized: bool)
    requires Wired(s) && Enabled(s, CommitOne(resized))
    ensures Next(s, CommitOne(resized)).desk == Committing(s.desk.window, s.desk.items[1..])
  {
    hide CommitTask, Wired;
  }

  /** Every completion on the desk goes to its window, or is released. */
  ghost function RoutedAll(s: State): (r: State)
    requires Good(s) && s.desk.Routing?
    ensures Good(r) && r.desk == Routing(s.desk.window, [])
    decreases |s.desk.items|
  {
    if s.desk.items == [] then s else RouteGood(s); RoutedAll(Next(s, RouteOne))
  }

  /** Every completion on the desk commits or is dropped; the pages of `unfit` cannot be resized. */
  ghost function CommittedAll(s: State, unfit: set<nat>): (r: State)
    requires Good(s) && s.desk.Committing?
    ensures Good(r) && r.desk == Committing(s.desk.window, [])
    decreases |s.desk.items|
  {
    if s.desk.items == [] then s
    else
      var resized := s.desk.items[0] !in unfit;
      CommitGood(s, resized);
      CommittedAll(Next(s, CommitOne(resized)), unfit)
  }

  lemma {:induction false} QuietGood(s: State, e: Step)
    requires Good(s) && Enabled(s, e) && Quiet(e)
    ensures Good(Next(s, e))
  {
    PhasesKept(s, e);
    hide Wired, Ordered, Windowed, Phases, Next, Enabled;
    QuietWired(s, e);
    QuietKeeps(s, e);
  }

  lemma {:induction false} BeginGood(s: State, w: nat)
    requires Good(s) && Enabled(s, BeginPump(w))
    ensures Good(Next(s, BeginPump(w))) && Next(s, BeginPump(w)) == s.(desk := Routing(w, s.completed), completed := [])
  {
    QuietGood(s, BeginPump(w));
    hide Good;
  }

  lemma {:induction false} EndGood(s: State)
    requires Good(s) && s.desk.Committing? && s.desk.items == []
    ensures Enabled(s, EndPump) && Good(Next(s, EndPump)) && Next(s, EndPump) == s.(desk := Idle)
  {
    QuietGood(s, EndPump);
    hide Good;
  }

  lemma {:induction false} InboxGood(s: State)
    requires Good(s) && s.desk.Routing? && s.desk.items == []
    ensures Enabled(s, OpenInbox) && Good(Next(s, OpenInbox))
    ensures s.desk.window < |s.windows|
    ensures Next(s, OpenInbox).desk == Committing(s.desk.window, s.windows[s.desk.window].inbox)
  {
    assert Enabled(s, OpenInbox) && s.desk.window < |s.windows|;
    assert Next(s, OpenInbox).desk == Committing(s.desk.window, s.windows[s.desk.window].inbox);
    PhasesKept(s, OpenInbox);
    hide Wired, Ordered, Windowed, Phases, Next, Enabled;
    InboxKeeps(s);
  }

  // ----- Where completions go -----

  /** Those whose tab belongs to window v first; at v == |windows|, those no window has a tab for. */
  function OwnedPart(s: State, v: nat, items: seq<nat>): seq<nat>
    requires Tasks(s, items)
    decreases |items|
  {
    if items == [] then []
    else (if Owner(s, items[0], 0) == v then [items[0]] else []) + OwnedPart(s, v, items[1..])
  }

  predicate SameTabs(a: seq<Task>, b: seq<Task>) {
    |a| == |b| && forall t :: 0 <= t < |a| ==> b[t].tab == a[t].tab
  }

  lemma {:induction false} OwnerFrame(s: State, s': State, t: nat, w: nat)
    requires t < |s.tasks| && w <= |s.windows| && SameTabs(s.tasks, s'.tasks) && SameOrders(s.windows, s'.windows)
    ensures Owner(s', t, w) == Owner(s, t, w)
    decreases |s.windows| - w
  {
    if w < |s.windows| {
      assert OwnedBy(s', w, t) == OwnedBy(s, w, t);
      OwnerFrame(s, s', t, w + 1);
    }
  }

  lemma {:induction false} OwnedFrame(s: State, s': State, v: nat, items: seq<nat>)
    requires Tasks(s, items) && SameTabs(s.tasks, s'.tasks) && SameOrders(s.windows, s'.windows)
    ensures OwnedPart(s', v, items) == OwnedPart(s, v, items)
    decreases |items|
  {
    if items != [] {
      OwnerFrame(s, s', items[0], 0);
      OwnedFrame(s, s', v, items[1..]);
    }
  }

  lemma {:induction false} OwnedHas(s: State, v: nat, items: seq<nat>, t: nat)
    requires Tasks(s, items)
    ensures t in OwnedPart(s, v, items) <==> t in items && Owner(s, t, 0) == v
    decreases |items|
  {
    if items != [] {
      OwnedHas(s, v, items[1..], t);
    }
  }

  /** The windows once the items have been routed. */
  function Sorted(s: State, items: seq<nat>): (r: seq<Window>)
    requires Tasks(s, items)
    ensures |r| == |s.windows|
  {
    seq(|s.windows|, v requires 0 <= v < |s.windows| =>
      s.windows[v].(inbox := s.windows[v].inbox + OwnedPart(s, v, items)))
  }

  lemma {:induction false} SortedNone(s: State)
    ensures Sorted(s, []) == s.windows
  {
    forall v | 0 <= v < |s.windows| ensures s.windows[v].inbox + [] == s.windows[v].inbox {
    }
  }

  lemma {:induction false} SortedNext(s: State, s': State, items: seq<nat>)
    requires Tasks(s, items) && items != [] && s'.tasks == s.tasks
    requires var w := Owner(s, items[0], 0);
      s'.windows == if w < |s.windows|
        then s.windows[w := s.windows[w].(inbox := s.windows[w].inbox + [items[0]])] else s.windows
    ensures Sorted(s', items[1..]) == Sorted(s, items) && SameOrders(s.windows, s'.windows)
  {
    assert SameOrders(s.windows, s'.windows);
    forall v | 0 <= v < |s.windows|
      ensures Sorted(s', items[1..])[v] == Sorted(s, items)[v]
    {
      OwnedFrame(s, s', v, items[1..]);
      hide Owner;
      if v == Owner(s, items[0], 0) {
        assert s.windows[v].inbox + [items[0]] + OwnedPart(s, v, items[1..]) == s.windows[v].inbox + OwnedPart(s, v, items);
      } else {
        assert OwnedPart(s, v, items) == [] + OwnedPart(s, v, items[1..]) == OwnedPart(s, v, items[1..]);
      }
    }
  }

  /** Routing sorts the completions by owner and touches nothing else. */
  lemma {:induction false} RoutedShape(s: State)
    requires Good(s) && s.desk.Routing?
    ensures Tasks(s, s.desk.items)
    ensures var r := RoutedAll(s);
      && r.tasks == s.tasks && r.slots == s.slots && r.commits == s.commits && r.completed == s.completed
      && r.windows == Sorted(s, s.desk.items)
      && r.released == s.released + OwnedPart(s, |s.windows|, s.desk.items)
    decreases |s.desk.items|
  {
    assert Tasks(s, s.desk.items);
    if s.desk.items == [] {
      SortedNone(s);
      hide Good, Sorted;
      assert s.released + [] == s.released;
    } else {
      RouteGood(s);
      RouteShape(s);
      var s', items := Next(s, RouteOne), s.desk.items;
      hide Good, Next, Enabled, Owner, Wired, Tasks;
      assert RoutedAll(s) == RoutedAll(s');
      RoutedShape(s');
      hide RoutedAll;
      RoutedStep(s, s', items);
    }
  }

  lemma {:induction false} RoutedStep(s: State, s': State, items: seq<nat>)
    requires Tasks(s, items) && items != [] && s'.tasks == s.tasks
    requires var t := items[0];
      var w := Owner(s, t, 0);
      if w < |s.windows| then
        s'.released == s.released && s'.windows == s.windows[w := s.windows[w].(inbox := s.windows[w].inbox + [t])]
      else s'.windows == s.windows && s'.released == s.released + [t]
    ensures Sorted(s', items[1..]) == Sorted(s, items)
    ensures s'.released + OwnedPart(s', |s'.windows|, items[1..]) == s.released + OwnedPart(s, |s.windows|, items)
  {
    SortedNext(s, s', items);
    OwnedFrame(s, s', |s.windows|, items[1..]);
    hide Owner, Sorted;
    var w := Owner(s, items[0], 0);
    var rest := OwnedPart(s, |s.windows|, items[1..]);
    if w < |s.windows| {
      assert [] + rest == rest;
    } else {
      assert s.released + [items[0]] + rest == s.released + ([items[0]] + rest);
    }
  }

  // ----- What commits -----

  /** A pending load that has arrived takes its place, or leaves the session as it was. */
  function SettledSlot(slot: Slot, tasks: seq<Task>, items: seq<nat>, unfit: set<nat>): (r: Slot)
    requires Sound(slot.session)
  {
    if slot.pending.Some? && slot.pending.value in items && slot.pending.value < |tasks| then
      var t := slot.pending.value;
      slot.(pending := None,
            session := if tasks[t].page.Some? && t !in unfit
                       then CommittedHistory(slot.session, tasks[t].page.value, tasks[t].kind) else slot.session)
    else slot
  }

  ghost predicate SettledSlots(slots: map<nat, Slot>, slots': map<nat, Slot>, tasks: seq<Task>, items: seq<nat>,
                               unfit: set<nat>)
  {
    && slots'.Keys == slots.Keys
    && forall id :: id in slots ==>
         Sound(slots[id].session) && slots'[id] == SettledSlot(slots[id], tasks, items, unfit)
  }

  lemma {:induction false} SettledNone(slots: map<nat, Slot>, tasks: seq<Task>, unfit: set<nat>)
    requires forall id :: id in slots ==> Sound(slots[id].session)
    ensures SettledSlots(slots, slots, tasks, [], unfit)
  {
    hide Sound;
  }

  lemma {:induction false} SettledMore(a: map<nat, Slot>, b: map<nat, Slot>, c: map<nat, Slot>, tasks: seq<Task>,
                                       items: seq<nat>, unfit: set<nat>)
    requires items != [] && SettledSlots(a, b, tasks, [items[0]], unfit) && SettledSlots(b, c, tasks, items[1..], unfit)
    ensures SettledSlots(a, c, tasks, items, unfit)
  {
    hide Sound, CommittedHistory;
    forall id | id in a
      ensures c[id] == SettledSlot(a[id], tasks, items, unfit)
    {
      assert b[id] == SettledSlot(a[id], tasks, [items[0]], unfit);
      assert c[id] == SettledSlot(b[id], tasks, items[1..], unfit);
    }
  }

  lemma {:induction false} CommitTaskIs(s: State, w: nat, t: nat, resized: bool)
    requires Wired(s) && w < |s.windows| && t < |s.tasks|
    ensures var r := CommitTask(s, w, t, resized);
      r.tasks == s.tasks && r.windows == s.windows && r.completed == s.completed && r.released == s.released + [t]
    ensures !Current(s, w, t) ==> CommitTask(s, w, t, resized).slots == s.slots
    ensures Current(s, w, t) ==>
      var task := s.tasks[t];
      && task.tab in s.slots && Sound(s.slots[task.tab].session) && s.slots[task.tab].pending == Some(t)
      && CommitTask(s, w, t, resized).slots == s.slots[task.tab := s.slots[task.tab].(pending := None,
           session := if task.page.Some? && resized
                      then CommittedHistory(s.slots[task.tab].session, task.page.value, task.kind)
                      else s.slots[task.tab].session)]
  {
    if Current(s, w, t) {
      assert Sound(s.slots[s.tasks[t].tab].session);
    }
    hide Wired, CommittedHistory, Accepts, Sound;
  }

  lemma {:induction false} CommitOneSettles(s: State, resized: bool, unfit: set<nat>)
    requires Good(s) && s.desk.Committing? && s.desk.items != [] && resized == (s.desk.items[0] !in unfit)
    ensures Enabled(s, CommitOne(resized))
    ensures var s', t := Next(s, CommitOne(resized)), s.desk.items[0];
      && s'.tasks == s.tasks && s'.windows == s.windows && s'.completed == s.completed
      && s'.released == s.released + [t] && SettledSlots(s.slots, s'.slots, s.tasks, [t], unfit)
  {
    CommitDesk(s);
    var t := s.desk.items[0];
    CurrentExactly(s, s.desk.window, t);
    OnlyItsTab(s, t);
    AllSound(s);
    CommitTaskIs(s, s.desk.window, t, resized);
    hide Good, Wired, CommittedHistory, Sound, Current, CommitTask;
  }

  lemma {:induction false} AllSound(s: State)
    requires Wired(s)
    ensures forall id :: id in s.slots ==> Sound(s.slots[id].session)
  {
  }

  lemma {:induction false} OnlyItsTab(s: State, t: nat)
    requires PendingLive(s) && t < |s.tasks|
    ensures forall id :: id in s.slots && s.slots[id].pending == Some(t) ==> id == s.tasks[t].tab
  {
  }

  lemma {:induction false} CommittedShape(s: State, unfit: set<nat>)
    requires Good(s) && s.desk.Committing?
    ensures var r := CommittedAll(s, unfit);
      && r.tasks == s.tasks && r.windows == s.windows && r.completed == s.completed
      && r.released == s.released + s.desk.items && SettledSlots(s.slots, r.slots, s.tasks, s.desk.items, unfit)
    decreases |s.desk.items|
  {
    if s.desk.items == [] {
      AllSound(s);
      SettledNone(s.slots, s.tasks, unfit);
      hide Good;
    } else {
      var resized := s.desk.items[0] !in unfit;
      CommitGood(s, resized);
      CommitOneSettles(s, resized, unfit);
      var s', items := Next(s, CommitOne(resized)), s.desk.items;
      assert CommittedAll(s, unfit) == CommittedAll(s', unfit);
      hide Good, Next, Enabled, SettledSlots, CommittedAll;
      CommittedShape(s', unfit);
      SettledMore(s.slots, s'.slots, CommittedAll(s', unfit).slots, s.tasks, items, unfit);
      FrontBack(s.released, items);
    }
  }

  lemma {:induction false} FrontBack(a: seq<nat>, items: seq<nat>)
    requires items != []
    ensures a + [items[0]] + items[1..] == a + items
  {
  }

  // ----- What a pump reports -----

  /** Some tab waits for one of the items. */
  ghost predicate Disturbs(slots: map<nat, Slot>, items: seq<nat>) {
    exists id :: id in slots && slots[id].pending.Some? && slots[id].pending.value in items
  }

  predicate RefusesPage(slot: Slot, task: Task, t: nat, unfit: set<nat>) {
    task.page.Some? && (t in unfit || !Accepts(slot.session, task.page.value, task.kind))
  }

  predicate RefusedSlot(slot: Slot, tasks: seq<Task>, items: seq<nat>, unfit: set<nat>) {
    && slot.pending.Some? && slot.pending.value in items && slot.pending.value < |tasks|
    && RefusesPage(slot, tasks[slot.pending.value], slot.pending.value, unfit)
  }

  /** The page of some load that a tab waits for among the items cannot take its place. */
  ghost predicate Refuses(slots: map<nat, Slot>, tasks: seq<Task>, items: seq<nat>, unfit: set<nat>) {
    exists id :: id in slots && RefusedSlot(slots[id], tasks, items, unfit)
  }

  lemma {:induction false} NothingReported(slots: map<nat, Slot>, tasks: seq<Task>, unfit: set<nat>)
    ensures !Disturbs(slots, []) && !Refuses(slots, tasks, [], unfit)
  {
  }

  lemma {:induction false} DisturbsNext(a: map<nat, Slot>, b: map<nat, Slot>, tasks: seq<Task>, items: seq<nat>,
                                        unfit: set<nat>)
    requires items != [] && items[0] < |tasks| && SettledSlots(a, b, tasks, [items[0]], unfit)
    ensures Disturbs(a, items) <==> Disturbs(a, [items[0]]) || Disturbs(b, items[1..])
  {
    hide CommittedHistory, Sound;
    forall id | id in a
      ensures b[id] == SettledSlot(a[id], tasks, [items[0]], unfit)
    {
    }
    if Disturbs(b, items[1..]) {
      var id :| id in b && b[id].pending.Some? && b[id].pending.value in items[1..];
      assert a[id].pending == b[id].pending && a[id].pending.value in items;
    }
    if Disturbs(a, items) && !Disturbs(a, [items[0]]) {
      var id :| id in a && a[id].pending.Some? && a[id].pending.value in items;
      assert a[id].pending.value !in [items[0]] && b[id].pending == a[id].pending;
      assert b[id].pending.value in items[1..];
    }
  }

  lemma {:induction false} RefusesNext(a: map<nat, Slot>, b: map<nat, Slot>, tasks: seq<Task>, items: seq<nat>,
                                       unfit: set<nat>)
    requires items != [] && items[0] < |tasks| && SettledSlots(a, b, tasks, [items[0]], unfit)
    ensures Refuses(a, tasks, items, unfit) <==> Refuses(a, tasks, [items[0]], unfit) || Refuses(b, tasks, items[1..], unfit)
  {
    hide CommittedHistory, Sound, RefusesPage;
    forall id | id in a
      ensures b[id] == SettledSlot(a[id], tasks, [items[0]], unfit)
    {
    }
    if Refuses(b, tasks, items[1..], unfit) {
      var id :| id in b && RefusedSlot(b[id], tasks, items[1..], unfit);
      assert a[id] == b[id] && RefusedSlot(a[id], tasks, items, unfit);
    }
    if Refuses(a, tasks, [items[0]], unfit) {
      var id :| id in a && RefusedSlot(a[id], tasks, [items[0]], unfit);
      assert RefusedSlot(a[id], tasks, items, unfit);
    }
    if Refuses(a, tasks, items, unfit) && !Refuses(a, tasks, [items[0]], unfit) {
      var id :| id in a && RefusedSlot(a[id], tasks, items, unfit);
      assert !RefusedSlot(a[id], tasks, [items[0]], unfit);
      assert b[id] == a[id] && RefusedSlot(b[id], tasks, items[1..], unfit);
    }
  }

  /** One completion disturbs a tab exactly when it is current. */
  lemma {:induction false} OneReports(s: State, unfit: set<nat>)
    requires Good(s) && s.desk.Committing? && s.desk.items != []
    ensures s.desk.window < |s.windows| && s.desk.items[0] < |s.tasks|
    ensures var t := s.desk.items[0];
      && (Disturbs(s.slots, [t]) <==> Current(s, s.desk.window, t))
      && (Refuses(s.slots, s.tasks, [t], unfit) <==>
            Current(s, s.desk.window, t) && RefusesPage(s.slots[s.tasks[t].tab], s.tasks[t], t, unfit))
  {
    CommitDesk(s);
    var t := s.desk.items[0];
    CurrentExactly(s, s.desk.window, t);
    OnlyItsTab(s, t);
    hide Good, Wired, Current, RefusesPage;
    if Current(s, s.desk.window, t) {
      assert s.slots[s.tasks[t].tab].pending.value in [t];
      if RefusesPage(s.slots[s.tasks[t].tab], s.tasks[t], t, unfit) {
        assert RefusedSlot(s.slots[s.tasks[t].tab], s.tasks, [t], unfit);
      }
    }
  }

  // ----- The whole pump -----

  /** The completions a pump of w brings to commit. */
  function Arrived(s: State, w: nat): seq<nat>
    requires Wired(s) && w < |s.windows|
  {
    s.windows[w].inbox + OwnedPart(s, w, s.completed)
  }

  /** The desk when the inbox has been taken. */
  ghost function Taken(s: State, w: nat): (r: State)
    requires Good(s) && Enabled(s, BeginPump(w))
    ensures Good(r) && r.desk.Committing?
  {
    hide Good, Next, Enabled;
    BeginGood(s, w);
    var routed := RoutedAll(Next(s, BeginPump(w)));
    InboxGood(routed);
    Next(routed, OpenInbox)
  }

  /** The pump of window w, if no other thread takes a step meanwhile. */
  ghost function Pumped(s: State, w: nat, unfit: set<nat>): (r: State)
    requires Good(s) && Enabled(s, BeginPump(w))
    ensures Good(r) && r.desk.Idle?
  {
    hide Good, Next, Enabled, Taken;
    var committed := CommittedAll(Taken(s, w), unfit);
    EndGood(committed);
    Next(committed, EndPump)
  }

  lemma {:induction false} TakenShape(s: State, w: nat)
    requires Good(s) && Enabled(s, BeginPump(w))
    ensures w < |s.windows| && Tasks(s, s.completed)
    ensures var r := Taken(s, w);
      && r.tasks == s.tasks && r.slots == s.slots && r.completed == [] && r.desk == Committing(w, Arrived(s, w))
      && r.windows == Sorted(s, s.completed)[w := s.windows[w].(inbox := [])]
      && r.released == s.released + OwnedPart(s, |s.windows|, s.completed)
  {
    assert Wired(s) && w < |s.windows| && Tasks(s, s.completed);
    hide Good, OwnedPart, Enabled;
    var begun := Next(s, BeginPump(w));
    BeginGood(s, w);
    var routed := RoutedAll(begun);
    RoutedShape(begun);
    BegunSame(s, begun, w);
    InboxGood(routed);
    InboxIs(routed);
    hide Next;
  }

  /** What a pump leaves: every completion is with its window or released, and every tab of the
      pumped window whose pending load had arrived waits no longer. */
  lemma {:induction false} PumpSettles(s: State, w: nat, unfit: set<nat>)
    requires Good(s) && Enabled(s, BeginPump(w))
    ensures w < |s.windows| && Tasks(s, s.completed)
    ensures var r := Pumped(s, w, unfit);
      && Good(r) && r.desk.Idle? && r.completed == [] && r.tasks == s.tasks
      && r.windows == Sorted(s, s.completed)[w := s.windows[w].(inbox := [])]
      && r.released == s.released + OwnedPart(s, |s.windows|, s.completed) + Arrived(s, w)
      && SettledSlots(s.slots, r.slots, s.tasks, Arrived(s, w), unfit)
  {
    TakenShape(s, w);
    hide Good, SettledSlots, OwnedPart, Enabled, Next, Taken, Sorted;
    CommittedShape(Taken(s, w), unfit);
    EndGood(CommittedAll(Taken(s, w), unfit));
  }

  lemma {:induction false} InboxIs(s: State)
    requires Wired(s) && Enabled(s, OpenInbox)
    ensures s.desk.window < |s.windows|
    ensures var w, r := s.desk.window, Next(s, OpenInbox);
      && r.tasks == s.tasks && r.slots == s.slots && r.completed == s.completed && r.released == s.released
      && r.windows == s.windows[w := s.windows[w].(inbox := [])]
  {
  }

  lemma {:induction false} BegunSame(s: State, begun: State, w: nat)
    requires Wired(s) && begun == s.(desk := Routing(w, s.completed), completed := [])
    ensures Tasks(s, s.completed) && Sorted(begun, s.completed) == Sorted(s, s.completed)
    ensures OwnedPart(begun, |s.windows|, s.completed) == OwnedPart(s, |s.windows|, s.completed)
  {
    forall v: nat
      ensures OwnedPart(begun, v, s.completed) == OwnedPart(s, v, s.completed)
    {
      OwnedFrame(s, begun, v, s.completed);
    }
    hide OwnedPart;
  }

  lemma {:induction false} SettledPending(slots: map<nat, Slot>, slots': map<nat, Slot>, tasks: seq<Task>,
                                          items: seq<nat>, unfit: set<nat>, id: nat)
    requires SettledSlots(slots, slots', tasks, items, unfit) && id in slots && slots[id].pending.Some?
    requires slots[id].pending.value in items && slots[id].pending.value < |tasks|
    ensures id in slots' && slots'[id].pending == None
  {
    hide CommittedHistory, Sound;
  }

  lemma {:induction false} PendingTask(s: State, id: nat)
    requires Good(s) && id in s.slots && s.slots[id].pending.Some?
    ensures s.slots[id].pending.value < |s.tasks| && s.tasks[s.slots[id].pending.value].tab == id
  {
    hide Wired, Windowed, Phases;
  }

  /** No tab of the pumped window still waits for a load that had completed. */
  lemma {:induction false} NobodyLeftWaiting(s: State, w: nat, unfit: set<nat>, id: nat)
    requires Good(s) && w < |s.windows| && Enabled(s, BeginPump(w)) && id in s.windows[w].order
    requires id in s.slots && s.slots[id].pending.Some?
    requires s.slots[id].pending.value in s.completed || s.slots[id].pending.value in s.windows[w].inbox
    ensures id in Pumped(s, w, unfit).slots && Pumped(s, w, unfit).slots[id].pending == None
  {
    var t := s.slots[id].pending.value;
    PendingTask(s, id);
    OnlyOwner(s, t, w, id);
    PumpSettles(s, w, unfit);
    OwnedHas(s, w, s.completed, t);
    assert t in Arrived(s, w) by {
      hide OwnedPart, Owner;
    }
    hide *;
    SettledPending(s.slots, Pumped(s, w, unfit).slots, s.tasks, Arrived(s, w), unfit, id);
  }

  lemma {:induction false} OnlyOwner(s: State, t: nat, w: nat, id: nat)
    requires ShownOnce(s) && w < |s.windows| && id in s.windows[w].order && t < |s.tasks| && s.tasks[t].tab == id
    ensures Owner(s, t, 0) == w
  {
    assert OwnedBy(s, w, t);
    OwnerFound(s, t, w);
  }
}
