/** Loads of src/tabset.c as one machine.

    The window thread and the loader thread take atomic steps in any order. Step lists them, Enabled
    says when each may happen, and Next what it does. A task is named by its position among all
    tasks ever created; what is released or committed is logged.
*/
module TabMachine {
  import opened Results
  import opened Sessions
  import opened UrlParse

  const MAX_TABS: nat := 25
  const UINT64_MAX: nat := 0xFFFF_FFFF_FFFF_FFFF

  datatype LoadKind = Navigation | Traversal(target: nat)

  /** page is what its completion carries. */
  datatype Task = Task(tab: nat, generation: nat, url: string, kind: LoadKind,
                       cancelled: bool, completed: bool, page: Option<string>)

  datatype Slot = Slot(generation: nat, pending: Option<nat>, session: History)

  /** A window's tabs by ID in their order, the selected one, and the completions routed to it. */
  datatype Window = Window(order: seq<nat>, active: nat, inbox: seq<nat>)

  /** What the window thread has in hand while it pumps for a window. */
  datatype Desk =
    | Idle
    | Routing(window: nat, items: seq<nat>)
    | Committing(window: nat, items: seq<nat>)

  datatype State = State(
    tasks: seq<Task>,
    slots: map<nat, Slot>,
    windows: seq<Window>,
    nextTab: nat,
    desk: Desk,
    stopping: bool,
    queue: seq<nat>,
    hand: Option<nat>,
    active: seq<nat>,
    failed: bool,
    exited: bool,
    completed: seq<nat>,
    collected: bool,
    released: seq<nat>,
    commits: seq<(nat, nat)>)

  const INITIAL: State :=
    State([], map[], [], 1, Idle, false, [], None, [], false, false, [], false, [], [])

  datatype Step =
    // the window thread
    | OpenWindow
    | NewTab(window: nat, url: string)
    | Select(window: nat, index: nat)
    | Navigate(window: nat, url: string)
    | Traverse(window: nat, move: Move)
    | MovePage(tab: nat, url: string)
    | RecordFragment(window: nat, url: string)
    | BeginPump(window: nat)
    | RouteOne
    | OpenInbox
    | CommitOne(resized: bool)
    | EndPump
    | CloseWindow(window: nat)
    | Stop
    | Collect
    // the loader thread
    | Take
    | CompleteStart(page: Option<string>)
    | Activate
    | FinishLoad(index: nat, page: Option<string>)
    | Reap(index: nat)
    | NetworkFails
    | Exit

  // ----- Well-formed states -----

  predicate Tasks(s: State, ids: seq<nat>) {
    forall k :: 0 <= k < |ids| ==> ids[k] < |s.tasks|
  }

  predicate PlacesIn(s: State) {
    && Tasks(s, s.queue) && Tasks(s, s.active) && Tasks(s, s.completed)
    && (s.hand.Some? ==> s.hand.value < |s.tasks|)
    && (s.desk.Idle? || (s.desk.window < |s.windows| && Tasks(s, s.desk.items)))
  }

  predicate TabsIn(s: State) {
    && (forall w :: 0 <= w < |s.windows| ==> Tasks(s, s.windows[w].inbox))
    && (forall w, k :: 0 <= w < |s.windows| && 0 <= k < |s.windows[w].order| ==> s.windows[w].order[k] in s.slots)
    && (forall id :: id in s.slots ==> Sound(s.slots[id].session))
  }

  /** Names refer to something. */
  predicate Wired(s: State) {
    PlacesIn(s) && TabsIn(s)
  }

  // ----- The window thread -----

  predicate Ready(s: State) {
    s.desk.Idle? && !s.stopping
  }

  function SetSlot(s: State, id: nat, slot: Slot): State {
    s.(slots := s.slots[id := slot])
  }

  function Selected(s: State, w: nat): Option<nat>
    requires w < |s.windows|
  {
    var win := s.windows[w];
    if win.active < |win.order| then Some(win.order[win.active]) else None
  }

  function Cancelled(tasks: seq<Task>, ids: set<nat>): (r: seq<Task>)
    ensures |r| == |tasks|
  {
    seq(|tasks|, t requires 0 <= t < |tasks| =>
      if t in ids then tasks[t].(cancelled := true) else tasks[t])
  }

  function Fresh(tab: nat, generation: nat, url: string, kind: LoadKind): Task {
    Task(tab, generation, url, kind, false, false, None)
  }

  function AddTab(s: State, w: nat, url: string): State
    requires w < |s.windows|
  {
    var win := s.windows[w];
    if |win.order| >= MAX_TABS || s.nextTab == UINT64_MAX then s
    else
      var t := |s.tasks|;
      s.(tasks := s.tasks + [Fresh(s.nextTab, 1, url, Navigation)],
         slots := s.slots[s.nextTab := Slot(1, Some(t), EMPTY)],
         windows := s.windows[w := win.(order := win.order + [s.nextTab], active := |win.order|)],
         nextTab := s.nextTab + 1,
         queue := s.queue + [t])
  }

  /** A new load for a tab supersedes the pending one. */
  function Request(s: State, id: nat, url: string, kind: LoadKind): State
    requires id in s.slots
  {
    var slot := s.slots[id];
    if slot.generation == UINT64_MAX then s
    else
      var t := |s.tasks|;
      var superseded := if slot.pending.Some? then {slot.pending.value} else {};
      s.(tasks := Cancelled(s.tasks, superseded) + [Fresh(id, slot.generation + 1, url, kind)],
         slots := s.slots[id := slot.(generation := slot.generation + 1, pending := Some(t))],
         queue := s.queue + [t])
  }

  /** The number of entries and the position once the pending load has committed. */
  function VirtualHistory(h: History, kind: Option<LoadKind>): (int, int) {
    match kind
    case None => (|h.urls|, h.index)
    case Some(Navigation) =>
      var count := if h.urls != [] then h.index + 2 else 1;
      (count, count - 1)
    case Some(Traversal(target)) => (|h.urls|, target)
  }

  function PendingKind(s: State, slot: Slot): Option<LoadKind>
    requires slot.pending.Some? ==> slot.pending.value < |s.tasks|
  {
    if slot.pending.Some? then Some(s.tasks[slot.pending.value].kind) else None
  }

  /** The position a move asks for, if it stays within the virtual history. */
  function MoveTarget(view: (int, int), move: Move): Option<int> {
    var (count, index) := view;
    match move
    case Back => if index == 0 then None else Some(index - 1)
    case Forward => if index + 1 >= count then None else Some(index + 1)
  }

  function AskTraversal(s: State, id: nat, move: Move): State
    requires id in s.slots && (s.slots[id].pending.Some? ==> s.slots[id].pending.value < |s.tasks|)
  {
    var slot := s.slots[id];
    match MoveTarget(VirtualHistory(slot.session, PendingKind(s, slot)), move)
    case None => s
    case Some(target) =>
      if 0 <= target < |slot.session.urls| then Request(s, id, slot.session.urls[target], Traversal(target)) else s
  }

  predicate OwnedBy(s: State, w: nat, t: nat)
    requires w < |s.windows| && t < |s.tasks|
  {
    s.tasks[t].tab in s.windows[w].order
  }

  /** The window that owns the tab of t, or none. */
  function Owner(s: State, t: nat, w: nat): (r: nat)
    requires t < |s.tasks| && w <= |s.windows|
    ensures w <= r <= |s.windows| && (r < |s.windows| ==> OwnedBy(s, r, t))
    ensures forall v :: w <= v < r ==> !OwnedBy(s, v, t)
    decreases |s.windows| - w
  {
    if w == |s.windows| || OwnedBy(s, w, t) then w else Owner(s, t, w + 1)
  }

  function RouteTask(s: State, t: nat): State
    requires t < |s.tasks|
  {
    var w := Owner(s, t, 0);
    if w < |s.windows| then
      s.(windows := s.windows[w := s.windows[w].(inbox := s.windows[w].inbox + [t])])
    else s.(released := s.released + [t])
  }

  /** May t still commit into its tab? */
  predicate Current(s: State, w: nat, t: nat)
    requires Wired(s) && w < |s.windows| && t < |s.tasks|
  {
    && OwnedBy(s, w, t)
    && s.slots[s.tasks[t].tab].generation == s.tasks[t].generation
    && s.slots[s.tasks[t].tab].pending == Some(t)
  }

  predicate Accepts(h: History, url: string, kind: LoadKind) {
    kind.Traversal? ==> Traversable(h, url, kind.target)
  }

  function CommittedHistory(h: History, url: string, kind: LoadKind): History
    requires Sound(h)
  {
    match kind
    case Navigation => Navigated(h, url)
    case Traversal(target) => if Traversable(h, url, target) then Traversed(h, url, target) else h
  }

  function CommitTask(s: State, w: nat, t: nat, resized: bool): State
    requires Wired(s) && w < |s.windows| && t < |s.tasks|
  {
    var done := s.(released := s.released + [t]);
    if !Current(s, w, t) then done
    else
      var task := s.tasks[t];
      var slot := s.slots[task.tab];
      var idle := slot.(pending := None);
      if task.page.Some? && resized then
        var h := CommittedHistory(slot.session, task.page.value, task.kind);
        SetSlot(done, task.tab, idle.(session := h)).(
          commits := if Accepts(slot.session, task.page.value, task.kind)
                     then s.commits + [(task.tab, task.generation)] else s.commits)
      else SetSlot(done, task.tab, idle)
  }

  function PendingOf(slots: map<nat, Slot>, order: seq<nat>): set<nat> {
    set id | id in order && id in slots && slots[id].pending.Some? :: slots[id].pending.value
  }

  /** The tabs left when those of `order` are gone. */
  function Unregistered(slots: map<nat, Slot>, order: seq<nat>): map<nat, Slot> {
    map id | id in slots && id !in order :: slots[id]
  }

  function Close(s: State, w: nat): State
    requires w < |s.windows|
  {
    var win := s.windows[w];
    s.(tasks := Cancelled(s.tasks, PendingOf(s.slots, win.order)),
       slots := Unregistered(s.slots, win.order),
       windows := s.windows[..w] + s.windows[w + 1..],
       released := s.released + win.inbox)
  }

  // ----- The steps -----

  function Elements(ids: seq<nat>): set<nat> {
    set t | t in ids
  }

  predicate Enabled(s: State, e: Step)
    requires Wired(s)
  {
    match e
    case OpenWindow => Ready(s)
    case NewTab(w, _) => Ready(s) && w < |s.windows|
    case Select(w, i) => Ready(s) && w < |s.windows| && i < |s.windows[w].order|
    case Navigate(w, _) => Ready(s) && w < |s.windows| && Selected(s, w).Some?
    case Traverse(w, _) => Ready(s) && w < |s.windows| && Selected(s, w).Some? && PendingKnown(s, Selected(s, w).value)
    case MovePage(id, _) => Ready(s) && id in s.slots && s.slots[id].session.page.Some?
    case RecordFragment(w, _) => Ready(s) && w < |s.windows| && Selected(s, w).Some?
    case BeginPump(w) => Ready(s) && w < |s.windows|
    case RouteOne => s.desk.Routing? && s.desk.items != []
    case OpenInbox => s.desk.Routing? && s.desk.items == []
    case CommitOne(_) => s.desk.Committing? && s.desk.items != []
    case EndPump => s.desk.Committing? && s.desk.items == []
    case CloseWindow(w) => Ready(s) && w < |s.windows|
    case Stop => Ready(s) && s.windows == []
    case Collect => s.exited && !s.collected
    case Take => !s.exited && s.hand.None? && s.queue != []
    case CompleteStart(page) => s.hand.Some? && Loads(s.tasks[s.hand.value], page)
    case Activate => s.hand.Some? && !s.tasks[s.hand.value].cancelled
    case FinishLoad(i, page) =>
      i < |s.active| && !s.tasks[s.active[i]].completed && Loads(s.tasks[s.active[i]], page)
    case Reap(i) =>
      i < |s.active| && (s.tasks[s.active[i]].completed || s.tasks[s.active[i]].cancelled || s.failed || s.stopping)
    case NetworkFails => !s.exited
    case Exit => !s.exited && s.stopping && s.queue == [] && s.active == [] && s.hand.None?
  }

  predicate PendingKnown(s: State, id: nat) {
    id in s.slots && (s.slots[id].pending.Some? ==> s.slots[id].pending.value < |s.tasks|)
  }

  function Next(s: State, e: Step): State
    requires Wired(s) && Enabled(s, e)
  {
    match e
    case OpenWindow => s.(windows := s.windows + [Window([], 0, [])])
    case NewTab(w, url) => AddTab(s, w, url)
    case Select(w, i) => s.(windows := s.windows[w := s.windows[w].(active := i)])
    case Navigate(w, url) => Request(s, Selected(s, w).value, url, Navigation)
    case Traverse(w, move) => AskTraversal(s, Selected(s, w).value, move)
    case MovePage(id, url) => MovePageTo(s, id, url)
    case RecordFragment(w, url) => RecordIn(s, Selected(s, w).value, url)
    case BeginPump(w) => s.(desk := Routing(w, s.completed), completed := [])
    case RouteOne =>
      RouteTask(s, s.desk.items[0]).(desk := Routing(s.desk.window, s.desk.items[1..]))
    case OpenInbox =>
      var w := s.desk.window;
      s.(desk := Committing(w, s.windows[w].inbox), windows := s.windows[w := s.windows[w].(inbox := [])])
    case CommitOne(resized) =>
      CommitTask(s, s.desk.window, s.desk.items[0], resized).(desk := Committing(s.desk.window, s.desk.items[1..]))
    case EndPump => s.(desk := Idle)
    case CloseWindow(w) => Close(s, w)
    case Stop => s.(stopping := true, tasks := Cancelled(s.tasks, Elements(s.queue)))
    case Collect => s.(released := s.released + s.completed + s.queue, completed := [], queue := [], collected := true)
    case Take => s.(hand := Some(s.queue[0]), queue := s.queue[1..])
    case CompleteStart(page) => Publish(s.(hand := None), s.hand.value, page)
    case Activate => s.(hand := None, active := [s.hand.value] + s.active)
    case FinishLoad(i, page) => s.(tasks := Finished(s.tasks, s.active[i], page))
    case Reap(i) =>
      var t := s.active[i];
      Publish(s.(active := s.active[..i] + s.active[i + 1..]), t,
              if s.tasks[t].completed then s.tasks[t].page else None)
    case NetworkFails => s.(failed := true)
    case Exit => s.(exited := true)
  }

  /** A load ends without a page or with the page of the URL it was given. */
  predicate Loads(task: Task, page: Option<string>) {
    page.Some? ==> page.value == Canonical(task.url)
  }

  function Finished(tasks: seq<Task>, t: nat, page: Option<string>): (r: seq<Task>)
    requires t < |tasks|
    ensures |r| == |tasks|
  {
    tasks[t := tasks[t].(completed := true, page := page)]
  }

  function Publish(s: State, t: nat, page: Option<string>): State
    requires t < |s.tasks|
  {
    s.(tasks := Finished(s.tasks, t, page), completed := s.completed + [t])
  }

  function MovePageTo(s: State, id: nat, url: string): State
    requires id in s.slots
  {
    SetSlot(s, id, s.slots[id].(session := s.slots[id].session.(page := Some(url))))
  }

  function RecordIn(s: State, id: nat, url: string): State
    requires id in s.slots && Sound(s.slots[id].session)
  {
    SetSlot(s, id, s.slots[id].(session := Recorded(s.slots[id].session, url)))
  }
}
