/** Every task is in exactly one place.

    The places are the queue, the loader's hand, its active list, the published completions, the
    desk of the pump, the inboxes of the windows, and the released ones. Each step of either thread
    keeps the sum of the times a task occurs in them.
*/
module TabCustody {
  import opened Counting
  import opened Sessions
  import opened TabMachine

  // ----- Where the tasks are -----

  function Hand(s: State): seq<nat> {
    if s.hand.Some? then [s.hand.value] else []
  }

  function OnDesk(s: State): seq<nat> {
    if s.desk.Idle? then [] else s.desk.items
  }

  function InboxTimes(windows: seq<Window>, t: nat): nat {
    if windows == [] then 0
    else InboxTimes(windows[..|windows| - 1], t) + Times(windows[|windows| - 1].inbox, t)
  }

  /** In how many places t is. */
  function Census(s: State, t: nat): nat {
    Times(s.queue, t) + Times(Hand(s), t) + Times(s.active, t) + Times(s.completed, t) +
    Times(OnDesk(s), t) + InboxTimes(s.windows, t) + Times(s.released, t)
  }

  ghost predicate OncePerTask(s: State) {
    forall t: nat :: Census(s, t) == if t < |s.tasks| then 1 else 0
  }

  lemma {:induction false} InboxesUpdate(windows: seq<Window>, w: nat, win: Window, t: nat)
    requires w < |windows|
    ensures InboxTimes(windows[w := win], t) + Times(windows[w].inbox, t) == InboxTimes(windows, t) + Times(win.inbox, t)
    decreases |windows|
  {
    hide Times;
    var n := |windows| - 1;
    if w < n {
      assert windows[w := win][..n] == windows[..n][w := win];
      InboxesUpdate(windows[..n], w, win, t);
    } else {
      assert windows[w := win][..n] == windows[..n];
    }
  }

  lemma {:induction false} InboxesAppend(windows: seq<Window>, win: Window, t: nat)
    ensures InboxTimes(windows + [win], t) == InboxTimes(windows, t) + Times(win.inbox, t)
  {
    hide Times;
    assert (windows + [win])[..|windows|] == windows;
  }

  lemma {:induction false} InboxesRemove(windows: seq<Window>, w: nat, t: nat)
    requires w < |windows|
    ensures InboxTimes(windows[..w] + windows[w + 1..], t) + Times(windows[w].inbox, t) == InboxTimes(windows, t)
    decreases |windows|
  {
    hide Times;
    var n := |windows| - 1;
    var rest := windows[..w] + windows[w + 1..];
    if w < n {
      var front := windows[..n];
      assert rest[..n - 1] == front[..w] + front[w + 1..];
      assert rest[n - 1] == windows[n];
      InboxesRemove(front, w, t);
    } else {
      assert rest == windows[..n];
    }
  }

  /** The census of the task a step creates, if any. */
  function Created(s: State, s': State, t: nat): nat {
    if |s'.tasks| > |s.tasks| && t == |s.tasks| then 1 else 0
  }

  ghost predicate Accounted(s: State, s': State, t: nat) {
    && Census(s', t) == Census(s, t) + Created(s, s', t)
    && |s.tasks| <= |s'.tasks| <= |s.tasks| + 1
  }

  lemma {:induction false} DeskWired(s: State)
    requires Wired(s) && !s.desk.Idle?
    ensures s.desk.window < |s.windows| && forall k :: 0 <= k < |s.desk.items| ==> s.desk.items[k] < |s.tasks|
  {
  }

  lemma {:induction false} SelectedWired(s: State, w: nat)
    requires Wired(s) && w < |s.windows| && Selected(s, w).Some?
    ensures Selected(s, w).value in s.slots
  {
  }

  lemma {:induction false} RouteAccounted(s: State, t: nat)
    requires Wired(s) && Enabled(s, RouteOne)
    ensures Accounted(s, Next(s, RouteOne), t)
  {
    hide Times, InboxTimes, Wired;
    DeskWired(s);
    var x := s.desk.items[0];
    var w := Owner(s, x, 0);
    TimesFirst(s.desk.items, t);
    if w < |s.windows| {
      var win := s.windows[w].(inbox := s.windows[w].inbox + [x]);
      InboxesUpdate(s.windows, w, win, t);
      TimesJoin(s.windows[w].inbox, [x], t);
    } else {
      TimesJoin(s.released, [x], t);
    }
  }

  lemma {:induction false} InboxAccounted(s: State, t: nat)
    requires Wired(s) && Enabled(s, OpenInbox)
    ensures Accounted(s, Next(s, OpenInbox), t)
  {
    hide Times, InboxTimes, Wired;
    DeskWired(s);
    InboxesUpdate(s.windows, s.desk.window, s.windows[s.desk.window].(inbox := []), t);
  }

  lemma {:induction false} CommitTaskPlaces(s: State, w: nat, t: nat, resized: bool)
    requires Wired(s) && w < |s.windows| && t < |s.tasks|
    ensures var r := CommitTask(s, w, t, resized);
      && r.tasks == s.tasks && r.windows == s.windows && r.queue == s.queue && r.hand == s.hand && r.active == s.active
      && r.completed == s.completed && r.released == s.released + [t] && r.desk == s.desk
  {
    hide CommittedHistory, Accepts, Sound, Wired;
  }

  /** A commit leaves all places alone but its own desk and the released. */
  lemma {:induction false} CommitPlaces(s: State, resized: bool)
    requires Wired(s) && Enabled(s, CommitOne(resized))
    ensures var r := Next(s, CommitOne(resized));
      && r.tasks == s.tasks && r.windows == s.windows && r.queue == s.queue && r.hand == s.hand && r.active == s.active
      && r.completed == s.completed && r.released == s.released + [s.desk.items[0]]
      && r.desk == Committing(s.desk.window, s.desk.items[1..])
  {
    hide TabsIn, CommitTask;
    CommitTaskPlaces(s, s.desk.window, s.desk.items[0], resized);
  }

  lemma {:induction false} CommitAccounted(s: State, resized: bool, t: nat)
    requires Wired(s) && Enabled(s, CommitOne(resized))
    ensures Accounted(s, Next(s, CommitOne(resized)), t)
  {
    hide Times, InboxTimes, Wired, Next;
    CommitPlaces(s, resized);
    var x := s.desk.items[0];
    TimesFirst(s.desk.items, t);
    TimesJoin(s.released, [x], t);
  }

  lemma {:induction false} PumpAccounted(s: State, e: Step, t: nat)
    requires Wired(s) && Enabled(s, e) && (e.BeginPump? || e.EndPump?)
    ensures Accounted(s, Next(s, e), t)
  {
    hide Times, InboxTimes, Wired;
    TimesOne(0, t);
  }

  lemma {:induction false} LoaderAccounted(s: State, e: Step, t: nat)
    requires Wired(s) && Enabled(s, e)
    requires e.Take? || e.CompleteStart? || e.Activate? || e.FinishLoad? || e.Reap? || e.NetworkFails? || e.Exit?
    ensures Accounted(s, Next(s, e), t)
  {
    hide Times, InboxTimes, Wired, Finished, AddTab, Request, AskTraversal, CommitTask, RouteTask, Close, Cancelled;
    TimesOne(0, t);
    if e.Take? {
      TimesFirst(s.queue, t);
    } else if e.CompleteStart? {
      TimesJoin(s.completed, [s.hand.value], t);
    } else if e.Activate? {
      TimesJoin([s.hand.value], s.active, t);
    } else if e.Reap? {
      TimesWithout(s.active, e.index, t);
      TimesJoin(s.completed, [s.active[e.index]], t);
    }
  }

  lemma {:induction false} WindowAccounted(s: State, e: Step, t: nat)
    requires Wired(s) && Enabled(s, e)
    requires e.OpenWindow? || e.Select? || e.CloseWindow? || e.MovePage? || e.RecordFragment? || e.Stop? || e.Collect?
    ensures Accounted(s, Next(s, e), t)
  {
    hide Times, InboxTimes, Wired, AddTab, Request, AskTraversal, CommitTask, RouteTask, Publish, Finished, Recorded,
      PendingOf, Unregistered, Elements;
    TimesOne(0, t);
    if e.OpenWindow? {
      InboxesAppend(s.windows, Window([], 0, []), t);
    } else if e.Select? {
      InboxesUpdate(s.windows, e.window, s.windows[e.window].(active := e.index), t);
    } else if e.CloseWindow? {
      InboxesRemove(s.windows, e.window, t);
      TimesJoin(s.released, s.windows[e.window].inbox, t);
    } else if e.Collect? {
      TimesJoin(s.released + s.completed, s.queue, t);
      TimesJoin(s.released, s.completed, t);
    }
  }

  lemma {:induction false} NewTabAccounted(s: State, w: nat, url: string, t: nat)
    requires w < |s.windows|
    ensures Accounted(s, AddTab(s, w, url), t)
  {
    hide Times, InboxTimes;
    var s' := AddTab(s, w, url);
    InboxesUpdate(s.windows, w, s'.windows[w], t);
    TimesJoin(s.queue, [|s.tasks|], t);
    TimesOne(|s.tasks|, t);
    assert s'.windows == s.windows[w := s'.windows[w]];
  }

  lemma {:induction false} RequestAccounted(s: State, id: nat, url: string, kind: LoadKind, t: nat)
    requires id in s.slots
    ensures Accounted(s, Request(s, id, url, kind), t)
  {
    hide Times, InboxTimes;
    TimesJoin(s.queue, [|s.tasks|], t);
    TimesOne(|s.tasks|, t);
  }

  lemma {:induction false} TraverseAccounted(s: State, id: nat, move: Move, t: nat)
    requires id in s.slots && PendingKnown(s, id)
    ensures Accounted(s, AskTraversal(s, id, move), t)
  {
    hide Census, Request;
    var slot := s.slots[id];
    var target := MoveTarget(VirtualHistory(slot.session, PendingKind(s, slot)), move);
    if target.Some? && 0 <= target.value < |slot.session.urls| {
      RequestAccounted(s, id, slot.session.urls[target.value], Traversal(target.value), t);
    }
  }

  /** No step moves a task out of sight, copies it, or lets go of it twice. */
  lemma {:induction false} StepAccounted(s: State, e: Step, t: nat)
    requires Wired(s) && Enabled(s, e)
    ensures Accounted(s, Next(s, e), t)
  {
    hide Accounted, Request, AddTab, AskTraversal, Wired;
    if e.RouteOne? {
      RouteAccounted(s, t);
    } else if e.OpenInbox? {
      InboxAccounted(s, t);
    } else if e.CommitOne? {
      CommitAccounted(s, e.resized, t);
    } else if e.BeginPump? || e.EndPump? {
      PumpAccounted(s, e, t);
    } else if e.NewTab? {
      NewTabAccounted(s, e.window, e.url, t);
    } else if e.Navigate? {
      SelectedWired(s, e.window);
      RequestAccounted(s, Selected(s, e.window).value, e.url, Navigation, t);
    } else if e.Traverse? {
      TraverseAccounted(s, Selected(s, e.window).value, e.move, t);
    } else if e.OpenWindow? || e.Select? || e.CloseWindow? || e.MovePage? || e.RecordFragment? || e.Stop? || e.Collect? {
      WindowAccounted(s, e, t);
    } else {
      LoaderAccounted(s, e, t);
    }
  }

  lemma {:induction false} OnceKept(s: State, e: Step)
    requires Wired(s) && Enabled(s, e) && OncePerTask(s)
    ensures OncePerTask(Next(s, e))
  {
    hide Wired, Enabled, Next, Census;
    forall t: nat
      ensures Census(Next(s, e), t) == if t < |Next(s, e).tasks| then 1 else 0
    {
      StepAccounted(s, e, t);
    }
  }
}
