/** A run of src/tabset.c that refuses the page of a current traversal, whose entry is overwritten. */
module TabRefusal {
  import opened Results
  import opened Sessions
  import opened UrlParse
  import opened UrlFixpoint
  import opened TabMachine
  import opened TabRuns
  import opened TabHistory

  /** One window with one tab, between pumps. */
  function Resting(tasks: seq<Task>, slot: Slot, queue: seq<nat>, released: seq<nat>, commits: seq<(nat, nat)>): State {
    State(tasks, map[1 := slot], [Window([1], 0, [])], 2, Idle, false, queue, None, [], false, false, [], false,
          released, commits)
  }

  /** s leads to s' by e. */
  ghost predicate Leads(s: State, e: Step, s': State) {
    Wired(s) && Enabled(s, e) && Next(s, e) == s'
  }

  lemma {:induction false} Follow(steps: seq<Step>, s: State, e: Step, s': State)
    requires Reached(steps) == Some(s) && Leads(s, e, s')
    ensures Reached(steps + [e]) == Some(s')
  {
    assert (steps + [e])[..|steps|] == steps;
    hide Wired, Enabled, Next;
  }

  lemma {:induction false} FollowTwo(steps: seq<Step>, s: State, e: Step, s': State, e': Step, s'': State)
    requires Reached(steps) == Some(s) && Leads(s, e, s') && Leads(s', e', s'')
    ensures Reached(steps + [e, e']) == Some(s'')
  {
    hide Leads, Reached;
    Follow(steps, s, e, s');
    Follow(steps + [e], s', e', s'');
    assert steps + [e] + [e'] == steps + [e, e'];
  }

  // ----- Parts of a run -----

  ghost predicate AtRest(s: State) {
    && 1 in s.slots && Sound(s.slots[1].session) && (forall k :: 0 <= k < |s.queue| ==> s.queue[k] < |s.tasks|)
    && s == Resting(s.tasks, s.slots[1], s.queue, s.released, s.commits)
  }

  lemma {:induction false} RestWired(s: State)
    requires AtRest(s)
    ensures Wired(s)
  {
  }

  /** The tab waits for its one queued load, which ends with that page. */
  ghost predicate Waiting(s: State, page: string) {
    && AtRest(s) && |s.queue| == 1
    && var t := s.queue[0];
       && s.tasks[t].tab == 1 && Loads(s.tasks[t], Some(page))
       && s.slots[1].pending == Some(t) && s.slots[1].generation == s.tasks[t].generation
  }

  /** The load is taken, ends with its page, and its completion comes to the desk. */
  function Arrive(page: string): seq<Step> {
    [Take, CompleteStart(Some(page)), BeginPump(0), RouteOne, OpenInbox]
  }

  lemma {:induction false} ArriveSplit(steps: seq<Step>, page: string)
    ensures steps + [Take, CompleteStart(Some(page))] + [BeginPump(0), RouteOne] + [OpenInbox] == steps + Arrive(page)
  {
  }

  function Arrived(s: State, page: string): State
    requires |s.queue| == 1 && s.queue[0] < |s.tasks|
  {
    s.(tasks := Finished(s.tasks, s.queue[0], Some(page)), queue := [], desk := Committing(0, [s.queue[0]]))
  }

  predicate Only(ids: seq<nat>, t: nat) {
    forall k :: 0 <= k < |ids| ==> ids[k] == t
  }

  /** While the load is on its way, it is all there is. */
  lemma {:induction false} UnderWay(s: State, m: State, t: nat)
    requires AtRest(s) && t < |m.tasks| && m.slots == s.slots && |m.windows| == 1 && m.windows[0].order == [1]
    requires Only(m.queue, t) && Only(m.active, t) && Only(m.completed, t) && Only(m.windows[0].inbox, t)
    requires m.hand.Some? ==> m.hand.value == t
    requires !m.desk.Idle? ==> m.desk.window == 0 && Only(m.desk.items, t)
    ensures Wired(m)
  {
  }

  function Taken(s: State): State
    requires |s.queue| == 1
  {
    s.(hand := Some(s.queue[0]), queue := [])
  }

  function Ended(s: State, page: string): State
    requires |s.queue| == 1 && s.queue[0] < |s.tasks|
  {
    s.(queue := [], tasks := Finished(s.tasks, s.queue[0], Some(page)), completed := s.queue)
  }

  function Routes(s: State, page: string): State
    requires |s.queue| == 1 && s.queue[0] < |s.tasks|
  {
    Ended(s, page).(desk := Routing(0, s.queue), completed := [])
  }

  function Routed(s: State, page: string): State
    requires |s.queue| == 1 && s.queue[0] < |s.tasks|
  {
    Ended(s, page).(desk := Routing(0, []), completed := [], windows := [Window([1], 0, s.queue)])
  }

  lemma {:induction false} TakeLeg(s: State, page: string)
    requires Waiting(s, page)
    ensures Leads(s, Take, Taken(s))
  {
    RestWired(s);
    hide Canonical, Finished, Wired, Resting;
    assert s.queue[1..] == [];
  }

  lemma {:induction false} CompleteLeg(s: State, page: string)
    requires Waiting(s, page)
    ensures Leads(Taken(s), CompleteStart(Some(page)), Ended(s, page))
  {
    UnderWay(s, Taken(s), s.queue[0]);
    hide Canonical, Finished, Wired;
    assert [] + [s.queue[0]] == s.queue;
  }

  lemma {:induction false} WindowLegs(s: State, page: string)
    requires Waiting(s, page)
    ensures Leads(Ended(s, page), BeginPump(0), Routes(s, page))
    ensures Leads(Routed(s, page), OpenInbox, Arrived(s, page))
  {
    hide Canonical, Finished, Wired;
    UnderWay(s, Ended(s, page), s.queue[0]);
    UnderWay(s, Routed(s, page), s.queue[0]);
    assert s.queue == [s.queue[0]];
  }

  lemma {:induction false} RouteIs(m: State, t: nat)
    requires t < |m.tasks| && |m.windows| == 1 && m.windows[0] == Window([1], 0, []) && m.tasks[t].tab == 1
    ensures RouteTask(m, t) == m.(windows := [Window([1], 0, [t])])
  {
    assert OwnedBy(m, 0, t);
    assert Owner(m, t, 0) == 0;
    assert [] + [t] == [t];
  }

  lemma {:induction false} RouteLeg(s: State, page: string)
    requires Waiting(s, page)
    ensures Leads(Routes(s, page), RouteOne, Routed(s, page)) && Wired(Arrived(s, page))
  {
    var t := s.queue[0];
    assert Finished(s.tasks, t, Some(page))[t].tab == 1;
    hide Canonical, Finished, Wired, RouteTask;
    UnderWay(s, Routes(s, page), t);
    UnderWay(s, Arrived(s, page), t);
    RouteIs(Routes(s, page), t);
    assert s.queue == [t] && [t][1..] == [];
  }

  lemma {:induction false} Completes(steps: seq<Step>, s: State, page: string)
    requires Reached(steps) == Some(s) && Waiting(s, page)
    ensures Reached(steps + [Take, CompleteStart(Some(page))]) == Some(Ended(s, page))
  {
    TakeLeg(s, page);
    CompleteLeg(s, page);
    hide Leads, Reached, Taken, Ended, Waiting;
    FollowTwo(steps, s, Take, Taken(s), CompleteStart(Some(page)), Ended(s, page));
  }

  lemma {:induction false} Arrives(steps: seq<Step>, s: State, page: string)
    requires Reached(steps) == Some(s) && Waiting(s, page)
    ensures Reached(steps + Arrive(page)) == Some(Arrived(s, page)) && Wired(Arrived(s, page))
  {
    WindowLegs(s, page);
    RouteLeg(s, page);
    Completes(steps, s, page);
    hide Leads, Reached, Ended, Routes, Routed, Wired, Waiting, Arrived, Arrive;
    var begun := steps + [Take, CompleteStart(Some(page))];
    FollowTwo(begun, Ended(s, page), BeginPump(0), Routes(s, page), RouteOne, Routed(s, page));
    Follow(begun + [BeginPump(0), RouteOne], Routed(s, page), OpenInbox, Arrived(s, page));
    ArriveSplit(steps, page);
  }

  // ----- Commits, fragments and traversals -----

  function Load(page: string): seq<Step> {
    Arrive(page) + [CommitOne(true), EndPump]
  }

  lemma {:induction false} LoadSplit(steps: seq<Step>, page: string)
    ensures steps + Arrive(page) + [CommitOne(true), EndPump] == steps + Load(page)
  {
    hide Arrive;
  }

  /** The page has taken its place. */
  function Landed(s: State, page: string): State
    requires |s.queue| == 1 && s.queue[0] < |s.tasks| && 1 in s.slots && Sound(s.slots[1].session)
  {
    var t := s.queue[0];
    var slot := s.slots[1];
    Resting(Finished(s.tasks, t, Some(page)),
            Slot(slot.generation, None, CommittedHistory(slot.session, page, s.tasks[t].kind)),
            [], s.released + [t], s.commits + [(1, slot.generation)])
  }

  lemma {:induction false} CommitLeg(s: State, page: string)
    requires Waiting(s, page) && Accepts(s.slots[1].session, page, s.tasks[s.queue[0]].kind)
    ensures Leads(Arrived(s, page), CommitOne(true), Landed(s, page).(desk := Committing(0, [])))
  {
    hide Canonical, Wired, CommittedHistory;
    var t := s.queue[0];
    UnderWay(s, Arrived(s, page), t);
    assert Current(Arrived(s, page), 0, t);
    assert [t][1..] == [];
    assert s.slots[1 := Landed(s, page).slots[1]] == map[1 := Landed(s, page).slots[1]];
  }

  lemma {:induction false} EndLeg(s: State)
    requires AtRest(s) && s.queue == []
    ensures Leads(s.(desk := Committing(0, [])), EndPump, s)
  {
  }

  lemma {:induction false} LandedRests(s: State, page: string)
    requires Waiting(s, page)
    ensures AtRest(Landed(s, page)) && Landed(s, page).queue == []
  {
    hide Canonical, Finished;
  }

  lemma {:induction false} CommitLegs(s: State, page: string)
    requires Waiting(s, page) && Accepts(s.slots[1].session, page, s.tasks[s.queue[0]].kind)
    ensures Leads(Arrived(s, page), CommitOne(true), Landed(s, page).(desk := Committing(0, [])))
    ensures Leads(Landed(s, page).(desk := Committing(0, [])), EndPump, Landed(s, page))
    ensures AtRest(Landed(s, page))
  {
    LandedRests(s, page);
    hide Leads, Landed;
    EndLeg(Landed(s, page));
    CommitLeg(s, page);
  }

  lemma {:induction false} Lands(steps: seq<Step>, s: State, page: string)
    requires Reached(steps) == Some(s)
    requires Waiting(s, page) && Accepts(s.slots[1].session, page, s.tasks[s.queue[0]].kind)
    ensures Reached(steps + Load(page)) == Some(Landed(s, page)) && AtRest(Landed(s, page))
  {
    CommitLegs(s, page);
    Arrives(steps, s, page);
    hide Reached, Leads, Landed, Arrived, AtRest, Waiting, Arrive, Load, Accepts, Wired;
    LoadSplit(steps, page);
    var last := Landed(s, page).(desk := Committing(0, []));
    FollowTwo(steps + Arrive(page), Arrived(s, page), CommitOne(true), last, EndPump, Landed(s, page));
  }

  /** The page moves to url, and its fragment is recorded. */
  function Click(url: string): seq<Step> {
    [MovePage(1, url), RecordFragment(0, url)]
  }

  function Clicked(s: State, url: string): State
    requires 1 in s.slots && Sound(s.slots[1].session) && s.slots[1].session.page.Some?
  {
    s.(slots := map[1 := s.slots[1].(session := Appended(s.slots[1].session, url, Some(url)))])
  }

  function Shown(s: State, url: string): State
    requires 1 in s.slots
  {
    s.(slots := map[1 := s.slots[1].(session := s.slots[1].session.(page := Some(url)))])
  }

  lemma {:induction false} ClickLegs(s: State, url: string)
    requires AtRest(s) && s.slots[1].session.page.Some?
    ensures Leads(s, MovePage(1, url), Shown(s, url)) && Leads(Shown(s, url), RecordFragment(0, url), Clicked(s, url))
    ensures AtRest(Clicked(s, url))
  {
    assert AtRest(Shown(s, url));
    RestWired(s);
    RestWired(Shown(s, url));
    assert Recorded(Shown(s, url).slots[1].session, url) == Appended(s.slots[1].session, url, Some(url));
    hide Wired, Appended, Recorded;
  }

  lemma {:induction false} Clicks(steps: seq<Step>, s: State, url: string)
    requires Reached(steps) == Some(s) && AtRest(s) && s.slots[1].session.page.Some?
    ensures Reached(steps + Click(url)) == Some(Clicked(s, url)) && AtRest(Clicked(s, url))
  {
    ClickLegs(s, url);
    hide Reached, Leads, AtRest, Clicked, Shown;
    FollowTwo(steps, s, MovePage(1, url), Shown(s, url), RecordFragment(0, url), Clicked(s, url));
  }

  /** The load of the entry a move asks for. */
  function Asked(s: State, target: nat): State
    requires 1 in s.slots && target < |s.slots[1].session.urls|
  {
    var slot := s.slots[1];
    Resting(s.tasks + [Fresh(1, slot.generation + 1, slot.session.urls[target], Traversal(target))],
            Slot(slot.generation + 1, Some(|s.tasks|), slot.session), [|s.tasks|], s.released, s.commits)
  }

  lemma {:induction false} RequestIs(s: State, target: nat)
    requires AtRest(s) && s.queue == [] && s.slots[1].pending == None && s.slots[1].generation < UINT64_MAX
    requires target < |s.slots[1].session.urls|
    ensures Request(s, 1, s.slots[1].session.urls[target], Traversal(target)) == Asked(s, target)
    ensures AtRest(Asked(s, target))
  {
    assert Cancelled(s.tasks, {}) == s.tasks;
    hide Cancelled;
  }

  lemma {:induction false} MoveIs(h: History, move: Move)
    requires Sound(h) && Target(h, move).Some?
    ensures MoveTarget(VirtualHistory(h, None), move) == Some(Target(h, move).value.1 as int)
    ensures Target(h, move).value.1 < |h.urls|
  {
  }

  lemma {:induction false} AskLeg(s: State, move: Move)
    requires AtRest(s) && s.queue == [] && s.slots[1].pending == None && s.slots[1].generation < UINT64_MAX
    requires Target(s.slots[1].session, move).Some?
    ensures var target := Target(s.slots[1].session, move).value.1;
      target < |s.slots[1].session.urls| && Leads(s, Traverse(0, move), Asked(s, target)) && AtRest(Asked(s, target))
  {
    MoveIs(s.slots[1].session, move);
    var target := Target(s.slots[1].session, move).value.1;
    RestWired(s);
    RequestIs(s, target);
    assert Selected(s, 0) == Some(1);
    assert Enabled(s, Traverse(0, move));
    hide Wired, Request, Asked, AtRest, Target, MoveTarget, VirtualHistory, Selected, Enabled;
  }

  lemma {:induction false} Asks(steps: seq<Step>, s: State, move: Move)
    requires Reached(steps) == Some(s) && AtRest(s) && s.queue == []
    requires s.slots[1].pending == None && s.slots[1].generation < UINT64_MAX
    requires Target(s.slots[1].session, move).Some?
    ensures var target := Target(s.slots[1].session, move).value.1;
      && target < |s.slots[1].session.urls|
      && Reached(steps + [Traverse(0, move)]) == Some(Asked(s, target)) && AtRest(Asked(s, target))
  {
    AskLeg(s, move);
    var target := Target(s.slots[1].session, move).value.1;
    hide Reached, Leads, AtRest, Asked, Target;
    Follow(steps, s, Traverse(0, move), Asked(s, target));
  }

  // ----- The run -----

  const OPEN: State := INITIAL.(windows := [Window([], 0, [])])

  function Started(a: string): State {
    Resting([Fresh(1, 1, a, Navigation)], Slot(1, Some(0), EMPTY), [0], [], [])
  }

  lemma {:induction false} OpenLeg()
    ensures Leads(INITIAL, OpenWindow, OPEN) && Wired(OPEN)
  {
  }

  lemma {:induction false} NewTabLeg(a: string)
    ensures Leads(OPEN, NewTab(0, a), Started(a))
  {
    OpenLeg();
    hide Wired;
    assert [] + [1] == [1] && [] + [0] == [0];
  }

  lemma {:induction false} StartedWaits(a: string)
    requires Printed(a)
    ensures Waiting(Started(a), a)
  {
    hide Canonical;
  }

  lemma {:induction false} Opens(a: string)
    requires Printed(a)
    ensures Reached([OpenWindow, NewTab(0, a)]) == Some(Started(a)) && Waiting(Started(a), a)
  {
    StartedWaits(a);
    assert Reached([]) == Some(INITIAL);
    hide Leads, Reached, Waiting, Started, Wired;
    OpenLeg();
    NewTabLeg(a);
    FollowTwo([], INITIAL, OpenWindow, OPEN, NewTab(0, a), Started(a));
    assert [] + [OpenWindow, NewTab(0, a)] == [OpenWindow, NewTab(0, a)];
  }

  function First(a: string, b: string): seq<Step> {
    [OpenWindow, NewTab(0, a)] + Load(a) + Click(b)
  }

  /** The tab shows b, a fragment of its first page a. */
  lemma {:induction false} TwoEntries(a: string, b: string) returns (s: State)
    requires Printed(a)
    ensures Reached(First(a, b)) == Some(s) && AtRest(s) && s.queue == []
    ensures s.slots[1] == Slot(1, None, History([a, b], 1, Some(b)))
  {
    Opens(a);
    var opening := Started(a);
    var landed := Landed(opening, a);
    assert landed.slots[1].session == History([a], 0, Some(a)) && landed.queue == [];
    assert Accepts(opening.slots[1].session, a, Navigation);
    s := Clicked(landed, b);
    assert [a][..1] + [b] == [a, b];
    hide Reached, Waiting, AtRest, Arrive, Click;
    Lands([OpenWindow, NewTab(0, a)], opening, a);
    Clicks([OpenWindow, NewTab(0, a)] + Load(a), landed, b);
  }

  function Second(a: string, b: string): seq<Step> {
    First(a, b) + [Traverse(0, Back)] + Load(a)
  }

  /** The user has gone back to a. */
  lemma {:induction false} WentBack(a: string, b: string) returns (s: State)
    requires Printed(a)
    ensures Reached(Second(a, b)) == Some(s) && AtRest(s) && s.queue == []
    ensures s.slots[1] == Slot(2, None, History([a, b], 0, Some(a)))
  {
    var before := TwoEntries(a, b);
    hide Reached, AtRest, First;
    Asks(First(a, b), before, Back);
    var asked := Asked(before, 0);
    AskedWaits(before, 0);
    LandedRests(asked, a);
    assert Accepts(asked.slots[1].session, a, Traversal(0));
    s := Landed(asked, a);
    assert s.slots[1] == Slot(2, None, History([a, b], 0, Some(a)));
    hide Landed, Asked;
    Lands(First(a, b) + [Traverse(0, Back)], asked, a);
  }

  lemma {:induction false} AskedWaits(s: State, target: nat)
    requires AtRest(s) && target < |s.slots[1].session.urls|
    requires AtRest(Asked(s, target)) && Printed(s.slots[1].session.urls[target])
    ensures Waiting(Asked(s, target), s.slots[1].session.urls[target])
    ensures var m := Asked(s, target);
      m.tasks[m.queue[0]].kind == Traversal(target) && m.slots[1].session == s.slots[1].session
  {
    hide Canonical;
  }

  /** The user asks for b again. */
  lemma {:induction false} AskedAgain(a: string, b: string) returns (s: State)
    requires Printed(a) && Printed(b)
    ensures Reached(Second(a, b) + [Traverse(0, Forward)]) == Some(s) && Waiting(s, b) && AtRest(s)
    ensures s.tasks[s.queue[0]].kind == Traversal(1) && s.slots[1].session == History([a, b], 0, Some(a))
  {
    var before := WentBack(a, b);
    s := Asked(before, 1);
    assert Target(before.slots[1].session, Forward) == Some((b, 1));
    hide Reached, AtRest, Waiting, Printed, Second, Asked, Target;
    Asks(Second(a, b), before, Forward);
    AskedWaits(before, 1);
  }

  function Third(a: string, b: string, c: string): seq<Step> {
    Second(a, b) + [Traverse(0, Forward)] + Click(c)
  }

  /** Before b arrives, the user follows another fragment. */
  lemma {:induction false} ClickedAway(a: string, b: string, c: string) returns (s: State)
    requires Printed(a) && Printed(b)
    ensures Reached(Third(a, b, c)) == Some(s) && Waiting(s, b)
    ensures s.tasks[s.queue[0]].kind == Traversal(1) && s.slots[1].session == History([a, c], 1, Some(c))
  {
    var asked := AskedAgain(a, b);
    s := Clicked(asked, c);
    ClickedIs(asked, a, b, c);
    hide Reached, AtRest, Waiting, Printed, Second, Clicked, Click;
    Clicks(Second(a, b) + [Traverse(0, Forward)], asked, c);
    ClickedWaits(asked, b, c);
  }

  function Refusing(a: string, b: string, c: string): seq<Step> {
    Third(a, b, c) + Arrive(b)
  }

  /** The page of b is current when it comes to commit, but its entry is gone, and it is refused. */
  lemma {:induction false} Refused(a: string, b: string, c: string) returns (s: State)
    requires Printed(a) && Printed(b) && b != c
    ensures Reached(Refusing(a, b, c)) == Some(s) && Wired(s) && s.desk.Committing? && s.desk.items != []
    ensures var t := s.desk.items[0];
      && Current(s, s.desk.window, t) && s.tasks[t].page == Some(b) && s.tasks[t].kind == Traversal(1)
      && s.slots[s.tasks[t].tab].session == History([a, c], 1, Some(c))
      && !Accepts(s.slots[s.tasks[t].tab].session, b, Traversal(1)) && !CommitsShown(s)
  {
    var waiting := ClickedAway(a, b, c);
    s := Arrived(waiting, b);
    hide Reached, Third, Printed;
    Arrives(Third(a, b, c), waiting, b);
    assert Arrive(b) != [] && Refusing(a, b, c) == Third(a, b, c) + Arrive(b);
    hide Arrive, Canonical, Wired;
    RefusedCommit(waiting, b);
  }

  lemma {:induction false} ClickedIs(s: State, a: string, b: string, c: string)
    requires AtRest(s) && s.slots[1].session == History([a, b], 0, Some(a))
    ensures Clicked(s, c).slots[1].session == History([a, c], 1, Some(c))
    ensures Clicked(s, c).tasks == s.tasks && Clicked(s, c).queue == s.queue
  {
    assert [a, b][..1] + [c] == [a, c];
    hide AtRest;
  }

  lemma {:induction false} ClickedWaits(s: State, page: string, url: string)
    requires Waiting(s, page) && s.slots[1].session.page.Some? && AtRest(Clicked(s, url))
    ensures Waiting(Clicked(s, url), page)
  {
    hide Canonical, Resting;
  }

  lemma {:induction false} RefusedCommit(s: State, page: string)
    requires Waiting(s, page) && Wired(Arrived(s, page)) && !Accepts(s.slots[1].session, page, s.tasks[s.queue[0]].kind)
    requires s.slots[1].session.page != Some(page)
    ensures Current(Arrived(s, page), 0, s.queue[0]) && !CommitsShown(Arrived(s, page))
  {
    hide Canonical, Wired, CommittedHistory;
  }

  lemma {:induction false} AboutPrinted(path: string, fragment: string)
    requires '#' !in path
    ensures Printed(WithHash(Join("about:", path, ""), fragment))
  {
    var b := Join("about:", path, "");
    JoinTwo("about:", path);
    ReadAbout(path);
    hide Join, WithHash, Resource;
    ReadHidden(b, fragment);
  }

  lemma {:induction false} SampleUrls()
    ensures Join("about:", "a", "") == "about:a"
    ensures WithHash("about:a", "") == "about:a" && WithHash("about:a", "1") == "about:a#1"
  {
  }

  /** A page and two of its fragments for which it happens. */
  lemma {:induction false} RefusedRun()
    ensures var end := Reached(Refusing("about:a", "about:a#1", "about:a#2"));
      && end.Some? && Wired(end.value) && end.value.desk.Committing? && end.value.desk.items != []
      && var s := end.value;
         var t := s.desk.items[0];
         && Current(s, s.desk.window, t) && s.tasks[t].page == Some("about:a#1") && s.tasks[t].kind == Traversal(1)
         && s.slots[s.tasks[t].tab].session == History(["about:a", "about:a#2"], 1, Some("about:a#2"))
         && !CommitsShown(s)
  {
    SampleUrls();
    AboutPrinted("a", "");
    AboutPrinted("a", "1");
    hide Reached, Printed, CommitsShown, Refusing, Join, WithHash, Wired;
    assert "about:a#1" != "about:a#2" by {
      assert "about:a#1"[8] != "about:a#2"[8];
    }
    var s := Refused("about:a", "about:a#1", "about:a#2");
  }
}
