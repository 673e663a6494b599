/** References to fetches and the lives of synchronous jobs, over all interleavings. */
module XhrRuns {
  import opened Results
  import opened Counting
  import opened XhrMachine

  datatype Part = Listed | Asked | Handed | Delivering

  function Of(page: Page, part: Part): seq<nat> {
    match part
    case Listed => page.list
    case Asked => One(page.asked)
    case Handed => One(page.placed)
    case Delivering => One(page.delivering)
  }

  /** How often f is in that part of any page. */
  function InPages(pages: seq<Page>, part: Part, f: nat): nat {
    if pages == [] then 0
    else InPages(pages[..|pages| - 1], part, f) + Times(Of(pages[|pages| - 1], part), f)
  }

  /** The references pages hold to f. */
  function PageHolds(s: State, f: nat): nat {
    InPages(s.pages, Listed, f) + InPages(s.pages, Asked, f) + InPages(s.pages, Handed, f) + InPages(s.pages, Delivering, f)
  }

  /** The references the loader, or a request on its way to it, holds to f. */
  function OwnerHolds(s: State, f: nat): nat {
    InPages(s.pages, Asked, f) + Times(s.queue, f) + Times(s.batch, f) + Times(s.inflight, f)
  }

  /** Where f still waits to be delivered. */
  function Undelivered(s: State, f: nat): nat {
    InPages(s.pages, Listed, f) + InPages(s.pages, Asked, f) + InPages(s.pages, Handed, f)
  }

  predicate Fits(x: Fetch, page: nat, owner: nat, undelivered: nat) {
    && x.references == page + owner
    && page <= 1
    && owner + x.finishes == 1
    && (x.done <==> x.finishes == 1)
    && x.frees == (if x.references == 0 then 1 else 0)
    && undelivered + x.deliveries + (if x.abandoned then 1 else 0) == 1
    && (x.deliveries == 1 ==> x.done)
  }

  ghost predicate FetchOk(s: State, f: nat) {
    if f < |s.fetches| then Fits(s.fetches[f], PageHolds(s, f), OwnerHolds(s, f), Undelivered(s, f))
    else PageHolds(s, f) == 0 && OwnerHolds(s, f) == 0
  }

  function LoaderHolds(s: State, j: nat): nat {
    Times(s.syncQueue, j) + Times(s.syncBatch, j) + Times(s.syncInflight, j)
  }

  ghost predicate JobOk(s: State, j: nat) {
    if j < |s.jobs| then
      var x := s.jobs[j];
      && LoaderHolds(s, j) + x.finishes == 1
      && (x.done <==> x.finishes == 1)
      && (x.returned ==> x.done)
    else LoaderHolds(s, j) == 0
  }

  predicate PhaseOk(s: State) {
    && (!s.phase.Running? ==> s.failed && s.stopping)
    && (s.phase.Drained? || s.phase.Exited? ==> s.queue == [] && s.syncQueue == [])
    && (s.phase.Exited? ==> s.batch == [] && s.syncBatch == [] && s.inflight == [] && s.syncInflight == [])
  }

  ghost predicate Good(s: State) {
    Wired(s) && PhaseOk(s) && (forall f: nat :: FetchOk(s, f)) && (forall j: nat :: JobOk(s, j))
  }

  lemma {:induction false} PagesUpdate(pages: seq<Page>, p: nat, page: Page, part: Part, f: nat)
    requires p < |pages|
    ensures InPages(pages[p := page], part, f) + Times(Of(pages[p], part), f) ==
      InPages(pages, part, f) + Times(Of(page, part), f)
    decreases |pages|
  {
    hide Times, Of;
    var n := |pages| - 1;
    if p < n {
      assert pages[p := page][..n] == pages[..n][p := page];
      PagesUpdate(pages[..n], p, page, part, f);
    } else {
      assert pages[p := page][..n] == pages[..n];
    }
  }

  lemma {:induction false} PagesAppend(pages: seq<Page>, page: Page, part: Part, f: nat)
    ensures InPages(pages + [page], part, f) == InPages(pages, part, f) + Times(Of(page, part), f)
  {
    hide Times, Of;
    assert (pages + [page])[..|pages|] == pages;
  }

  lemma {:induction false} PagesNone(f: nat)
    ensures forall part :: InPages([], part, f) == 0
  {
  }

  /** Replacing one page moves its share of each part. */
  lemma {:induction false} AllParts(pages: seq<Page>, p: nat, page: Page, f: nat)
    requires p < |pages|
    ensures var after, was := pages[p := page], pages[p];
      && InPages(after, Listed, f) + Times(was.list, f) == InPages(pages, Listed, f) + Times(page.list, f)
      && InPages(after, Asked, f) + Times(One(was.asked), f) == InPages(pages, Asked, f) + Times(One(page.asked), f)
      && InPages(after, Handed, f) + Times(One(was.placed), f) == InPages(pages, Handed, f) + Times(One(page.placed), f)
      && InPages(after, Delivering, f) + Times(One(was.delivering), f) ==
           InPages(pages, Delivering, f) + Times(One(page.delivering), f)
  {
    hide Times, InPages;
    PagesUpdate(pages, p, page, Listed, f);
    PagesUpdate(pages, p, page, Asked, f);
    PagesUpdate(pages, p, page, Handed, f);
    PagesUpdate(pages, p, page, Delivering, f);
  }

  // ----- What one step does to the references of one fetch -----

  lemma {:induction false} NewPageFetch(s: State, f: nat)
    requires Wired(s) && FetchOk(s, f)
    ensures FetchOk(Next(s, NewPage), f)
  {
    hide Times, Wired;
    var page := Page([], None, None, None, false);
    TimesOne(0, f);
    PagesAppend(s.pages, page, Listed, f);
    PagesAppend(s.pages, page, Asked, f);
    PagesAppend(s.pages, page, Handed, f);
    PagesAppend(s.pages, page, Delivering, f);
    hide InPages;
  }

  lemma {:induction false} AskFetch(s: State, p: nat, f: nat)
    requires Wired(s) && Enabled(s, Ask(p)) && FetchOk(s, f)
    ensures FetchOk(Next(s, Ask(p)), f)
  {
    hide Times, Wired, InPages;
    AllParts(s.pages, p, s.pages[p].(asked := Some(|s.fetches|)), f);
    TimesOne(|s.fetches|, f);
  }

  lemma {:induction false} AcceptedFetch(s: State, p: nat, f: nat)
    requires Wired(s) && Enabled(s, Accepted(p)) && FetchOk(s, f)
    ensures FetchOk(Next(s, Accepted(p)), f)
  {
    hide Times, Wired, InPages;
    AllParts(s.pages, p, s.pages[p].(asked := None, placed := s.pages[p].asked), f);
    TimesOne(0, f);
    TimesJoin(s.queue, [s.pages[p].asked.value], f);
  }

  lemma {:induction false} SubmittedFetch(s: State, p: nat, f: nat)
    requires Wired(s) && Enabled(s, Submitted(p)) && FetchOk(s, f)
    ensures FetchOk(Next(s, Submitted(p)), f)
  {
    hide Times, Wired, InPages;
    AllParts(s.pages, p, s.pages[p].(asked := None, placed := s.pages[p].asked), f);
    TimesOne(0, f);
    TimesJoin([s.pages[p].asked.value], s.inflight, f);
  }

  lemma {:induction false} RefusedShape(s: State, p: nat)
    requires Wired(s) && Enabled(s, Refused(p))
    ensures s.pages[p].asked.value < |s.fetches|
    ensures var s', x := Next(s, Refused(p)), s.pages[p].asked.value;
      s' == s.(fetches := s.fetches[x := FinishedFetch(s.fetches[x])],
               pages := s.pages[p := s.pages[p].(asked := None, placed := s.pages[p].asked)])
  {
    MineKnown(s, p);
    hide Wired, Known, Mine;
  }

  lemma {:induction false} RefusedCount(s: State, s': State, p: nat, f: nat)
    requires p < |s.pages| && s.pages[p].asked.Some? && s.pages[p].placed.None? && s.pages[p].asked.value < |s.fetches|
    requires FetchOk(s, f)
    requires var x := s.pages[p].asked.value;
      s' == s.(fetches := s.fetches[x := FinishedFetch(s.fetches[x])],
               pages := s.pages[p := s.pages[p].(asked := None, placed := s.pages[p].asked)])
    ensures FetchOk(s', f)
  {
    hide Times, InPages;
    AllParts(s.pages, p, s.pages[p].(asked := None, placed := s.pages[p].asked), f);
    TimesOne(s.pages[p].asked.value, f);
    assert PageHolds(s', f) == PageHolds(s, f);
    assert OwnerHolds(s', f) + (if f == s.pages[p].asked.value then 1 else 0) == OwnerHolds(s, f);
  }

  lemma {:induction false} RefusedFetch(s: State, p: nat, f: nat)
    requires Wired(s) && Enabled(s, Refused(p)) && FetchOk(s, f)
    ensures FetchOk(Next(s, Refused(p)), f)
  {
    RefusedShape(s, p);
    hide Wired, Next, FetchOk;
    RefusedCount(s, Next(s, Refused(p)), p, f);
  }

  lemma {:induction false} ListedFetch(s: State, p: nat, f: nat)
    requires Wired(s) && Enabled(s, ListFetch(p)) && FetchOk(s, f)
    ensures FetchOk(Next(s, ListFetch(p)), f)
  {
    hide Times, Wired, InPages;
    var page := s.pages[p];
    AllParts(s.pages, p, page.(placed := None, list := page.list + [page.placed.value]), f);
    TimesOne(0, f);
    TimesJoin(page.list, [page.placed.value], f);
  }

  lemma {:induction false} BeginFetch(s: State, p: nat, i: nat, f: nat)
    requires Wired(s) && Enabled(s, BeginDelivery(p, i)) && FetchOk(s, f)
    ensures FetchOk(Next(s, BeginDelivery(p, i)), f)
  {
    hide Times, Wired, InPages;
    var page := s.pages[p];
    AllParts(s.pages, p, page.(list := XhrMachine.Without(page.list, i), delivering := Some(page.list[i])), f);
    TimesOne(page.list[i], f);
    TimesWithout(page.list, i, f);
  }

  lemma {:induction false} EndShape(s: State, p: nat)
    requires Wired(s) && Enabled(s, EndDelivery(p))
    ensures s.pages[p].delivering.value < |s.fetches|
    ensures var s', x := Next(s, EndDelivery(p)), s.pages[p].delivering.value;
      s' == s.(fetches := s.fetches[x := Released(s.fetches[x])], pages := s.pages[p := s.pages[p].(delivering := None)])
  {
    MineKnown(s, p);
    hide Wired, Known, Mine;
  }

  lemma {:induction false} EndCount(s: State, s': State, p: nat, f: nat)
    requires p < |s.pages| && s.pages[p].delivering.Some? && s.pages[p].delivering.value < |s.fetches|
    requires FetchOk(s, f)
    requires var x := s.pages[p].delivering.value;
      s' == s.(fetches := s.fetches[x := Released(s.fetches[x])], pages := s.pages[p := s.pages[p].(delivering := None)])
    ensures FetchOk(s', f)
  {
    hide Times, InPages;
    AllParts(s.pages, p, s.pages[p].(delivering := None), f);
    TimesOne(s.pages[p].delivering.value, f);
    assert PageHolds(s', f) + (if f == s.pages[p].delivering.value then 1 else 0) == PageHolds(s, f);
    assert OwnerHolds(s', f) == OwnerHolds(s, f);
  }

  lemma {:induction false} EndFetch(s: State, p: nat, f: nat)
    requires Wired(s) && Enabled(s, EndDelivery(p)) && FetchOk(s, f)
    ensures FetchOk(Next(s, EndDelivery(p)), f)
  {
    EndShape(s, p);
    hide Wired, Next, FetchOk;
    EndCount(s, Next(s, EndDelivery(p)), p, f);
  }

  lemma {:induction false} CloseFetch(s: State, p: nat, f: nat)
    requires Wired(s) && Enabled(s, ClosePage(p)) && FetchOk(s, f)
    ensures FetchOk(Next(s, ClosePage(p)), f)
  {
    hide Times, Wired, InPages;
    AllParts(s.pages, p, s.pages[p].(closing := true), f);
  }

  lemma {:induction false} AbandonShape(s: State, p: nat)
    requires Wired(s) && Enabled(s, AbandonFirst(p))
    ensures s.pages[p].list[0] < |s.fetches|
    ensures var s', x := Next(s, AbandonFirst(p)), s.pages[p].list[0];
      s' == s.(fetches := s.fetches[x := Released(s.fetches[x].(abandoned := true))],
               pages := s.pages[p := s.pages[p].(list := s.pages[p].list[1..])])
  {
    MineKnown(s, p);
    assert s.pages[p].list[0] < |s.fetches|;
    hide Wired, Known, Mine;
  }

  lemma {:induction false} AbandonCount(s: State, s': State, p: nat, f: nat)
    requires p < |s.pages| && s.pages[p].list != [] && s.pages[p].list[0] < |s.fetches|
    requires FetchOk(s, f)
    requires var x := s.pages[p].list[0];
      s' == s.(fetches := s.fetches[x := Released(s.fetches[x].(abandoned := true))],
               pages := s.pages[p := s.pages[p].(list := s.pages[p].list[1..])])
    ensures FetchOk(s', f)
  {
    hide Times, InPages;
    var page := s.pages[p];
    AllParts(s.pages, p, page.(list := page.list[1..]), f);
    TimesFirst(page.list, f);
    TimesOne(page.list[0], f);
    assert PageHolds(s', f) + (if f == page.list[0] then 1 else 0) == PageHolds(s, f);
    assert OwnerHolds(s', f) == OwnerHolds(s, f);
  }

  lemma {:induction false} AbandonFetch(s: State, p: nat, f: nat)
    requires Wired(s) && Enabled(s, AbandonFirst(p)) && FetchOk(s, f)
    ensures FetchOk(Next(s, AbandonFirst(p)), f)
  {
    hide Wired, Next, FetchOk, Released;
    AbandonShape(s, p);
    AbandonCount(s, Next(s, AbandonFirst(p)), p, f);
  }

  predicate LoaderStep(e: Step) {
    e.TakeJobs? || e.SubmitNext? || e.FinishNext? || e.FinishInflight?
  }

  lemma {:induction false} LoaderFetch(s: State, e: Step, f: nat)
    requires Wired(s) && Enabled(s, e) && FetchOk(s, f) && LoaderStep(e)
    ensures FetchOk(Next(s, e), f)
  {
    hide Times, InPages;
    TimesOne(0, f);
    if e.SubmitNext? {
      hide Wired;
      TimesFirst(s.batch, f);
      TimesJoin([s.batch[0]], s.inflight, f);
    } else if e.FinishNext? {
      TimesFirst(s.batch, f);
      TimesOne(s.batch[0], f);
    } else if e.FinishInflight? {
      TimesWithout(s.inflight, e.index, f);
      TimesOne(s.inflight[e.index], f);
    }
  }

  predicate SyncStep(e: Step) {
    e.SyncRequest? || e.Wake? || e.SubmitSync? || e.FinishSync? || e.FinishSyncInflight? ||
    e.Stop? || e.NetworkFails? || e.Close? || e.Exit?
  }

  lemma {:induction false} OtherFetch(s: State, e: Step, f: nat)
    requires Wired(s) && Enabled(s, e) && FetchOk(s, f) && SyncStep(e)
    ensures FetchOk(Next(s, e), f)
  {
    hide Times, InPages;
  }

  lemma {:induction false} StepFetch(s: State, e: Step, f: nat)
    requires Wired(s) && Enabled(s, e) && FetchOk(s, f)
    ensures FetchOk(Next(s, e), f)
  {
    hide FetchOk, Wired, Enabled, Next;
    match e {
      case NewPage => NewPageFetch(s, f);
      case Ask(p) => AskFetch(s, p, f);
      case Accepted(p) => AcceptedFetch(s, p, f);
      case Refused(p) => RefusedFetch(s, p, f);
      case Submitted(p) => SubmittedFetch(s, p, f);
      case ListFetch(p) => ListedFetch(s, p, f);
      case BeginDelivery(p, i) => BeginFetch(s, p, i, f);
      case EndDelivery(p) => EndFetch(s, p, f);
      case ClosePage(p) => CloseFetch(s, p, f);
      case AbandonFirst(p) => AbandonFetch(s, p, f);
      case _ =>
        if LoaderStep(e) {
          LoaderFetch(s, e, f);
        } else {
          OtherFetch(s, e, f);
        }
    }
  }

  lemma {:induction false} StepJob(s: State, e: Step, j: nat)
    requires Wired(s) && Enabled(s, e) && JobOk(s, j)
    ensures JobOk(Next(s, e), j)
  {
    hide Times;
    TimesOne(|s.jobs|, j);
    if e.SyncRequest? {
      TimesJoin(s.syncQueue, [|s.jobs|], j);
    } else if e.SubmitSync? {
      TimesFirst(s.syncBatch, j);
      TimesJoin([s.syncBatch[0]], s.syncInflight, j);
    } else if e.FinishSync? {
      TimesFirst(s.syncBatch, j);
      TimesOne(s.syncBatch[0], j);
    } else if e.FinishSyncInflight? {
      TimesWithout(s.syncInflight, e.index, j);
      TimesOne(s.syncInflight[e.index], j);
    } else {
      JobFrame(s, e, j);
    }
  }

  lemma {:induction false} JobFrame(s: State, e: Step, j: nat)
    requires Wired(s) && Enabled(s, e) && JobOk(s, j)
    requires !e.SyncRequest? && !e.SubmitSync? && !e.FinishSync? && !e.FinishSyncInflight?
    ensures JobOk(Next(s, e), j)
  {
    hide Times;
    TimesOne(0, j);
  }

  lemma {:induction false} StepPhase(s: State, e: Step)
    requires Wired(s) && Enabled(s, e) && PhaseOk(s)
    ensures PhaseOk(Next(s, e))
  {
    hide Wired, Released, FinishedFetch, Without;
  }

  // ----- Names keep referring -----

  lemma {:induction false} PagesKnown(s: State, s': State, p: nat)
    requires Wired(s) && p < |s.pages| && |s'.pages| == |s.pages| && |s.fetches| <= |s'.fetches|
    requires forall q :: 0 <= q < |s.pages| && q != p ==> s'.pages[q] == s.pages[q]
    requires Known(Mine(s'.pages[p]), |s'.fetches|)
    ensures forall q :: 0 <= q < |s'.pages| ==> Known(Mine(s'.pages[q]), |s'.fetches|)
  {
    hide Mine;
    forall q | 0 <= q < |s'.pages|
      ensures Known(Mine(s'.pages[q]), |s'.fetches|)
    {
      if q != p {
        assert Known(Mine(s.pages[q]), |s.fetches|);
      }
    }
  }

  predicate PageStep(e: Step) {
    e.Ask? || e.Accepted? || e.Refused? || e.Submitted? || e.ListFetch? || e.BeginDelivery? || e.EndDelivery? ||
    e.ClosePage? || e.AbandonFirst?
  }

  lemma {:induction false} PageMine(s: State, e: Step)
    requires Wired(s) && Enabled(s, e) && PageStep(e)
    ensures |Next(s, e).fetches| >= |s.fetches|
    ensures Known(Mine(Next(s, e).pages[e.page]), |Next(s, e).fetches|)
  {
    MineKnown(s, e.page);
    PageParts(s, e);
    MineOf(Next(s, e).pages[e.page], |Next(s, e).fetches|);
  }

  lemma {:induction false} MineOf(page: Page, count: nat)
    requires Known(page.list, count)
    requires page.asked.Some? ==> page.asked.value < count
    requires page.placed.Some? ==> page.placed.value < count
    requires page.delivering.Some? ==> page.delivering.value < count
    ensures Known(Mine(page), count)
  {
  }

  lemma {:induction false} PageParts(s: State, e: Step)
    requires Wired(s) && Enabled(s, e) && PageStep(e)
    requires Known(s.pages[e.page].list, |s.fetches|)
    requires s.pages[e.page].asked.Some? ==> s.pages[e.page].asked.value < |s.fetches|
    requires s.pages[e.page].placed.Some? ==> s.pages[e.page].placed.value < |s.fetches|
    requires s.pages[e.page].delivering.Some? ==> s.pages[e.page].delivering.value < |s.fetches|
    ensures |Next(s, e).fetches| >= |s.fetches|
    ensures var page, count := Next(s, e).pages[e.page], |Next(s, e).fetches|;
      && Known(page.list, count)
      && (page.asked.Some? ==> page.asked.value < count)
      && (page.placed.Some? ==> page.placed.value < count)
      && (page.delivering.Some? ==> page.delivering.value < count)
  {
    assert e.page < |s.pages|;
    hide Mine, Next, Wired, Enabled, Released, FinishedFetch, Known, Without;
    if e.Refused? {
      RefusedShape(s, e.page);
    } else if e.EndDelivery? {
      EndShape(s, e.page);
    } else if e.AbandonFirst? {
      AbandonShape(s, e.page);
      KnownLess(s.pages[e.page].list, 0, |s.fetches|);
    } else {
      NextShape(s, e);
      if e.ListFetch? && s.pages[e.page].placed.Some? {
        KnownMore(s.pages[e.page].list, s.pages[e.page].placed.value, |s.fetches|);
      } else if e.BeginDelivery? && e.index < |s.pages[e.page].list| {
        KnownLess(s.pages[e.page].list, e.index, |s.fetches|);
      } else {
        KnownUpTo(s.pages[e.page].list, |s.fetches|);
      }
    }
  }

  lemma {:induction false} KnownLess(ids: seq<nat>, i: nat, count: nat)
    requires Known(ids, count) && i < |ids|
    ensures Known(Without(ids, i), count) && Known(ids[1..], count) && ids[i] < count
  {
  }

  lemma {:induction false} KnownMore(ids: seq<nat>, id: nat, count: nat)
    requires Known(ids, count) && id < count
    ensures Known(ids + [id], count)
  {
  }

  lemma {:induction false} KnownUpTo(ids: seq<nat>, count: nat)
    requires Known(ids, count)
    ensures Known(ids, count + 1)
  {
  }

  /** The steps of a page that leave all references alone. */
  lemma {:induction false} NextShape(s: State, e: Step)
    requires Wired(s) && Enabled(s, e) && PageStep(e) && !e.Refused? && !e.EndDelivery? && !e.AbandonFirst?
    ensures var page, page', count := s.pages[e.page], Next(s, e).pages[e.page], |Next(s, e).fetches|;
      && count == |s.fetches| + (if e.Ask? then 1 else 0)
      && page'.list == (if e.ListFetch? && page.placed.Some? then page.list + [page.placed.value]
                        else if e.BeginDelivery? && e.index < |page.list| then Without(page.list, e.index) else page.list)
      && page'.asked == (if e.Ask? then Some(|s.fetches|) else if e.Accepted? || e.Submitted? then None else page.asked)
      && page'.placed == (if e.ListFetch? then None else if e.Accepted? || e.Submitted? then page.asked else page.placed)
      && page'.delivering ==
           if e.BeginDelivery? && e.index < |page.list| then Some(page.list[e.index]) else page.delivering
  {
    hide Wired, Released, FinishedFetch, Release, Finish, FinishJob, Without;
  }

  lemma {:induction false} PageWired(s: State, e: Step)
    requires Wired(s) && Enabled(s, e) && PageStep(e)
    ensures Wired(Next(s, e))
  {
    PageMine(s, e);
    MineKnown(s, e.page);
    PagesKnown(s, Next(s, e), e.page);
    hide Mine;
  }

  lemma {:induction false} OtherWired(s: State, e: Step)
    requires Wired(s) && Enabled(s, e) && !PageStep(e)
    ensures Wired(Next(s, e))
  {
    var s' := Next(s, e);
    forall p | 0 <= p < |s'.pages|
      ensures Known(Mine(s'.pages[p]), |s'.fetches|)
    {
      if p < |s.pages| {
        assert Known(Mine(s.pages[p]), |s.fetches|);
      }
    }
    hide Mine;
  }

  lemma {:induction false} StepKeeps(s: State, e: Step)
    requires Good(s) && Enabled(s, e)
    ensures Good(Next(s, e))
  {
    hide Wired, Enabled, Next, FetchOk, JobOk, PhaseOk;
    if PageStep(e) {
      PageWired(s, e);
    } else {
      OtherWired(s, e);
    }
    StepPhase(s, e);
    forall f: nat ensures FetchOk(Next(s, e), f) {
      StepFetch(s, e, f);
    }
    forall j: nat ensures JobOk(Next(s, e), j) {
      StepJob(s, e, j);
    }
  }

  // ----- All runs -----

  ghost function Reached(steps: seq<Step>): Option<State>
    decreases |steps|
  {
    if steps == [] then Some(INITIAL)
    else
      match Reached(steps[..|steps| - 1])
      case None => None
      case Some(s) => Reply(s, steps[|steps| - 1])
  }

  ghost function Reply(s: State, e: Step): Option<State> {
    if Wired(s) && Enabled(s, e) then Some(Next(s, e)) else None
  }

  lemma {:induction false} InitialGood()
    ensures Good(INITIAL)
  {
    forall f: nat ensures FetchOk(INITIAL, f) && JobOk(INITIAL, f) {
      PagesNone(f);
    }
  }

  lemma {:induction false} AlwaysGood(steps: seq<Step>)
    requires Reached(steps).Some?
    ensures Good(Reached(steps).value)
    decreases |steps|
  {
    hide Good;
    if steps == [] {
      InitialGood();
    } else {
      AlwaysGood(steps[..|steps| - 1]);
      hide Wired, Enabled, Next;
      StepKeeps(Reached(steps[..|steps| - 1]).value, steps[|steps| - 1]);
    }
  }

  /** The page has asked for f, has yet to list it, or lists it. */
  predicate Waits(s: State, f: nat) {
    exists p :: 0 <= p < |s.pages| &&
      (f in s.pages[p].list || s.pages[p].asked == Some(f) || s.pages[p].placed == Some(f))
  }

  lemma {:induction false} InSome(pages: seq<Page>, part: Part, f: nat)
    ensures InPages(pages, part, f) > 0 <==> exists p :: 0 <= p < |pages| && f in Of(pages[p], part)
    decreases |pages|
  {
    hide Of, Times;
    if pages != [] {
      var n := |pages| - 1;
      InSome(pages[..n], part, f);
      TimesIn(Of(pages[n], part), f);
      assert forall p :: 0 <= p < n ==> pages[..n][p] == pages[p];
      if p :| 0 <= p < |pages| && f in Of(pages[p], part) && p < n {
        assert f in Of(pages[..n][p], part);
      }
    }
  }

  lemma {:induction false} WaitsExactly(s: State, f: nat)
    ensures Undelivered(s, f) > 0 <==> Waits(s, f)
  {
    hide InPages;
    InSome(s.pages, Listed, f);
    InSome(s.pages, Asked, f);
    InSome(s.pages, Handed, f);
    if Waits(s, f) {
      var p :| 0 <= p < |s.pages| &&
        (f in s.pages[p].list || s.pages[p].asked == Some(f) || s.pages[p].placed == Some(f));
      assert f in Of(s.pages[p], Listed) || f in Of(s.pages[p], Asked) || f in Of(s.pages[p], Handed);
    }
    if Undelivered(s, f) > 0 {
      var p, part: Part :| 0 <= p < |s.pages| && f in Of(s.pages[p], part) && !part.Delivering?;
    }
  }

  /** A fetch is freed exactly when neither side holds it, and never more than once; it is finished
      exactly when the owner side has let go; and as soon as it waits no longer, it has either been
      delivered, once and finished, or abandoned. */
  lemma {:induction false} FetchLife(steps: seq<Step>, f: nat)
    requires Reached(steps).Some? && f < |Reached(steps).value.fetches|
    ensures var s := Reached(steps).value;
      var x := s.fetches[f];
      && x.references == PageHolds(s, f) + OwnerHolds(s, f)
      && PageHolds(s, f) <= 1 && OwnerHolds(s, f) <= 1
      && x.finishes == 1 - OwnerHolds(s, f) && (x.done <==> OwnerHolds(s, f) == 0)
      && x.frees == (if PageHolds(s, f) == 0 && OwnerHolds(s, f) == 0 then 1 else 0)
      && (x.deliveries == 1 ==> x.done)
      && x.deliveries + (if x.abandoned then 1 else 0) == (if Waits(s, f) then 0 else 1)
  {
    AlwaysGood(steps);
    WaitsExactly(Reached(steps).value, f);
    hide Waits, Reached, Wired, JobOk, PhaseOk, PageHolds, OwnerHolds, Undelivered;
    assert FetchOk(Reached(steps).value, f);
  }

  /** A job the waiting thread may already have dropped is in none of the loader's lists, and a job
      is finished at most once. */
  lemma {:induction false} JobLife(steps: seq<Step>, j: nat)
    requires Reached(steps).Some? && j < |Reached(steps).value.jobs|
    ensures var s := Reached(steps).value;
      && s.jobs[j].finishes == (if s.jobs[j].done then 1 else 0)
      && (s.jobs[j].done <==> j !in s.syncQueue && j !in s.syncBatch && j !in s.syncInflight)
      && (s.jobs[j].returned ==> s.jobs[j].done)
  {
    AlwaysGood(steps);
    var s := Reached(steps).value;
    hide Reached, Wired, FetchOk, PhaseOk, Times;
    assert JobOk(s, j);
    TimesIn(s.syncQueue, j);
    TimesIn(s.syncBatch, j);
    TimesIn(s.syncInflight, j);
  }

  /** When the loader is gone every job it accepted has been finished once, and of every fetch only a
      request on its way may still be unfinished, which the loader will not accept any more. */
  lemma {:induction false} NothingLeft(steps: seq<Step>)
    requires Reached(steps).Some? && Reached(steps).value.phase.Exited?
    ensures var s := Reached(steps).value;
      && (forall j :: 0 <= j < |s.jobs| ==> s.jobs[j].done && s.jobs[j].finishes == 1)
      && (forall f :: 0 <= f < |s.fetches| && InPages(s.pages, Asked, f) == 0 ==> s.fetches[f].done && s.fetches[f].finishes == 1)
      && (forall p :: Wired(s) ==> !Enabled(s, Accepted(p)) && !Enabled(s, Submitted(p)))
      && (Wired(s) ==> !Enabled(s, SyncRequest))
  {
    AlwaysGood(steps);
    var s := Reached(steps).value;
    hide Reached, Wired;
    forall j | 0 <= j < |s.jobs| ensures s.jobs[j].done && s.jobs[j].finishes == 1 {
      assert JobOk(s, j);
    }
    forall f | 0 <= f < |s.fetches| && InPages(s.pages, Asked, f) == 0
      ensures s.fetches[f].done && s.fetches[f].finishes == 1
    {
      assert FetchOk(s, f);
    }
  }

  /** The loader's steps that finish or move a job. */
  predicate Works(e: Step) {
    e.TakeJobs? || e.SubmitNext? || e.FinishNext? || e.FinishInflight? || e.SubmitSync? || e.FinishSync? || e.FinishSyncInflight?
  }

  function Work(s: State): nat {
    3 * (|s.queue| + |s.syncQueue|) + 2 * (|s.batch| + |s.syncBatch|) + |s.inflight| + |s.syncInflight| +
    if s.phase.Closed? then 1 else 0
  }

  /** Once closed, nothing adds to the loader's work, each of its steps takes from it, and until it is
      gone it can take a step. */
  lemma {:induction false} ClosedDrains(s: State, e: Step)
    requires Good(s) && !s.phase.Running? && Enabled(s, e)
    ensures Work(Next(s, e)) <= Work(s)
    ensures Works(e) ==> Work(Next(s, e)) < Work(s)
  {
    hide Wired, FetchOk, JobOk;
  }

  lemma {:induction false} ClosedMoves(s: State) returns (e: Step)
    requires Good(s) && (s.phase.Closed? || s.phase.Drained?)
    ensures Enabled(s, e) && (if Work(s) == 0 then e.Exit? else Works(e))
  {
    hide Wired, FetchOk, JobOk;
    if s.batch != [] {
      e := FinishNext;
    } else if s.syncBatch != [] {
      e := FinishSync;
    } else if s.phase.Closed? {
      e := TakeJobs;
    } else if s.inflight != [] {
      e := FinishInflight(0);
    } else if s.syncInflight != [] {
      e := FinishSyncInflight(0);
    } else {
      e := Exit;
    }
  }
}
