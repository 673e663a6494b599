/** XMLHttpRequest of src/tabset.c and src/browser.c as one machine.

    Pages, the loader and a waiting window thread share fetches and jobs. Fetches and synchronous
    jobs are named by their position among all ever made. A fetch counts its references; a job is on
    the stack of the thread that waits for it.
*/
module XhrMachine {
  import opened Results

  /** finishes, frees and deliveries count what has happened to it. */
  datatype Fetch = Fetch(references: int, done: bool, abandoned: bool, finishes: nat, frees: nat, deliveries: nat)

  datatype Job = Job(done: bool, finishes: nat, returned: bool)

  /** A page's undelivered fetches, the one whose request it is just handing over, the one handed
      over but not yet listed, and the one it is delivering. */
  datatype Page = Page(list: seq<nat>, asked: Option<nat>, placed: Option<nat>, delivering: Option<nat>, closing: bool)

  /** The loader takes jobs, then refuses them, has taken the last ones, and is gone. */
  datatype Phase = Running | Closed | Drained | Exited

  datatype State = State(
    fetches: seq<Fetch>,
    jobs: seq<Job>,
    pages: seq<Page>,
    stopping: bool,
    phase: Phase,
    failed: bool,
    queue: seq<nat>,
    batch: seq<nat>,
    inflight: seq<nat>,
    syncQueue: seq<nat>,
    syncBatch: seq<nat>,
    syncInflight: seq<nat>)

  const INITIAL: State := State([], [], [], false, Running, false, [], [], [], [], [], [])

  datatype Step =
    // a page's thread
    | NewPage
    | Ask(page: nat)
    | Accepted(page: nat)
    | Refused(page: nat)
    | Submitted(page: nat)
    | ListFetch(page: nat)
    | BeginDelivery(page: nat, index: nat)
    | EndDelivery(page: nat)
    | ClosePage(page: nat)
    | AbandonFirst(page: nat)
    // the window thread
    | SyncRequest
    | Wake(job: nat)
    | Stop
    // the loader
    | TakeJobs
    | SubmitNext
    | FinishNext
    | FinishInflight(index: nat)
    | SubmitSync
    | FinishSync
    | FinishSyncInflight(index: nat)
    | NetworkFails
    | Close
    | Exit

  function One(x: Option<nat>): seq<nat> {
    if x.Some? then [x.value] else []
  }

  /** The fetches a page holds a reference to. */
  function Mine(page: Page): seq<nat> {
    page.list + One(page.asked) + One(page.placed) + One(page.delivering)
  }

  predicate Known(ids: seq<nat>, count: nat) {
    forall k :: 0 <= k < |ids| ==> ids[k] < count
  }

  predicate Wired(s: State) {
    && (forall p :: 0 <= p < |s.pages| ==> Known(Mine(s.pages[p]), |s.fetches|))
    && Known(s.queue, |s.fetches|) && Known(s.batch, |s.fetches|) && Known(s.inflight, |s.fetches|)
    && Known(s.syncQueue, |s.jobs|) && Known(s.syncBatch, |s.jobs|) && Known(s.syncInflight, |s.jobs|)
  }

  // ----- Fetches -----

  /** fetch_release: the last holder frees. */
  function Released(x: Fetch): Fetch {
    x.(references := x.references - 1, frees := x.frees + if x.references == 1 then 1 else 0)
  }

  /** tai_page_fetch_finish. */
  function FinishedFetch(x: Fetch): Fetch {
    Released(x.(done := true, finishes := x.finishes + 1))
  }

  function Release(s: State, f: nat): State
    requires f < |s.fetches|
  {
    s.(fetches := s.fetches[f := Released(s.fetches[f])])
  }

  function Finish(s: State, f: nat): State
    requires f < |s.fetches|
  {
    s.(fetches := s.fetches[f := FinishedFetch(s.fetches[f])])
  }

  function FinishJob(s: State, j: nat): State
    requires j < |s.jobs|
  {
    s.(jobs := s.jobs[j := s.jobs[j].(done := true, finishes := s.jobs[j].finishes + 1)])
  }

  function SetPage(s: State, p: nat, page: Page): State
    requires p < |s.pages|
  {
    s.(pages := s.pages[p := page])
  }

  function Without(ids: seq<nat>, i: nat): seq<nat>
    requires i < |ids|
  {
    ids[..i] + ids[i + 1..]
  }

  predicate Open(s: State) {
    !s.stopping && s.phase.Running?
  }

  /** The page's thread is in the middle of one request. */
  predicate HandsOver(page: Page) {
    page.asked.Some? && page.placed.None?
  }

  predicate Enabled(s: State, e: Step)
    requires Wired(s)
  {
    match e
    case NewPage => true
    case Ask(p) => p < |s.pages| && !s.pages[p].closing && s.pages[p].asked.None? && s.pages[p].placed.None?
    case Accepted(p) => p < |s.pages| && HandsOver(s.pages[p]) && Open(s)
    case Refused(p) => p < |s.pages| && HandsOver(s.pages[p])
    case Submitted(p) => p < |s.pages| && HandsOver(s.pages[p]) && !s.failed && s.phase.Running?
    case ListFetch(p) => p < |s.pages| && s.pages[p].placed.Some?
    case BeginDelivery(p, i) =>
      p < |s.pages| && !s.pages[p].closing && s.pages[p].delivering.None? && i < |s.pages[p].list| &&
      InList(s, p, i) < |s.fetches| && s.fetches[InList(s, p, i)].done
    case EndDelivery(p) => p < |s.pages| && s.pages[p].delivering.Some? && s.pages[p].asked.None? && s.pages[p].placed.None?
    case ClosePage(p) =>
      p < |s.pages| && !s.pages[p].closing && s.pages[p].asked.None? && s.pages[p].placed.None? && s.pages[p].delivering.None?
    case AbandonFirst(p) => p < |s.pages| && s.pages[p].closing && s.pages[p].list != []
    case SyncRequest => Open(s)
    case Wake(j) => j < |s.jobs| && s.jobs[j].done && !s.jobs[j].returned
    case Stop => true
    case TakeJobs => (s.phase.Running? || s.phase.Closed?) && s.batch == [] && s.syncBatch == []
    case SubmitNext => s.batch != [] && !s.failed
    case FinishNext => s.batch != []
    case FinishInflight(i) => i < |s.inflight|
    case SubmitSync => s.syncBatch != [] && !s.failed
    case FinishSync => s.syncBatch != []
    case FinishSyncInflight(i) => i < |s.syncInflight|
    case NetworkFails => true
    case Close => s.phase.Running? && s.stopping && s.batch == [] && s.syncBatch == []
    case Exit => s.phase.Drained? && s.batch == [] && s.syncBatch == [] && s.inflight == [] && s.syncInflight == []
  }

  function InList(s: State, p: nat, i: nat): nat
    requires p < |s.pages| && i < |s.pages[p].list|
  {
    s.pages[p].list[i]
  }

  lemma {:induction false} MineKnown(s: State, p: nat)
    requires Wired(s) && p < |s.pages|
    ensures Known(s.pages[p].list, |s.fetches|)
    ensures s.pages[p].asked.Some? ==> s.pages[p].asked.value < |s.fetches|
    ensures s.pages[p].placed.Some? ==> s.pages[p].placed.value < |s.fetches|
    ensures s.pages[p].delivering.Some? ==> s.pages[p].delivering.value < |s.fetches|
  {
    var page := s.pages[p];
    var mine := Mine(page);
    assert Known(mine, |s.fetches|);
    assert mine[..|page.list|] == page.list;
    forall k | 0 <= k < |page.list| ensures page.list[k] < |s.fetches| {
      assert mine[k] == page.list[k];
    }
    if page.asked.Some? { assert mine[|page.list|] == page.asked.value; }
    if page.placed.Some? { assert mine[|page.list| + |One(page.asked)|] == page.placed.value; }
    if page.delivering.Some? { assert mine[|mine| - 1] == page.delivering.value; }
  }

  /** The page p with its fetch f in hand let go by the owner side. */
  function Placed(s: State, p: nat): State
    requires p < |s.pages| && s.pages[p].asked.Some?
  {
    SetPage(s, p, s.pages[p].(asked := None, placed := s.pages[p].asked))
  }

  function Next(s: State, e: Step): State
    requires Wired(s) && Enabled(s, e)
  {
    match e
    case NewPage => s.(pages := s.pages + [Page([], None, None, None, false)])
    case Ask(p) =>
      SetPage(s.(fetches := s.fetches + [Fetch(2, false, false, 0, 0, 0)]), p, s.pages[p].(asked := Some(|s.fetches|)))
    case Accepted(p) => Placed(s, p).(queue := s.queue + [s.pages[p].asked.value])
    case Refused(p) => MineKnown(s, p); Finish(Placed(s, p), s.pages[p].asked.value)
    case Submitted(p) => Placed(s, p).(inflight := [s.pages[p].asked.value] + s.inflight)
    case ListFetch(p) =>
      SetPage(s, p, s.pages[p].(placed := None, list := s.pages[p].list + [s.pages[p].placed.value]))
    case BeginDelivery(p, i) =>
      var f := s.pages[p].list[i];
      SetPage(s.(fetches := s.fetches[f := s.fetches[f].(deliveries := s.fetches[f].deliveries + 1)]), p,
              s.pages[p].(list := Without(s.pages[p].list, i), delivering := Some(f)))
    case EndDelivery(p) =>
      MineKnown(s, p);
      Release(SetPage(s, p, s.pages[p].(delivering := None)), s.pages[p].delivering.value)
    case ClosePage(p) => SetPage(s, p, s.pages[p].(closing := true))
    case AbandonFirst(p) =>
      MineKnown(s, p);
      var f := s.pages[p].list[0];
      Release(SetPage(s.(fetches := s.fetches[f := s.fetches[f].(abandoned := true)]), p,
                      s.pages[p].(list := s.pages[p].list[1..])), f)
    case SyncRequest => s.(jobs := s.jobs + [Job(false, 0, false)], syncQueue := s.syncQueue + [|s.jobs|])
    case Wake(j) => s.(jobs := s.jobs[j := s.jobs[j].(returned := true)])
    case Stop => s.(stopping := true)
    case TakeJobs =>
      s.(batch := s.queue, queue := [], syncBatch := s.syncQueue, syncQueue := [],
         phase := if s.phase.Closed? then Drained else s.phase)
    case SubmitNext => s.(batch := s.batch[1..], inflight := [s.batch[0]] + s.inflight)
    case FinishNext => Finish(s.(batch := s.batch[1..]), s.batch[0])
    case FinishInflight(i) => Finish(s.(inflight := Without(s.inflight, i)), s.inflight[i])
    case SubmitSync => s.(syncBatch := s.syncBatch[1..], syncInflight := [s.syncBatch[0]] + s.syncInflight)
    case FinishSync => FinishJob(s.(syncBatch := s.syncBatch[1..]), s.syncBatch[0])
    case FinishSyncInflight(i) => FinishJob(s.(syncInflight := Without(s.syncInflight, i)), s.syncInflight[i])
    case NetworkFails => s.(failed := true)
    case Close => s.(phase := Closed, failed := true)
    case Exit => s.(phase := Exited)
  }
}
