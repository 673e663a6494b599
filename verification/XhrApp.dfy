/** XMLHttpRequest jobs and fetches of src/tabset.c and src/browser.c, as the threads run them.

    Page threads start, deliver and abandon fetches; the loader takes jobs, finishes them and expires
    them all at the end. Each method is a step of XhrMachine, or a loop of such steps.
*/
module XhrApp {
  import opened Results
  import opened XhrMachine
  import opened XhrRuns
  import XhrExit

  /** Discarding a page's fetches. */
  function Abandoned(s: State, p: nat): State
    requires Wired(s) && p < |s.pages| && s.pages[p].closing
    decreases if p < |s.pages| then |s.pages[p].list| else 0
  {
    if s.pages[p].list == [] then s else AbandonWired(s, p); Abandoned(Next(s, AbandonFirst(p)), p)
  }

  lemma {:induction false} AbandonWired(s: State, p: nat)
    requires Wired(s) && p < |s.pages| && s.pages[p].closing && s.pages[p].list != []
    ensures var s' := Next(s, AbandonFirst(p));
      Wired(s') && p < |s'.pages| && s'.pages[p].closing && |s'.pages[p].list| == |s.pages[p].list| - 1
  {
    PageWired(s, AbandonFirst(p));
    AbandonShape(s, p);
    hide Next, Mine;
  }

  class Net {
    var fetches: seq<Fetch>
    var jobs: seq<Job>
    var pages: seq<Page>
    var stopping: bool
    var phase: Phase
    var failed: bool
    var queue: seq<nat>
    var batch: seq<nat>
    var inflight: seq<nat>
    var syncQueue: seq<nat>
    var syncBatch: seq<nat>
    var syncInflight: seq<nat>

    ghost function Abs(): State
      reads this
    {
      State(fetches, jobs, pages, stopping, phase, failed, queue, batch, inflight, syncQueue, syncBatch, syncInflight)
    }

    constructor ()
      ensures Abs() == INITIAL
    {
      fetches, jobs, pages, stopping, phase, failed := [], [], [], false, Running, false;
      queue, batch, inflight, syncQueue, syncBatch, syncInflight := [], [], [], [], [], [];
    }

    /** fetch_release. */
    method FetchRelease(f: nat)
      requires f < |fetches|
      modifies `fetches
      ensures fetches == old(fetches)[f := Released(old(fetches)[f])]
    {
      var x := fetches[f];
      var last := x.references == 1;
      x := x.(references := x.references - 1);
      if last {
        x := x.(frees := x.frees + 1);
      }
      fetches := fetches[f := x];
    }

    /** tai_page_fetch_finish. */
    method FetchFinish(f: nat)
      requires f < |fetches|
      modifies `fetches
      ensures fetches == old(fetches)[f := FinishedFetch(old(fetches)[f])]
    {
      fetches := fetches[f := fetches[f].(done := true, finishes := fetches[f].finishes + 1)];
      FetchRelease(f);
    }

    /** The first half of page_xhr_start: the page's own reference and the owner's. */
    method CreateFetch(p: nat)
      requires Wired(Abs()) && Enabled(Abs(), Ask(p))
      modifies this
      ensures Abs() == Next(old(Abs()), Ask(p))
    {
      hide Mine, Known;
      var f := |fetches|;
      fetches := fetches + [Fetch(1, false, false, 0, 0, 0)];
      fetches := fetches[f := fetches[f].(references := fetches[f].references + 1)];
      pages := pages[p := pages[p].(asked := Some(f))];
      assert fetches == old(fetches) + [Fetch(2, false, false, 0, 0, 0)];
    }

    /** app_start and what page_xhr_start does when it refuses. */
    method AppStart(p: nat) returns (accepted: bool)
      requires Wired(Abs()) && Enabled(Abs(), Refused(p))
      modifies this
      ensures accepted == old(Open(Abs()))
      ensures accepted ==> old(Enabled(Abs(), Accepted(p)))
      ensures Abs() == Next(old(Abs()), if accepted then Accepted(p) else Refused(p))
    {
      RefusedShape(Abs(), p);
      hide Mine, Known;
      var f := pages[p].asked.value;
      accepted := !stopping && phase.Running?;
      if accepted {
        queue := queue + [f];
      } else {
        FetchFinish(f);
      }
      pages := pages[p := pages[p].(asked := None, placed := Some(f))];
    }

    /** The second half of page_xhr_start. */
    method AppendFetch(p: nat)
      requires Wired(Abs()) && Enabled(Abs(), ListFetch(p))
      modifies this
      ensures Abs() == Next(old(Abs()), ListFetch(p))
    {
      hide Mine, Known;
      pages := pages[p := pages[p].(placed := None, list := pages[p].list + [pages[p].placed.value])];
    }

    /** async_done and xhr_unlink: the place of a job on the loader's list. */
    method FindInflight(f: nat) returns (i: nat)
      ensures i <= |inflight| && (i < |inflight| <==> f in inflight) && (i < |inflight| ==> inflight[i] == f)
    {
      i := 0;
      while i < |inflight| && inflight[i] != f
        invariant i <= |inflight| && forall k :: 0 <= k < i ==> inflight[k] != f
      {
        i := i + 1;
      }
    }

    method AsyncDone(f: nat)
      requires Wired(Abs()) && f in inflight
      modifies this
      ensures exists i :: 0 <= i < |old(inflight)| && old(inflight)[i] == f && Abs() == Next(old(Abs()), FinishInflight(i))
    {
      hide Mine;
      var i := FindInflight(f);
      inflight := XhrMachine.Without(inflight, i);
      FetchFinish(f);
      assert Abs() == Next(old(Abs()), FinishInflight(i));
    }

    /** async_expire: all fetches in flight after a failure, else the abandoned and late ones. */
    method AsyncExpire(failure: bool, late: set<nat>)
      requires Good(Abs())
      modifies this
      ensures Abs() == XhrExit.Expired(old(Abs()), 0, failure, late)
    {
      hide Next, Enabled, PhaseOk, FetchOk, JobOk;
      var i := 0;
      while i < |inflight|
        invariant i <= |inflight| && Good(Abs())
        invariant XhrExit.Expired(Abs(), i, failure, late) == XhrExit.Expired(old(Abs()), 0, failure, late)
        decreases |inflight| - i
      {
        if !failure && !fetches[inflight[i]].abandoned && inflight[i] !in late {
          i := i + 1;
        } else {
          XhrExit.FinishAt(Abs(), i);
          FinishFlying(i);
        }
      }
    }

    method FinishFlying(i: nat)
      requires Wired(Abs()) && Enabled(Abs(), FinishInflight(i))
      modifies this
      ensures Abs() == Next(old(Abs()), FinishInflight(i))
    {
      hide Mine;
      var f := inflight[i];
      inflight := XhrMachine.Without(inflight, i);
      FetchFinish(f);
    }

    /** xhr_finish. */
    method JobFinish(j: nat)
      requires j < |jobs|
      modifies `jobs
      ensures jobs == old(jobs)[j := XhrExit.DoneJob(old(jobs)[j])]
    {
      jobs := jobs[j := jobs[j].(done := true, finishes := jobs[j].finishes + 1)];
    }

    /** loader_expire_jobs: all jobs in flight after a failure, else the late ones. */
    method LoaderExpireJobs(failure: bool, late: set<nat>)
      requires Good(Abs())
      modifies this
      ensures Abs() == XhrExit.SyncExpired(old(Abs()), 0, failure, late)
    {
      hide Next, Enabled, PhaseOk, FetchOk, JobOk;
      var i := 0;
      while i < |syncInflight|
        invariant i <= |syncInflight| && Good(Abs())
        invariant XhrExit.SyncExpired(Abs(), i, failure, late) == XhrExit.SyncExpired(old(Abs()), 0, failure, late)
        decreases |syncInflight| - i
      {
        if !failure && syncInflight[i] !in late {
          i := i + 1;
        } else {
          XhrExit.FinishSyncAt(Abs(), i);
          FinishWaiting(i);
        }
      }
    }

    method FinishWaiting(i: nat)
      requires Wired(Abs()) && Enabled(Abs(), FinishSyncInflight(i))
      modifies this
      ensures Abs() == Next(old(Abs()), FinishSyncInflight(i))
    {
      hide Mine;
      var j := syncInflight[i];
      syncInflight := XhrMachine.Without(syncInflight, i);
      JobFinish(j);
    }

    /** async_submit: a fetch goes on its way, or is finished at once; the network refuses those of
        `refused`. */
    method AsyncSubmit(refused: set<nat>)
      requires Good(Abs()) && batch != []
      modifies this
      ensures Abs() == Next(old(Abs()), XhrExit.SubmitStep(old(Abs()), refused)) && Good(Abs())
    {
      XhrExit.SubmitKeeps(Abs(), refused);
      hide FetchOk, JobOk, PhaseOk, Mine;
      var f := batch[0];
      batch := batch[1..];
      if failed || fetches[f].abandoned || f in refused {
        FetchFinish(f);
      } else {
        inflight := [f] + inflight;
      }
    }

    method SyncSubmit(refused: set<nat>)
      requires Good(Abs()) && syncBatch != []
      modifies this
      ensures Abs() == Next(old(Abs()), XhrExit.SyncSubmitStep(old(Abs()), refused)) && Good(Abs())
    {
      XhrExit.SyncSubmitKeeps(Abs(), refused);
      hide FetchOk, JobOk, PhaseOk, Mine;
      var j := syncBatch[0];
      syncBatch := syncBatch[1..];
      if failed || j in refused {
        JobFinish(j);
      } else {
        syncInflight := [j] + syncInflight;
      }
    }

    /** loader_take_jobs, with no step of another thread in between. */
    method LoaderTakeJobs(refused: set<nat>, refusedJobs: set<nat>)
      requires Good(Abs()) && Enabled(Abs(), TakeJobs)
      modifies this
      ensures Abs() == XhrExit.Taken(old(Abs()), refused, refusedJobs)
    {
      XhrExit.TakeKeeps(Abs());
      TakeQueues();
      hide Next, Enabled, Wired, FetchOk, JobOk, PhaseOk;
      ghost var taken := Abs();
      while |batch| > 0
        invariant Good(Abs()) && XhrExit.Submitted(Abs(), refused) == XhrExit.Submitted(taken, refused)
        decreases |batch|
      {
        XhrExit.SubmitKeeps(Abs(), refused);
        AsyncSubmit(refused);
      }
      ghost var submitted := Abs();
      while |syncBatch| > 0
        invariant Good(Abs()) && batch == []
        invariant XhrExit.SyncSubmitted(Abs(), refusedJobs) == XhrExit.SyncSubmitted(submitted, refusedJobs)
        decreases |syncBatch|
      {
        XhrExit.SyncSubmitKeeps(Abs(), refusedJobs);
        SyncSubmit(refusedJobs);
      }
    }

    /** The end of loader_main, with no step of another thread in between: every fetch and job the
        loader had or was given is finished, each once. */
    method LoaderEnd()
      requires Good(Abs()) && Enabled(Abs(), Close)
      modifies this
      ensures Good(Abs()) && phase.Exited? && pages == old(pages)
      ensures queue == batch == inflight == syncQueue == syncBatch == syncInflight == []
      ensures XhrExit.FinishedIn(old(fetches), fetches, old(queue) + old(inflight))
      ensures XhrExit.JobsIn(old(jobs), jobs, old(syncQueue) + old(syncInflight))
      ensures forall j :: 0 <= j < |jobs| ==> jobs[j].done && jobs[j].finishes == 1
      ensures forall f :: 0 <= f < |fetches| && InPages(pages, Asked, f) == 0 ==> fetches[f].done && fetches[f].finishes == 1
    {
      XhrExit.FinishesAll(Abs());
      XhrExit.CloseKeeps(Abs());
      phase, failed := Closed, true;
      hide XhrExit.FinishedIn, XhrExit.JobsIn, FetchOk, JobOk, Wired, InPages;
      LoaderTakeJobs({}, {});
      LoaderExpireJobs(true, {});
      AsyncExpire(true, {});
      XhrExit.EndKeeps(old(Abs()));
      phase := Exited;
    }

    /** The locked part of loader_take_jobs. */
    method TakeQueues()
      requires Wired(Abs()) && Enabled(Abs(), TakeJobs)
      modifies this
      ensures Abs() == Next(old(Abs()), TakeJobs)
    {
      hide Mine, Known;
      batch, queue := queue, [];
      syncBatch, syncQueue := syncQueue, [];
      if phase.Closed? {
        phase := Drained;
      }
    }

    /** One delivery of tai_page_run_tasks, up to the script. */
    method StartDelivery(p: nat, i: nat)
      requires Wired(Abs()) && Enabled(Abs(), BeginDelivery(p, i))
      modifies this
      ensures Abs() == Next(old(Abs()), BeginDelivery(p, i))
    {
      hide Mine, Known;
      var f := pages[p].list[i];
      fetches := fetches[f := fetches[f].(deliveries := fetches[f].deliveries + 1)];
      pages := pages[p := pages[p].(list := XhrMachine.Without(pages[p].list, i), delivering := Some(f))];
    }

    method FinishDelivery(p: nat)
      requires Wired(Abs()) && Enabled(Abs(), EndDelivery(p))
      modifies this
      ensures Abs() == Next(old(Abs()), EndDelivery(p))
    {
      EndShape(Abs(), p);
      hide Mine, Known;
      var f := pages[p].delivering.value;
      pages := pages[p := pages[p].(delivering := None)];
      FetchRelease(f);
    }

    /** The loop at the start of tai_page_destroy. */
    method DestroyPage(p: nat)
      requires Wired(Abs()) && p < |pages| && pages[p].closing
      modifies this
      ensures Abs() == Abandoned(old(Abs()), p) && |pages| == |old(pages)| && pages[p].list == []
    {
      while |pages[p].list| > 0
        invariant Wired(Abs()) && |pages| == |old(pages)| && pages[p].closing
        invariant Abandoned(Abs(), p) == Abandoned(old(Abs()), p)
        decreases |pages[p].list|
      {
        DropFirst(p);
      }
    }

    method DropFirst(p: nat)
      requires Wired(Abs()) && p < |pages| && pages[p].closing && pages[p].list != []
      modifies this
      ensures Abs() == Next(old(Abs()), AbandonFirst(p)) && Wired(Abs())
      ensures |pages| == |old(pages)| && pages[p].closing && |pages[p].list| == |old(pages)[p].list| - 1
    {
      AbandonWired(Abs(), p);
      AbandonShape(Abs(), p);
      hide Mine, Known;
      var f := pages[p].list[0];
      pages := pages[p := pages[p].(list := pages[p].list[1..])];
      fetches := fetches[f := fetches[f].(abandoned := true)];
      FetchRelease(f);
    }
  }
}
