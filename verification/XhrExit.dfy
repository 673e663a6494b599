/** The loader's passes over its lists in src/tabset.c as a whole, and how it ends. */
module XhrExit {
  import opened Counting
  import opened XhrMachine
  import opened XhrRuns

  // ----- What the passes do to fetches and jobs -----

  /** b is a with exactly the fetches of ids finished. */
  ghost predicate FinishedIn(a: seq<Fetch>, b: seq<Fetch>, ids: seq<nat>) {
    |a| == |b| && forall f :: 0 <= f < |a| ==> b[f] == if f in ids then FinishedFetch(a[f]) else a[f]
  }

  function DoneJob(x: Job): Job {
    x.(done := true, finishes := x.finishes + 1)
  }

  ghost predicate JobsIn(a: seq<Job>, b: seq<Job>, ids: seq<nat>) {
    |a| == |b| && forall j :: 0 <= j < |a| ==> b[j] == if j in ids then DoneJob(a[j]) else a[j]
  }

  lemma {:induction false} FinishedMore(a: seq<Fetch>, b: seq<Fetch>, c: seq<Fetch>, p: seq<nat>, q: seq<nat>)
    requires FinishedIn(a, b, p) && FinishedIn(b, c, q) && forall f :: f in p ==> f !in q
    ensures FinishedIn(a, c, p + q)
  {
  }

  lemma {:induction false} JobsMore(a: seq<Job>, b: seq<Job>, c: seq<Job>, p: seq<nat>, q: seq<nat>)
    requires JobsIn(a, b, p) && JobsIn(b, c, q) && forall j :: j in p ==> j !in q
    ensures JobsIn(a, c, p + q)
  {
  }

  /** No id twice. */
  ghost predicate Once(ids: seq<nat>) {
    forall f: nat :: Times(ids, f) <= 1
  }

  lemma {:induction false} OnceFirst(ids: seq<nat>)
    requires ids != [] && Once(ids)
    ensures ids[0] !in ids[1..] && Once(ids[1..])
  {
    forall f: nat ensures Times(ids, f) == Times([ids[0]], f) + Times(ids[1..], f) {
      TimesFirst(ids, f);
    }
    TimesOne(ids[0], ids[0]);
    TimesIn(ids[1..], ids[0]);
  }

  lemma {:induction false} OwnedOnce(s: State)
    requires Good(s)
    ensures Once(s.queue + s.batch + s.inflight)
  {
    hide Wired, PhaseOk, JobOk, PageHolds, Undelivered, Times;
    forall f: nat ensures Times(s.queue + s.batch + s.inflight, f) <= 1 {
      assert FetchOk(s, f);
      TimesJoin(s.queue + s.batch, s.inflight, f);
      TimesJoin(s.queue, s.batch, f);
    }
  }

  lemma {:induction false} JobsOnce(s: State)
    requires Good(s)
    ensures Once(s.syncQueue + s.syncBatch + s.syncInflight)
  {
    hide Wired, PhaseOk, FetchOk, Times;
    forall j: nat ensures Times(s.syncQueue + s.syncBatch + s.syncInflight, j) <= 1 {
      assert JobOk(s, j);
      TimesJoin(s.syncQueue + s.syncBatch, s.syncInflight, j);
      TimesJoin(s.syncQueue, s.syncBatch, j);
    }
  }

  lemma {:induction false} OnceParts(a: seq<nat>, b: seq<nat>)
    requires Once(a + b)
    ensures Once(a) && Once(b) && forall f :: f in a ==> f !in b
  {
    hide Times;
    forall f: nat ensures Times(a + b, f) == Times(a, f) + Times(b, f) {
      TimesJoin(a, b, f);
    }
    forall f: nat | f in a ensures f !in b {
      TimesIn(a, f);
      TimesIn(b, f);
    }
  }

  // ----- async_expire -----

  predicate Due(s: State, f: nat, failure: bool, late: set<nat>)
    requires f < |s.fetches|
  {
    failure || s.fetches[f].abandoned || f in late
  }

  function Part(s: State, ids: seq<nat>, due: bool, failure: bool, late: set<nat>): seq<nat>
    requires Known(ids, |s.fetches|)
    decreases |ids|
  {
    if ids == [] then []
    else (if Due(s, ids[0], failure, late) == due then [ids[0]] else []) + Part(s, ids[1..], due, failure, late)
  }

  lemma {:induction false} FinishAt(s: State, i: nat)
    requires Good(s) && i < |s.inflight|
    ensures Enabled(s, FinishInflight(i)) && Good(Next(s, FinishInflight(i)))
    ensures |Next(s, FinishInflight(i)).inflight| == |s.inflight| - 1
  {
    hide FetchOk, JobOk, PhaseOk;
    StepKeeps(s, FinishInflight(i));
  }

  /** One pass over the fetches in flight from place i on. */
  ghost function Expired(s: State, i: nat, failure: bool, late: set<nat>): (r: State)
    requires Good(s) && i <= |s.inflight|
    ensures Good(r)
    decreases |s.inflight| - i
  {
    if i == |s.inflight| then s
    else if Due(s, s.inflight[i], failure, late) then
      FinishAt(s, i);
      Expired(Next(s, FinishInflight(i)), i, failure, late)
    else Expired(s, i + 1, failure, late)
  }

  // ----- loader_expire_jobs -----

  function Late(ids: seq<nat>, due: bool, failure: bool, late: set<nat>): seq<nat>
    decreases |ids|
  {
    if ids == [] then []
    else (if (failure || ids[0] in late) == due then [ids[0]] else []) + Late(ids[1..], due, failure, late)
  }

  lemma {:induction false} FinishSyncAt(s: State, i: nat)
    requires Good(s) && i < |s.syncInflight|
    ensures Enabled(s, FinishSyncInflight(i)) && Good(Next(s, FinishSyncInflight(i)))
    ensures |Next(s, FinishSyncInflight(i)).syncInflight| == |s.syncInflight| - 1
  {
    hide FetchOk, JobOk, PhaseOk;
    StepKeeps(s, FinishSyncInflight(i));
  }

  ghost function SyncExpired(s: State, i: nat, failure: bool, late: set<nat>): (r: State)
    requires Good(s) && i <= |s.syncInflight|
    ensures Good(r)
    decreases |s.syncInflight| - i
  {
    if i == |s.syncInflight| then s
    else if failure || s.syncInflight[i] in late then
      FinishSyncAt(s, i);
      SyncExpired(Next(s, FinishSyncInflight(i)), i, failure, late)
    else SyncExpired(s, i + 1, failure, late)
  }

  // ----- loader_take_jobs -----

  /** What becomes of the first fetch taken; the network refuses those of `refused`. */
  function SubmitStep(s: State, refused: set<nat>): Step
    requires Wired(s) && s.batch != []
  {
    if Due(s, s.batch[0], s.failed, refused) then FinishNext else SubmitNext
  }

  lemma {:induction false} SubmitKeeps(s: State, refused: set<nat>)
    requires Good(s) && s.batch != []
    ensures Enabled(s, SubmitStep(s, refused)) && Good(Next(s, SubmitStep(s, refused)))
    ensures |Next(s, SubmitStep(s, refused)).batch| == |s.batch| - 1
  {
    hide FetchOk, JobOk, PhaseOk;
    StepKeeps(s, SubmitStep(s, refused));
  }

  ghost function Submitted(s: State, refused: set<nat>): (r: State)
    requires Good(s)
    ensures Good(r) && r.batch == []
    decreases |s.batch|
  {
    if s.batch == [] then s
    else
      SubmitKeeps(s, refused);
      Submitted(Next(s, SubmitStep(s, refused)), refused)
  }

  function SyncSubmitStep(s: State, refused: set<nat>): Step
    requires s.syncBatch != []
  {
    if s.failed || s.syncBatch[0] in refused then FinishSync else SubmitSync
  }

  lemma {:induction false} SyncSubmitKeeps(s: State, refused: set<nat>)
    requires Good(s) && s.syncBatch != []
    ensures Enabled(s, SyncSubmitStep(s, refused)) && Good(Next(s, SyncSubmitStep(s, refused)))
    ensures var r := Next(s, SyncSubmitStep(s, refused)); |r.syncBatch| == |s.syncBatch| - 1 && r.batch == s.batch
  {
    hide FetchOk, JobOk, PhaseOk;
    StepKeeps(s, SyncSubmitStep(s, refused));
  }

  ghost function SyncSubmitted(s: State, refused: set<nat>): (r: State)
    requires Good(s)
    ensures Good(r) && r.syncBatch == [] && r.batch == s.batch
    decreases |s.syncBatch|
  {
    if s.syncBatch == [] then s
    else
      SyncSubmitKeeps(s, refused);
      SyncSubmitted(Next(s, SyncSubmitStep(s, refused)), refused)
  }

  // ----- What each pass leaves -----

  lemma {:induction false} PartHas(s: State, ids: seq<nat>, due: bool, failure: bool, late: set<nat>, f: nat)
    requires Known(ids, |s.fetches|) && f < |s.fetches|
    ensures f in Part(s, ids, due, failure, late) <==> f in ids && Due(s, f, failure, late) == due
    decreases |ids|
  {
    if ids != [] {
      hide Due;
      PartHas(s, ids[1..], due, failure, late, f);
    }
  }

  lemma {:induction false} PartFrame(s: State, s': State, ids: seq<nat>, due: bool, failure: bool, late: set<nat>)
    requires Known(ids, |s.fetches|) && |s'.fetches| == |s.fetches|
    requires forall f :: 0 <= f < |s.fetches| ==> s'.fetches[f].abandoned == s.fetches[f].abandoned
    ensures Part(s', ids, due, failure, late) == Part(s, ids, due, failure, late)
    decreases |ids|
  {
    if ids != [] {
      PartFrame(s, s', ids[1..], due, failure, late);
    }
  }

  /** Everything is due when there is a failure. */
  lemma {:induction false} PartAll(s: State, ids: seq<nat>, late: set<nat>)
    requires Known(ids, |s.fetches|)
    ensures Part(s, ids, true, true, late) == ids && Part(s, ids, false, true, late) == []
    decreases |ids|
  {
    if ids != [] {
      PartAll(s, ids[1..], late);
    }
  }

  lemma {:induction false} OneFinished(s: State, s': State, f: nat)
    requires f < |s.fetches| && s'.fetches == s.fetches[f := FinishedFetch(s.fetches[f])]
    ensures FinishedIn(s.fetches, s'.fetches, [f])
    ensures forall g :: 0 <= g < |s.fetches| ==> s'.fetches[g].abandoned == s.fetches[g].abandoned
  {
  }

  lemma {:induction false} Suffix(ids: seq<nat>, i: nat)
    requires i < |ids|
    ensures Without(ids, i)[..i] == ids[..i] && Without(ids, i)[i..] == ids[i + 1..]
    ensures ids[i..] == [ids[i]] + ids[i + 1..] && ids[..i + 1] == ids[..i] + [ids[i]]
    ensures ids[i..][0] == ids[i] && ids[i..][1..] == ids[i + 1..]
  {
  }

  lemma {:induction false} InflightOnce(s: State, i: nat)
    requires Good(s) && i < |s.inflight|
    ensures Known(s.inflight, |s.fetches|) && s.inflight[i] !in s.inflight[i + 1..]
  {
    OwnedOnce(s);
    OnceParts(s.queue + s.batch, s.inflight);
    assert s.inflight == s.inflight[..i] + s.inflight[i..];
    OnceParts(s.inflight[..i], s.inflight[i..]);
    OnceFirst(s.inflight[i..]);
  }

  lemma {:induction false} InflightKnown(s: State, i: nat)
    requires Good(s) && i <= |s.inflight|
    ensures Known(s.inflight[i..], |s.fetches|) && (i < |s.inflight| ==> s.inflight[i] < |s.fetches|)
  {
  }

  lemma {:induction false} NothingFinished(a: seq<Fetch>)
    ensures FinishedIn(a, a, [])
  {
  }

  lemma {:induction false} ExpiredNone(s: State, failure: bool, late: set<nat>)
    requires Good(s)
    ensures Expired(s, |s.inflight|, failure, late) == s
    ensures s.inflight[|s.inflight|..] == [] && s.inflight[..|s.inflight|] + [] == s.inflight
  {
    hide Good;
  }

  lemma {:induction false} ExpiredSkip(s: State, i: nat, failure: bool, late: set<nat>)
    requires Good(s) && i < |s.inflight| && s.inflight[i] < |s.fetches| && !Due(s, s.inflight[i], failure, late)
    requires Known(s.inflight[i..], |s.fetches|) && Known(s.inflight[i + 1..], |s.fetches|)
    ensures Expired(s, i, failure, late) == Expired(s, i + 1, failure, late)
    ensures var ids, rest := s.inflight[i..], s.inflight[i + 1..];
      && Part(s, ids, true, failure, late) == Part(s, rest, true, failure, late)
      && s.inflight[..i + 1] + Part(s, rest, false, failure, late) == s.inflight[..i] + Part(s, ids, false, failure, late)
  {
    hide Good, Due, Next, Enabled, Known;
    var rest, f := s.inflight[i + 1..], s.inflight[i];
    Suffix(s.inflight, i);
    var kept, due := Part(s, rest, false, failure, late), Part(s, rest, true, failure, late);
    hide Expired;
    assert [] + due == due;
    assert s.inflight[..i] + [f] + kept == s.inflight[..i] + ([f] + kept);
  }

  /** A pass finishes exactly those due and keeps the others in their order. */
  lemma {:induction false} ExpiredShape(s: State, i: nat, failure: bool, late: set<nat>)
    requires Good(s) && i <= |s.inflight|
    ensures Known(s.inflight[i..], |s.fetches|)
    ensures var r, ids := Expired(s, i, failure, late), s.inflight[i..];
      && r == s.(fetches := r.fetches, inflight := s.inflight[..i] + Part(s, ids, false, failure, late))
      && FinishedIn(s.fetches, r.fetches, Part(s, ids, true, failure, late))
    decreases |s.inflight| - i
  {
    InflightKnown(s, i);
    hide Good, Due, Next, Enabled, FinishedIn, Expired, Known;
    if i == |s.inflight| {
      ExpiredNone(s, failure, late);
      NothingFinished(s.fetches);
    } else if Due(s, s.inflight[i], failure, late) {
      ExpiredDue(s, i, failure, late);
    } else {
      hide Part;
      ExpiredShape(s, i + 1, failure, late);
      ExpiredSkip(s, i, failure, late);
    }
  }

  lemma {:induction false} ExpiredDue(s: State, i: nat, failure: bool, late: set<nat>)
    requires Good(s) && i < |s.inflight| && Known(s.inflight[i..], |s.fetches|) && s.inflight[i] < |s.fetches|
    requires Due(s, s.inflight[i], failure, late)
    ensures var r, ids := Expired(s, i, failure, late), s.inflight[i..];
      && r == s.(fetches := r.fetches, inflight := s.inflight[..i] + Part(s, ids, false, failure, late))
      && FinishedIn(s.fetches, r.fetches, Part(s, ids, true, failure, late))
    decreases |s.inflight| - i, 0
  {
    var ids, f := s.inflight[i..], s.inflight[i];
    Suffix(s.inflight, i);
    InflightOnce(s, i);
    StepKeeps(s, FinishInflight(i));
    var s' := Next(s, FinishInflight(i));
    assert s' == s.(inflight := Without(s.inflight, i), fetches := s.fetches[f := FinishedFetch(s.fetches[f])]);
    assert Expired(s, i, failure, late) == Expired(s', i, failure, late);
    hide Good, Expired, Next, Enabled, Due, FinishedIn, FinishedFetch, Without;
    ExpiredShape(s', i, failure, late);
    PartFrame(s, s', ids[1..], true, failure, late);
    PartFrame(s, s', ids[1..], false, failure, late);
    OneFinished(s, s', f);
    PartHas(s, ids[1..], true, failure, late, f);
    FinishedMore(s.fetches, s'.fetches, Expired(s', i, failure, late).fetches, [f], Part(s, ids[1..], true, failure, late));
    assert [] + Part(s, ids[1..], false, failure, late) == Part(s, ids[1..], false, failure, late);
  }

  lemma {:induction false} LateAll(ids: seq<nat>, late: set<nat>)
    ensures Late(ids, true, true, late) == ids && Late(ids, false, true, late) == []
    decreases |ids|
  {
    if ids != [] {
      LateAll(ids[1..], late);
    }
  }

  lemma {:induction false} LateHas(ids: seq<nat>, due: bool, failure: bool, late: set<nat>, j: nat)
    ensures j in Late(ids, due, failure, late) <==> j in ids && (failure || j in late) == due
    decreases |ids|
  {
    if ids != [] {
      LateHas(ids[1..], due, failure, late, j);
    }
  }

  lemma {:induction false} SyncInflightOnce(s: State, i: nat)
    requires Good(s) && i < |s.syncInflight|
    ensures Known(s.syncInflight, |s.jobs|) && s.syncInflight[i] !in s.syncInflight[i + 1..]
  {
    JobsOnce(s);
    OnceParts(s.syncQueue + s.syncBatch, s.syncInflight);
    assert s.syncInflight == s.syncInflight[..i] + s.syncInflight[i..];
    OnceParts(s.syncInflight[..i], s.syncInflight[i..]);
    OnceFirst(s.syncInflight[i..]);
  }

  lemma {:induction false} OneDone(a: seq<Job>, b: seq<Job>, j: nat)
    requires j < |a| && b == a[j := DoneJob(a[j])]
    ensures JobsIn(a, b, [j])
  {
  }

  lemma {:induction false} SyncExpiredNone(s: State, failure: bool, late: set<nat>)
    requires Good(s)
    ensures SyncExpired(s, |s.syncInflight|, failure, late) == s && JobsIn(s.jobs, s.jobs, [])
    ensures s.syncInflight[|s.syncInflight|..] == [] && s.syncInflight[..|s.syncInflight|] + [] == s.syncInflight
  {
    hide Good;
  }

  lemma {:induction false} SyncExpiredSkip(s: State, i: nat, failure: bool, late: set<nat>)
    requires Good(s) && i < |s.syncInflight| && !failure && s.syncInflight[i] !in late
    ensures SyncExpired(s, i, failure, late) == SyncExpired(s, i + 1, failure, late)
  {
    hide Good, Next, Enabled;
  }

  lemma {:induction false} SyncExpiredShape(s: State, i: nat, failure: bool, late: set<nat>)
    requires Good(s) && i <= |s.syncInflight|
    ensures var r, ids := SyncExpired(s, i, failure, late), s.syncInflight[i..];
      && r == s.(jobs := r.jobs, syncInflight := s.syncInflight[..i] + Late(ids, false, failure, late))
      && JobsIn(s.jobs, r.jobs, Late(ids, true, failure, late))
    decreases |s.syncInflight| - i
  {
    hide Good, Next, Enabled, JobsIn, SyncExpired;
    if i == |s.syncInflight| {
      SyncExpiredNone(s, failure, late);
    } else if failure || s.syncInflight[i] in late {
      SyncExpiredDue(s, i, failure, late);
    } else {
      var ids, j := s.syncInflight[i..], s.syncInflight[i];
      Suffix(s.syncInflight, i);
      SyncExpiredSkip(s, i, failure, late);
      SyncExpiredShape(s, i + 1, failure, late);
      var kept := Late(ids[1..], false, failure, late);
      assert s.syncInflight[..i] + [j] + kept == s.syncInflight[..i] + ([j] + kept);
      assert [] + Late(ids[1..], true, failure, late) == Late(ids[1..], true, failure, late);
    }
  }

  lemma {:induction false} SyncExpiredDue(s: State, i: nat, failure: bool, late: set<nat>)
    requires Good(s) && i < |s.syncInflight| && (failure || s.syncInflight[i] in late)
    ensures var r, ids := SyncExpired(s, i, failure, late), s.syncInflight[i..];
      && r == s.(jobs := r.jobs, syncInflight := s.syncInflight[..i] + Late(ids, false, failure, late))
      && JobsIn(s.jobs, r.jobs, Late(ids, true, failure, late))
    decreases |s.syncInflight| - i, 0
  {
    var ids, j := s.syncInflight[i..], s.syncInflight[i];
    Suffix(s.syncInflight, i);
    SyncInflightOnce(s, i);
    StepKeeps(s, FinishSyncInflight(i));
    var s' := Next(s, FinishSyncInflight(i));
    assert s' == s.(syncInflight := Without(s.syncInflight, i), jobs := s.jobs[j := DoneJob(s.jobs[j])]);
    assert SyncExpired(s, i, failure, late) == SyncExpired(s', i, failure, late);
    hide Good, SyncExpired, Next, Enabled, JobsIn, DoneJob, Without;
    SyncExpiredShape(s', i, failure, late);
    OneDone(s.jobs, s'.jobs, j);
    LateHas(ids[1..], true, failure, late, j);
    JobsMore(s.jobs, s'.jobs, SyncExpired(s', i, failure, late).jobs, [j], Late(ids[1..], true, failure, late));
    assert [] + Late(ids[1..], false, failure, late) == Late(ids[1..], false, failure, late);
  }

  function Reversed(ids: seq<nat>): (r: seq<nat>)
    decreases |ids|
  {
    if ids == [] then [] else Reversed(ids[1..]) + [ids[0]]
  }

  lemma {:induction false} BatchOnce(s: State)
    requires Good(s) && s.batch != []
    ensures Known(s.batch, |s.fetches|) && s.batch[0] !in s.batch[1..]
  {
    OwnedOnce(s);
    OnceParts(s.queue + s.batch, s.inflight);
    OnceParts(s.queue, s.batch);
    OnceFirst(s.batch);
  }

  /** Of the fetches taken, the due ones are finished and the others are in flight, the last first. */
  lemma {:induction false} SubmittedShape(s: State, refused: set<nat>)
    requires Good(s)
    ensures Known(s.batch, |s.fetches|)
    ensures var r := Submitted(s, refused);
      && r == s.(fetches := r.fetches, batch := [],
                 inflight := Reversed(Part(s, s.batch, false, s.failed, refused)) + s.inflight)
      && FinishedIn(s.fetches, r.fetches, Part(s, s.batch, true, s.failed, refused))
    decreases |s.batch|
  {
    assert Known(s.batch, |s.fetches|);
    if s.batch == [] {
      hide Good;
      assert [] + s.inflight == s.inflight;
    } else {
      var ids, f := s.batch, s.batch[0];
      var due := Due(s, f, s.failed, refused);
      var e := SubmitStep(s, refused);
      BatchOnce(s);
      StepKeeps(s, e);
      var s' := Next(s, e);
      assert Submitted(s, refused) == Submitted(s', refused);
      assert s' == if due then s.(batch := s.batch[1..], fetches := s.fetches[f := FinishedFetch(s.fetches[f])])
        else s.(batch := s.batch[1..], inflight := [f] + s.inflight);
      hide Good, Submitted, Due, FinishedIn, FinishedFetch, Next, Enabled, Part, Reversed;
      SubmittedShape(s', refused);
      SubmittedStep(s, s', refused, due);
    }
  }

  lemma {:induction false} SubmittedStep(s: State, s': State, refused: set<nat>, due: bool)
    requires Known(s.batch, |s.fetches|) && s.batch != [] && s.batch[0] !in s.batch[1..]
    requires due == Due(s, s.batch[0], s.failed, refused)
    requires s' == if due then s.(batch := s.batch[1..], fetches := s.fetches[s.batch[0] := FinishedFetch(s.fetches[s.batch[0]])])
      else s.(batch := s.batch[1..], inflight := [s.batch[0]] + s.inflight)
    ensures Known(s'.batch, |s'.fetches|)
    ensures var kept, kept' := Part(s, s.batch, false, s.failed, refused), Part(s', s'.batch, false, s.failed, refused);
      Reversed(kept') + s'.inflight == Reversed(kept) + s.inflight
    ensures forall c :: FinishedIn(s'.fetches, c, Part(s', s'.batch, true, s.failed, refused)) ==>
      FinishedIn(s.fetches, c, Part(s, s.batch, true, s.failed, refused))
  {
    var f, rest := s.batch[0], s.batch[1..];
    var failed := s.failed;
    hide Due;
    PartFrame(s, s', rest, true, failed, refused);
    PartFrame(s, s', rest, false, failed, refused);
    var taken, kept := Part(s, rest, true, failed, refused), Part(s, rest, false, failed, refused);
    if due {
      OneFinished(s, s', f);
      PartHas(s, rest, true, failed, refused, f);
      assert Part(s, s.batch, false, failed, refused) == [] + kept == kept;
      forall c | FinishedIn(s'.fetches, c, taken)
        ensures FinishedIn(s.fetches, c, Part(s, s.batch, true, failed, refused))
      {
        FinishedMore(s.fetches, s'.fetches, c, [f], taken);
      }
    } else {
      assert Part(s, s.batch, true, failed, refused) == [] + taken == taken;
      assert Part(s, s.batch, false, failed, refused) == [f] + kept && ([f] + kept)[1..] == kept;
      assert Reversed(kept) + ([f] + s.inflight) == Reversed(kept) + [f] + s.inflight;
    }
  }

  lemma {:induction false} SyncBatchOnce(s: State)
    requires Good(s) && s.syncBatch != []
    ensures Known(s.syncBatch, |s.jobs|) && s.syncBatch[0] !in s.syncBatch[1..]
  {
    JobsOnce(s);
    OnceParts(s.syncQueue + s.syncBatch, s.syncInflight);
    OnceParts(s.syncQueue, s.syncBatch);
    OnceFirst(s.syncBatch);
  }

  lemma {:induction false} SyncSubmittedShape(s: State, refused: set<nat>)
    requires Good(s)
    ensures var r := SyncSubmitted(s, refused);
      && r == s.(jobs := r.jobs, syncBatch := [],
                 syncInflight := Reversed(Late(s.syncBatch, false, s.failed, refused)) + s.syncInflight)
      && JobsIn(s.jobs, r.jobs, Late(s.syncBatch, true, s.failed, refused))
    decreases |s.syncBatch|
  {
    if s.syncBatch == [] {
      hide Good;
      assert [] + s.syncInflight == s.syncInflight;
    } else {
      var j := s.syncBatch[0];
      var due := s.failed || j in refused;
      var e := SyncSubmitStep(s, refused);
      SyncBatchOnce(s);
      StepKeeps(s, e);
      var s' := Next(s, e);
      assert SyncSubmitted(s, refused) == SyncSubmitted(s', refused);
      assert s' == if due then s.(syncBatch := s.syncBatch[1..], jobs := s.jobs[j := DoneJob(s.jobs[j])])
        else s.(syncBatch := s.syncBatch[1..], syncInflight := [j] + s.syncInflight);
      hide Good, SyncSubmitted, JobsIn, Next, Enabled, DoneJob, Late, Reversed, Known;
      SyncSubmittedShape(s', refused);
      SyncSubmittedStep(s, s', refused, due);
    }
  }

  lemma {:induction false} SyncSubmittedStep(s: State, s': State, refused: set<nat>, due: bool)
    requires Known(s.syncBatch, |s.jobs|) && s.syncBatch != [] && s.syncBatch[0] !in s.syncBatch[1..]
    requires due == (s.failed || s.syncBatch[0] in refused)
    requires s' == if due then s.(syncBatch := s.syncBatch[1..], jobs := s.jobs[s.syncBatch[0] := DoneJob(s.jobs[s.syncBatch[0]])])
      else s.(syncBatch := s.syncBatch[1..], syncInflight := [s.syncBatch[0]] + s.syncInflight)
    ensures var kept, kept' := Late(s.syncBatch, false, s.failed, refused), Late(s'.syncBatch, false, s.failed, refused);
      Reversed(kept') + s'.syncInflight == Reversed(kept) + s.syncInflight
    ensures forall c :: JobsIn(s'.jobs, c, Late(s'.syncBatch, true, s.failed, refused)) ==>
      JobsIn(s.jobs, c, Late(s.syncBatch, true, s.failed, refused))
  {
    var j, rest := s.syncBatch[0], s.syncBatch[1..];
    var failed := s.failed;
    var taken, kept := Late(rest, true, failed, refused), Late(rest, false, failed, refused);
    if due {
      OneDone(s.jobs, s'.jobs, j);
      LateHas(rest, true, failed, refused, j);
      assert Late(s.syncBatch, false, failed, refused) == [] + kept == kept;
      forall c | JobsIn(s'.jobs, c, taken)
        ensures JobsIn(s.jobs, c, Late(s.syncBatch, true, failed, refused))
      {
        JobsMore(s.jobs, s'.jobs, c, [j], taken);
      }
    } else {
      assert Late(s.syncBatch, true, failed, refused) == [] + taken == taken;
      assert Late(s.syncBatch, false, failed, refused) == [j] + kept && ([j] + kept)[1..] == kept;
      assert Reversed(kept) + ([j] + s.syncInflight) == Reversed(kept) + [j] + s.syncInflight;
    }
  }

  // ----- The end of the loader -----

  lemma {:induction false} TakeKeeps(s: State)
    requires Good(s) && Enabled(s, TakeJobs)
    ensures Good(Next(s, TakeJobs))
  {
    StepKeeps(s, TakeJobs);
  }

  /** The whole of loader_take_jobs, if no other thread takes a step meanwhile. */
  ghost function Taken(s: State, refused: set<nat>, refusedJobs: set<nat>): (r: State)
    requires Good(s) && Enabled(s, TakeJobs)
    ensures Good(r) && r.batch == [] && r.syncBatch == []
  {
    TakeKeeps(s);
    SyncSubmitted(Submitted(Next(s, TakeJobs), refused), refusedJobs)
  }

  lemma {:induction false} CloseKeeps(s: State)
    requires Good(s) && Enabled(s, Close)
    ensures Good(Next(s, Close)) && Next(s, Close) == s.(phase := Phase.Closed, failed := true)
    ensures Enabled(Next(s, Close), TakeJobs)
    ensures Next(Next(s, Close), TakeJobs) == s.(phase := Drained, failed := true,
      batch := s.queue, queue := [], syncBatch := s.syncQueue, syncQueue := [])
  {
    StepKeeps(s, Close);
    hide FetchOk, JobOk, PhaseOk;
  }

  /** The queues are closed and everything fails: what was in them, then what was in flight. */
  ghost function Failed(s: State): (r: State)
    requires Good(s) && Enabled(s, Close)
    ensures Good(r)
  {
    CloseKeeps(s);
    Expired(SyncExpired(Taken(Next(s, Close), {}, {}), 0, true, {}), 0, true, {})
  }

  lemma {:induction false} WholeInflight(s: State, late: set<nat>)
    requires Good(s)
    ensures var r := Expired(s, 0, true, late);
      r == s.(fetches := r.fetches, inflight := []) && FinishedIn(s.fetches, r.fetches, s.inflight)
  {
    ExpiredShape(s, 0, true, late);
    assert s.inflight[0..] == s.inflight;
    PartAll(s, s.inflight, late);
    hide Good, FinishedIn, Part, Expired;
    assert [] + [] == s.inflight[..0];
  }

  lemma {:induction false} WholeSync(s: State, late: set<nat>)
    requires Good(s)
    ensures var r := SyncExpired(s, 0, true, late);
      r == s.(jobs := r.jobs, syncInflight := []) && JobsIn(s.jobs, r.jobs, s.syncInflight)
  {
    SyncExpiredShape(s, 0, true, late);
    assert s.syncInflight[0..] == s.syncInflight;
    LateAll(s.syncInflight, late);
    hide Good, JobsIn, Late, SyncExpired;
    assert [] + [] == s.syncInflight[..0];
  }

  lemma {:induction false} WholeBatch(s: State, refused: set<nat>)
    requires Good(s) && s.failed
    ensures var r := Submitted(s, refused);
      r == s.(fetches := r.fetches, batch := []) && FinishedIn(s.fetches, r.fetches, s.batch)
  {
    SubmittedShape(s, refused);
    PartAll(s, s.batch, refused);
    assert Reversed([]) + s.inflight == s.inflight;
    hide Good, FinishedIn, Part, Submitted;
  }

  lemma {:induction false} WholeSyncBatch(s: State, refused: set<nat>)
    requires Good(s) && s.failed
    ensures var r := SyncSubmitted(s, refused);
      r == s.(jobs := r.jobs, syncBatch := []) && JobsIn(s.jobs, r.jobs, s.syncBatch)
  {
    SyncSubmittedShape(s, refused);
    LateAll(s.syncBatch, refused);
    assert Reversed([]) + s.syncInflight == s.syncInflight;
    hide Good, JobsIn, Late, SyncSubmitted;
  }

  /** What is taken once everything fails is finished. */
  lemma {:induction false} TakenShape(s: State)
    requires Good(s) && Enabled(s, TakeJobs) && s.failed
    ensures var r, taken := Taken(s, {}, {}), Next(s, TakeJobs);
      && r == taken.(fetches := r.fetches, jobs := r.jobs, batch := [], syncBatch := [])
      && FinishedIn(s.fetches, r.fetches, taken.batch) && JobsIn(s.jobs, r.jobs, taken.syncBatch)
  {
    TakeKeeps(s);
    var taken := Next(s, TakeJobs);
    assert taken.fetches == s.fetches && taken.jobs == s.jobs && taken.failed;
    hide Good, FinishedIn, JobsIn, Submitted, SyncSubmitted, Next, Enabled;
    WholeBatch(taken, {});
    WholeSyncBatch(Submitted(taken, {}), {});
  }

  lemma {:induction false} FailedShape(s: State)
    requires Good(s) && Enabled(s, Close)
    ensures var r := Failed(s);
      && r == s.(fetches := r.fetches, jobs := r.jobs, phase := Drained, failed := true,
                 queue := [], batch := [], inflight := [], syncQueue := [], syncBatch := [], syncInflight := [])
      && FinishedIn(s.fetches, r.fetches, s.queue + s.inflight) && JobsIn(s.jobs, r.jobs, s.syncQueue + s.syncInflight)
  {
    assert s.batch == [] && s.syncBatch == [];
    ListsApart(s);
    CloseKeeps(s);
    var closed := Next(s, Close);
    TakenShape(closed);
    var taken := Taken(closed, {}, {});
    hide Good, FinishedIn, JobsIn, Once, Taken, Expired, SyncExpired, Next, Enabled;
    WholeSync(taken, {});
    var waited := SyncExpired(taken, 0, true, {});
    WholeInflight(waited, {});
    FinishedMore(s.fetches, waited.fetches, Expired(waited, 0, true, {}).fetches, s.queue, s.inflight);
    JobsMore(s.jobs, taken.jobs, waited.jobs, s.syncQueue, s.syncInflight);
  }

  lemma {:induction false} ListsApart(s: State)
    requires Good(s) && s.batch == [] && s.syncBatch == []
    ensures forall f :: f in s.queue ==> f !in s.inflight
    ensures forall j :: j in s.syncQueue ==> j !in s.syncInflight
  {
    OwnedOnce(s);
    JobsOnce(s);
    hide Good, Once;
    assert s.queue + [] + s.inflight == s.queue + s.inflight;
    assert s.syncQueue + [] + s.syncInflight == s.syncQueue + s.syncInflight;
    OnceParts(s.queue, s.inflight);
    OnceParts(s.syncQueue, s.syncInflight);
  }

  lemma {:induction false} EndKeeps(s: State)
    requires Good(s) && Enabled(s, Close)
    ensures Enabled(Failed(s), Exit) && Good(Next(Failed(s), Exit))
    ensures Next(Failed(s), Exit) == Failed(s).(phase := Exited)
  {
    FailedShape(s);
    hide FinishedIn, JobsIn, Failed, FetchOk, JobOk, PhaseOk;
    StepKeeps(Failed(s), Exit);
  }

  /** When the loader ends, exactly the fetches and jobs in its lists have been finished, each once:
      no waiting thread is left without an answer, and no page but for a request on its way. */
  lemma {:induction false} FinishesAll(s: State)
    requires Good(s) && Enabled(s, Close)
    ensures var r := Failed(s).(phase := Exited);
      && Good(r)
      && r == s.(fetches := r.fetches, jobs := r.jobs, phase := Exited, failed := true,
                 queue := [], batch := [], inflight := [], syncQueue := [], syncBatch := [], syncInflight := [])
      && FinishedIn(s.fetches, r.fetches, s.queue + s.inflight) && JobsIn(s.jobs, r.jobs, s.syncQueue + s.syncInflight)
      && (forall j :: 0 <= j < |r.jobs| ==> r.jobs[j].done && r.jobs[j].finishes == 1)
      && (forall f :: 0 <= f < |r.fetches| && InPages(r.pages, Asked, f) == 0 ==>
            r.fetches[f].done && r.fetches[f].finishes == 1)
  {
    FailedShape(s);
    EndKeeps(s);
    hide *;
    FinishedEach(Failed(s).(phase := Exited));
  }

  lemma {:induction false} FinishedEach(r: State)
    requires Good(r) && r.phase.Exited?
    ensures forall j :: 0 <= j < |r.jobs| ==> r.jobs[j].done && r.jobs[j].finishes == 1
    ensures forall f :: 0 <= f < |r.fetches| && InPages(r.pages, Asked, f) == 0 ==>
      r.fetches[f].done && r.fetches[f].finishes == 1
  {
    hide Wired, InPages;
    forall j | 0 <= j < |r.jobs|
      ensures r.jobs[j].done && r.jobs[j].finishes == 1
    {
      assert JobOk(r, j);
    }
    forall f | 0 <= f < |r.fetches| && InPages(r.pages, Asked, f) == 0
      ensures r.fetches[f].done && r.fetches[f].finishes == 1
    {
      assert FetchOk(r, f);
    }
  }
}
