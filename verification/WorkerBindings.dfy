/**
 What a run of reviews may rely on about its worker (internal/review/service.go:
 522-561 and 591-599): which worker serves which run, in terms of what was asked
 and answered. A worker serves only the workspace it was acquired for, a worker
 retained for another workspace is released before a new one comes, and it is
 kept twelve hours from the latest admission it served.
 */
module WorkerBindings {
  import opened Wrappers
  import opened WorkerPool

  // ---- what the events say of one task ----

  /** The newest worker acquired for a task, with the workspace that was asked for. */
  datatype Bond = Bond(worker: Worker, workspace: Workspace)

  /** The workspace of the latest request for a worker. */
  function Asked(events: seq<Event>, k: Task): Option<Workspace> {
    if events == [] then None
    else
      var e := events[|events| - 1];
      if e.WorkerFor? && e.task == k then Some(e.workspace) else Asked(events[..|events| - 1], k)
  }

  function Newest(events: seq<Event>, k: Task): Option<Bond> {
    if events == [] then None
    else
      var before, e := events[..|events| - 1], events[|events| - 1];
      if e.Acquired? && e.task == k && Asked(before, k).Some? then Some(Bond(e.worker, Asked(before, k).value))
      else Newest(before, k)
  }

  /** Twelve hours from the latest admission the newest worker served. */
  function KeptUntil(events: seq<Event>, k: Task): Option<Time> {
    if events == [] then None
    else
      var before, e := KeptUntil(events[..|events| - 1], k), events[|events| - 1];
      if e.Acquired? && e.task == k then None
      else if e.Retain? && e.task == k then
        var until := e.admitted + 12 * 3600;
        Some(if before.Some? && before.value > until then before.value else until)
      else before
  }

  /** How often the latest request for a worker has taken another task's. */
  function Reclaims(events: seq<Event>, k: Task): nat {
    if events == [] then 0
    else
      var before, e := Reclaims(events[..|events| - 1], k), events[|events| - 1];
      if e.WorkerFor? && e.task == k then 0
      else if e.AtCapacity? && e.task == k then before + 1
      else before
  }

  // ---- the invariant ----

  /** A kept worker is the task's newest, kept for its workspace and until its time. */
  predicate KeptAsSaid(t: Slot, events: seq<Event>, k: Task) {
    t.kept.Some? ==>
      var a := t.kept.value;
      Newest(events, k) == Some(Bond(a.worker, a.workspace)) && KeptUntil(events, k) == Some(a.expires)
  }

  /** A run is for the workspace last asked for, and uses the worker acquired for it. */
  predicate RunAsAsked(t: Slot, events: seq<Event>, k: Task) {
    match t.run
    case NoRun => true
    case Dropping(_) => true
    case ReleasingStale(_, _, ws) =>
      Asked(events, k) == Some(ws) && t.kept.Some? && t.kept.value.workspace != ws && Reclaims(events, k) == 0
    case ReleasedStale(_, ws) => Asked(events, k) == Some(ws) && Reclaims(events, k) == 0
    case Acquiring(ws, again) => Asked(events, k) == Some(ws) && Reclaims(events, k) == if again then 1 else 0
    case Reclaiming(_, ws) => Asked(events, k) == Some(ws) && Reclaims(events, k) == 1
    case Using(w, ws, reused) =>
      && Asked(events, k) == Some(ws) && Newest(events, k) == Some(Bond(w, ws)) && Reclaims(events, k) <= 1
      && (if reused then t.kept.Some? else KeptUntil(events, k).None?)
  }

  predicate Bound(t: Slot, events: seq<Event>, k: Task) { KeptAsSaid(t, events, k) && RunAsAsked(t, events, k) }

  lemma StepKeepsKept(s: Pool, events: seq<Event>, e: Event, k: Task)
    requires Inv(s) && CanStep(s, e) && Bound(Of(s, k), events, k)
    ensures KeptAsSaid(Of(Step(s, e), k), events + [e], k)
  {
    hide OnePlace, ReleasedOnce, Serials, Apart, Asked, Reclaims;
    assert (events + [e])[..|events|] == events;
    InSlot(s, k);
    if !e.Left? { InSlot(s, e.task); }
  }

  lemma StepKeepsAsked(s: Pool, events: seq<Event>, e: Event, k: Task)
    requires Inv(s) && CanStep(s, e) && Bound(Of(s, k), events, k)
    ensures RunAsAsked(Of(Step(s, e), k), events + [e], k)
  {
    hide OnePlace, ReleasedOnce, Serials, Apart;
    assert (events + [e])[..|events|] == events;
    InSlot(s, k);
    if !e.Left? { InSlot(s, e.task); }
  }

  lemma {:induction false} RunKeepsBound(run: seq<Pool>, events: seq<Event>, n: nat, k: Task)
    requires IsRun(run, events) && n < |run|
    ensures Inv(run[n]) && Bound(Of(run[n], k), events[..n], k)
  {
    RunKeepsInv(run, events, n);
    if n > 0 {
      RunKeepsBound(run, events, n - 1, k);
      assert events[..n] == events[..n - 1] + [events[n - 1]];
      hide Inv, CanStep, Step, KeptAsSaid, RunAsAsked;
      StepKeepsKept(run[n - 1], events[..n - 1], events[n - 1], k);
      StepKeepsAsked(run[n - 1], events[..n - 1], events[n - 1], k);
    }
  }

  // ---- a worker serves the workspace it was acquired for ----

  /** Before the n-th moment w was acquired for k while k was acquiring for ws. */
  ghost predicate AcquiredFor(run: seq<Pool>, events: seq<Event>, n: nat, k: Task, w: Worker, ws: Workspace)
    requires n <= |events| < |run|
  {
    exists i :: 0 <= i < n && events[i] == Acquired(k, w)
      && Of(run[i], k).run.Acquiring? && Of(run[i], k).run.workspace == ws
  }

  lemma {:induction false} NewestIsAcquired(run: seq<Pool>, events: seq<Event>, n: nat, k: Task)
    requires IsRun(run, events) && n < |run| && Newest(events[..n], k).Some?
    ensures var b := Newest(events[..n], k).value; AcquiredFor(run, events, n, k, b.worker, b.workspace)
  {
    var b := Newest(events[..n], k).value;
    assert events[..n][..n - 1] == events[..n - 1];
    var e := events[n - 1];
    if e.Acquired? && e.task == k {
      RunKeepsBound(run, events, n - 1, k);
      assert CanStep(run[n - 1], e);
      assert events[n - 1] == Acquired(k, b.worker);
    } else {
      NewestIsAcquired(run, events, n - 1, k);
      var i :| 0 <= i < n - 1 && events[i] == Acquired(k, b.worker)
        && Of(run[i], k).run.Acquiring? && Of(run[i], k).run.workspace == b.workspace;
      assert events[i] == Acquired(k, b.worker);
    }
  }

  lemma {:induction false} AcquiredStays(run: seq<Pool>, events: seq<Event>, i: nat, n: nat)
    requires IsRun(run, events) && i < n < |run| && events[i].Acquired?
    ensures events[i].worker in run[n].acquired
  {
    if i + 1 < n { AcquiredStays(run, events, i, n - 1); }
    assert CanStep(run[n - 1], events[n - 1]);
    assert run[n - 1 + 1] == Step(run[n - 1], events[n - 1]);
  }

  /** A worker is acquired once, so for one task and one workspace. */
  lemma AcquiredForOne(
    run: seq<Pool>, events: seq<Event>, n: nat, w: Worker, j: Task, ws: Workspace, k: Task, ws': Workspace)
    requires IsRun(run, events) && n < |run|
    requires AcquiredFor(run, events, n, j, w, ws) && AcquiredFor(run, events, n, k, w, ws')
    ensures j == k && ws == ws'
  {
    var a :| 0 <= a < n && events[a] == Acquired(j, w)
      && Of(run[a], j).run.Acquiring? && Of(run[a], j).run.workspace == ws;
    var b :| 0 <= b < n && events[b] == Acquired(k, w)
      && Of(run[b], k).run.Acquiring? && Of(run[b], k).run.workspace == ws';
    assert CanStep(run[a], events[a]) && CanStep(run[b], events[b]);
    if a < b { AcquiredStays(run, events, a, b); }
    if b < a { AcquiredStays(run, events, b, a); }
  }

  /**
   In every run, at every moment, a review uses a worker that was acquired for
   its own task while that task was acquiring for the very workspace the review
   last asked for; and a retained worker is the task's own.
   */
  lemma WorkersServeTheirWorkspace(run: seq<Pool>, events: seq<Event>, n: nat, k: Task)
    requires IsRun(run, events) && n < |run|
    ensures var r := Of(run[n], k).run;
      r.Using? ==>
        AcquiredFor(run, events, n, k, r.worker, r.workspace) && Asked(events[..n], k) == Some(r.workspace)
    ensures var kept := Of(run[n], k).kept;
      kept.Some? ==> exists ws :: AcquiredFor(run, events, n, k, kept.value.worker, ws)
  {
    RunKeepsBound(run, events, n, k);
    if Newest(events[..n], k).Some? { NewestIsAcquired(run, events, n, k); }
    hide Inv;
    var kept := Of(run[n], k).kept;
    if kept.Some? { assert AcquiredFor(run, events, n, k, kept.value.worker, kept.value.workspace); }
  }

  // ---- what a request for a worker leads to ----

  /**
   A request for a worker starts a run unless the task's retained worker is
   busy. An idle one is used if, and only if, it was acquired for the same
   workspace; otherwise its release begins. With none retained a new one is
   acquired. A busy one leaves everything as it was.
   */
  lemma RequestsAreServed(run: seq<Pool>, events: seq<Event>, n: nat, k: Task, ws: Workspace)
    requires IsRun(run, events) && n < |events| && events[n] == WorkerFor(k, ws)
    ensures var t, t' := Of(run[n], k), Of(run[n + 1], k);
      match t.kept
      case None => t' == t.(run := Acquiring(ws, false))
      case Some(a) =>
        if a.busy then t' == t
        else
          && t'.kept == Some(a.(busy := true)) && t'.discard == t.discard
          && (if AcquiredFor(run, events, n, k, a.worker, ws) then t'.run == Using(a.worker, ws, true)
              else t'.run == ReleasingStale(a.serial, a.worker, ws))
  {
    var t := Of(run[n], k);
    RunKeepsBound(run, events, n, k);
    assert CanStep(run[n], events[n]);
    assert run[n + 1] == Step(run[n], events[n]);
    if t.kept.Some? {
      var a := t.kept.value;
      NewestIsAcquired(run, events, n, k);
      if AcquiredFor(run, events, n, k, a.worker, ws) {
        AcquiredForOne(run, events, n, a.worker, k, ws, k, a.workspace);
      }
    }
    hide Inv;
  }

  /** Somebody has called the runtime to release w. */
  ghost predicate ReleaseCalled(s: Pool, w: Worker) {
    || IsGone(s, w)
    || (exists serial :: serial in s.leaving && s.leaving[serial] == w)
    || (exists j :: Releasing(s, j, w))
  }

  predicate Releasing(s: Pool, j: Task, w: Worker) {
    var r := Of(s, j).run;
    (r.Reclaiming? || r.Dropping?) && r.worker == w
  }

  /**
   When a task gets a new worker, the release of every worker it had before has
   been called: so the worker of the old workspace goes before the new one
   comes, and a task never holds two.
   */
  lemma OldWorkersGoFirst(run: seq<Pool>, events: seq<Event>, n: nat, i: nat, k: Task, w: Worker, newer: Worker)
    requires IsRun(run, events) && i < n < |events| && events[i] == Acquired(k, w) && events[n] == Acquired(k, newer)
    ensures ReleaseCalled(run[n], w) && w != newer
  {
    var s := run[n];
    AcquiredStays(run, events, i, n);
    assert CanStep(run[i], events[i]) && CanStep(s, events[n]);
    RunKeepsInv(run, events, n);
    assert AcquiredFor(run, events, n, k, w, Of(run[i], k).run.workspace);
    if !IsGone(s, w) {
      var a :| WorkerAt(s, a) == Some(w);
      match a
      case Exit(serial) => assert s.leaving[serial] == w;
      case Shelf(j) => HeldByOne(run, events, n, k, w, j, Of(run[i], k).run.workspace);
      case Hands(j) =>
        if !Releasing(s, j, w) { HeldByOne(run, events, n, k, w, j, Of(run[i], k).run.workspace); }
    }
  }

  /** A worker acquired for k is retained or used by k alone; while k acquires, by nobody. */
  lemma HeldByOne(run: seq<Pool>, events: seq<Event>, n: nat, k: Task, w: Worker, j: Task, ws: Workspace)
    requires IsRun(run, events) && n < |run| && AcquiredFor(run, events, n, k, w, ws)
    requires var t := Of(run[n], j);
      (t.kept.Some? && t.kept.value.worker == w) || (t.run.Using? && t.run.worker == w)
    ensures j == k && !Of(run[n], k).run.Acquiring?
  {
    RunKeepsBound(run, events, n, j);
    NewestIsAcquired(run, events, n, j);
    AcquiredForOne(run, events, n, w, k, ws, j, Newest(events[..n], j).value.workspace);
    InSlot(run[n], j);
    hide Inv;
  }

  // ---- how long a worker is kept, and what a run may take from others ----

  /** A retained worker is the newest its task acquired, kept twelve hours from the latest admission it served. */
  lemma KeptForTwelveHours(run: seq<Pool>, events: seq<Event>, n: nat, k: Task)
    requires IsRun(run, events) && n < |run| && Of(run[n], k).kept.Some?
    ensures var a := Of(run[n], k).kept.value;
      Newest(events[..n], k) == Some(Bond(a.worker, a.workspace)) && KeptUntil(events[..n], k) == Some(a.expires)
  {
    RunKeepsBound(run, events, n, k);
    hide Inv;
  }

  /** One request takes a worker from another task at most once. */
  lemma {:induction false} ReclaimsOnce(run: seq<Pool>, events: seq<Event>, i: nat, n: nat, k: Task)
    requires IsRun(run, events) && i < n < |events|
    requires events[i].AtCapacity? && events[i].task == k && events[n].AtCapacity? && events[n].task == k
    ensures exists m :: i < m < n && events[m].WorkerFor? && events[m].task == k
  {
    RunKeepsBound(run, events, n, k);
    assert CanStep(run[n], events[n]);
    hide Inv;
    if forall m :: i < m < n ==> !(events[m].WorkerFor? && events[m].task == k) {
      ReclaimsStay(events, i, n, k);
    }
  }

  lemma {:induction false} ReclaimsStay(events: seq<Event>, i: nat, n: nat, k: Task)
    requires i < n <= |events| && events[i].AtCapacity? && events[i].task == k
    requires forall m :: i < m < n ==> !(events[m].WorkerFor? && events[m].task == k)
    ensures Reclaims(events[..n], k) > 0
  {
    assert events[..n][..n - 1] == events[..n - 1];
    if i + 1 < n { ReclaimsStay(events, i, n - 1, k); }
  }

  /** A step that ends a task's run. */
  predicate EndsRun(e: Event, k: Task) {
    match e
    case StaleAnswer(j, ok) => j == k && !ok
    case AcquireFailed(j) => j == k
    case Reclaimed(j, ok) => j == k && !ok
    case Retain(j, _) => j == k
    case Dropped(j, _) => j == k
    case _ => false
  }

  /**
   A run goes on until its worker is retained or dropped, or a release or an
   acquisition it needs fails; until then it keeps its workspace.
   */
  lemma RunsEnd(run: seq<Pool>, events: seq<Event>, n: nat, k: Task)
    requires IsRun(run, events) && n < |events| && !Of(run[n], k).run.NoRun?
    ensures Of(run[n + 1], k).run.NoRun? <==> EndsRun(events[n], k)
    ensures events[n] == StaleAnswer(k, false) ==> Idle(Of(run[n + 1], k))
  {
    RunKeepsInv(run, events, n);
    var s, e := run[n], events[n];
    assert CanStep(s, e) && run[n + 1] == Step(s, e);
    hide OnePlace, ReleasedOnce, Serials, Apart;
    InSlot(s, k);
    if !e.Left? { InSlot(s, e.task); }
  }
}
