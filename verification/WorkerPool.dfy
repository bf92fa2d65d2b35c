/**
 The review worker pool (internal/review/service.go): a run acquires a worker or
 borrows the one retained for its task, and at its end retains it or releases
 it; retained workers go on expiry, on request, on retry, on a changed workspace
 and under capacity pressure. A step is one hold of the service's mutex or one
 answer of the runtime. Runs of one task do not overlap; everything else does.
 */
module WorkerPool {
  import opened Wrappers

  type Task = nat
  type Worker = nat
  type Workspace = nat
  type Time = int

  /** A retained worker; the serial tells one affinity object from a later one. */
  datatype Affinity = Affinity(worker: Worker, workspace: Workspace, expires: Time, busy: bool, serial: nat)

  /** Where a run of a task is. */
  datatype Run =
    | NoRun
    | ReleasingStale(serial: nat, worker: Worker, workspace: Workspace)
    | ReleasedStale(serial: nat, workspace: Workspace)
    | Acquiring(workspace: Workspace, again: bool)
    | Reclaiming(worker: Worker, workspace: Workspace)
    | Using(worker: Worker, workspace: Workspace, reused: bool)
    | Dropping(worker: Worker)

  /** A retry discarding a retained worker: its affinity, and whether the release went through. */
  datatype Discard = NoDiscard | Discard(serial: nat, released: bool)

  /** One task: its entry in the affinities map, its run and its discard. */
  datatype Slot = Slot(kept: Option<Affinity>, run: Run, discard: Discard)

  /**
   `leaving` are workers taken out of the map whose release is under way;
   `released` the successful releases, in order; `failed` those whose release
   failed after they had left the map.
   */
  datatype Pool = Pool(
    slots: map<Task, Slot>, leaving: map<nat, Worker>,
    acquired: set<Worker>, released: seq<Worker>, failed: set<Worker>, next: nat)

  function Empty(): Pool { Pool(map[], map[], {}, [], {}, 0) }

  function Of(s: Pool, k: Task): Slot {
    if k in s.slots then s.slots[k] else Slot(None, NoRun, NoDiscard)
  }

  datatype Event =
    | WorkerFor(task: Task, workspace: Workspace)
    | StaleAnswer(task: Task, ok: bool)
    | ForgetStale(task: Task)
    | Acquired(task: Task, worker: Worker)
    | AcquireFailed(task: Task)
    | AtCapacity(task: Task, victim: Task)
    | Reclaimed(task: Task, ok: bool)
    | Retain(task: Task, admitted: Time)
    | Drop(task: Task)
    | Dropped(task: Task, ok: bool)
    | Expire(task: Task, now: Time)
    | ReleaseAffinity(task: Task)
    | Left(serial: nat, ok: bool)
    | DiscardForRetry(task: Task)
    | DiscardAnswer(task: Task, ok: bool)
    | ForgetDiscarded(task: Task)

  predicate Idle(t: Slot) { t.kept.Some? && !t.kept.value.busy }

  /** No idle affinity is nearer its expiry. */
  predicate NearestExpiry(s: Pool, victim: Task) {
    && victim in s.slots && Idle(s.slots[victim])
    && forall k :: k in s.slots && Idle(s.slots[k]) ==>
      Of(s, victim).kept.value.expires <= s.slots[k].kept.value.expires
  }

  predicate CanStep(s: Pool, e: Event) {
    match e
    case WorkerFor(k, _) => Of(s, k).run.NoRun?
    case StaleAnswer(k, _) => Of(s, k).run.ReleasingStale?
    case ForgetStale(k) => Of(s, k).run.ReleasedStale?
    case Acquired(k, w) => Of(s, k).run.Acquiring? && w !in s.acquired
    case AcquireFailed(k) => Of(s, k).run.Acquiring?
    case AtCapacity(k, victim) => Of(s, k).run.Acquiring? && !Of(s, k).run.again && NearestExpiry(s, victim)
    case Reclaimed(k, _) => Of(s, k).run.Reclaiming?
    case Retain(k, _) => Of(s, k).run.Using?
    case Drop(k) => Of(s, k).run.Using?
    case Dropped(k, _) => Of(s, k).run.Dropping?
    case Expire(k, now) => Idle(Of(s, k)) && Of(s, k).kept.value.expires <= now
    case ReleaseAffinity(k) => Idle(Of(s, k))
    case Left(serial, _) => serial in s.leaving
    case DiscardForRetry(k) => Idle(Of(s, k))
    case DiscardAnswer(k, _) => Of(s, k).discard.Discard? && !Of(s, k).discard.released && Of(s, k).kept.Some?
    case ForgetDiscarded(k) => Of(s, k).discard.Discard? && Of(s, k).discard.released
  }

  // ---- what one task's slot becomes ----

  function SetBusy(t: Slot, busy: bool): Slot
    requires t.kept.Some?
  {
    t.(kept := Some(t.kept.value.(busy := busy)))
  }

  /** `current == stale`: the map still holds the very affinity. */
  predicate Current(t: Slot, serial: nat) { t.kept.Some? && t.kept.value.serial == serial }

  function Forget(t: Slot, serial: nat): Slot { if Current(t, serial) then t.(kept := None) else t }

  function Unreserve(t: Slot, serial: nat): Slot { if Current(t, serial) then SetBusy(t, false) else t }

  /** workerFor's first look at the map. */
  function Choose(t: Slot, workspace: Workspace): Slot {
    if t.kept.None? then t.(run := Acquiring(workspace, false))
    else
      var a := t.kept.value;
      if a.busy then t
      else if a.workspace == workspace then SetBusy(t, true).(run := Using(a.worker, workspace, true))
      else SetBusy(t, true).(run := ReleasingStale(a.serial, a.worker, workspace))
  }

  const RETENTION: Time := 12 * 3600

  /** An affinity kept for the same worker and workspace never expires sooner for it. */
  function RetainUntil(t: Slot, w: Worker, workspace: Workspace, admitted: Time): (until: Time)
    ensures until >= admitted + RETENTION
    ensures t.kept.Some? && t.kept.value.worker == w && t.kept.value.workspace == workspace ==>
      until >= t.kept.value.expires
  {
    var deadline := admitted + RETENTION;
    if t.kept.Some? && t.kept.value.worker == w && t.kept.value.workspace == workspace
       && t.kept.value.expires > deadline then t.kept.value.expires else deadline
  }

  function Retained(t: Slot, admitted: Time, serial: nat): Slot
    requires t.run.Using?
  {
    var w, workspace := t.run.worker, t.run.workspace;
    t.(kept := Some(Affinity(w, workspace, RetainUntil(t, w, workspace, admitted), false, serial)), run := NoRun)
  }

  /** releaseWorker up to its release: a borrowed worker first leaves the map. */
  function StartDrop(t: Slot): Slot
    requires t.run.Using?
  {
    var gone := t.run.reused && t.kept.Some? && t.kept.value.worker == t.run.worker;
    Slot(if gone then None else t.kept, Dropping(t.run.worker), t.discard)
  }

  function At(s: Pool, k: Task, t: Slot): Pool { s.(slots := s.slots[k := t]) }

  function Gone(s: Pool, w: Worker, ok: bool): Pool {
    if ok then s.(released := s.released + [w]) else s.(failed := s.failed + {w})
  }

  function TakeOut(s: Pool, k: Task): Pool
    requires Of(s, k).kept.Some?
  {
    var a := Of(s, k).kept.value;
    At(s, k, Of(s, k).(kept := None)).(leaving := s.leaving[a.serial := a.worker])
  }

  function Step(s: Pool, e: Event): Pool
    requires CanStep(s, e)
  {
    if e.Left? then Gone(s, s.leaving[e.serial], e.ok).(leaving := s.leaving - {e.serial})
    else
      var k, t, r := e.task, Of(s, e.task), Of(s, e.task).run;
      match e
      case WorkerFor(_, workspace) => At(s, k, Choose(t, workspace))
      case StaleAnswer(_, ok) =>
        if ok then At(Gone(s, r.worker, true), k, t.(run := ReleasedStale(r.serial, r.workspace)))
        else At(s, k, Unreserve(t, r.serial).(run := NoRun))
      case ForgetStale(_) => At(s, k, Forget(t, r.serial).(run := Acquiring(r.workspace, false)))
      case Acquired(_, w) => At(s.(acquired := s.acquired + {w}), k, t.(run := Using(w, r.workspace, false)))
      case AcquireFailed(_) => At(s, k, t.(run := NoRun))
      case AtCapacity(_, victim) =>
        var v := Of(s, victim);
        At(At(s, victim, v.(kept := None)), k, t.(run := Reclaiming(v.kept.value.worker, r.workspace)))
      case Reclaimed(_, ok) =>
        At(Gone(s, r.worker, ok), k, t.(run := if ok then Acquiring(r.workspace, true) else NoRun))
      case Retain(_, admitted) => At(s, k, Retained(t, admitted, s.next)).(next := s.next + 1)
      case Drop(_) => At(s, k, StartDrop(t))
      case Dropped(_, ok) => At(Gone(s, r.worker, ok), k, t.(run := NoRun))
      case Expire(_, _) => TakeOut(s, k)
      case ReleaseAffinity(_) => TakeOut(s, k)
      case DiscardForRetry(_) => At(s, k, SetBusy(t, true).(discard := Discard(t.kept.value.serial, false)))
      case DiscardAnswer(_, ok) =>
        if ok then At(Gone(s, t.kept.value.worker, true), k, t.(discard := t.discard.(released := true)))
        else At(s, k, Unreserve(t, t.discard.serial).(discard := NoDiscard))
      case ForgetDiscarded(_) => At(s, k, Forget(t, t.discard.serial).(discard := NoDiscard))
  }

  // ---- where every worker is ----

  /** On a task's shelf (retained, or borrowed by that task's run), in a run's hands, or on its way out. */
  datatype Place = Shelf(task: Task) | Hands(task: Task) | Exit(serial: nat)

  /** The affinity's worker is already released and only its entry is left. */
  predicate Spent(t: Slot) {
    t.run.ReleasedStale? || (t.discard.Discard? && t.discard.released)
  }

  function OnShelf(t: Slot): Option<Worker> {
    if t.kept.Some? && !Spent(t) then Some(t.kept.value.worker) else None
  }

  function InHands(t: Slot): Option<Worker> {
    if t.run.Reclaiming? || t.run.Dropping? || (t.run.Using? && !t.run.reused) then Some(t.run.worker) else None
  }

  function WorkerAt(s: Pool, place: Place): Option<Worker> {
    match place
    case Shelf(k) => OnShelf(Of(s, k))
    case Hands(k) => InHands(Of(s, k))
    case Exit(serial) => if serial in s.leaving then Some(s.leaving[serial]) else None
  }

  predicate IsGone(s: Pool, w: Worker) { w in s.released || w in s.failed }

  /** Every worker is in one place, and one that has a place is not gone; every other acquired one is gone. */
  ghost predicate OnePlace(s: Pool) {
    && (forall a, b :: WorkerAt(s, a).Some? && WorkerAt(s, a) == WorkerAt(s, b) ==> a == b)
    && (forall a :: WorkerAt(s, a).Some? ==> WorkerAt(s, a).value in s.acquired && !IsGone(s, WorkerAt(s, a).value))
    && (forall w :: w in s.acquired && !IsGone(s, w) ==> exists a :: WorkerAt(s, a) == Some(w))
  }

  /**
   A kept affinity is busy exactly while either its run or a discard
   holds it, and a run that holds it holds that very affinity.
   */
  predicate SlotInv(t: Slot) {
    var held := t.kept.Some? && t.kept.value.busy;
    && (t.discard.Discard? ==> held && t.kept.value.serial == t.discard.serial)
    && match t.run
       case ReleasingStale(serial, w, _) =>
         held && t.kept.value.serial == serial && t.kept.value.worker == w && t.discard.NoDiscard?
       case ReleasedStale(serial, _) => held && t.kept.value.serial == serial && t.discard.NoDiscard?
       case Using(w, _, reused) =>
         if reused then held && t.kept.value.worker == w && t.discard.NoDiscard? else t.kept.None?
       case NoRun => held ==> t.discard.Discard?
       case _ => t.kept.None?
  }

  ghost predicate Slots(s: Pool) { forall k :: k in s.slots ==> SlotInv(s.slots[k]) }

  /** No two affinities, kept or leaving, share a serial. */
  ghost predicate Serials(s: Pool) {
    && (forall k :: k in s.slots ==> Numbered(s, s.slots[k]))
    && (forall n :: n in s.leaving ==> n < s.next)
  }

  predicate Numbered(s: Pool, t: Slot) {
    t.kept.Some? ==> t.kept.value.serial < s.next && t.kept.value.serial !in s.leaving
  }

  ghost predicate Apart(s: Pool) {
    forall j, k :: j in s.slots && k in s.slots && Alike(s.slots[j], s.slots[k]) ==> j == k
  }

  predicate Alike(t: Slot, u: Slot) {
    t.kept.Some? && u.kept.Some? && t.kept.value.serial == u.kept.value.serial
  }

  /** No worker is released successfully twice. */
  ghost predicate ReleasedOnce(s: Pool) {
    && (forall i, j :: 0 <= i < j < |s.released| ==> s.released[i] != s.released[j])
    && (forall i :: 0 <= i < |s.released| ==> s.released[i] in s.acquired)
    && s.failed <= s.acquired
    && (forall i :: 0 <= i < |s.released| ==> s.released[i] !in s.failed)
  }

  ghost predicate Inv(s: Pool) { OnePlace(s) && ReleasedOnce(s) && Slots(s) && Serials(s) && Apart(s) }

  // ---- how a step moves workers ----

  /** Nothing about which workers exist or are gone changed. */
  predicate SameWorkers(s: Pool, s': Pool) {
    s'.acquired == s.acquired && s'.released == s.released && s'.failed == s.failed
  }

  ghost predicate Stays(s: Pool, s': Pool) {
    SameWorkers(s, s') && forall a :: WorkerAt(s', a) == WorkerAt(s, a)
  }

  /** The worker at a goes to b. */
  ghost predicate Moves(s: Pool, s': Pool, a: Place, b: Place) {
    && SameWorkers(s, s') && a != b
    && WorkerAt(s, a).Some? && WorkerAt(s, b).None? && WorkerAt(s', a).None? && WorkerAt(s', b) == WorkerAt(s, a)
    && forall c :: c != a && c != b ==> WorkerAt(s', c) == WorkerAt(s, c)
  }

  /** The worker at a is gone. */
  ghost predicate Departs(s: Pool, s': Pool, a: Place) {
    && s'.acquired == s.acquired && WorkerAt(s, a).Some? && WorkerAt(s', a).None?
    && (forall c :: c != a ==> WorkerAt(s', c) == WorkerAt(s, c))
    && var w := WorkerAt(s, a).value;
      || (s'.released == s.released + [w] && s'.failed == s.failed)
      || (s'.released == s.released && s'.failed == s.failed + {w})
  }

  /** A new worker comes to a. */
  ghost predicate Arrives(s: Pool, s': Pool, a: Place, w: Worker) {
    && s'.acquired == s.acquired + {w} && w !in s.acquired && s'.released == s.released && s'.failed == s.failed
    && WorkerAt(s, a).None? && WorkerAt(s', a) == Some(w)
    && forall c :: c != a ==> WorkerAt(s', c) == WorkerAt(s, c)
  }

  ghost predicate Fair(s: Pool) { OnePlace(s) && ReleasedOnce(s) }

  lemma StaysKeeps(s: Pool, s': Pool)
    requires Fair(s) && Stays(s, s')
    ensures Fair(s')
  {
    forall w | w in s'.acquired && !IsGone(s', w)
      ensures exists a :: WorkerAt(s', a) == Some(w)
    {
      assert !IsGone(s, w);
      var a :| WorkerAt(s, a) == Some(w);
      assert WorkerAt(s', a) == Some(w);
    }
  }

  lemma MovesKeeps(s: Pool, s': Pool, a: Place, b: Place)
    requires Fair(s) && Moves(s, s', a, b)
    ensures Fair(s')
  {
    forall w | w in s'.acquired && !IsGone(s', w)
      ensures exists c :: WorkerAt(s', c) == Some(w)
    {
      assert !IsGone(s, w);
      var c :| WorkerAt(s, c) == Some(w);
      assert WorkerAt(s', if c == a then b else c) == Some(w);
    }
  }

  lemma DepartsKeeps(s: Pool, s': Pool, a: Place)
    requires Fair(s) && Departs(s, s', a)
    ensures Fair(s')
  {
    var gone := WorkerAt(s, a).value;
    assert forall w :: IsGone(s', w) <==> IsGone(s, w) || w == gone;
    forall w | w in s'.acquired && !IsGone(s', w)
      ensures exists c :: WorkerAt(s', c) == Some(w)
    {
      var c :| WorkerAt(s, c) == Some(w);
      assert WorkerAt(s', c) == Some(w);
    }
  }

  lemma ArrivesKeeps(s: Pool, s': Pool, a: Place, w: Worker)
    requires Fair(s) && Arrives(s, s', a, w)
    ensures Fair(s')
  {
    assert !IsGone(s, w);
    forall v | v in s'.acquired && !IsGone(s', v)
      ensures exists c :: WorkerAt(s', c) == Some(v)
    {
      if v == w {
        assert WorkerAt(s', a) == Some(v);
      } else {
        assert !IsGone(s, v);
        var c :| WorkerAt(s, c) == Some(v);
        assert WorkerAt(s', c) == Some(v);
      }
    }
  }

  // ---- a step changes one task's slot ----

  /** Only task k's slot changed, to a slot that is in order and keeps no affinity but its own or a new one. */
  predicate OneSlot(s: Pool, s': Pool, k: Task, t: Slot) {
    && s'.slots == s.slots[k := t] && SlotInv(t)
    && s'.leaving == s.leaving && s'.next == s.next
    && (t.kept.Some? ==> Of(s, k).kept.Some? && t.kept.value.serial == Of(s, k).kept.value.serial)
  }

  lemma OneSlotKeeps(s: Pool, s': Pool, k: Task, t: Slot)
    requires Slots(s) && Serials(s) && Apart(s) && OneSlot(s, s', k, t)
    ensures Slots(s') && Serials(s') && Apart(s')
  {
  }

  lemma InSlot(s: Pool, k: Task)
    requires Slots(s)
    ensures SlotInv(Of(s, k))
  {
  }

  // ---- which of these each step is ----

  lemma WorkerForKeeps(s: Pool, e: Event)
    requires Inv(s) && CanStep(s, e) && e.WorkerFor?
    ensures Inv(Step(s, e))
  {
    hide OnePlace, ReleasedOnce, Slots, Serials, Apart;
    var s' := Step(s, e);
    InSlot(s, e.task);
    OneSlotKeeps(s, s', e.task, Of(s', e.task));
    StaysKeeps(s, s');
  }

  lemma StaleAnswerKeeps(s: Pool, e: Event)
    requires Inv(s) && CanStep(s, e) && e.StaleAnswer?
    ensures Inv(Step(s, e))
  {
    hide OnePlace, ReleasedOnce, Slots, Serials, Apart;
    var s' := Step(s, e);
    InSlot(s, e.task);
    OneSlotKeeps(s, s', e.task, Of(s', e.task));
    if e.ok { DepartsKeeps(s, s', Shelf(e.task)); } else { StaysKeeps(s, s'); }
  }

  lemma ForgetStaleKeeps(s: Pool, e: Event)
    requires Inv(s) && CanStep(s, e) && e.ForgetStale?
    ensures Inv(Step(s, e))
  {
    hide OnePlace, ReleasedOnce, Slots, Serials, Apart;
    var s' := Step(s, e);
    InSlot(s, e.task);
    OneSlotKeeps(s, s', e.task, Of(s', e.task));
    StaysKeeps(s, s');
  }

  lemma AcquiredKeeps(s: Pool, e: Event)
    requires Inv(s) && CanStep(s, e) && e.Acquired?
    ensures Inv(Step(s, e))
  {
    hide OnePlace, ReleasedOnce, Slots, Serials, Apart;
    var s' := Step(s, e);
    InSlot(s, e.task);
    OneSlotKeeps(s, s', e.task, Of(s', e.task));
    ArrivesKeeps(s, s', Hands(e.task), e.worker);
  }

  lemma AcquireFailedKeeps(s: Pool, e: Event)
    requires Inv(s) && CanStep(s, e) && e.AcquireFailed?
    ensures Inv(Step(s, e))
  {
    hide OnePlace, ReleasedOnce, Slots, Serials, Apart;
    var s' := Step(s, e);
    InSlot(s, e.task);
    OneSlotKeeps(s, s', e.task, Of(s', e.task));
    StaysKeeps(s, s');
  }

  lemma ReclaimedKeeps(s: Pool, e: Event)
    requires Inv(s) && CanStep(s, e) && e.Reclaimed?
    ensures Inv(Step(s, e))
  {
    hide OnePlace, ReleasedOnce, Slots, Serials, Apart;
    var s' := Step(s, e);
    InSlot(s, e.task);
    OneSlotKeeps(s, s', e.task, Of(s', e.task));
    DepartsKeeps(s, s', Hands(e.task));
  }

  lemma DropKeeps(s: Pool, e: Event)
    requires Inv(s) && CanStep(s, e) && e.Drop?
    ensures Inv(Step(s, e))
  {
    hide OnePlace, ReleasedOnce, Slots, Serials, Apart;
    var s' := Step(s, e);
    var t := Of(s, e.task);
    InSlot(s, e.task);
    OneSlotKeeps(s, s', e.task, Of(s', e.task));
    if t.run.reused { MovesKeeps(s, s', Shelf(e.task), Hands(e.task)); } else { StaysKeeps(s, s'); }
  }

  lemma DroppedKeeps(s: Pool, e: Event)
    requires Inv(s) && CanStep(s, e) && e.Dropped?
    ensures Inv(Step(s, e))
  {
    hide OnePlace, ReleasedOnce, Slots, Serials, Apart;
    var s' := Step(s, e);
    InSlot(s, e.task);
    OneSlotKeeps(s, s', e.task, Of(s', e.task));
    DepartsKeeps(s, s', Hands(e.task));
  }

  lemma DiscardForRetryKeeps(s: Pool, e: Event)
    requires Inv(s) && CanStep(s, e) && e.DiscardForRetry?
    ensures Inv(Step(s, e))
  {
    hide OnePlace, ReleasedOnce, Slots, Serials, Apart;
    var s' := Step(s, e);
    InSlot(s, e.task);
    OneSlotKeeps(s, s', e.task, Of(s', e.task));
    StaysKeeps(s, s');
  }

  lemma DiscardAnswerKeeps(s: Pool, e: Event)
    requires Inv(s) && CanStep(s, e) && e.DiscardAnswer?
    ensures Inv(Step(s, e))
  {
    hide OnePlace, ReleasedOnce, Slots, Serials, Apart;
    var s' := Step(s, e);
    InSlot(s, e.task);
    OneSlotKeeps(s, s', e.task, Of(s', e.task));
    if e.ok { DepartsKeeps(s, s', Shelf(e.task)); } else { StaysKeeps(s, s'); }
  }

  lemma ForgetDiscardedKeeps(s: Pool, e: Event)
    requires Inv(s) && CanStep(s, e) && e.ForgetDiscarded?
    ensures Inv(Step(s, e))
  {
    hide OnePlace, ReleasedOnce, Slots, Serials, Apart;
    var s' := Step(s, e);
    InSlot(s, e.task);
    OneSlotKeeps(s, s', e.task, Of(s', e.task));
    StaysKeeps(s, s');
  }

  lemma TakeOutKeeps(s: Pool, k: Task)
    requires Inv(s) && Idle(Of(s, k))
    ensures Inv(TakeOut(s, k))
  {
    InSlot(s, k);
    MovesKeeps(s, TakeOut(s, k), Shelf(k), Exit(Of(s, k).kept.value.serial));
    hide OnePlace, ReleasedOnce;
  }

  lemma LeftKeeps(s: Pool, e: Event)
    requires Inv(s) && CanStep(s, e) && e.Left?
    ensures Inv(Step(s, e))
  {
    DepartsKeeps(s, Step(s, e), Exit(e.serial));
    hide OnePlace, ReleasedOnce;
  }

  lemma AtCapacityKeeps(s: Pool, e: Event)
    requires Inv(s) && CanStep(s, e) && e.AtCapacity?
    ensures Inv(Step(s, e))
  {
    hide OnePlace, ReleasedOnce, Slots, Serials, Apart;
    var s' := Step(s, e);
    InSlot(s, e.task);
    InSlot(s, e.victim);
    var mid := At(s, e.victim, Of(s, e.victim).(kept := None));
    OneSlotKeeps(s, mid, e.victim, Of(mid, e.victim));
    OneSlotKeeps(mid, s', e.task, Of(s', e.task));
    MovesKeeps(s, s', Shelf(e.victim), Hands(e.task));
  }

  lemma RetainKeeps(s: Pool, e: Event)
    requires Inv(s) && CanStep(s, e) && e.Retain?
    ensures Inv(Step(s, e))
  {
    var s' := Step(s, e);
    InSlot(s, e.task);
    if Of(s, e.task).run.reused { StaysKeeps(s, s'); } else { MovesKeeps(s, s', Hands(e.task), Shelf(e.task)); }
    hide OnePlace, ReleasedOnce;
  }

  lemma StepKeepsInv(s: Pool, e: Event)
    requires Inv(s) && CanStep(s, e)
    ensures Inv(Step(s, e))
  {
    hide Inv;
    match e
    case WorkerFor(_, _) => WorkerForKeeps(s, e);
    case StaleAnswer(_, _) => StaleAnswerKeeps(s, e);
    case ForgetStale(_) => ForgetStaleKeeps(s, e);
    case Acquired(_, _) => AcquiredKeeps(s, e);
    case AcquireFailed(_) => AcquireFailedKeeps(s, e);
    case Reclaimed(_, _) => ReclaimedKeeps(s, e);
    case Drop(_) => DropKeeps(s, e);
    case Dropped(_, _) => DroppedKeeps(s, e);
    case DiscardForRetry(_) => DiscardForRetryKeeps(s, e);
    case DiscardAnswer(_, _) => DiscardAnswerKeeps(s, e);
    case ForgetDiscarded(_) => ForgetDiscardedKeeps(s, e);
    case Left(_, _) => LeftKeeps(s, e);
    case AtCapacity(_, _) => AtCapacityKeeps(s, e);
    case Retain(_, _) => RetainKeeps(s, e);
    case Expire(k, _) => TakeOutKeeps(s, k);
    case ReleaseAffinity(k) => TakeOutKeeps(s, k);
  }

  // ---- whole runs ----

  ghost predicate IsRun(run: seq<Pool>, events: seq<Event>) {
    && |run| == |events| + 1 && run[0] == Empty()
    && forall i :: 0 <= i < |events| ==> CanStep(run[i], events[i]) && run[i + 1] == Step(run[i], events[i])
  }

  lemma {:induction false} RunKeepsInv(run: seq<Pool>, events: seq<Event>, n: nat)
    requires IsRun(run, events) && n < |run|
    ensures Inv(run[n])
  {
    if n > 0 {
      RunKeepsInv(run, events, n - 1);
      hide Inv, CanStep, Step;
      StepKeepsInv(run[n - 1], events[n - 1]);
    }
  }

  predicate Uses(s: Pool, k: Task, w: Worker) { Of(s, k).run.Using? && Of(s, k).run.worker == w }

  predicate RetainsIdle(s: Pool, k: Task, w: Worker) { Idle(Of(s, k)) && Of(s, k).kept.value.worker == w }

  /**
   In every run, at every moment, a worker that some run uses or that some task
   retains idle is used or retained by that one alone, and has not been
   released.
   */
  lemma WorkersAreExclusive(run: seq<Pool>, events: seq<Event>, n: nat, w: Worker, j: Task, k: Task)
    requires IsRun(run, events) && n < |run|
    ensures Uses(run[n], j, w) && Uses(run[n], k, w) ==> j == k
    ensures RetainsIdle(run[n], j, w) && RetainsIdle(run[n], k, w) ==> j == k
    ensures !(Uses(run[n], j, w) && RetainsIdle(run[n], k, w))
    ensures Uses(run[n], j, w) || RetainsIdle(run[n], j, w) ==> w in run[n].acquired && w !in run[n].released
  {
    RunKeepsInv(run, events, n);
    var s := run[n];
    InSlot(s, j);
    InSlot(s, k);
    assert PlaceOf(s, j, w).Some? ==> WorkerAt(s, PlaceOf(s, j, w).value) == Some(w);
    assert PlaceOf(s, k, w).Some? ==> WorkerAt(s, PlaceOf(s, k, w).value) == Some(w);
    hide ReleasedOnce, Slots, Serials, Apart;
  }

  /** Where a task keeps a worker it uses or retains idle. */
  function PlaceOf(s: Pool, k: Task, w: Worker): Option<Place> {
    if RetainsIdle(s, k, w) then Some(Shelf(k))
    else if Uses(s, k, w) then Some(if Of(s, k).run.reused then Shelf(k) else Hands(k))
    else None
  }

  /** In every run no worker is released successfully twice, and none is lost: each has a place or is gone. */
  lemma WorkersAreConserved(run: seq<Pool>, events: seq<Event>, n: nat)
    requires IsRun(run, events) && n < |run|
    ensures forall i, j :: 0 <= i < j < |run[n].released| ==> run[n].released[i] != run[n].released[j]
    ensures forall w :: w in run[n].acquired ==> (IsGone(run[n], w) <==> !exists a :: WorkerAt(run[n], a) == Some(w))
  {
    RunKeepsInv(run, events, n);
    forall w | w in run[n].acquired
      ensures IsGone(run[n], w) <==> !exists a :: WorkerAt(run[n], a) == Some(w)
    {
      if a :| WorkerAt(run[n], a) == Some(w) { assert !IsGone(run[n], w); }
    }
  }

  /** A step that is an answer of the runtime to a release. */
  predicate IsReleaseAnswer(e: Event) {
    e.StaleAnswer? || e.Reclaimed? || e.Dropped? || e.Left? || e.DiscardAnswer?
  }

  /** A worker leaves the pool only through a release call. */
  lemma LeavesOnlyByRelease(s: Pool, e: Event, w: Worker)
    requires CanStep(s, e) && !IsGone(s, w) && IsGone(Step(s, e), w)
    ensures IsReleaseAnswer(e)
  {
  }

  // ---- the loops over the affinities map ----

  class Affinities {
    var kept: map<Task, Affinity>

    /** Takes out an idle affinity nearest its expiry, or finds that every one is busy. */
    method TakeIdle() returns (worker: Option<Worker>)
      modifies this
      ensures worker.None? ==> kept == old(kept) && forall k :: k in kept ==> kept[k].busy
      ensures worker.Some? ==>
        exists k :: Nearest(old(kept), k) && kept == old(kept) - {k} && worker.value == old(kept)[k].worker
    {
      var selected: Option<Task> := None;
      var keys := kept.Keys;
      while keys != {}
        invariant keys <= kept.Keys && kept == old(kept)
        invariant selected.Some? ==> selected.value in kept && !kept[selected.value].busy
        invariant forall k :: k in kept && k !in keys && !kept[k].busy ==>
          selected.Some? && kept[selected.value].expires <= kept[k].expires
        decreases keys
      {
        var key :| key in keys;
        var candidate := kept[key];
        if !candidate.busy && (selected.None? || candidate.expires < kept[selected.value].expires) {
          selected := Some(key);
        }
        keys := keys - {key};
      }
      if selected.None? { return None; }
      worker := Some(kept[selected.value].worker);
      kept := kept - {selected.value};
    }

    /** Takes out every idle affinity that has expired, and returns their workers to be released. */
    method ReapExpired(now: Time) returns (workers: seq<Worker>, ghost from: seq<Task>)
      modifies this
      ensures kept == map k | k in old(kept) && !Expired(old(kept)[k], now) :: old(kept)[k]
      ensures |from| == |workers| && forall i :: 0 <= i < |from| ==>
        from[i] in old(kept) && Expired(old(kept)[from[i]], now) && workers[i] == old(kept)[from[i]].worker
      ensures forall i, j :: 0 <= i < j < |from| ==> from[i] != from[j]
      ensures forall k :: k in old(kept) && Expired(old(kept)[k], now) ==> k in from
    {
      workers, from := [], [];
      var keys := kept.Keys;
      while keys != {}
        invariant keys <= old(kept.Keys)
        invariant kept == map k | k in old(kept) && (k in keys || !Expired(old(kept)[k], now)) :: old(kept)[k]
        invariant |from| == |workers| && forall i :: 0 <= i < |from| ==>
          from[i] in old(kept) && from[i] !in keys && Expired(old(kept)[from[i]], now)
          && workers[i] == old(kept)[from[i]].worker
        invariant forall i, j :: 0 <= i < j < |from| ==> from[i] != from[j]
        invariant forall k :: k in old(kept) && k !in keys && Expired(old(kept)[k], now) ==> k in from
        decreases keys
      {
        var key :| key in keys;
        var value := kept[key];
        if !value.busy && value.expires <= now {
          kept := kept - {key};
          workers, from := workers + [value.worker], from + [key];
        }
        keys := keys - {key};
      }
    }
  }

  predicate Expired(a: Affinity, now: Time) { !a.busy && a.expires <= now }

  predicate Nearest(kept: map<Task, Affinity>, k: Task) {
    && k in kept && !kept[k].busy
    && forall j :: j in kept && !kept[j].busy ==> kept[k].expires <= kept[j].expires
  }
}
