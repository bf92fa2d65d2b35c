/**
 The Codex driver's dispatch (internal/codexadapter/driver.go): steer the turn
 read as active, fall back to the thread's native queue where that is safe, and
 settle an unclear outcome from what Codex holds. The native side keeps, for
 each thread, the active turn and the queued items; it takes a steer only into
 the turn it names, and a request it refuses has no effect.
 */
module CodexDriver {
  import opened Wrappers
  import opened Delivery
  import opened Activation

  type Turn = nat

  datatype Via = Steer(turn: Turn) | Queue

  datatype Act =
    | Starting(action: string, turn: Option<Turn>)
    | Queueing(action: string)
    | Looking(action: string, refused: bool)
    | Resuming
    | Acking

  type Core = State<Act, Via>

  /**
   A thread's native side besides this delivery's inserts: the active turn of
   each thread, the client IDs in its queue, and the queued items a resume has
   started.
   */
  datatype Codex = Codex(core: Core, active: map<Session, Turn>, queued: map<Session, seq<string>>, woken: set<string>)

  /** The delivery at hand: its ID's client message ID and its message's policy. */
  datatype Mail = Mail(clientId: string, policy: string)

  const PREFIX := "crew-delivery:"

  datatype CodexEvent =
    | Shared(e: Event)
    | RecordDispatch(p: Pid, caps: set<string>, availability: string)
    | Steered(p: Pid)
    | SteerRejected(p: Pid)
    | SteerLost(p: Pid)
    | NoSteer(p: Pid)                           // nothing to steer: straight to the queue
    | QueueAdded(p: Pid, sameId: bool)
    | QueueFailed(p: Pid)
    | Looked(p: Pid, unreadable: bool, has: bool)
    | Resumed(p: Pid, ok: bool)
    | Acked(p: Pid)
    | WakeQueued(thread: Session, item: nat)
    | TurnChanges(thread: Session, turn: Option<Turn>)
    | OtherQueues(thread: Session, clientId: string)
    | Dequeues(thread: Session, item: nat)

  predicate LiteralNoWake(m: Mail) { m.policy == "no_wake" }

  function ActiveTurn(s: Codex, thread: Session): Option<Turn> {
    if thread in s.active then Some(s.active[thread]) else None
  }

  function QueueOf(s: Codex, thread: Session): seq<string> {
    if thread in s.queued then s.queued[thread] else []
  }

  /** The turn a dispatch reads before Begin: only for a next-step action. */
  function ReadTurn(s: Codex, thread: Session, action: string): Option<Turn> {
    if action == NEXT_STEP then ActiveTurn(s, thread) else None
  }

  predicate Doing(s: Codex, p: Pid) { Dispatches(s.core, p) }

  function ActOf(s: Codex, p: Pid): Act
    requires Doing(s, p)
  {
    At(s.core, p).act
  }

  function Thread(s: Codex, p: Pid): Session
    requires Doing(s, p)
  {
    At(s.core, p).session
  }

  predicate SteersNow(s: Codex, p: Pid) {
    Doing(s, p) && ActOf(s, p).Starting? && ActOf(s, p).action == NEXT_STEP && ActOf(s, p).turn.Some?
  }

  /** A late insert lands only as the native side would take it. */
  predicate Takes(s: Codex, i: Insert<Via>) {
    i.via.Steer? ==> ActiveTurn(s, i.session) == Some(i.via.turn)
  }

  predicate CanStep(s: Codex, e: CodexEvent, m: Mail) {
    match e
    case Shared(e) => Enabled(s.core, e) && (e.Decide? && e.lands ==> Takes(s, s.core.late[e.i]))
    case RecordDispatch(p, caps, availability) =>
      && CanBegin(s.core, p)
      && var action := ClaimAction(m.policy, caps, availability);
      && action != ""
      && (LiteralNoWake(m) ==> action == NEXT_STEP && ReadTurn(s, At(s.core, p).session, action).Some?)
    case Steered(p) => SteersNow(s, p) && ActiveTurn(s, Thread(s, p)) == ActOf(s, p).turn
    case SteerRejected(p) => SteersNow(s, p)
    case SteerLost(p) => SteersNow(s, p)
    case NoSteer(p) => Doing(s, p) && ActOf(s, p).Starting? && !SteersNow(s, p)
    case QueueAdded(p, _) => Doing(s, p) && ActOf(s, p).Queueing?
    case QueueFailed(p) => Doing(s, p) && ActOf(s, p).Queueing?
    case Looked(p, unreadable, has) =>
      Doing(s, p) && ActOf(s, p).Looking? && (has ==> Delivery.Holds(s.core.landed, Thread(s, p)))
    case Resumed(p, _) => Doing(s, p) && ActOf(s, p).Resuming?
    case Acked(p) => Doing(s, p) && ActOf(s, p).Acking?
    case WakeQueued(thread, item) =>
      item < |QueueOf(s, thread)| && PREFIX <= QueueOf(s, thread)[item]
    case TurnChanges(_, _) => true
    case OtherQueues(_, clientId) => clientId != m.clientId
    case Dequeues(thread, item) => item < |QueueOf(s, thread)|
  }

  function Next(s: Codex, e: CodexEvent, m: Mail): Codex
    requires CanStep(s, e, m)
  {
    match e
    case Shared(e) =>
      var n := s.(core := Step(s.core, e));
      if e.Decide? && e.lands && s.core.late[e.i].via.Queue? then Enqueue(n, s.core.late[e.i].session, m.clientId)
      else n
    case RecordDispatch(p, caps, availability) =>
      var action := ClaimAction(m.policy, caps, availability);
      s.(core := AskBegin(s.core, p, Starting(action, ReadTurn(s, At(s.core, p).session, action))))
    case Steered(p) => s.(core := GoOn(Put(s.core, p, Steer(ActOf(s, p).turn.value)), p, Acking))
    case SteerRejected(p) =>
      s.(core := GoOn(s.core, p, if LiteralNoWake(m) then Looking(NEXT_STEP, true) else Queueing(NEXT_STEP)))
    case SteerLost(p) =>
      s.(core := GoOn(PutLate(s.core, p, Steer(ActOf(s, p).turn.value), true), p, Looking(NEXT_STEP, false)))
    case NoSteer(p) => s.(core := WithoutSteer(s.core, p, m))
    case QueueAdded(p, sameId) =>
      var core := GoOn(Put(s.core, p, Queue), p, AfterAdd(ActOf(s, p).action, sameId));
      Enqueue(s.(core := core), Thread(s, p), m.clientId)
    case QueueFailed(p) => s.(core := GoOn(PutLate(s.core, p, Queue, true), p, Looking(ActOf(s, p).action, false)))
    case Looked(p, unreadable, has) => s.(core := AfterLook(s.core, p, unreadable, has))
    case Resumed(p, ok) => Wake(s.(core := GoOn(s.core, p, Acking)), Thread(s, p), ok)
    case Acked(p) => s.(core := Settle(s.core, p, Acknowledge))
    case WakeQueued(thread, _) => Wake(s, thread, true)
    case TurnChanges(thread, turn) =>
      s.(active := if turn.Some? then s.active[thread := turn.value] else s.active - {thread})
    case OtherQueues(thread, clientId) => Enqueue(s, thread, clientId)
    case Dequeues(thread, item) =>
      var q := QueueOf(s, thread);
      s.(queued := s.queued[thread := q[..item] + q[item + 1..]])
  }

  /** A no_wake message with no turn to steer is treated as refused; any other goes to the queue. */
  function WithoutSteer(core: Core, p: Pid, m: Mail): Core
    requires Dispatches(core, p) && At(core, p).act.Starting?
  {
    var action := At(core, p).act.action;
    GoOn(core, p, if LiteralNoWake(m) then Looking(action, true) else Queueing(action))
  }

  function AfterAdd(action: string, sameId: bool): Act {
    if !sameId then Looking(action, false) else Accepted(action)
  }

  /** Once it is in: a wake is resumed before it is acknowledged. */
  function Accepted(action: string): Act {
    if action == "wake_then_deliver" then Resuming else Acking
  }

  function AfterLook(core: Core, p: Pid, unreadable: bool, has: bool): Core
    requires Dispatches(core, p) && At(core, p).act.Looking?
  {
    var act := At(core, p).act;
    if unreadable then Settle(core, p, MarkUnknown)
    else if has then GoOn(core, p, Accepted(act.action))
    else if act.refused then Settle(core, p, NotInserted(At(core, p).token))
    else Settle(core, p, MarkUnknown)
  }

  function Enqueue(s: Codex, thread: Session, clientId: string): Codex {
    s.(queued := s.queued[thread := QueueOf(s, thread) + [clientId]])
  }

  /** Loading a thread lets Codex start what its queue holds. */
  function Wake(s: Codex, thread: Session, ok: bool): Codex {
    if ok then s.(woken := s.woken + set i | 0 <= i < |QueueOf(s, thread)| :: QueueOf(s, thread)[i]) else s
  }

  // ---- what a dispatch knows ----

  predicate CodexFits(noWake: bool, act: Act, landed: seq<Insert<Via>>, late: seq<Insert<Via>>) {
    match act
    case Starting(action, turn) => landed == [] && late == [] && (noWake ==> action == NEXT_STEP && turn.Some?)
    case Queueing(_) => landed == [] && late == [] && !noWake
    case Looking(action, refused) => (refused ==> landed == [] && late == []) && (noWake ==> action == NEXT_STEP)
    case Resuming => landed != [] && !noWake
    case Acking => landed != []
  }

  function FitsFor(noWake: bool): Fits<Act, Via> {
    (act, landed, late) => CodexFits(noWake, act, landed, late)
  }

  /** A no_wake message is in no queue, and neither went in nor may go in through one. */
  ghost predicate OutOfQueues(s: Codex, m: Mail) {
    && (forall i :: 0 <= i < |s.core.landed| ==> s.core.landed[i].via.Steer?)
    && (forall i :: 0 <= i < |s.core.late| ==> s.core.late[i].via.Steer?)
    && (forall thread :: thread in s.queued ==> m.clientId !in s.queued[thread])
    && m.clientId !in s.woken
  }

  ghost predicate CodexInv(s: Codex, m: Mail) {
    Inv(s.core, FitsFor(LiteralNoWake(m))) && (LiteralNoWake(m) ==> OutOfQueues(s, m))
  }

  lemma SharedKeeps(s: Codex, e: Event, noWake: bool)
    requires Inv(s.core, FitsFor(noWake)) && Enabled(s.core, e)
    ensures Inv(Step(s.core, e), FitsFor(noWake))
  {
    StepKeepsInv(s.core, e, FitsFor(noWake));
  }

  lemma SteerKeeps(s: Codex, e: CodexEvent, m: Mail)
    requires Inv(s.core, FitsFor(LiteralNoWake(m))) && CanStep(s, e, m)
    requires e.Steered? || e.SteerRejected? || e.SteerLost? || e.NoSteer?
    ensures Inv(Next(s, e, m).core, FitsFor(LiteralNoWake(m)))
  {
    var p, fits := e.p, FitsFor(LiteralNoWake(m));
    var act := ActOf(s, p);
    var unsteered := if LiteralNoWake(m) then Looking(act.action, true) else Queueing(act.action);
    assert OneInv(s.core, s.core.procs[p], fits);
    hide RowInv, SentInv, ProcInv, InsertInv;
    match e
    case Steered(_) => PutKeeps(s.core, p, Steer(act.turn.value), Acking, fits);
    case SteerRejected(_) =>
      GoOnKeeps(s.core, p, if LiteralNoWake(m) then Looking(NEXT_STEP, true) else Queueing(NEXT_STEP), fits);
    case SteerLost(_) => PutLateKeeps(s.core, p, Steer(act.turn.value), true, Looking(NEXT_STEP, false), fits);
    case NoSteer(_) => GoOnKeeps(s.core, p, unsteered, fits);
  }

  lemma QueueKeeps(s: Codex, e: CodexEvent, m: Mail)
    requires Inv(s.core, FitsFor(LiteralNoWake(m))) && CanStep(s, e, m)
    requires e.QueueAdded? || e.QueueFailed?
    ensures Inv(Next(s, e, m).core, FitsFor(LiteralNoWake(m)))
  {
    var p, fits := e.p, FitsFor(LiteralNoWake(m));
    var act := ActOf(s, p);
    assert OneInv(s.core, s.core.procs[p], fits);
    hide RowInv, SentInv, ProcInv, InsertInv;
    match e
    case QueueAdded(_, sameId) => PutKeeps(s.core, p, Queue, AfterAdd(act.action, sameId), fits);
    case QueueFailed(_) => PutLateKeeps(s.core, p, Queue, true, Looking(act.action, false), fits);
  }

  lemma LookKeeps(s: Codex, p: Pid, unreadable: bool, has: bool, m: Mail)
    requires Inv(s.core, FitsFor(LiteralNoWake(m))) && CanStep(s, Looked(p, unreadable, has), m)
    ensures Inv(AfterLook(s.core, p, unreadable, has), FitsFor(LiteralNoWake(m)))
  {
    var fits := FitsFor(LiteralNoWake(m));
    assert OneInv(s.core, s.core.procs[p], fits);
    hide RowInv, SentInv, ProcInv, InsertInv;
    if unreadable {
      SettleKeeps(s.core, p, MarkUnknown, fits);
    } else if has {
      GoOnKeeps(s.core, p, Accepted(ActOf(s, p).action), fits);
    } else if ActOf(s, p).refused {
      SettleKeeps(s.core, p, NotInserted(At(s.core, p).token), fits);
    } else {
      SettleKeeps(s.core, p, MarkUnknown, fits);
    }
  }

  lemma RecordKeeps(s: Codex, e: CodexEvent, m: Mail)
    requires Inv(s.core, FitsFor(LiteralNoWake(m))) && CanStep(s, e, m) && e.RecordDispatch?
    ensures Inv(Next(s, e, m).core, FitsFor(LiteralNoWake(m)))
  {
    var action := ClaimAction(m.policy, e.caps, e.availability);
    var start := Starting(action, ReadTurn(s, At(s.core, e.p).session, action));
    BeginKeeps(s.core, e.p, start, FitsFor(LiteralNoWake(m)));
  }

  lemma EndKeeps(s: Codex, e: CodexEvent, m: Mail)
    requires Inv(s.core, FitsFor(LiteralNoWake(m))) && CanStep(s, e, m) && (e.Resumed? || e.Acked?)
    ensures Inv(Next(s, e, m).core, FitsFor(LiteralNoWake(m)))
  {
    var p, fits := e.p, FitsFor(LiteralNoWake(m));
    assert OneInv(s.core, s.core.procs[p], fits);
    hide RowInv, SentInv, ProcInv, InsertInv;
    if e.Resumed? { GoOnKeeps(s.core, p, Acking, fits); } else { SettleKeeps(s.core, p, Acknowledge, fits); }
  }

  lemma NextKeepsCore(s: Codex, e: CodexEvent, m: Mail)
    requires Inv(s.core, FitsFor(LiteralNoWake(m))) && CanStep(s, e, m)
    ensures Inv(Next(s, e, m).core, FitsFor(LiteralNoWake(m)))
  {
    hide Inv;
    match e
    case Shared(e) => SharedKeeps(s, e, LiteralNoWake(m));
    case RecordDispatch(_, _, _) => RecordKeeps(s, e, m);
    case Looked(p, unreadable, has) => LookKeeps(s, p, unreadable, has, m);
    case Resumed(_, _) => EndKeeps(s, e, m);
    case Acked(_) => EndKeeps(s, e, m);
    case QueueAdded(_, _) => QueueKeeps(s, e, m);
    case QueueFailed(_) => QueueKeeps(s, e, m);
    case Steered(_) => SteerKeeps(s, e, m);
    case SteerRejected(_) => SteerKeeps(s, e, m);
    case SteerLost(_) => SteerKeeps(s, e, m);
    case NoSteer(_) => SteerKeeps(s, e, m);
    case _ =>
  }

  lemma NextKeepsOutOfQueues(s: Codex, e: CodexEvent, m: Mail)
    requires CodexInv(s, m) && CanStep(s, e, m) && LiteralNoWake(m)
    ensures OutOfQueues(Next(s, e, m), m)
  {
    NeverAtQueue(s, m);
    match e
    case Shared(e) => SharedKeepsOut(s, e, m);
    case Looked(p, unreadable, has) => LookKeepsOut(s, p, unreadable, has, m);
    case _ =>
  }

  /** No dispatch of a no_wake message is about to queue it or to resume its thread. */
  lemma NeverAtQueue(s: Codex, m: Mail)
    requires CodexInv(s, m) && LiteralNoWake(m)
    ensures forall p :: Doing(s, p) ==> !ActOf(s, p).Queueing? && !ActOf(s, p).Resuming?
  {
    forall p | Doing(s, p)
      ensures !ActOf(s, p).Queueing? && !ActOf(s, p).Resuming?
    {
      assert OneInv(s.core, s.core.procs[p], FitsFor(true));
    }
  }

  lemma SharedKeepsOut(s: Codex, e: Event, m: Mail)
    requires OutOfQueues(s, m) && CanStep(s, Shared(e), m)
    ensures OutOfQueues(Next(s, Shared(e), m), m)
  {
  }

  lemma LookKeepsOut(s: Codex, p: Pid, unreadable: bool, has: bool, m: Mail)
    requires OutOfQueues(s, m) && CanStep(s, Looked(p, unreadable, has), m)
    ensures OutOfQueues(Next(s, Looked(p, unreadable, has), m), m)
  {
  }

  // ---- whole runs ----

  function Begins(seat: Session): Codex { Codex(Start(seat), map[], map[], {}) }

  ghost predicate IsRun(run: seq<Codex>, events: seq<CodexEvent>, m: Mail) {
    && |run| == |events| + 1
    && (exists seat: Session :: run[0] == Begins(seat))
    && forall i :: 0 <= i < |events| ==> CanStep(run[i], events[i], m) && run[i + 1] == Next(run[i], events[i], m)
  }

  lemma {:induction false} RunKeepsInv(run: seq<Codex>, events: seq<CodexEvent>, m: Mail, n: nat)
    requires IsRun(run, events, m) && n < |run|
    ensures CodexInv(run[n], m)
  {
    if n == 0 {
      var seat: Session :| run[0] == Begins(seat);
      StartInv<Act, Via>(seat, FitsFor(LiteralNoWake(m)));
    } else {
      RunKeepsInv(run, events, m, n - 1);
      hide CanStep, Next, Inv, OutOfQueues;
      NextKeepsCore(run[n - 1], events[n - 1], m);
      if LiteralNoWake(m) { NextKeepsOutOfQueues(run[n - 1], events[n - 1], m); }
    }
  }

  /**
   In every run, at every moment: Codex holds the message at most once, counting
   what may still land; a delivered row means the thread the claim resolved to
   holds it; and a row in the queue means no thread holds it or ever will from
   what was sent.
   */
  lemma InsertedAtMostOnce(run: seq<Codex>, events: seq<CodexEvent>, m: Mail, n: nat)
    requires IsRun(run, events, m) && n < |run|
    ensures |run[n].core.landed| + |run[n].core.late| <= 1
    ensures run[n].core.fabric.row == Ended(Delivered) ==>
      |run[n].core.landed| == 1 && run[n].core.landed[0].session == run[n].core.fabric.lastHolder
    ensures run[n].core.fabric.row.Queued? || run[n].core.fabric.row.Claimed? ==> Quiet(run[n].core)
  {
    RunKeepsInv(run, events, m, n);
    Safety(run[n].core, FitsFor(LiteralNoWake(m)));
  }

  /**
   A no_wake message reaches Codex only by a steer into a turn that is active
   as it goes in: it is in no native queue, so nothing that a resume starts is
   it, and its own dispatch never resumes a thread.
   */
  lemma NoWakeOnlySteers(run: seq<Codex>, events: seq<CodexEvent>, m: Mail, n: nat)
    requires IsRun(run, events, m) && n < |events| && m.policy == "no_wake"
    ensures OutOfQueues(run[n], m) && OutOfQueues(run[n + 1], m) && !events[n].Resumed?
    ensures var before, after := run[n].core.landed, run[n + 1].core.landed;
      |after| > |before| ==> var entry := after[|after| - 1];
        entry.via.Steer? && ActiveTurn(run[n], entry.session) == Some(entry.via.turn)
  {
    RunKeepsInv(run, events, m, n);
    RunKeepsInv(run, events, m, n + 1);
    var s, e := run[n], events[n];
    assert CanStep(s, e, m) && run[n + 1] == Next(s, e, m);
    NeverAtQueue(s, m);
    LandsAsTaken(s, e, m);
  }

  lemma LandsAsTaken(s: Codex, e: CodexEvent, m: Mail)
    requires CanStep(s, e, m)
    ensures var before, after := s.core.landed, Next(s, e, m).core.landed;
      |after| > |before| && after[|after| - 1].via.Steer? ==>
        ActiveTurn(s, after[|after| - 1].session) == Some(after[|after| - 1].via.turn)
  {
    match e
    case Shared(_) =>
    case Looked(_, _, _) =>
    case _ =>
  }

  // ---- only the literal policy is kept out of the queue ----

  /** What a claim of this mail finds when it is eligible at all. */
  function Availability(m: Mail): string {
    if Normalize(m.policy) == "no_wake" then "busy" else "idle"
  }

  const CAPS := {NEXT_STEP, "deliver_when_idle"}

  /** From the start, a claim and its dispatch with no turn active. */
  function QueueingEvents(m: Mail): seq<CodexEvent> {
    [Shared(Claim(0, 0)), RecordDispatch(0, CAPS, Availability(m)), Shared(Reach(Begin(1))), Shared(Recorded(0)),
     NoSteer(0), QueueAdded(0, true)]
  }

  function QueueingAction(m: Mail): string { ClaimAction(m.policy, CAPS, Availability(m)) }

  /** Up to where the dispatch is begun. */
  function BegunRun(m: Mail): (run: seq<Codex>)
    requires m.policy != "no_wake"
    ensures |run| == 4 && run[0] == Begins(0)
    ensures var e := QueueingEvents(m);
      forall i :: 0 <= i < 3 ==> CanStep(run[i], e[i], m) && run[i + 1] == Next(run[i], e[i], m)
    ensures var s := run[3];
      && At(s.core, 0) == Beginning(1, 0, Starting(QueueingAction(m), None)) && 1 in s.core.fabric.begun
      && s.core.landed == [] && s.queued == map[]
  {
    var e := QueueingEvents(m);
    var s0 := Begins(0);
    var s1 := Next(s0, e[0], m);
    var s2 := Next(s1, e[1], m);
    [s0, s1, s2, Next(s2, e[2], m)]
  }

  /** From there the message is queued. */
  function QueuedFrom(s: Codex, m: Mail): (run: seq<Codex>)
    requires m.policy != "no_wake" && At(s.core, 0) == Beginning(1, 0, Starting(QueueingAction(m), None))
    requires 1 in s.core.fabric.begun && s.core.landed == []
    ensures |run| == 4 && run[0] == s
    ensures var e := QueueingEvents(m);
      forall i :: 0 <= i < 3 ==> CanStep(run[i], e[i + 3], m) && run[i + 1] == Next(run[i], e[i + 3], m)
    ensures run[3].core.landed == [Insert(1, 0, Queue, false)]
  {
    var s4 := Next(s, Shared(Recorded(0)), m);
    var s5 := Next(s4, NoSteer(0), m);
    [s, s4, s5, Next(s5, QueueAdded(0, true), m)]
  }

  function QueueingRun(m: Mail): seq<Codex>
    requires m.policy != "no_wake"
  {
    BegunRun(m) + QueuedFrom(BegunRun(m)[3], m)[1..]
  }

  /**
   Whether a message can end in Codex's own queue, and so start a turn: exactly
   when its policy is not the literal no_wake. The ledger takes never_wake for
   no_wake when it picks the action, but the driver does not.
   */
  lemma QueuedIffNotLiteralNoWake(m: Mail)
    ensures m.policy != "no_wake" <==>
      exists run: seq<Codex>, events: seq<CodexEvent>, n: nat ::
        IsRun(run, events, m) && n < |run| && !OutOfQueues(run[n], m)
  {
    if m.policy != "no_wake" {
      var run, events := QueueingRun(m), QueueingEvents(m);
      var begun := BegunRun(m);
      var queued := QueuedFrom(begun[3], m);
      hide CanStep, Next, BegunRun, QueuedFrom;
      assert forall i :: 0 <= i < 4 ==> run[i] == begun[i];
      assert forall i :: 3 <= i < 7 ==> run[i] == queued[i - 3];
      forall i | 0 <= i < 6
        ensures CanStep(run[i], events[i], m) && run[i + 1] == Next(run[i], events[i], m)
      {
        if i >= 3 {
          assert CanStep(queued[i - 3], events[i - 3 + 3], m);
        }
      }
      assert IsRun(run, events, m);
      assert !OutOfQueues(run[6], m);
    } else if run: seq<Codex>, events: seq<CodexEvent>, n: nat :|
      IsRun(run, events, m) && n < |run| && !OutOfQueues(run[n], m) {
      RunKeepsInv(run, events, m, n);
      assert false;
    }
  }

  // ---- how each dispatch ends, by what happened to it ----

  /** The claim's action, by the event that recorded p's dispatch. */
  function ActionOf(events: seq<CodexEvent>, n: nat, p: Pid, m: Mail): string
    requires n <= |events|
  {
    if n == 0 then ""
    else
      match events[n - 1]
      case RecordDispatch(q, caps, availability) =>
        if q == p then ClaimAction(m.policy, caps, availability) else ActionOf(events, n - 1, p, m)
      case _ => ActionOf(events, n - 1, p, m)
  }

  /** The last thing Codex was asked of p's dispatch was a steer that it refused, or that had no turn. */
  predicate WasRefused(events: seq<CodexEvent>, n: nat, p: Pid)
    requires n <= |events|
  {
    n > 0
    && match events[n - 1]
       case RecordDispatch(q, _, _) => q != p && WasRefused(events, n - 1, p)
       case SteerRejected(q) => q == p || WasRefused(events, n - 1, p)
       case NoSteer(q) => q == p || WasRefused(events, n - 1, p)
       case SteerLost(q) => q != p && WasRefused(events, n - 1, p)
       case QueueAdded(q, _) => q != p && WasRefused(events, n - 1, p)
       case QueueFailed(q) => q != p && WasRefused(events, n - 1, p)
       case _ => WasRefused(events, n - 1, p)
  }

  predicate Remembers(s: Codex, events: seq<CodexEvent>, n: nat, p: Pid, m: Mail)
    requires n <= |events|
  {
    match At(s.core, p)
    case Beginning(_, _, start) => start.Starting? && start.action == ActionOf(events, n, p, m)
    case Active(_, _, act) =>
      (match act
       case Starting(action, _) => action == ActionOf(events, n, p, m)
       case Queueing(action) => action == ActionOf(events, n, p, m)
       case Looking(action, refused) => action == ActionOf(events, n, p, m) && refused == WasRefused(events, n, p)
       case Resuming => ActionOf(events, n, p, m) == "wake_then_deliver"
       case Acking => true)
    case _ => true
  }

  lemma SharedRemembers(s: Codex, events: seq<CodexEvent>, n: nat, p: Pid, m: Mail)
    requires n < |events| && CanStep(s, events[n], m) && Remembers(s, events, n, p, m)
    requires events[n].Shared? || events[n].RecordDispatch?
    ensures Remembers(Next(s, events[n], m), events, n + 1, p, m)
  {
    hide ClaimAction;
  }

  lemma SteerRemembers(s: Codex, events: seq<CodexEvent>, n: nat, p: Pid, m: Mail)
    requires n < |events| && CanStep(s, events[n], m) && Remembers(s, events, n, p, m)
    requires events[n].Steered? || events[n].SteerRejected? || events[n].SteerLost? || events[n].NoSteer?
    ensures Remembers(Next(s, events[n], m), events, n + 1, p, m)
  {
    hide ClaimAction;
  }

  lemma QueueRemembers(s: Codex, events: seq<CodexEvent>, n: nat, p: Pid, m: Mail)
    requires n < |events| && CanStep(s, events[n], m) && Remembers(s, events, n, p, m)
    requires events[n].QueueAdded? || events[n].QueueFailed?
    ensures Remembers(Next(s, events[n], m), events, n + 1, p, m)
  {
    hide ClaimAction;
  }

  lemma LookRemembers(s: Codex, events: seq<CodexEvent>, n: nat, p: Pid, m: Mail)
    requires n < |events| && CanStep(s, events[n], m) && Remembers(s, events, n, p, m)
    requires events[n].Looked? || events[n].Resumed? || events[n].Acked?
    ensures Remembers(Next(s, events[n], m), events, n + 1, p, m)
  {
    hide ClaimAction;
  }

  lemma WorldRemembers(s: Codex, events: seq<CodexEvent>, n: nat, p: Pid, m: Mail)
    requires n < |events| && CanStep(s, events[n], m) && Remembers(s, events, n, p, m)
    requires events[n].WakeQueued? || events[n].TurnChanges? || events[n].OtherQueues? || events[n].Dequeues?
    ensures Remembers(Next(s, events[n], m), events, n + 1, p, m)
  {
    hide ClaimAction;
  }

  lemma StepRemembers(s: Codex, events: seq<CodexEvent>, n: nat, p: Pid, m: Mail)
    requires n < |events| && CanStep(s, events[n], m) && Remembers(s, events, n, p, m)
    ensures Remembers(Next(s, events[n], m), events, n + 1, p, m)
  {
    var e := events[n];
    hide CanStep, Next, Remembers;
    if e.Shared? || e.RecordDispatch? { SharedRemembers(s, events, n, p, m); }
    else if e.Steered? || e.SteerRejected? || e.SteerLost? || e.NoSteer? { SteerRemembers(s, events, n, p, m); }
    else if e.QueueAdded? || e.QueueFailed? { QueueRemembers(s, events, n, p, m); }
    else if e.Looked? || e.Resumed? || e.Acked? { LookRemembers(s, events, n, p, m); }
    else { WorldRemembers(s, events, n, p, m); }
  }

  lemma {:induction false} RunRemembers(run: seq<Codex>, events: seq<CodexEvent>, m: Mail, n: nat, p: Pid)
    requires IsRun(run, events, m) && n < |run|
    ensures Remembers(run[n], events, n, p, m)
  {
    if n > 0 {
      RunRemembers(run, events, m, n - 1, p);
      assert CanStep(run[n - 1], events[n - 1], m) && run[n] == Next(run[n - 1], events[n - 1], m);
      hide CanStep, Next, Remembers;
      StepRemembers(run[n - 1], events, n - 1, p, m);
    }
  }

  /** p asks the ledger for r and is done; the native side is as it was. */
  ghost predicate Asks(s: Codex, after: Codex, p: Pid, r: Request) {
    after ==
      s.(core := s.core.(procs := s.core.procs[p := Idle], fabric := s.core.fabric.(sent := s.core.fabric.sent + {r})))
  }

  /** p goes on with the claim it has, asking the ledger for nothing. */
  ghost predicate GoesOn(s: Codex, after: Codex, p: Pid)
    requires Doing(s, p)
  {
    && Doing(after, p) && At(after.core, p).token == At(s.core, p).token && Thread(after, p) == Thread(s, p)
    && after.core.fabric == s.core.fabric
  }

  /** Once in, a message that must wake an inactive thread is resumed before it is acknowledged. */
  predicate IsIn(act: Act, action: string) { if action == "wake_then_deliver" then act.Resuming? else act.Acking? }

  /**
   What a step of p's own does, told by the events alone: which requests end the
   dispatch, and what it goes on to otherwise.
   */
  ghost predicate Ends(s: Codex, after: Codex, events: seq<CodexEvent>, n: nat, p: Pid, m: Mail)
    requires n < |events| && Doing(s, p)
  {
    var token, action, thread := At(s.core, p).token, ActionOf(events, n, p, m), Thread(s, p);
    match events[n]
    case Steered(q) => if q != p then Idles(s, after, p) else GoesOn(s, after, p) && IsSteered(s, after, p)
    case SteerRejected(q) => if q != p then Idles(s, after, p) else GoesOn(s, after, p) && Falls(ActOf(after, p), m)
    case NoSteer(q) => if q != p then Idles(s, after, p) else GoesOn(s, after, p) && Falls(ActOf(after, p), m)
    case SteerLost(q) => if q != p then Idles(s, after, p) else GoesOn(s, after, p) && ActOf(after, p).Looking?
    case QueueAdded(q, sameId) =>
      if q != p then Idles(s, after, p)
      else
        && GoesOn(s, after, p)
        && (if sameId then IsIn(ActOf(after, p), action) else ActOf(after, p).Looking?)
        && after.core.landed == s.core.landed + [Insert(token, thread, Queue, false)]
        && QueueOf(after, thread) == QueueOf(s, thread) + [m.clientId]
    case QueueFailed(q) => if q != p then Idles(s, after, p) else GoesOn(s, after, p) && ActOf(after, p).Looking?
    case Looked(q, unreadable, has) =>
      if q != p then Idles(s, after, p)
      else if unreadable then Asks(s, after, p, MarkUnknown)
      else if has then GoesOn(s, after, p) && IsIn(ActOf(after, p), action)
      else Asks(s, after, p, if WasRefused(events, n, p) then NotInserted(token) else MarkUnknown)
    case Resumed(q, ok) =>
      if q != p then Idles(s, after, p)
      else
        && GoesOn(s, after, p) && ActOf(after, p).Acking?
        && (ok ==> forall i :: 0 <= i < |QueueOf(s, thread)| ==> QueueOf(s, thread)[i] in after.woken)
    case Acked(q) => if q != p then Idles(s, after, p) else Asks(s, after, p, Acknowledge)
    case Shared(e) => e == Crash(p) || Idles(s, after, p)
    case _ => Idles(s, after, p)
  }

  /** p's dispatch is where it was. */
  predicate Idles(s: Codex, after: Codex, p: Pid) { At(after.core, p) == At(s.core, p) }

  /** The message went into the turn that was read as active, and is to be acknowledged. */
  predicate IsSteered(s: Codex, after: Codex, p: Pid)
    requires Doing(s, p) && Doing(after, p)
  {
    && ActOf(after, p).Acking? && ActOf(s, p).Starting? && ActOf(s, p).turn.Some?
    && after.core.landed ==
       s.core.landed + [Insert(At(s.core, p).token, Thread(s, p), Steer(ActOf(s, p).turn.value), false)]
  }

  /** Without a steer a no_wake message is looked for, and any other is queued. */
  predicate Falls(act: Act, m: Mail) { if m.policy == "no_wake" then act.Looking? else act.Queueing? }

  lemma SharedEnds(s: Codex, events: seq<CodexEvent>, n: nat, p: Pid, m: Mail)
    requires n < |events| && CanStep(s, events[n], m) && Doing(s, p) && Remembers(s, events, n, p, m)
    requires events[n].Shared? || events[n].RecordDispatch?
    ensures Ends(s, Next(s, events[n], m), events, n, p, m)
  {
    hide ClaimAction;
  }

  lemma SteerEnds(s: Codex, events: seq<CodexEvent>, n: nat, p: Pid, m: Mail)
    requires n < |events| && CanStep(s, events[n], m) && Doing(s, p) && Remembers(s, events, n, p, m)
    requires events[n].Steered? || events[n].SteerRejected? || events[n].SteerLost? || events[n].NoSteer?
    ensures Ends(s, Next(s, events[n], m), events, n, p, m)
  {
    hide ClaimAction;
  }

  lemma QueueEnds(s: Codex, events: seq<CodexEvent>, n: nat, p: Pid, m: Mail)
    requires n < |events| && CanStep(s, events[n], m) && Doing(s, p) && Remembers(s, events, n, p, m)
    requires events[n].QueueAdded? || events[n].QueueFailed?
    ensures Ends(s, Next(s, events[n], m), events, n, p, m)
  {
    hide ClaimAction;
  }

  lemma WakeWakes(s: Codex, later: Codex, thread: Session)
    requires later.queued == s.queued
    ensures forall i :: 0 <= i < |QueueOf(s, thread)| ==> QueueOf(s, thread)[i] in Wake(later, thread, true).woken
  {
    assert QueueOf(later, thread) == QueueOf(s, thread);
  }

  lemma LookEnds(s: Codex, events: seq<CodexEvent>, n: nat, p: Pid, m: Mail)
    requires n < |events| && CanStep(s, events[n], m) && Doing(s, p) && Remembers(s, events, n, p, m)
    requires events[n].Looked? || events[n].Resumed? || events[n].Acked?
    ensures Ends(s, Next(s, events[n], m), events, n, p, m)
  {
    if events[n].Resumed? && events[n].p == p { WakeWakes(s, s.(core := GoOn(s.core, p, Acking)), Thread(s, p)); }
    hide ClaimAction;
  }

  lemma WorldEnds(s: Codex, events: seq<CodexEvent>, n: nat, p: Pid, m: Mail)
    requires n < |events| && CanStep(s, events[n], m) && Doing(s, p) && Remembers(s, events, n, p, m)
    requires events[n].WakeQueued? || events[n].TurnChanges? || events[n].OtherQueues? || events[n].Dequeues?
    ensures Ends(s, Next(s, events[n], m), events, n, p, m)
  {
    hide ClaimAction;
  }

  lemma StepEnds(s: Codex, events: seq<CodexEvent>, n: nat, p: Pid, m: Mail)
    requires n < |events| && CanStep(s, events[n], m) && Doing(s, p) && Remembers(s, events, n, p, m)
    ensures Ends(s, Next(s, events[n], m), events, n, p, m)
  {
    var e := events[n];
    hide CanStep, Next, Remembers, Ends;
    if e.Shared? || e.RecordDispatch? { SharedEnds(s, events, n, p, m); }
    else if e.Steered? || e.SteerRejected? || e.SteerLost? || e.NoSteer? { SteerEnds(s, events, n, p, m); }
    else if e.QueueAdded? || e.QueueFailed? { QueueEnds(s, events, n, p, m); }
    else if e.Looked? || e.Resumed? || e.Acked? { LookEnds(s, events, n, p, m); }
    else { WorldEnds(s, events, n, p, m); }
  }

  /** In every run, each step of each dispatch does what the events before it say. */
  lemma DispatchesEnd(run: seq<Codex>, events: seq<CodexEvent>, m: Mail, n: nat, p: Pid)
    requires IsRun(run, events, m) && n < |events| && Doing(run[n], p)
    ensures Ends(run[n], run[n + 1], events, n, p, m)
  {
    RunRemembers(run, events, m, n, p);
    assert CanStep(run[n], events[n], m) && run[n + 1] == Next(run[n], events[n], m);
    hide CanStep, Next, Remembers, Ends;
    StepEnds(run[n], events, n, p, m);
  }

  /** The steps of the processes that are not dispatching: a look at what was left in flight, and a claim let go. */
  lemma OthersAsk(run: seq<Codex>, events: seq<CodexEvent>, m: Mail, n: nat, p: Pid)
    requires IsRun(run, events, m) && n < |events|
    ensures events[n] == Shared(SettleStuck(p, true)) ==> Asks(run[n], run[n + 1], p, Acknowledge)
    ensures events[n] == Shared(SettleStuck(p, false)) ==> Asks(run[n], run[n + 1], p, MarkUnknown)
    ensures events[n] == Shared(LetGo(p)) ==> Asks(run[n], run[n + 1], p, Release(At(run[n].core, p).token))
  {
    assert CanStep(run[n], events[n], m) && run[n + 1] == Next(run[n], events[n], m);
  }
}
