/**
 The DSH driver's dispatch (internal/dshdriver/driver.go): send, wait, look, and
 send again only when the session was seen not to hold the message. What the
 host answers and when a late prompt lands is arbitrary, within what the driver
 relies on: a refusal or a call that never left has no effect; an unclear answer
 other than a timeout is decided by the end of the wait; and after the wait a
 look at the session tells what it holds then.
 */
module DshDriver {
  import opened Wrappers
  import opened Delivery

  datatype Via = Prompt(mode: string) | Inject

  predicate NoWake(policy: string) { policy == "no_wake" || policy == "never_wake" }

  function ModeFor(policy: string): string {
    if policy == "next_step" then "steer" else "queue"
  }

  /** How one delivery's message goes in: the policy decides it before the first send. */
  function ViaFor(policy: string): Via {
    if NoWake(policy) then Inject else Prompt(ModeFor(policy))
  }

  datatype Error = InjectMissing | NotFound | Refused | TimedOut | Unclear

  /** The dispatch loop: about to send, waiting out an error, or looking. */
  datatype Act =
    | Sending(sends: nat)
    | Waiting(error: Error, sends: nat)
    | Looking(error: Error, sends: nat)

  type DshState = State<Act, Via>

  datatype Look = Unreadable | Saw(has: bool)

  datatype DshEvent =
    | Shared(e: Event)
    | RecordDispatch(p: Pid)
    | Accepted(p: Pid)
    | Failed(p: Pid, error: Error)
    | WaitCut(p: Pid)
    | WaitOver(p: Pid)
    | Looked(p: Pid, look: Look)

  predicate Undecided(s: DshState, token: Token) {
    exists i :: 0 <= i < |s.late| && s.late[i].token == token && !s.late[i].open
  }

  predicate CanStep(s: DshState, e: DshEvent, policy: string) {
    match e
    case Shared(e) => Enabled(s, e)
    case RecordDispatch(p) => CanBegin(s, p)
    case Accepted(p) => Dispatches(s, p) && At(s, p).act.Sending?
    case Failed(p, error) => Dispatches(s, p) && At(s, p).act.Sending? && (error.InjectMissing? ==> NoWake(policy))
    case WaitCut(p) => Dispatches(s, p) && At(s, p).act.Waiting?
    case WaitOver(p) =>
      Dispatches(s, p) && At(s, p).act.Waiting? && (At(s, p).act.error.Unclear? ==> !Undecided(s, At(s, p).token))
    case Looked(p, look) =>
      Dispatches(s, p) && At(s, p).act.Looking?
        && (look.Saw? ==> look.has == Delivery.Holds(s.landed, At(s, p).session))
  }

  function Next(s: DshState, e: DshEvent, policy: string): DshState
    requires CanStep(s, e, policy)
  {
    match e
    case Shared(e) => Step(s, e)
    case RecordDispatch(p) => AskBegin(s, p, Sending(0))
    case Accepted(p) => Settle(Put(s, p, ViaFor(policy)), p, Acknowledge)
    case Failed(p, error) => SendFailed(s, p, error, At(s, p).act.sends + 1, policy)
    case WaitCut(p) => Settle(s, p, MarkUnknown)
    case WaitOver(p) => GoOn(s, p, Looking(At(s, p).act.error, At(s, p).act.sends))
    case Looked(p, look) => AfterLook(s, p, look)
  }

  function SendFailed(s: DshState, p: Pid, error: Error, sends: nat, policy: string): DshState
    requires Dispatches(s, p)
  {
    match error
    case InjectMissing => Settle(s, p, NotInserted(At(s, p).token))
    case TimedOut => GoOn(PutLate(s, p, ViaFor(policy), true), p, Waiting(error, sends))
    case Unclear => GoOn(PutLate(s, p, ViaFor(policy), false), p, Waiting(error, sends))
    case _ => GoOn(s, p, Waiting(error, sends))
  }

  function AfterLook(s: DshState, p: Pid, look: Look): DshState
    requires Dispatches(s, p) && At(s, p).act.Looking?
  {
    var act := At(s, p).act;
    if look.Unreadable? then Settle(s, p, MarkUnknown)
    else if look.has then Settle(s, p, Acknowledge)
    else
      match act.error
      case NotFound => Settle(s, p, Fail(At(s, p).token))
      case Refused => Settle(s, p, NotInserted(At(s, p).token))
      case InjectMissing => Settle(s, p, NotInserted(At(s, p).token))
      case TimedOut => Settle(s, p, MarkUnknown)
      case Unclear =>
        if act.sends >= 2 then Settle(s, p, MarkUnknown) else GoOn(s, p, Sending(act.sends))
  }

  // ---- what a dispatch knows ----

  predicate DshFits(act: Act, landed: seq<Insert<Via>>, late: seq<Insert<Via>>) {
    match act
    case Sending(_) => landed == [] && late == []
    case Waiting(error, _) =>
      if error.Unclear? then forall i :: 0 <= i < |late| ==> !late[i].open
      else error.TimedOut? || (landed == [] && late == [])
    case Looking(error, _) =>
      if error.Unclear? then late == [] else error.TimedOut? || (landed == [] && late == [])
  }

  ghost predicate DshInv(s: DshState) { Inv(s, DshFits) }

  lemma DecideFits(s: DshState, i: nat, lands: bool)
    requires i < |s.late| && |s.landed| + |s.late| <= 1
    ensures var after := Step(s, Decide(i, lands));
      forall act :: DshFits(act, s.landed, s.late) ==> DshFits(act, after.landed, after.late)
  {
  }

  lemma SharedKeeps(s: DshState, e: Event)
    requires DshInv(s) && Enabled(s, e)
    ensures DshInv(Step(s, e))
  {
    if e.Decide? { DecideFits(s, e.i, e.lands); }
    StepKeepsInv(s, e, DshFits);
  }

  lemma LookKeeps(s: DshState, p: Pid, look: Look)
    requires DshInv(s) && Dispatches(s, p) && At(s, p).act.Looking?
    requires look.Saw? ==> look.has == Delivery.Holds(s.landed, At(s, p).session)
    ensures DshInv(AfterLook(s, p, look))
  {
    var act := At(s, p).act;
    assert OneInv(s, s.procs[p], DshFits);
    if look.Unreadable? {
      SettleKeeps(s, p, MarkUnknown, DshFits);
    } else if look.has {
      SettleKeeps(s, p, Acknowledge, DshFits);
    } else {
      HeldWhereItWent(s);
      match act.error {
        case NotFound => SettleKeeps(s, p, Fail(At(s, p).token), DshFits);
        case Refused => SettleKeeps(s, p, NotInserted(At(s, p).token), DshFits);
        case InjectMissing => SettleKeeps(s, p, NotInserted(At(s, p).token), DshFits);
        case TimedOut => SettleKeeps(s, p, MarkUnknown, DshFits);
        case Unclear =>
          if act.sends >= 2 { SettleKeeps(s, p, MarkUnknown, DshFits); }
          else { GoOnKeeps(s, p, Sending(act.sends), DshFits); }
      }
    }
  }

  lemma AcceptedKeeps(s: DshState, p: Pid, via: Via)
    requires DshInv(s) && Dispatches(s, p) && At(s, p).act.Sending?
    ensures DshInv(Settle(Put(s, p, via), p, Acknowledge))
  {
    assert OneInv(s, s.procs[p], DshFits);
    var put := GoOn(Put(s, p, via), p, Waiting(TimedOut, 0));
    PutKeeps(s, p, via, Waiting(TimedOut, 0), DshFits);
    SettleKeeps(put, p, Acknowledge, DshFits);
    assert put.procs[p := Idle] == s.procs[p := Idle];
  }

  lemma FailedKeeps(s: DshState, p: Pid, error: Error, sends: nat, policy: string)
    requires DshInv(s) && Dispatches(s, p) && At(s, p).act.Sending?
    ensures DshInv(SendFailed(s, p, error, sends, policy))
  {
    assert OneInv(s, s.procs[p], DshFits);
    hide RowInv, SentInv, ProcInv, InsertInv;
    match error
    case InjectMissing => SettleKeeps(s, p, NotInserted(At(s, p).token), DshFits);
    case TimedOut => PutLateKeeps(s, p, ViaFor(policy), true, Waiting(error, sends), DshFits);
    case Unclear => PutLateKeeps(s, p, ViaFor(policy), false, Waiting(error, sends), DshFits);
    case _ => GoOnKeeps(s, p, Waiting(error, sends), DshFits);
  }

  lemma NextKeepsInv(s: DshState, e: DshEvent, policy: string)
    requires DshInv(s) && CanStep(s, e, policy)
    ensures DshInv(Next(s, e, policy))
  {
    hide Inv;
    match e
    case Shared(e) => SharedKeeps(s, e);
    case RecordDispatch(p) => BeginKeeps(s, p, Sending(0), DshFits);
    case WaitCut(p) => SettleKeeps(s, p, MarkUnknown, DshFits);
    case WaitOver(p) => WaitKeeps(s, p);
    case Looked(p, look) => LookKeeps(s, p, look);
    case Accepted(p) => AcceptedKeeps(s, p, ViaFor(policy));
    case Failed(p, error) => FailedKeeps(s, p, error, At(s, p).act.sends + 1, policy);
  }

  lemma WaitKeeps(s: DshState, p: Pid)
    requires DshInv(s) && Dispatches(s, p) && At(s, p).act.Waiting?
    requires At(s, p).act.error.Unclear? ==> !Undecided(s, At(s, p).token)
    ensures DshInv(GoOn(s, p, Looking(At(s, p).act.error, At(s, p).act.sends)))
  {
    var w := At(s, p);
    assert OneInv(s, s.procs[p], DshFits);
    assert s.late != [] ==> s.late[0].token == w.token;
    GoOnKeeps(s, p, Looking(w.act.error, w.act.sends), DshFits);
  }

  // ---- whole runs ----

  ghost predicate IsRun(run: seq<DshState>, events: seq<DshEvent>, policy: string) {
    && |run| == |events| + 1
    && (exists seat: Session :: run[0] == Start(seat))
    && forall i :: 0 <= i < |events| ==>
      CanStep(run[i], events[i], policy) && run[i + 1] == Next(run[i], events[i], policy)
  }

  predicate AllVia(s: DshState, via: Via) {
    (forall i :: 0 <= i < |s.landed| ==> s.landed[i].via == via)
    && forall i :: 0 <= i < |s.late| ==> s.late[i].via == via
  }

  lemma NextKeepsVia(s: DshState, e: DshEvent, policy: string)
    requires CanStep(s, e, policy) && AllVia(s, ViaFor(policy))
    ensures AllVia(Next(s, e, policy), ViaFor(policy))
  {
    match e
    case Shared(e) => SharedKeepsVia(s, e, ViaFor(policy));
    case Failed(p, error) => FailedKeepsVia(s, p, error, At(s, p).act.sends + 1, policy);
    case _ =>
  }

  lemma SharedKeepsVia(s: DshState, e: Event, via: Via)
    requires Enabled(s, e) && AllVia(s, via)
    ensures AllVia(Step(s, e), via)
  {
  }

  lemma FailedKeepsVia(s: DshState, p: Pid, error: Error, sends: nat, policy: string)
    requires Dispatches(s, p) && AllVia(s, ViaFor(policy))
    ensures AllVia(SendFailed(s, p, error, sends, policy), ViaFor(policy))
  {
  }

  lemma {:induction false} RunKeepsInv(run: seq<DshState>, events: seq<DshEvent>, policy: string, n: nat)
    requires IsRun(run, events, policy) && n < |run|
    ensures DshInv(run[n]) && AllVia(run[n], ViaFor(policy))
  {
    if n == 0 {
      var seat: Session :| run[0] == Start(seat);
      StartInv<Act, Via>(seat, DshFits);
    } else {
      RunKeepsInv(run, events, policy, n - 1);
      hide CanStep, Next, DshInv, AllVia;
      NextKeepsInv(run[n - 1], events[n - 1], policy);
      NextKeepsVia(run[n - 1], events[n - 1], policy);
    }
  }

  /**
   In every run, at every moment: the sessions hold the message at most once,
   counting what may still land; a delivered row means the session the claim
   resolved to holds it; and a row in the queue, or ended otherwise than
   delivered or unknown, means no session holds it or ever will from what was
   sent.
   */
  lemma InsertedAtMostOnce(run: seq<DshState>, events: seq<DshEvent>, policy: string, n: nat)
    requires IsRun(run, events, policy) && n < |run|
    ensures |run[n].landed| + |run[n].late| <= 1
    ensures run[n].fabric.row == Ended(Delivered) ==>
      |run[n].landed| == 1 && run[n].landed[0].session == run[n].fabric.lastHolder
    ensures run[n].fabric.row.Queued? || run[n].fabric.row.Claimed? ==> Quiet(run[n])
    ensures run[n].fabric.row == Ended(Outcome.Failed) ==> Quiet(run[n])
  {
    RunKeepsInv(run, events, policy, n);
    Safety(run[n], DshFits);
  }

  /**
   A message that must not wake a session goes in by inject alone, never by a
   prompt; every other message goes in by prompt, steered only for next_step.
   */
  lemma NoWakeIsInjected(run: seq<DshState>, events: seq<DshEvent>, policy: string, n: nat, i: nat)
    requires IsRun(run, events, policy) && n < |run| && i < |run[n].landed|
    ensures run[n].landed[i].via == Inject <==> policy == "no_wake" || policy == "never_wake"
    ensures run[n].landed[i].via == Prompt("steer") <==> policy == "next_step"
  {
    RunKeepsInv(run, events, policy, n);
  }

  /** A message is sent a second time only when the first is known not to be there and not to come. */
  lemma ResendsOnlyWhenAbsent(run: seq<DshState>, events: seq<DshEvent>, policy: string, n: nat, p: Pid)
    requires IsRun(run, events, policy) && n < |run|
    requires Dispatches(run[n], p) && At(run[n], p).act.Sending?
    ensures run[n].landed == [] && run[n].late == []
  {
    RunKeepsInv(run, events, policy, n);
    assert OneInv(run[n], run[n].procs[p], DshFits);
  }

  // ---- how each dispatch ends, by what happened to it ----

  /** How many sends of p have failed since it recorded its dispatch. */
  function Failures(events: seq<DshEvent>, n: nat, p: Pid): nat
    requires n <= |events|
  {
    if n == 0 then 0
    else
      match events[n - 1]
      case RecordDispatch(q) => if q == p then 0 else Failures(events, n - 1, p)
      case Failed(q, _) => Failures(events, n - 1, p) + if q == p then 1 else 0
      case _ => Failures(events, n - 1, p)
  }

  /** With what the last of them failed. */
  function LastFailure(events: seq<DshEvent>, n: nat, p: Pid): Option<Error>
    requires n <= |events|
  {
    if n == 0 then None
    else
      match events[n - 1]
      case RecordDispatch(q) => if q == p then None else LastFailure(events, n - 1, p)
      case Failed(q, error) => if q == p then Some(error) else LastFailure(events, n - 1, p)
      case _ => LastFailure(events, n - 1, p)
  }

  /** p asks the ledger for r and is done. */
  ghost predicate Asks(s: DshState, after: DshState, p: Pid, r: Request) {
    && after.procs == s.procs[p := Idle] && after.fabric == s.fabric.(sent := s.fabric.sent + {r})
    && after.late == s.late
  }

  /**
   What p, dispatching token, asks for at step n, if it asks for anything: told by
   the events alone. A message seen absent is given up as unknown only after a
   timeout or a second unclear answer; after a first unclear one it is sent again.
   */
  function Settlement(events: seq<DshEvent>, n: nat, p: Pid, token: Token): Option<Request>
    requires n < |events|
  {
    match events[n]
    case Accepted(q) => if q == p then Some(Acknowledge) else None
    case Failed(q, error) => if q == p && error.InjectMissing? then Some(NotInserted(token)) else None
    case WaitCut(q) => if q == p then Some(MarkUnknown) else None
    case Looked(q, look) =>
      if q != p then None
      else if look.Unreadable? then Some(MarkUnknown)
      else if look.has then Some(Acknowledge)
      else
        match LastFailure(events, n, p) {
          case None => None
          case Some(error) =>
            match error
            case NotFound => Some(Fail(token))
            case Refused => Some(NotInserted(token))
            case InjectMissing => Some(NotInserted(token))
            case TimedOut => Some(MarkUnknown)
            case Unclear => if Failures(events, n, p) >= 2 then Some(MarkUnknown) else None
        }
    case _ => None
  }

  /** A failed send is waited out, then the session is looked at, then the message is sent again. */
  ghost predicate GoesOn(s: DshState, after: DshState, p: Pid, e: DshEvent)
    requires Dispatches(s, p)
  {
    && Dispatches(after, p) && At(after, p).token == At(s, p).token && At(after, p).session == At(s, p).session
    && match e
       case Failed(q, _) => if q == p then At(after, p).act.Waiting? else At(after, p) == At(s, p)
       case WaitOver(q) => if q == p then At(after, p).act.Looking? else At(after, p) == At(s, p)
       case Looked(q, _) =>
         if q == p then At(after, p).act.Sending? && after.fabric == s.fabric else At(after, p) == At(s, p)
       case _ => At(after, p) == At(s, p)
  }

  /** What a dispatch knows of its own sends. */
  predicate Remembers(s: DshState, events: seq<DshEvent>, n: nat, p: Pid)
    requires n <= |events|
  {
    match At(s, p)
    case Beginning(_, _, start) => start == Sending(0) && Failures(events, n, p) == 0
    case Active(_, _, act) =>
      && act.sends == Failures(events, n, p)
      && (act.Sending? || LastFailure(events, n, p) == Some(act.error))
    case _ => true
  }

  lemma {:induction false} RunRemembers(run: seq<DshState>, events: seq<DshEvent>, policy: string, n: nat, p: Pid)
    requires IsRun(run, events, policy) && n < |run|
    ensures Remembers(run[n], events, n, p)
  {
    if n > 0 {
      RunRemembers(run, events, policy, n - 1, p);
      StepRemembers(run, events, policy, n - 1, p);
    }
  }

  lemma StepRemembers(run: seq<DshState>, events: seq<DshEvent>, policy: string, n: nat, p: Pid)
    requires IsRun(run, events, policy) && n < |events| && Remembers(run[n], events, n, p)
    ensures Remembers(run[n + 1], events, n + 1, p)
  {
    var s, e := run[n], events[n];
    assert CanStep(s, e, policy) && run[n + 1] == Next(s, e, policy);
  }

  /**
   In every run, at every step, of every dispatch p: it asks the ledger for
   exactly what Settlement says, and otherwise goes on as GoesOn says, unless it
   crashed; what was accepted is then in the session.
   */
  lemma DispatchesSettle(run: seq<DshState>, events: seq<DshEvent>, policy: string, n: nat, p: Pid)
    requires IsRun(run, events, policy) && n < |events| && Dispatches(run[n], p)
    ensures match Settlement(events, n, p, At(run[n], p).token)
      case Some(r) => Asks(run[n], run[n + 1], p, r)
      case None => events[n] == Shared(Crash(p)) || GoesOn(run[n], run[n + 1], p, events[n])
    ensures events[n] == Accepted(p) ==>
      run[n + 1].landed == run[n].landed + [Insert(At(run[n], p).token, At(run[n], p).session, ViaFor(policy), false)]
  {
    RunRemembers(run, events, policy, n, p);
    var s, e := run[n], events[n];
    assert CanStep(s, e, policy) && run[n + 1] == Next(s, e, policy);
    StepSettles(s, events, policy, n, p);
  }

  lemma StepSettles(s: DshState, events: seq<DshEvent>, policy: string, n: nat, p: Pid)
    requires n < |events| && CanStep(s, events[n], policy) && Dispatches(s, p) && Remembers(s, events, n, p)
    ensures var after := Next(s, events[n], policy);
      match Settlement(events, n, p, At(s, p).token)
      case Some(r) => Asks(s, after, p, r)
      case None => events[n] == Shared(Crash(p)) || GoesOn(s, after, p, events[n])
  {
  }

  /** The steps of the processes that are not dispatching: a look at what was left in flight, and a claim let go. */
  lemma OthersAsk(run: seq<DshState>, events: seq<DshEvent>, policy: string, n: nat, p: Pid)
    requires IsRun(run, events, policy) && n < |events|
    ensures events[n] == Shared(SettleStuck(p, true)) ==> Asks(run[n], run[n + 1], p, Acknowledge)
    ensures events[n] == Shared(SettleStuck(p, false)) ==> Asks(run[n], run[n + 1], p, MarkUnknown)
    ensures events[n] == Shared(LetGo(p)) ==> Asks(run[n], run[n + 1], p, Release(At(run[n], p).token))
  {
    assert CanStep(run[n], events[n], policy) && run[n + 1] == Next(run[n], events[n], policy);
  }
}
