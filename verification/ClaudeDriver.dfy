/**
 The Claude Code driver's dispatch (internal/claudedriver/driver.go): the pump
 posts a claimed message to the session's inbox once, and an in-turn hook hands
 one to the running turn. Neither settles what it sent: the row stays
 dispatching until a later pass finds the message in the transcript, or gives it
 up. The pump and the hooks are processes like any other, so all interleavings
 of them are runs here.
 */
module ClaudeDriver {
  import opened Wrappers
  import opened Delivery
  import opened Activation

  const NEXT := "next"
  const LATER := "later"

  datatype Via = Post(priority: string) | Hook

  /** Recorded as begun, and about to go in this way. */
  datatype Act = Sending(via: Via)

  type Claude = State<Act, Via>

  /** priorityFor: the inbox priority, or nothing when the message must wait. */
  function PriorityFor(action: string, policy: string, busy: bool): Option<string> {
    var p := Normalize(policy);
    if p == "no_wake" then None
    else if action == NEXT_STEP then Some(NEXT)
    else if action == "deliver_at_idle" then
      if busy then (if p == "next_step" then Some(NEXT) else None) else Some(LATER)
    else None
  }

  datatype ClaudeEvent =
    | Shared(e: Event)
    | RecordPost(p: Pid, caps: set<string>, availability: string, busy: bool)   // deliverOne
    | RecordHook(p: Pid, caps: set<string>)                                     // turnOne, in an active turn
    | Sent(p: Pid)

  predicate CanStep(s: Claude, e: ClaudeEvent, policy: string) {
    match e
    case Shared(e) => Enabled(s, e)
    case RecordPost(p, caps, availability, busy) =>
      && CanBegin(s, p) && Normalize(policy) != "no_wake"
      && ClaimAction(policy, caps, availability) != ""
      && PriorityFor(ClaimAction(policy, caps, availability), policy, busy).Some?
    case RecordHook(p, caps) => CanBegin(s, p) && ClaimAction(policy, caps, "busy") == NEXT_STEP
    case Sent(p) => Dispatches(s, p)
  }

  /** A post that failed may have arrived, and one that succeeded may be refused: either is late. */
  function Next(s: Claude, e: ClaudeEvent, policy: string): Claude
    requires CanStep(s, e, policy)
  {
    match e
    case Shared(e) => Step(s, e)
    case RecordPost(p, caps, availability, busy) =>
      AskBegin(s, p, Sending(Post(PriorityFor(ClaimAction(policy, caps, availability), policy, busy).value)))
    case RecordHook(p, _) => AskBegin(s, p, Sending(Hook))
    case Sent(p) => Become(PutLate(s, p, At(s, p).act.via, true), p, Idle)
  }

  // ---- what every step keeps ----

  predicate ClaudeFits(policy: string, act: Act, landed: seq<Insert<Via>>, late: seq<Insert<Via>>) {
    landed == [] && late == [] && Allowed(act.via, policy)
  }

  /**
   How a policy may go in: no_wake only as hook context, next_turn only as a
   later post, and a post that may join a running turn only for next_step.
   */
  predicate Allowed(via: Via, policy: string) {
    match Normalize(policy)
    case "no_wake" => via == Hook
    case "next_step" => via == Hook || via == Post(NEXT) || via == Post(LATER)
    case _ => via == Post(LATER)
  }

  function FitsFor(policy: string): Fits<Act, Via> {
    (act, landed, late) => ClaudeFits(policy, act, landed, late)
  }

  ghost predicate ClaudeInv(s: Claude, policy: string) {
    && Inv(s, FitsFor(policy))
    && (forall i :: 0 <= i < |s.landed| ==> Allowed(s.landed[i].via, policy))
    && (forall i :: 0 <= i < |s.late| ==> Allowed(s.late[i].via, policy))
    && (forall t: Token :: NotInserted(t) !in s.fabric.sent && Fail(t) !in s.fabric.sent)
  }

  lemma SharedKeeps(s: Claude, e: Event, policy: string)
    requires ClaudeInv(s, policy) && Enabled(s, e)
    ensures ClaudeInv(Step(s, e), policy)
  {
    var fits := FitsFor(policy);
    if e.Decide? {
      NoneActive(s, policy);
    }
    StepKeepsInv(s, e, fits);
    hide Inv;
  }

  /** While something sent is undecided, no dispatch is still to send. */
  lemma NoneActive(s: Claude, policy: string)
    requires ClaudeInv(s, policy)
    ensures s.late != [] ==> forall p :: !Dispatches(s, p)
  {
    forall p
      ensures s.late != [] ==> !Dispatches(s, p)
    {
      assert p in s.procs ==> OneInv(s, s.procs[p], FitsFor(policy));
    }
  }

  lemma SentKeeps(s: Claude, p: Pid, policy: string)
    requires ClaudeInv(s, policy) && Dispatches(s, p)
    ensures ClaudeInv(Become(PutLate(s, p, At(s, p).act.via, true), p, Idle), policy)
  {
    var via := At(s, p).act.via;
    assert OneInv(s, s.procs[p], FitsFor(policy));
    PutLateThenIdle(s, p, via, FitsFor(policy));
    hide Inv;
  }

  lemma NextKeepsInv(s: Claude, e: ClaudeEvent, policy: string)
    requires ClaudeInv(s, policy) && CanStep(s, e, policy)
    ensures ClaudeInv(Next(s, e, policy), policy)
  {
    match e
    case Shared(e) => SharedKeeps(s, e, policy);
    case RecordPost(p, caps, availability, busy) =>
      var priority := PriorityFor(ClaimAction(policy, caps, availability), policy, busy).value;
      BeginKeeps(s, p, Sending(Post(priority)), FitsFor(policy));
    case RecordHook(p, caps) =>
      BeginKeeps(s, p, Sending(Hook), FitsFor(policy));
    case Sent(p) => SentKeeps(s, p, policy);
  }

  // ---- whole runs ----

  ghost predicate IsRun(run: seq<Claude>, events: seq<ClaudeEvent>, policy: string) {
    && |run| == |events| + 1
    && (exists seat: Session :: run[0] == Start(seat))
    && forall i :: 0 <= i < |events| ==>
      CanStep(run[i], events[i], policy) && run[i + 1] == Next(run[i], events[i], policy)
  }

  lemma {:induction false} RunKeepsInv(run: seq<Claude>, events: seq<ClaudeEvent>, policy: string, n: nat)
    requires IsRun(run, events, policy) && n < |run|
    ensures ClaudeInv(run[n], policy)
  {
    if n == 0 {
      var seat: Session :| run[0] == Start(seat);
      StartInv<Act, Via>(seat, FitsFor(policy));
    } else {
      RunKeepsInv(run, events, policy, n - 1);
      hide CanStep, Next, ClaudeInv;
      NextKeepsInv(run[n - 1], events[n - 1], policy);
    }
  }

  /**
   In every run, at every moment: the message has gone in at most once, counting
   what may still land, and a delivered row means the session the claim resolved
   to holds it.
   */
  lemma InsertedAtMostOnce(run: seq<Claude>, events: seq<ClaudeEvent>, policy: string, n: nat)
    requires IsRun(run, events, policy) && n < |run|
    ensures |run[n].landed| + |run[n].late| <= 1
    ensures run[n].fabric.row == Ended(Delivered) ==>
      |run[n].landed| == 1 && run[n].landed[0].session == run[n].fabric.lastHolder
    ensures run[n].fabric.row.Queued? || run[n].fabric.row.Claimed? ==> Quiet(run[n])
  {
    RunKeepsInv(run, events, policy, n);
    Safety(run[n], FitsFor(policy));
  }

  /** A begun dispatch never goes back to the queue. */
  lemma NeverRequeued(run: seq<Claude>, events: seq<ClaudeEvent>, policy: string, n: nat)
    requires IsRun(run, events, policy) && n < |events|
    ensures run[n].fabric.row.Dispatching? ==> run[n + 1].fabric.row.Dispatching? || run[n + 1].fabric.row.Ended?
  {
    RunKeepsInv(run, events, policy, n);
    assert CanStep(run[n], events[n], policy) && run[n + 1] == Next(run[n], events[n], policy);
  }

  /**
   Whatever goes in goes in as its policy allows: a message that must not wake
   the session is only ever hook context of a running turn, under either of the
   policy's names.
   */
  lemma PolicyIsKept(run: seq<Claude>, events: seq<ClaudeEvent>, policy: string, n: nat, i: nat)
    requires IsRun(run, events, policy) && n < |run| && i < |run[n].landed|
    ensures policy in {"no_wake", "never_wake"} ==> run[n].landed[i].via == Hook
    ensures policy in {"", "next_turn", "wake_when_idle"} ==> run[n].landed[i].via == Post("later")
    ensures run[n].landed[i].via == Post("next") ==> policy == "next_step"
  {
    RunKeepsInv(run, events, policy, n);
  }

  // ---- which way a message goes in ----

  /**
   A claimed message is posted as "next" exactly when it is a next_step one and the
   session was busy at the claim or became so, and as "later" exactly when it may
   start a turn and the session was idle and still is; any other waits.
   */
  lemma PostedExactly(policy: string, caps: set<string>, availability: string, busy: bool)
    ensures var priority := PriorityFor(ClaimAction(policy, caps, availability), policy, busy);
      var atIdle := availability == "idle" && "deliver_when_idle" in caps;
      && (priority == Some("next") <==>
            policy == "next_step" && ((availability == "busy" && "deliver_next_step" in caps) || (atIdle && busy)))
      && (priority == Some("later") <==> !(policy == "no_wake" || policy == "never_wake") && atIdle && !busy)
      && (priority.Some? ==> priority.value == "next" || priority.value == "later")
  {
    ClaimsExactly(policy, caps, availability);
  }

  /** The way p's dispatch goes in, by the event that recorded it. */
  function WayOf(events: seq<ClaudeEvent>, n: nat, p: Pid, policy: string): Option<Via>
    requires n <= |events|
  {
    if n == 0 then None
    else
      match events[n - 1]
      case RecordPost(q, caps, availability, busy) =>
        if q != p then WayOf(events, n - 1, p, policy)
        else if policy == "next_step" && (availability == "busy" || busy) then Some(Post("next"))
        else Some(Post("later"))
      case RecordHook(q, _) => if q == p then Some(Hook) else WayOf(events, n - 1, p, policy)
      case _ => WayOf(events, n - 1, p, policy)
  }

  predicate Remembers(s: Claude, events: seq<ClaudeEvent>, n: nat, p: Pid, policy: string)
    requires n <= |events|
  {
    match At(s, p)
    case Beginning(_, _, start) => WayOf(events, n, p, policy) == Some(start.via)
    case Active(_, _, act) => WayOf(events, n, p, policy) == Some(act.via)
    case _ => true
  }

  lemma StepRemembers(s: Claude, events: seq<ClaudeEvent>, n: nat, p: Pid, policy: string)
    requires n < |events| && CanStep(s, events[n], policy) && Remembers(s, events, n, p, policy)
    ensures Remembers(Next(s, events[n], policy), events, n + 1, p, policy)
  {
    if events[n].RecordPost? {
      PostedExactly(policy, events[n].caps, events[n].availability, events[n].busy);
      hide PriorityFor, ClaimAction;
    }
  }

  lemma {:induction false} RunRemembers(run: seq<Claude>, events: seq<ClaudeEvent>, policy: string, n: nat, p: Pid)
    requires IsRun(run, events, policy) && n < |run|
    ensures Remembers(run[n], events, n, p, policy)
  {
    if n > 0 {
      RunRemembers(run, events, policy, n - 1, p);
      assert CanStep(run[n - 1], events[n - 1], policy) && run[n] == Next(run[n - 1], events[n - 1], policy);
      StepRemembers(run[n - 1], events, n - 1, p, policy);
    }
  }

  /** p asks the ledger for r and is done. */
  ghost predicate Asks(s: Claude, after: Claude, p: Pid, r: Request) {
    after == s.(procs := s.procs[p := Idle], fabric := s.fabric.(sent := s.fabric.sent + {r}))
  }

  /**
   What becomes of each dispatch and each later look, in every run: what was
   recorded goes in once, the way the record says, and settles nothing; a later
   pass acknowledges what it sees in the session and gives up what it does not; a
   claim let go is released.
   */
  lemma DispatchesGoIn(run: seq<Claude>, events: seq<ClaudeEvent>, policy: string, n: nat, p: Pid)
    requires IsRun(run, events, policy) && n < |events|
    ensures events[n] == Sent(p) ==>
      var w, way := At(run[n], p), WayOf(events, n, p, policy);
      way.Some? && run[n + 1] == run[n].(procs := run[n].procs[p := Idle],
                                         late := run[n].late + [Insert(w.token, w.session, way.value, true)])
    ensures Dispatches(run[n], p) && events[n] != Sent(p) && events[n] != Shared(Crash(p)) ==>
      At(run[n + 1], p) == At(run[n], p)
    ensures events[n] == Shared(SettleStuck(p, true)) ==> Asks(run[n], run[n + 1], p, Acknowledge)
    ensures events[n] == Shared(SettleStuck(p, false)) ==> Asks(run[n], run[n + 1], p, MarkUnknown)
    ensures events[n] == Shared(LetGo(p)) ==> Asks(run[n], run[n + 1], p, Release(At(run[n], p).token))
  {
    RunRemembers(run, events, policy, n, p);
    assert CanStep(run[n], events[n], policy) && run[n + 1] == Next(run[n], events[n], policy);
  }
}
