/**
 What becomes of each call on a Codex app-server's client
 (internal/codexadapter/rpc.go), told by what happened: which requests go out,
 that every answered request gets its own answer, and that failure leaves nobody
 waiting.
 */
module RpcCalls {
  import opened Wrappers
  import opened Rpc

  // ---- told by the events alone ----

  predicate HasFailed(events: seq<Event>) { Fail in events }

  predicate IsShut(events: seq<Event>) { Shut in events }

  /** How many requests went out: those before failing and closing. */
  function Issued(events: seq<Event>): nat {
    if events == [] then 0
    else
      var before := events[..|events| - 1];
      Issued(before) + if events[|events| - 1].Request? && !HasFailed(before) && !IsShut(before) then 1 else 0
  }

  /** How far request number id is. */
  datatype Progress = Unmade | Awaited | Taken(body: string) | Answered(body: string) | Lost

  /** The first response with its number after it went out is its answer, unless failure came first. */
  function ProgressOf(events: seq<Event>, id: nat): Progress {
    if events == [] then Unmade
    else
      var before := events[..|events| - 1];
      var was := ProgressOf(before, id);
      match events[|events| - 1]
      case Request(_) => if Issued(before) < id <= Issued(events) then Awaited else was
      case TakeResponse(number, body) => if was.Awaited? && number == RequestId(id) then Taken(body) else was
      case Answer => if was.Taken? then Answered(was.body) else was
      case Fail => if was.Awaited? then Lost else was
      case _ => was
  }

  // ---- the invariant ----

  function NumberKey(id: nat): string { Key(RequestId(id)) }

  /** A caller that waits for request id's answer finds what its progress says. */
  predicate CallInv(c: Client, id: nat, ch: nat, progress: Progress) {
    var key := NumberKey(id);
    && id <= c.nextId && ch < |c.chans|
    && match progress
       case Unmade => false
       case Awaited => key in c.pending && c.pending[key] == ch
       case Taken(body) => key !in c.pending && c.reading == Some((ch, Response(RequestId(id), body)))
       case Answered(body) =>
         key !in c.pending && c.chans[ch].buf == [Response(RequestId(id), body)] && c.chans[ch].closed
       case Lost => key !in c.pending && c.chans[ch].buf == [] && c.chans[ch].closed
  }

  /** Every call is as its progress says, and no two have one number. */
  ghost predicate CallsInv(c: Client, events: seq<Event>) {
    && (forall p :: p in c.callers && c.callers[p].Requesting? ==>
          CallInv(c, c.callers[p].id, c.callers[p].chan, ProgressOf(events, c.callers[p].id)))
    && (forall p, q :: p in c.callers && q in c.callers && SameNumber(c.callers[p], c.callers[q]) ==> p == q)
  }

  predicate SameNumber(w: Caller, v: Caller) { w.Requesting? && v.Requesting? && w.id == v.id }

  /** Each pending entry is that of a caller still waiting. */
  ghost predicate Owned(c: Client) { forall key :: key in c.pending ==> IsOwned(c.callers, key) }

  ghost predicate IsOwned(callers: map<Pid, Caller>, key: string) {
    exists p :: p in callers && callers[p].Requesting? && NumberKey(callers[p].id) == key
  }

  /** The flags and the numbers are as the events say, and failure leaves nothing to wait for. */
  predicate FlagsAsSaid(c: Client, events: seq<Event>) {
    && c.nextId == Issued(events)
    && (c.flags.failed <==> HasFailed(events)) && (c.flags.closing <==> IsShut(events))
    && (c.flags.failed ==> c.pending == map[] && c.waiters == map[])
  }

  lemma NumbersApart(id: nat, number: nat)
    ensures NumberKey(id) == NumberKey(number) <==> id == number
    ensures RequestId(id) == RequestId(number) <==> id == number
  {
    KeyIsInjective(RequestId(id), RequestId(number));
    if RequestId(id) == RequestId(number) { DecimalInjective(id, number); }
  }

  lemma LastEvent(events: seq<Event>, e: Event)
    ensures (events + [e])[..|events|] == events && (events + [e])[|events|] == e
    ensures HasFailed(events + [e]) <==> HasFailed(events) || e == Fail
    ensures IsShut(events + [e]) <==> IsShut(events) || e == Shut
    ensures Issued(events + [e]) == Issued(events) + if e.Request? && !HasFailed(events) && !IsShut(events) then 1
    else 0
  {
  }

  lemma StepKeepsFlags(c: Client, events: seq<Event>, e: Event)
    requires Inv(c) && CanStep(c, e) && FlagsAsSaid(c, events)
    ensures FlagsAsSaid(Step(c, e), events + [e])
  {
    LastEvent(events, e);
    FlagsMove(c, e);
    hide Inv, Step, CanStep, HasFailed, IsShut, Issued;
  }

  lemma NothingWithout(thread: string)
    ensures WithoutThread<nat>(map[], thread) == map[]
  {
  }

  /** What a step does to the flags, the numbers, and what is waited for after failure. */
  lemma FlagsMove(c: Client, e: Event)
    requires FlagsInv(c) && CanStep(c, e) && (c.flags.failed ==> c.pending == map[] && c.waiters == map[])
    ensures var c' := Step(c, e);
      && c'.nextId == c.nextId + (if e.Request? && !c.flags.failed && !c.flags.closing then 1 else 0)
      && c'.flags.failed == (c.flags.failed || e == Fail) && c'.flags.closing == (c.flags.closing || e == Shut)
      && (c'.flags.failed ==> c'.pending == map[] && c'.waiters == map[])
  {
    hide Completed, Send, Close, WithoutThread, Key, RequestId, CloseAll, Closable;
    match e
    case ForgetThread(thread) => NothingWithout(thread);
    case Answer => SendMoves(c, c.reading.value.0, c.reading.value.1);
    case TurnCompleted(thread, turn, body) => CompletedMoves(c, thread, TurnKey(thread, turn), body);
    case _ =>
  }

  // ---- one caller's request through one step ----

  /** The progress of request id after one more event. */
  function Moved(was: Progress, id: nat, issued: nat, goesOut: bool, e: Event): Progress {
    match e
    case Request(_) => if goesOut && id == issued + 1 then Awaited else was
    case TakeResponse(number, body) => if was.Awaited? && number == RequestId(id) then Taken(body) else was
    case Answer => if was.Taken? then Answered(was.body) else was
    case Fail => if was.Awaited? then Lost else was
    case _ => was
  }

  lemma ProgressMoves(events: seq<Event>, e: Event, id: nat)
    ensures ProgressOf(events + [e], id) ==
      Moved(ProgressOf(events, id), id, Issued(events), !HasFailed(events) && !IsShut(events), e)
  {
    LastEvent(events, e);
    hide HasFailed, IsShut;
  }

  /** What a step leaves to a caller that waits before and after it. */
  lemma CallKept(c: Client, e: Event, p: Pid, was: Progress)
    requires Inv(c) && CanStep(c, e) && p in c.callers && c.callers[p].Requesting?
    requires CallInv(c, c.callers[p].id, c.callers[p].chan, was)
    requires c.flags.failed ==> c.pending == map[]
    requires forall q :: q in c.callers && SameNumber(c.callers[q], c.callers[p]) ==> q == p
    ensures var c' := Step(c, e); var w := c.callers[p];
      p in c'.callers && c'.callers[p] == w ==>
        CallInv(c', w.id, w.chan, Moved(was, w.id, c.nextId, !c.flags.failed && !c.flags.closing, e))
  {
    var w := c.callers[p];
    assert CallerInv(w, c.chans);
    hide Inv, Step, CallInv, Moved;
    match e
    case Receive(q) => if q != p { OtherReceives(c, q, p, was); }
    case Answer => AnswerKept(c, p, was);
    case TurnCompleted(thread, turn, body) => CompletionKept(c, thread, TurnKey(thread, turn), body, w, was);
    case Fail => FailureKept(c, w, was);
    case TakeResponse(id, body) => TakeKept(c, e, w, was);
    case _ => CallerStepKept(c, e, p, was);
  }

  lemma CallerStepKept(c: Client, e: Event, p: Pid, was: Progress)
    requires CanStep(c, e) && p in c.callers && c.callers[p].Requesting?
    requires CallInv(c, c.callers[p].id, c.callers[p].chan, was)
    requires forall q :: q in c.callers && SameNumber(c.callers[q], c.callers[p]) ==> q == p
    requires !e.Receive? && !e.Answer? && !e.TurnCompleted? && !e.Fail? && !e.TakeResponse?
    ensures var c' := Step(c, e); var w := c.callers[p];
      p in c'.callers && c'.callers[p] == w ==>
        CallInv(c', w.id, w.chan, Moved(was, w.id, c.nextId, !c.flags.failed && !c.flags.closing, e))
  {
    var id := c.callers[p].id;
    if e.WaitTurn? {
      WaitKept(c, e.p, e.thread, TurnKey(e.thread, e.turn), c.callers[p], was);
      hide Waited, CallInv;
      return;
    }
    NumbersApart(id, c.nextId + 1);
    if e.Abandon? { NumbersApart(id, CallerAt(c, e.p).id); }
    hide Key, RequestId, WithoutThread, Completed, Failed, Send, Close, Received;
  }

  lemma WaitKept(c: Client, q: Pid, thread: string, key: string, w: Caller, was: Progress)
    requires w.Requesting? && CallInv(c, w.id, w.chan, was)
    ensures CallInv(Waited(c, q, thread, key), w.id, w.chan, was)
  {
  }

  lemma TakeKept(c: Client, e: Event, w: Caller, was: Progress)
    requires Inv(c) && CanStep(c, e) && e.TakeResponse? && w.Requesting? && CallInv(c, w.id, w.chan, was)
    ensures CallInv(Step(c, e), w.id, w.chan, Moved(was, w.id, c.nextId, !c.flags.failed && !c.flags.closing, e))
  {
    KeyIsInjective(e.id, RequestId(w.id));
    hide MapsInv, ChansInv, CallersInv;
  }

  lemma OtherReceives(c: Client, q: Pid, p: Pid, was: Progress)
    requires Inv(c) && Ready(c, q) && p in c.callers && c.callers[p].Requesting? && q != p
    requires CallInv(c, c.callers[p].id, c.callers[p].chan, was)
    requires q in c.callers && c.callers[q].Requesting? ==> c.callers[q].id != c.callers[p].id
    ensures CallInv(Received(c, q), c.callers[p].id, c.callers[p].chan, was)
  {
    var v, w := CallerAt(c, q), c.callers[p];
    if v.Requesting? { NumbersApart(v.id, w.id); }
    assert CallerInv(w, c.chans) && CallerInv(v, c.chans);
    assert v.chan != w.chan;
    hide MapsInv, ChansInv, CallersInv;
  }

  lemma AnswerKept(c: Client, p: Pid, was: Progress)
    requires Inv(c) && c.reading.Some? && p in c.callers && c.callers[p].Requesting?
    requires CallInv(c, c.callers[p].id, c.callers[p].chan, was)
    ensures CallInv(Step(c, Answer), c.callers[p].id, c.callers[p].chan,
                    if was.Taken? then Answered(was.body) else was)
  {
    var (ch, m) := c.reading.value;
    SendThenClose(c, ch, ForRequest(Key(m.id)), m);
    hide ChansInv, CallersInv, Send, Close;
  }

  lemma CompletionKept(c: Client, thread: string, key: string, body: string, w: Caller, was: Progress)
    requires Inv(c) && c.reading.None? && w.Requesting? && CallerInv(w, c.chans) && CallInv(c, w.id, w.chan, was)
    ensures CallInv(Completed(c, thread, key, body), w.id, w.chan, was)
  {
    if key in c.waiters {
      assert Fresh(c.chans, c.waiters[key], ForTurn(key));
    }
    hide MapsInv, ChansInv, CallersInv;
  }

  lemma FailureKept(c: Client, w: Caller, was: Progress)
    requires Inv(c) && w.Requesting? && CallerInv(w, c.chans) && CallInv(c, w.id, w.chan, was)
    requires c.flags.failed ==> c.pending == map[]
    ensures CallInv(Failed(c), w.id, w.chan, if was.Awaited? then Lost else was)
  {
    assert was.Awaited? ==> w.chan in Open(c) && Fresh(c.chans, w.chan, ForRequest(NumberKey(w.id)));
    hide ChansInv, CallersInv, Closable;
  }

  // ---- who waits ----

  predicate GoesOut(c: Client, e: Event) { e.Request? && !c.flags.failed && !c.flags.closing }

  /** A step of one caller, rather than of the read loop or the whole client. */
  predicate IsCallers(e: Event) {
    e.Request? || e.Abandon? || e.Receive? || e.SeeDone? || e.WaitTurn? || e.CancelWait?
  }

  /** A caller's step changes that caller alone, and only asking makes it wait for an answer. */
  lemma OneCallerMoves(c: Client, e: Event)
    requires CanStep(c, e) && IsCallers(e)
    ensures var c' := Step(c, e);
      && c'.callers == c.callers[e.p := CallerAt(c', e.p)]
      && (CallerAt(c', e.p).Requesting? ==> GoesOut(c, e))
      && (GoesOut(c, e) ==> c' == Requested(c, e.p))
      && c'.pending ==
         if GoesOut(c, e) then c.pending[NumberKey(c.nextId + 1) := |c.chans|]
         else if e.Abandon? then c.pending - {NumberKey(CallerAt(c, e.p).id)} else c.pending
  {
    hide Completed, Forgotten, Failed, Send, Close;
    match e
    case WaitTurn(p, thread, turn) => WaitMoves(c, p, thread, TurnKey(thread, turn));
    case Receive(p) => ReceiveMoves(c, p);
    case _ => hide Key, RequestId, Waited, Received;
  }

  lemma WaitMoves(c: Client, p: Pid, thread: string, key: string)
    ensures var c' := Waited(c, p, thread, key);
      c'.callers == c.callers[p := CallerAt(c', p)] && !CallerAt(c', p).Requesting? && c'.pending == c.pending
  {
    RegisterMoves(c, p, key);
    hide Register;
  }

  lemma RegisterMoves(c: Client, p: Pid, key: string)
    ensures var c' := Register(c, p, key);
      c'.callers == c.callers[p := Waiting(key, |c.chans|)] && c'.pending == c.pending
  {
  }

  lemma ReceiveMoves(c: Client, p: Pid)
    requires Ready(c, p)
    ensures var c' := Received(c, p);
      c'.callers == c.callers[p := CallerAt(c', p)] && !CallerAt(c', p).Requesting? && c'.pending == c.pending
  {
  }

  lemma SendMoves(c: Client, ch: nat, m: Message)
    ensures var c' := Close(Send(c, ch, m), ch);
      c'.callers == c.callers && c'.pending == c.pending && c'.waiters == c.waiters && c'.nextId == c.nextId
      && c'.flags == c.flags && c'.turns == c.turns
  {
  }

  lemma CompletedMoves(c: Client, thread: string, key: string, body: string)
    ensures var c' := Completed(c, thread, key, body);
      c'.callers == c.callers && c'.pending == c.pending && c'.nextId == c.nextId && c'.flags == c.flags
      && forall k :: k in c'.waiters ==> k in c.waiters
  {
    if key in c.waiters {
      var turns := c.turns.(arrived := c.turns.arrived[key := Completion(key, body)]);
      SendMoves(c.(waiters := c.waiters - {key}, turns := turns), c.waiters[key], Completion(key, body));
    }
    hide Send, Close;
  }

  lemma FailedMoves(c: Client)
    ensures Failed(c).callers == c.callers
    ensures Failed(c).pending == if c.flags.failed then c.pending else map[]
  {
    hide CloseAll, Closable;
  }

  /** Every other step leaves the callers alone, and adds nothing to what is pending. */
  lemma NoCallerMoves(c: Client, e: Event)
    requires CanStep(c, e) && !IsCallers(e)
    ensures var c' := Step(c, e);
      c'.callers == c.callers && forall key :: key in c'.pending ==>
        key in c.pending && c'.pending[key] == c.pending[key]
  {
    hide Requested, Received, Waited, Completed, Failed, Send, Close, WithoutThread, Key;
    match e
    case Answer => SendMoves(c, c.reading.value.0, c.reading.value.1);
    case Fail => FailedMoves(c);
    case TurnCompleted(thread, turn, body) => CompletedMoves(c, thread, TurnKey(thread, turn), body);
    case _ =>
  }

  lemma RequestingBefore(c: Client, e: Event, p: Pid)
    requires CanStep(c, e) && p in Step(c, e).callers && Step(c, e).callers[p].Requesting?
    ensures var w := Step(c, e).callers[p];
      if e == Request(p) && GoesOut(c, e) then w == Requesting(c.nextId + 1, |c.chans|) && Step(c, e) == Requested(c, p)
      else p in c.callers && c.callers[p] == w
  {
    if IsCallers(e) { OneCallerMoves(c, e); } else { NoCallerMoves(c, e); }
    hide CanStep, Step;
  }

  lemma StepKeepsCalls(c: Client, events: seq<Event>, e: Event)
    requires Inv(c) && CanStep(c, e) && FlagsAsSaid(c, events) && CallsInv(c, events)
    ensures CallsInv(Step(c, e), events + [e])
  {
    var c' := Step(c, e);
    LastEvent(events, e);
    forall p | p in c'.callers && c'.callers[p].Requesting?
      ensures CallInv(c', c'.callers[p].id, c'.callers[p].chan, ProgressOf(events + [e], c'.callers[p].id))
    {
      StepKeepsCall(c, events, e, p);
    }
    forall p, q | p in c'.callers && q in c'.callers && SameNumber(c'.callers[p], c'.callers[q])
      ensures p == q
    {
      RequestingBefore(c, e, p);
      RequestingBefore(c, e, q);
      hide Inv, Step, CanStep, ProgressOf;
    }
  }

  lemma StepKeepsCall(c: Client, events: seq<Event>, e: Event, p: Pid)
    requires Inv(c) && CanStep(c, e) && FlagsAsSaid(c, events) && CallsInv(c, events)
    requires p in Step(c, e).callers && Step(c, e).callers[p].Requesting?
    ensures var w := Step(c, e).callers[p]; CallInv(Step(c, e), w.id, w.chan, ProgressOf(events + [e], w.id))
  {
    hide Inv, Step, CanStep, ProgressOf, HasFailed, IsShut, Issued;
    var w := Step(c, e).callers[p];
    RequestingBefore(c, e, p);
    ProgressMoves(events, e, w.id);
    if e == Request(p) && GoesOut(c, e) {
      AskedIsAwaited(c, p);
    } else {
      hide CallInv;
      CallKept(c, e, p, ProgressOf(events, w.id));
    }
  }

  lemma AskedIsAwaited(c: Client, p: Pid)
    ensures CallInv(Requested(c, p), c.nextId + 1, |c.chans|, Awaited)
  {
  }

  lemma StepKeepsOwned(c: Client, events: seq<Event>, e: Event)
    requires Inv(c) && CanStep(c, e) && CallsInv(c, events) && Owned(c)
    requires c.flags.failed ==> c.pending == map[]
    ensures Owned(Step(c, e))
  {
    forall key | key in Step(c, e).pending
      ensures IsOwned(Step(c, e).callers, key)
    {
      OwnedAfter(c, events, e, key);
    }
  }

  lemma OwnedAfter(c: Client, events: seq<Event>, e: Event, key: string)
    requires Inv(c) && CanStep(c, e) && CallsInv(c, events) && key in Step(c, e).pending
    requires c.flags.failed ==> c.pending == map[]
    requires key in c.pending ==> IsOwned(c.callers, key)
    ensures IsOwned(Step(c, e).callers, key)
  {
    hide Inv, CanStep, Step, CallsInv;
    var c' := Step(c, e);
    if IsCallers(e) { OneCallerMoves(c, e); } else { NoCallerMoves(c, e); }
    if key in c.pending {
      var p :| p in c.callers && c.callers[p].Requesting? && NumberKey(c.callers[p].id) == key;
      if IsCallers(e) && e.p == p { Leaves(c, events, e); }
      assert p in c'.callers && c'.callers[p] == c.callers[p];
    } else {
      assert c'.callers[e.p].Requesting? && NumberKey(c'.callers[e.p].id) == key;
    }
  }

  /** A caller that stops waiting leaves no entry behind, unless the client failed. */
  lemma Leaves(c: Client, events: seq<Event>, e: Event)
    requires Inv(c) && CanStep(c, e) && CallsInv(c, events) && IsCallers(e)
    requires e.p in c.callers && c.callers[e.p].Requesting?
    requires c.flags.failed ==> c.pending == map[]
    ensures NumberKey(c.callers[e.p].id) !in Step(c, e).pending
  {
    var w := c.callers[e.p];
    OneCallerMoves(c, e);
    assert CallInv(c, w.id, w.chan, ProgressOf(events, w.id));
    assert NumberKey(w.id) in c.pending ==> Fresh(c.chans, w.chan, ForRequest(NumberKey(w.id)));
    hide Inv, CallsInv, Step, ProgressOf, NumberKey;
  }

  // ---- every run ----

  ghost predicate RunInv(c: Client, events: seq<Event>) {
    Inv(c) && FlagsAsSaid(c, events) && CallsInv(c, events) && Owned(c)
  }

  lemma {:induction false} RunKeepsCalls(run: seq<Client>, events: seq<Event>, n: nat)
    requires IsRun(run, events) && n < |run|
    ensures RunInv(run[n], events[..n])
  {
    RunKeepsInv(run, events, n);
    if n > 0 {
      RunKeepsCalls(run, events, n - 1);
      assert events[..n] == events[..n - 1] + [events[n - 1]];
      hide Inv, CanStep, Step, FlagsAsSaid, CallsInv, Owned;
      StepKeepsFlags(run[n - 1], events[..n - 1], events[n - 1]);
      StepKeepsCalls(run[n - 1], events[..n - 1], events[n - 1]);
      NothingPendingOnceFailed(run[n - 1], events[..n - 1]);
      StepKeepsOwned(run[n - 1], events[..n - 1], events[n - 1]);
    }
  }

  lemma NothingPendingOnceFailed(c: Client, events: seq<Event>)
    requires FlagsAsSaid(c, events)
    ensures c.flags.failed ==> c.pending == map[]
  {
  }

  /**
   A request goes out under a number of its own exactly when the client has
   neither failed nor begun to close; otherwise its caller is told at once and
   nothing else changes.
   */
  lemma RequestsGoOut(run: seq<Client>, events: seq<Event>, n: nat, p: Pid)
    requires IsRun(run, events) && n < |events| && events[n] == Request(p)
    ensures if HasFailed(events[..n]) || IsShut(events[..n]) then
        run[n + 1] == Become(run[n], p, Finished(None))
      else
        && CallerAt(run[n + 1], p) == Requesting(Issued(events[..n]) + 1, |run[n].chans|)
        && NumberKey(Issued(events[..n]) + 1) in run[n + 1].pending
  {
    hide CallsInv, Owned, HasFailed, IsShut, Issued;
    RunKeepsCalls(run, events, n);
    hide Inv;
    assert CanStep(run[n], events[n]) && run[n + 1] == Step(run[n], events[n]);
    AskingGoesOut(run[n], p);
    hide IsRun, Step, CanStep;
  }

  lemma AskingGoesOut(c: Client, p: Pid)
    requires CanStep(c, Request(p))
    ensures Step(c, Request(p)) ==
      if c.flags.failed || c.flags.closing then Become(c, p, Finished(None)) else Requested(c, p)
  {
    hide Become, Requested;
  }

  /**
   A request still waiting receives its own answer once that has been read, and
   nothing once failure came before it; until then it has nothing to receive, and
   the client has not failed.
   */
  lemma RequestsAreAnswered(run: seq<Client>, events: seq<Event>, n: nat, p: Pid)
    requires IsRun(run, events) && n < |run| && CallerAt(run[n], p).Requesting?
    ensures var c, id := run[n], CallerAt(run[n], p).id;
      match ProgressOf(events[..n], id)
      case Unmade => false
      case Awaited => !Ready(c, p) && !HasFailed(events[..n])
      case Taken(_) => !Ready(c, p) && c.reading.Some?
      case Answered(body) => Ready(c, p) && CallerAt(Received(c, p), p) == Finished(Some(Response(RequestId(id), body)))
      case Lost => Ready(c, p) && CallerAt(Received(c, p), p) == Finished(None)
  {
    RunKeepsCalls(run, events, n);
    var c, w := run[n], CallerAt(run[n], p);
    assert CallInv(c, w.id, w.chan, ProgressOf(events[..n], w.id));
    hide ChansInv, CallersInv, CallsInv, Owned, ProgressOf, HasFailed, IsShut, Issued;
  }

  /**
   Once the client has failed nothing is waited for and every caller may stop;
   and what is pending is always some caller's that still waits.
   */
  lemma NobodyWaitsForNothing(run: seq<Client>, events: seq<Event>, n: nat, p: Pid, key: string)
    requires IsRun(run, events) && n < |run|
    ensures HasFailed(events[..n]) ==>
      && run[n].pending == map[] && run[n].waiters == map[]
      && (!CallerAt(run[n], p).Finished? ==>
            CanStep(run[n], SeeDone(p)) && CallerAt(Step(run[n], SeeDone(p)), p) == Finished(None))
    ensures key in run[n].pending ==>
      exists q: Pid :: CallerAt(run[n], q).Requesting? && NumberKey(CallerAt(run[n], q).id) == key
  {
    RunKeepsCalls(run, events, n);
    var c := run[n];
    if key in c.pending {
      var q :| q in c.callers && c.callers[q].Requesting? && NumberKey(c.callers[q].id) == key;
      assert CallerAt(c, q).Requesting? && NumberKey(CallerAt(c, q).id) == key;
    }
    hide MapsInv, ChansInv, CallersInv, CallsInv, Owned, HasFailed, IsShut, Issued, NumberKey;
  }

  // ---- turns ----

  /** The thread has been tracked, and neither forgotten nor lost with the client since. */
  function IsTracked(events: seq<Event>, thread: string): bool {
    if events == [] then false
    else
      match events[|events| - 1]
      case Track(t) => t == thread || IsTracked(events[..|events| - 1], thread)
      case ForgetThread(t) => t != thread && IsTracked(events[..|events| - 1], thread)
      case Fail => IsTracked(events[..|events| - 1], thread) && HasFailed(events[..|events| - 1])
      case _ => IsTracked(events[..|events| - 1], thread)
  }

  /** The tracked threads are as the events say, and what is kept as completed is a tracked thread's. */
  ghost predicate TurnsAsSaid(t: Turns, events: seq<Event>) {
    && (forall thread :: thread in t.tracked <==> IsTracked(events, thread))
    && (forall k :: k in t.completed ==> OfTracked(t.tracked, k))
  }

  ghost predicate OfTracked(tracked: set<string>, k: string) { exists thread :: thread in tracked && KeyOf(k, thread) }

  lemma StepKeepsTurns(c: Client, events: seq<Event>, e: Event)
    requires Inv(c) && CanStep(c, e) && FlagsAsSaid(c, events) && TurnsAsSaid(c.turns, events)
    ensures TurnsAsSaid(Step(c, e).turns, events + [e])
  {
    var t, t' := c.turns, Step(c, e).turns;
    LastEvent(events, e);
    hide HasFailed, IsShut, Issued;
    TrackedMoves(c, e);
    CompletedMovesTo(c, e);
    hide Inv, Step, CanStep;
    forall k | k in t'.completed
      ensures OfTracked(t'.tracked, k)
    {
      if e.TurnCompleted? && k == TurnKey(e.thread, e.turn) && e.thread in t.tracked {
        OwnKey(e.thread, e.turn);
        assert e.thread in t'.tracked;
      } else {
        var thread :| thread in t.tracked && KeyOf(k, thread);
        assert thread in t'.tracked;
      }
    }
  }

  lemma OwnKey(thread: string, turn: string)
    ensures KeyOf(TurnKey(thread, turn), thread)
  {
    assert TurnKey(thread, turn)[..|thread| + 1] == thread + "\0";
  }

  lemma TrackedMoves(c: Client, e: Event)
    requires CanStep(c, e)
    ensures Step(c, e).turns.tracked ==
      match e
      case Track(t) => c.turns.tracked + {t}
      case ForgetThread(t) => c.turns.tracked - {t}
      case Fail => if c.flags.failed then c.turns.tracked else {}
      case _ => c.turns.tracked
  {
    hide Key, RequestId, CloseAll, Closable;
    match e
    case Answer =>
      hide Send, Close;
      SendMoves(c, c.reading.value.0, c.reading.value.1);
    case _ => hide WithoutThread;
  }

  lemma CompletedMovesTo(c: Client, e: Event)
    requires CanStep(c, e)
    ensures forall k :: k in Step(c, e).turns.completed ==>
      && (k in c.turns.completed || (e.TurnCompleted? && k == TurnKey(e.thread, e.turn) && e.thread in c.turns.tracked))
      && (e.ForgetThread? ==> !KeyOf(k, e.thread)) && (e == Fail ==> c.flags.failed)
  {
    hide Key, RequestId, CloseAll, Closable;
    match e
    case Answer =>
      hide Send, Close;
      SendMoves(c, c.reading.value.0, c.reading.value.1);
    case _ =>
  }

  lemma NewTurns()
    ensures TurnsAsSaid(New().turns, [])
  {
  }

  lemma {:induction false} RunKeepsTurns(run: seq<Client>, events: seq<Event>, n: nat)
    requires IsRun(run, events) && n < |run|
    ensures TurnsAsSaid(run[n].turns, events[..n])
  {
    hide Inv, CanStep, Step, FlagsAsSaid, CallsInv, Owned, TurnsAsSaid;
    if n == 0 {
      NewTurns();
    } else {
      RunKeepsTurns(run, events, n - 1);
      RunKeepsCalls(run, events, n - 1);
      assert events[..n] == events[..n - 1] + [events[n - 1]];
      StepKeepsTurns(run[n - 1], events[..n - 1], events[n - 1]);
    }
  }

  /** A wait given up leaves no waiter for the turn, and only the entry under its key goes. */
  lemma WaitsAreGivenUp(run: seq<Client>, events: seq<Event>, n: nat, p: Pid)
    requires IsRun(run, events) && n < |events| && events[n] == CancelWait(p)
    ensures CallerAt(run[n], p).Waiting?
    ensures run[n + 1] ==
      Become(run[n].(waiters := run[n].waiters - {CallerAt(run[n], p).key}), p, Finished(None))
  {
    assert CanStep(run[n], events[n]) && run[n + 1] == Step(run[n], events[n]);
  }

  /**
   A wait for a turn of a thread that is not tracked is refused and changes
   nothing else; and no completion is kept but for a tracked thread.
   */
  lemma OnlyTrackedTurnsAreWaitedFor(
    run: seq<Client>, events: seq<Event>, n: nat, p: Pid, thread: string, turn: string, key: string)
    requires IsRun(run, events) && n < |events|
    ensures events[n] == WaitTurn(p, thread, turn) && !IsTracked(events[..n], thread) ==>
      run[n + 1] == Become(run[n], p, Finished(None))
    ensures key in run[n].turns.completed ==> exists t :: IsTracked(events[..n], t) && KeyOf(key, t)
  {
    RunKeepsTurns(run, events, n);
    assert CanStep(run[n], events[n]) && run[n + 1] == Step(run[n], events[n]);
    if key in run[n].turns.completed {
      var t :| t in run[n].turns.tracked && KeyOf(key, t);
      assert IsTracked(events[..n], t);
    }
    hide IsTracked, KeyOf;
  }
}
