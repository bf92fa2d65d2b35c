/**
 The JSON-RPC client of a Codex app-server (internal/codexadapter/rpc.go):
 requests, responses, turn waiters and the one-shot failure path. A step is what
 happens under one hold of the client's mutex, or one channel operation outside
 it, so runs are all interleavings of any number of callers with the read loop
 and with failure. `fault` records a channel operation Go would refuse: a send on
 or close of a closed channel, or a send that would block the sender.
 */
module Rpc {
  import opened Wrappers
  import Format

  // ---- request identifiers ----

  /** A JSON-RPC identifier: a string, or a number as it is spelled. */
  datatype Id = Str(text: string) | Num(text: string)

  function Key(id: Id): string {
    match id
    case Str(text) => "s:" + text
    case Num(text) => "n:" + text
  }

  lemma KeyIsInjective(a: Id, b: Id)
    ensures Key(a) == Key(b) <==> a == b
  {
    assert Key(a)[0] == (if a.Str? then 's' else 'n') && Key(a)[2..] == a.text;
    assert Key(b)[0] == (if b.Str? then 's' else 'n') && Key(b)[2..] == b.text;
  }

  function RequestId(n: nat): Id { Num(Format.Decimal(n)) }

  // ---- turn keys ----

  function TurnKey(thread: string, turn: string): string { thread + "\0" + turn }

  /** ForgetThread's test of a key. */
  predicate KeyOf(key: string, thread: string) { thread + "\0" <= key }

  /** A thread's keys are exactly those it was given, as no thread ID holds a NUL. */
  lemma KeyOfIsOwn(thread: string, turn: string, other: string)
    requires '\0' !in thread && '\0' !in other
    ensures KeyOf(TurnKey(thread, turn), other) <==> thread == other
  {
    var key, mark := TurnKey(thread, turn), other + "\0";
    if KeyOf(key, other) {
      assert forall i :: 0 <= i < |other| ==> key[i] == mark[i] == other[i];
      assert key[|other|] == mark[|other|] == '\0';
      assert key[|thread|] == '\0';
      assert |thread| == |other|;
      assert forall i :: 0 <= i < |thread| ==> key[i] == thread[i];
    }
    assert TurnKey(other, turn)[..|mark|] == mark;
  }

  // ---- state ----

  type Pid = nat

  datatype Message =
    | Response(id: Id, body: string)
    | Completion(key: string, body: string)

  /** What a channel was made for. */
  datatype Label = ForRequest(key: string) | ForTurn(key: string)

  /** A channel with room for one message. */
  datatype Chan = Chan(purpose: Label, buf: seq<Message>, closed: bool)

  datatype Caller =
    | Requesting(id: nat, chan: nat)
    | Waiting(key: string, chan: nat)
    | Finished(got: Option<Message>)

  datatype Flags = Flags(closing: bool, failed: bool, done: bool, handshakeDone: bool, handshakeComplete: bool)

  /**
   Turns: those completed and not yet waited for, and the tracked threads; and,
   for the record, which were waited for, what arrived for each, and what
   WaitTurn has returned.
   */
  datatype Turns = Turns(completed: map<string, Message>, tracked: set<string>, waited: set<string>,
                         arrived: map<string, Message>, returned: seq<Message>)

  /**
   The client's maps and flags, every channel made, what the read loop holds
   between taking a response's channel and answering on it, and the callers.
   */
  datatype Client = Client(
    nextId: nat, pending: map<string, nat>, waiters: map<string, nat>, reading: Option<(nat, Message)>,
    chans: seq<Chan>, callers: map<Pid, Caller>, turns: Turns, flags: Flags, fault: bool)

  function New(): Client {
    Client(0, map[], map[], None, [], map[], Turns(map[], {}, {}, map[], []),
           Flags(false, false, false, false, false), false)
  }

  function Make(c: Client, purpose: Label): Client {
    c.(chans := c.chans + [Chan(purpose, [], false)])
  }

  function Send(c: Client, ch: nat, m: Message): Client {
    if ch >= |c.chans| || c.chans[ch].closed || c.chans[ch].buf != [] then c.(fault := true)
    else c.(chans := c.chans[ch := c.chans[ch].(buf := [m])])
  }

  function Close(c: Client, ch: nat): Client {
    if ch >= |c.chans| || c.chans[ch].closed then c.(fault := true)
    else c.(chans := c.chans[ch := c.chans[ch].(closed := true)])
  }

  function Become(c: Client, p: Pid, caller: Caller): Client { c.(callers := c.callers[p := caller]) }

  // ---- the steps ----

  datatype Event =
    | Request(p: Pid)                         // sendRequest up to its wait
    | Abandon(p: Pid)                         // encoding or writing failed, or the context ended
    | TakeResponse(id: Id, body: string)      // handleFrame takes the request's channel
    | Answer                                  // and answers on it, after the mutex
    | Receive(p: Pid)                         // the caller's channel is ready
    | SeeDone(p: Pid)                         // or the client failed
    | Track(thread: string)
    | WaitTurn(p: Pid, thread: string, turn: string)
    | CancelWait(p: Pid)
    | TurnCompleted(thread: string, turn: string, body: string)
    | ForgetThread(thread: string)
    | CompleteHandshake
    | Shut                                    // Close
    | Fail

  function CallerAt(c: Client, p: Pid): Caller {
    if p in c.callers then c.callers[p] else Finished(None)
  }

  predicate Ready(c: Client, p: Pid) {
    var w := CallerAt(c, p);
    !w.Finished? && w.chan < |c.chans| && (c.chans[w.chan].buf != [] || c.chans[w.chan].closed)
  }

  predicate CanStep(c: Client, e: Event) {
    match e
    case Request(p) => CallerAt(c, p).Finished?
    case Abandon(p) => CallerAt(c, p).Requesting?
    case TakeResponse(_, _) => c.reading.None?
    case Answer => c.reading.Some?
    case Receive(p) => Ready(c, p)
    case SeeDone(p) => !CallerAt(c, p).Finished? && c.flags.done
    case WaitTurn(p, _, _) => CallerAt(c, p).Finished?
    case CancelWait(p) => CallerAt(c, p).Waiting?
    case TurnCompleted(_, _, _) => c.reading.None?
    case _ => true
  }

  ghost function Step(c: Client, e: Event): Client
    requires CanStep(c, e)
  {
    match e
    case Request(p) => if c.flags.failed || c.flags.closing then Become(c, p, Finished(None)) else Requested(c, p)
    case Abandon(p) => Become(c.(pending := c.pending - {Key(RequestId(CallerAt(c, p).id))}), p, Finished(None))
    case TakeResponse(id, body) =>
      var key := Key(id);
      if key in c.pending then c.(pending := c.pending - {key}, reading := Some((c.pending[key], Response(id, body))))
      else c
    case Answer => Close(Send(c, c.reading.value.0, c.reading.value.1), c.reading.value.0).(reading := None)
    case Receive(p) => Received(c, p)
    case SeeDone(p) => Become(c, p, Finished(None))
    case Track(thread) => c.(turns := c.turns.(tracked := c.turns.tracked + {thread}))
    case WaitTurn(p, thread, turn) => Waited(c, p, thread, TurnKey(thread, turn))
    case CancelWait(p) => Become(c.(waiters := c.waiters - {CallerAt(c, p).key}), p, Finished(None))
    case TurnCompleted(thread, turn, body) => Completed(c, thread, TurnKey(thread, turn), body)
    case ForgetThread(thread) => Forgotten(c, thread)
    case CompleteHandshake => Handshaken(c)
    case Shut => c.(flags := c.flags.(closing := true))
    case Fail => Failed(c)
  }

  function Requested(c: Client, p: Pid): Client {
    var id, ch := c.nextId + 1, |c.chans|;
    var key := Key(RequestId(id));
    Become(Make(c.(nextId := id, pending := c.pending[key := ch]), ForRequest(key)), p, Requesting(id, ch))
  }

  function Received(c: Client, p: Pid): Client
    requires Ready(c, p)
  {
    var w := CallerAt(c, p);
    var ch := c.chans[w.chan];
    if ch.buf == [] then Become(c, p, Finished(None))
    else
      var turns := if w.Waiting? then Returns(c.turns, ch.buf[0]) else c.turns;
      Become(c.(chans := c.chans[w.chan := ch.(buf := [])], turns := turns), p, Finished(Some(ch.buf[0])))
  }

  function Returns(turns: Turns, m: Message): Turns { turns.(returned := turns.returned + [m]) }

  function Waited(c: Client, p: Pid, thread: string, key: string): Client {
    if thread !in c.turns.tracked then Become(c, p, Finished(None))
    else if key in c.turns.completed then TakeCompleted(c, p, key)
    else if c.flags.done then Become(MarkWaited(c, key), p, Finished(None))
    else Register(c, p, key)
  }

  function MarkWaited(c: Client, key: string): Client { c.(turns := c.turns.(waited := c.turns.waited + {key})) }

  function TakeCompleted(c: Client, p: Pid, key: string): Client
    requires key in c.turns.completed
  {
    var t, m := c.turns, c.turns.completed[key];
    var t' := t.(waited := t.waited + {key}, completed := t.completed - {key}, returned := t.returned + [m]);
    Become(c.(turns := t'), p, Finished(Some(m)))
  }

  function Register(c: Client, p: Pid, key: string): Client {
    var ch := |c.chans|;
    Become(Make(MarkWaited(c, key).(waiters := c.waiters[key := ch]), ForTurn(key)), p, Waiting(key, ch))
  }

  function Completed(c: Client, thread: string, key: string, body: string): Client {
    var m := Completion(key, body);
    var turns := c.turns.(arrived := c.turns.arrived[key := m]);
    if key in c.waiters then
      Close(Send(c.(waiters := c.waiters - {key}, turns := turns), c.waiters[key], m), c.waiters[key])
    else if thread in turns.tracked then c.(turns := turns.(completed := turns.completed[key := m]))
    else c.(turns := turns)
  }

  function Forgotten(c: Client, thread: string): Client {
    c.(waiters := WithoutThread(c.waiters, thread),
       turns := c.turns.(tracked := c.turns.tracked - {thread}, completed := WithoutThread(c.turns.completed, thread)))
  }

  /** The entries of other threads' turns. */
  function WithoutThread<V>(m: map<string, V>, thread: string): map<string, V> {
    map k | k in m && !KeyOf(k, thread) :: m[k]
  }

  /** Closes handshakeDone, once. */
  function Handshaken(c: Client): Client {
    if c.flags.handshakeComplete then c
    else
      c.(flags := c.flags.(handshakeComplete := true, handshakeDone := true), fault := c.fault || c.flags.handshakeDone)
  }

  /** The channels failure closes. */
  function Open(c: Client): set<nat> { c.pending.Values + c.waiters.Values }

  /** No two entries of the maps share a channel, and each is open. */
  ghost predicate Closable(c: Client) {
    && (forall k :: k in c.pending ==> c.pending[k] < |c.chans| && !c.chans[c.pending[k]].closed)
    && (forall k :: k in c.waiters ==> c.waiters[k] < |c.chans| && !c.chans[c.waiters[k]].closed)
    && (forall k, k' :: k in c.pending && k' in c.pending && c.pending[k] == c.pending[k'] ==> k == k')
    && (forall k, k' :: k in c.waiters && k' in c.waiters && c.waiters[k] == c.waiters[k'] ==> k == k')
    && (forall k, k' :: k in c.pending && k' in c.waiters ==> c.pending[k] != c.waiters[k'])
  }

  function CloseAll(chans: seq<Chan>, open: set<nat>): (r: seq<Chan>)
    ensures |r| == |chans|
    ensures forall i :: 0 <= i < |chans| ==> r[i] == if i in open then chans[i].(closed := true) else chans[i]
  {
    seq(|chans|, i requires 0 <= i < |chans| => if i in open then chans[i].(closed := true) else chans[i])
  }

  ghost function Failed(c: Client): Client {
    if c.flags.failed then c
    else
      var h := Handshaken(c);
      h.(chans := CloseAll(c.chans, Open(c)), pending := map[], waiters := map[],
         turns := c.turns.(completed := map[], tracked := {}),
         flags := h.flags.(failed := true, done := true),
         fault := h.fault || !Closable(c) || c.flags.done)
  }

  // ---- no channel is misused, and what a channel carries is for whom it was made ----

  predicate Fits(ch: Chan, m: Message) {
    match ch.purpose
    case ForRequest(key) => m.Response? && Key(m.id) == key
    case ForTurn(key) => m.Completion? && m.key == key
  }

  /** A channel nobody has sent on or closed. */
  predicate Fresh(chans: seq<Chan>, ch: nat, purpose: Label) {
    ch < |chans| && chans[ch] == Chan(purpose, [], false)
  }

  /** What waits for an answer waits on a fresh channel made for it, and no two on the same one. */
  ghost predicate MapsInv(pending: map<string, nat>, waiters: map<string, nat>,
                          reading: Option<(nat, Message)>, chans: seq<Chan>) {
    && (forall k :: k in pending ==> Fresh(chans, pending[k], ForRequest(k)))
    && (forall k :: k in waiters ==> Fresh(chans, waiters[k], ForTurn(k)))
    && (reading.Some? ==> HeldInv(pending, reading.value.0, reading.value.1, chans))
  }

  ghost predicate HeldInv(pending: map<string, nat>, ch: nat, m: Message, chans: seq<Chan>) {
    m.Response? && Fresh(chans, ch, ForRequest(Key(m.id))) && forall k :: k in pending ==> pending[k] != ch
  }

  ghost predicate ChansInv(chans: seq<Chan>) {
    forall i :: 0 <= i < |chans| ==> ChanInv(chans[i])
  }

  predicate ChanInv(ch: Chan) { |ch.buf| <= 1 && (ch.buf != [] ==> Fits(ch, ch.buf[0])) }

  ghost predicate CallersInv(callers: map<Pid, Caller>, chans: seq<Chan>) {
    forall p :: p in callers ==> CallerInv(callers[p], chans)
  }

  predicate CallerInv(w: Caller, chans: seq<Chan>) {
    match w
    case Requesting(id, ch) => ch < |chans| && chans[ch].purpose == ForRequest(Key(RequestId(id)))
    case Waiting(key, ch) => ch < |chans| && chans[ch].purpose == ForTurn(key)
    case Finished(_) => true
  }

  predicate FlagsInv(c: Client) {
    !c.fault && c.flags.handshakeDone == c.flags.handshakeComplete && c.flags.done == c.flags.failed
  }

  ghost predicate Inv(c: Client) {
    && FlagsInv(c) && MapsInv(c.pending, c.waiters, c.reading, c.chans)
    && ChansInv(c.chans) && CallersInv(c.callers, c.chans)
  }

  /** Channels are only ever added, and keep what they were made for. */
  predicate Grows(chans: seq<Chan>, chans': seq<Chan>) {
    |chans| <= |chans'| && forall i :: 0 <= i < |chans| ==> chans'[i].purpose == chans[i].purpose
  }

  lemma CallersKept(callers: map<Pid, Caller>, chans: seq<Chan>, chans': seq<Chan>)
    requires CallersInv(callers, chans) && Grows(chans, chans')
    ensures CallersInv(callers, chans')
  {
    forall p | p in callers
      ensures CallerInv(callers[p], chans')
    {
      assert CallerInv(callers[p], chans);
    }
  }

  lemma BecomeKeeps(callers: map<Pid, Caller>, chans: seq<Chan>, p: Pid, w: Caller)
    requires CallersInv(callers, chans) && CallerInv(w, chans)
    ensures CallersInv(callers[p := w], chans)
  {
  }

  lemma MakeKeeps(pending: map<string, nat>, waiters: map<string, nat>, reading: Option<(nat, Message)>,
                  chans: seq<Chan>, purpose: Label)
    requires MapsInv(pending, waiters, reading, chans) && ChansInv(chans)
    ensures var chans' := chans + [Chan(purpose, [], false)];
      && ChansInv(chans') && Grows(chans, chans')
      && MapsInv(if purpose.ForRequest? then pending[purpose.key := |chans|] else pending,
                 if purpose.ForTurn? then waiters[purpose.key := |chans|] else waiters, reading, chans')
  {
  }

  lemma RequestKeeps(c: Client, p: Pid)
    requires Inv(c)
    ensures Inv(Requested(c, p))
  {
    var id, ch := c.nextId + 1, |c.chans|;
    var purpose := ForRequest(Key(RequestId(id)));
    var chans := c.chans + [Chan(purpose, [], false)];
    MakeKeeps(c.pending, c.waiters, c.reading, c.chans, purpose);
    CallersKept(c.callers, c.chans, chans);
    BecomeKeeps(c.callers, chans, p, Requesting(id, ch));
    hide MapsInv, ChansInv, CallersInv;
  }

  lemma Finishing(c: Client, p: Pid)
    requires Inv(c)
    ensures forall got :: CallersInv(c.callers[p := Finished(got)], c.chans)
  {
  }

  lemma WaitKeeps(c: Client, p: Pid, thread: string, key: string)
    requires Inv(c)
    ensures Inv(Waited(c, p, thread, key))
  {
    var ch, chans := |c.chans|, c.chans + [Chan(ForTurn(key), [], false)];
    MakeKeeps(c.pending, c.waiters, c.reading, c.chans, ForTurn(key));
    CallersKept(c.callers, c.chans, chans);
    BecomeKeeps(c.callers, chans, p, Waiting(key, ch));
    Finishing(c, p);
    hide MapsInv, ChansInv, CallersInv;
  }

  /** Sending on a fresh channel and closing it touches nothing else that waits. */
  lemma AnswerOn(pending: map<string, nat>, waiters: map<string, nat>, chans: seq<Chan>, ch: nat, purpose: Label,
                 m: Message)
    requires MapsInv(pending, waiters, None, chans) && ChansInv(chans)
    requires Fresh(chans, ch, purpose) && Fits(chans[ch], m)
    requires (forall k :: k in pending ==> pending[k] != ch) && (forall k :: k in waiters ==> waiters[k] != ch)
    ensures var chans' := chans[ch := Chan(purpose, [m], true)];
      MapsInv(pending, waiters, None, chans') && ChansInv(chans') && Grows(chans, chans')
  {
  }

  lemma AnswerKeeps(c: Client)
    requires Inv(c) && c.reading.Some?
    ensures Inv(Step(c, Answer))
  {
    var (ch, m) := c.reading.value;
    assert forall k :: k in c.waiters ==> c.waiters[k] != ch;
    AnswerOn(c.pending, c.waiters, c.chans, ch, ForRequest(Key(m.id)), m);
    CallersKept(c.callers, c.chans, c.chans[ch := Chan(ForRequest(Key(m.id)), [m], true)]);
    SendThenClose(c, ch, ForRequest(Key(m.id)), m);
    hide MapsInv, ChansInv, CallersInv;
  }

  lemma SendThenClose(c: Client, ch: nat, purpose: Label, m: Message)
    requires Fresh(c.chans, ch, purpose)
    ensures Close(Send(c, ch, m), ch) == c.(chans := c.chans[ch := Chan(purpose, [m], true)])
  {
  }

  lemma CompletedKeeps(c: Client, thread: string, key: string, body: string)
    requires Inv(c) && c.reading.None?
    ensures Inv(Completed(c, thread, key, body))
  {
    if key in c.waiters {
      var ch, m, waiters := c.waiters[key], Completion(key, body), c.waiters - {key};
      AnswerOn(c.pending, waiters, c.chans, ch, ForTurn(key), m);
      CallersKept(c.callers, c.chans, c.chans[ch := Chan(ForTurn(key), [m], true)]);
      SendThenClose(c.(waiters := waiters, turns := c.turns.(arrived := c.turns.arrived[key := m])), ch, ForTurn(key),
                    m);
      hide MapsInv, ChansInv, CallersInv;
    }
  }

  lemma ReceivedKeeps(c: Client, p: Pid)
    requires Inv(c) && Ready(c, p)
    ensures Inv(Received(c, p))
  {
    var w := CallerAt(c, p);
    var ch := c.chans[w.chan];
    var chans' := c.chans[w.chan := ch.(buf := [])];
    if ch.buf != [] {
      assert ChansInv(chans') && Grows(c.chans, chans');
      assert MapsInv(c.pending, c.waiters, c.reading, chans');
      CallersKept(c.callers, c.chans, chans');
      BecomeKeeps(c.callers, chans', p, Finished(Some(ch.buf[0])));
      hide MapsInv, ChansInv, CallersInv;
    }
  }

  lemma FailKeeps(c: Client)
    requires Inv(c)
    ensures Inv(Failed(c))
  {
    var chans' := CloseAll(c.chans, Open(c));
    assert Closable(c);
    assert ChansInv(chans') && Grows(c.chans, chans');
    HeldStaysFresh(c);
    CallersKept(c.callers, c.chans, chans');
    hide ChansInv, CallersInv;
  }

  lemma HeldStaysFresh(c: Client)
    requires Inv(c)
    ensures MapsInv(map[], map[], c.reading, CloseAll(c.chans, Open(c)))
  {
    if c.reading.Some? {
      var ch := c.reading.value.0;
      assert ch !in c.pending.Values && ch !in c.waiters.Values;
    }
  }

  lemma StepKeepsInv(c: Client, e: Event)
    requires Inv(c) && CanStep(c, e)
    ensures Inv(Step(c, e))
  {
    match e
    case Request(p) => RequestKeeps(c, p);
    case Answer => AnswerKeeps(c);
    case Receive(p) => ReceivedKeeps(c, p);
    case WaitTurn(p, thread, turn) => WaitKeeps(c, p, thread, TurnKey(thread, turn));
    case TurnCompleted(thread, turn, body) => CompletedKeeps(c, thread, TurnKey(thread, turn), body);
    case Fail => FailKeeps(c);
    case TakeResponse(id, body) => TakeKeeps(c, id, body);
    case _ =>
  }

  lemma TakeKeeps(c: Client, id: Id, body: string)
    requires Inv(c) && c.reading.None?
    ensures Inv(Step(c, TakeResponse(id, body)))
  {
  }

  // ---- whole runs ----

  ghost predicate IsRun(run: seq<Client>, events: seq<Event>) {
    && |run| == |events| + 1 && run[0] == New()
    && forall i :: 0 <= i < |events| ==> CanStep(run[i], events[i]) && run[i + 1] == Step(run[i], events[i])
  }

  lemma {:induction false} RunKeepsInv(run: seq<Client>, events: seq<Event>, n: nat)
    requires IsRun(run, events) && n < |run|
    ensures Inv(run[n])
  {
    if n > 0 {
      RunKeepsInv(run, events, n - 1);
      hide Step, CanStep, Inv;
      StepKeepsInv(run[n - 1], events[n - 1]);
    }
  }

  /** In every run no channel is closed twice, written after closing or written while full. */
  lemma ChannelsAreNeverMisused(run: seq<Client>, events: seq<Event>, n: nat)
    requires IsRun(run, events) && n < |run|
    ensures !run[n].fault
  {
    RunKeepsInv(run, events, n);
  }

  /**
   What a request's caller receives is the response to that very request and to
   no other: same number, and a number rather than a string that reads like it.
   */
  lemma ResponseReachesItsRequest(run: seq<Client>, events: seq<Event>, n: nat, p: Pid, number: nat)
    requires IsRun(run, events) && n < |events| && events[n] == Receive(p) && CallerAt(run[n], p).Requesting?
    ensures var got := CallerAt(run[n + 1], p).got;
      && (got.Some? ==> got.value.Response?)
      && (got.Some? ==> (got.value.id == RequestId(number) <==> number == CallerAt(run[n], p).id))
  {
    RunKeepsInv(run, events, n);
    var c := run[n];
    var w := CallerAt(c, p);
    assert CanStep(c, events[n]) && run[n + 1] == Received(c, p);
    assert CallerInv(c.callers[p], c.chans);
    var ch := c.chans[w.chan];
    assert ChanInv(ch);
    if ch.buf != [] && ch.buf[0].Response? {
      KeyIsInjective(ch.buf[0].id, RequestId(w.id));
      if RequestId(number) == RequestId(w.id) { DecimalInjective(number, w.id); }
    }
  }

  lemma {:induction false} DecimalInjective(n: nat, m: nat)
    requires RequestId(n) == RequestId(m)
    ensures n == m
  {
    Format.DecimalReadsBack(n);
    Format.DecimalReadsBack(m);
  }

  // ---- a turn's completion is returned exactly once ----

  /** The completions of turn k among those returned. */
  function For(returned: seq<Message>, k: string): seq<Message> {
    if returned == [] then []
    else
      var m := returned[|returned| - 1];
      For(returned[..|returned| - 1], k) + if m.Completion? && m.key == k then [m] else []
  }

  predicate WaitsFor(w: Caller, k: string) { w.Waiting? && w.key == k }

  ghost predicate NoWaiter(c: Client, k: string) {
    forall p :: p in c.callers ==> !WaitsFor(c.callers[p], k)
  }

  /** p waits for k on ch, and nobody else waits for k. */
  ghost predicate OnlyWaiter(c: Client, k: string, p: Pid, ch: nat) {
    && p in c.callers && c.callers[p] == Waiting(k, ch)
    && forall q :: q in c.callers && WaitsFor(c.callers[q], k) ==> q == p
  }

  /** A waiter about to receive m. */
  ghost predicate Served(c: Client, k: string, p: Pid, ch: nat, m: Message) {
    OnlyWaiter(c, k, p, ch) && ch < |c.chans| && c.chans[ch].buf == [m]
  }

  ghost predicate TurnInv(c: Client, k: string) {
    var t := c.turns;
    && !c.flags.done
    && (k in t.arrived ==> t.arrived[k].Completion? && t.arrived[k].key == k)
    && if k !in t.waited then
         && For(t.returned, k) == [] && k !in c.waiters && NoWaiter(c, k)
         && (k in t.completed <==> k in t.arrived) && (k in t.completed ==> t.completed[k] == t.arrived[k])
       else if k !in t.arrived then
         For(t.returned, k) == [] && k !in t.completed && k in c.waiters
         && exists p: Pid :: OnlyWaiter(c, k, p, c.waiters[k])
       else
         && k !in t.completed && k !in c.waiters
         && ((For(t.returned, k) == [t.arrived[k]] && NoWaiter(c, k))
           || (For(t.returned, k) == [] && exists p: Pid, ch: nat :: Served(c, k, p, ch, t.arrived[k])))
  }

  /** One waiter, one completion, and none of cancelling, forgetting and failing. */
  predicate CalmFor(c: Client, e: Event, k: string) {
    match e
    case Fail => false
    case ForgetThread(thread) => !KeyOf(k, thread)
    case CancelWait(p) => !WaitsFor(CallerAt(c, p), k)
    case WaitTurn(_, thread, turn) => TurnKey(thread, turn) == k ==> k !in c.turns.waited
    case TurnCompleted(thread, turn, _) =>
      TurnKey(thread, turn) == k ==> k !in c.turns.arrived && thread in c.turns.tracked
    case _ => true
  }

  /** A step that leaves everything about turn k as it was. */
  ghost predicate SameFor(c: Client, c': Client, k: string) {
    && c'.flags.done == c.flags.done
    && SameTurns(c.turns, c'.turns, k)
    && SameAt(c.waiters, c'.waiters, k)
    && SameWaiters(c.callers, c'.callers, k)
    && SameChans(c.chans, c'.chans, k)
  }

  ghost predicate SameTurns(t: Turns, t': Turns, k: string) {
    && (k in t'.waited <==> k in t.waited)
    && SameAt(t.arrived, t'.arrived, k) && SameAt(t.completed, t'.completed, k)
    && For(t'.returned, k) == For(t.returned, k)
  }

  ghost predicate SameChans(chans: seq<Chan>, chans': seq<Chan>, k: string) {
    |chans| <= |chans'|
    && forall i :: 0 <= i < |chans| && chans[i].purpose == ForTurn(k) ==> chans'[i].buf == chans[i].buf
  }

  predicate SameAt<T(==)>(m: map<string, T>, m': map<string, T>, k: string) {
    (k in m <==> k in m') && (k in m ==> m'[k] == m[k])
  }

  lemma SameKeeps(c: Client, c': Client, k: string)
    requires TurnInv(c, k) && Inv(c) && SameFor(c, c', k)
    ensures TurnInv(c', k)
  {
    if k in c.turns.waited {
      if k !in c.turns.arrived {
        var p: Pid :| OnlyWaiter(c, k, p, c.waiters[k]);
        assert OnlyWaiter(c', k, p, c'.waiters[k]);
      } else if For(c.turns.returned, k) == [] {
        var p: Pid, ch: nat :| Served(c, k, p, ch, c.turns.arrived[k]);
        assert CallerInv(c.callers[p], c.chans);
        assert Served(c', k, p, ch, c'.turns.arrived[k]);
      }
    }
  }

  lemma ForAppend(returned: seq<Message>, m: Message, k: string)
    ensures For(returned + [m], k) == For(returned, k) + if m.Completion? && m.key == k then [m] else []
  {
    assert (returned + [m])[..|returned|] == returned;
  }

  lemma ReceiveOther(c: Client, p: Pid, k: string)
    requires Inv(c) && Ready(c, p) && !WaitsFor(CallerAt(c, p), k)
    ensures SameFor(c, Received(c, p), k)
  {
    var w := CallerAt(c, p);
    var ch := c.chans[w.chan];
    assert CallerInv(c.callers[p], c.chans) && ChanInv(ch);
    hide MapsInv, ChansInv, CallersInv;
    CallersSame(c.callers, p, Finished(None), k);
    if ch.buf != [] {
      CallersSame(c.callers, p, Finished(Some(ch.buf[0])), k);
      ReturnsOther(c.turns, ch.buf[0], k, w);
      assert SameChans(c.chans, Received(c, p).chans, k);
    }
    hide SameWaiters, SameTurns, SameChans;
  }

  lemma ReturnsOther(turns: Turns, m: Message, k: string, w: Caller)
    requires w.Waiting? ==> m.Completion? && m.key != k
    ensures SameTurns(turns, turns, k) && (w.Waiting? ==> SameTurns(turns, Returns(turns, m), k))
  {
    ForAppend(turns.returned, m, k);
  }

  /** The waiters of turn k are the same in both. */
  ghost predicate SameWaiters(callers: map<Pid, Caller>, callers': map<Pid, Caller>, k: string) {
    && (forall p :: p in callers && WaitsFor(callers[p], k) ==> p in callers' && callers'[p] == callers[p])
    && (forall p :: p in callers' && WaitsFor(callers'[p], k) ==> p in callers && callers'[p] == callers[p])
  }

  lemma CallersSame(callers: map<Pid, Caller>, p: Pid, w: Caller, k: string)
    requires p in callers ==> !WaitsFor(callers[p], k)
    requires !WaitsFor(w, k)
    ensures SameWaiters(callers, callers[p := w], k)
  {
  }

  lemma ReceiveOwn(c: Client, p: Pid, k: string)
    requires Inv(c) && TurnInv(c, k) && Ready(c, p) && WaitsFor(CallerAt(c, p), k)
    ensures TurnInv(Received(c, p), k)
  {
    assert CallerInv(c.callers[p], c.chans) && !NoWaiter(c, k);
    assert k in c.waiters ==> Fresh(c.chans, c.waiters[k], ForTurn(k));
    assert k in c.turns.arrived;
    var q: Pid, ch: nat :| Served(c, k, q, ch, c.turns.arrived[k]);
    ForAppend(c.turns.returned, c.turns.arrived[k], k);
  }

  lemma WaitOther(c: Client, p: Pid, thread: string, key: string, k: string)
    requires CallerAt(c, p).Finished? && key != k
    requires key in c.turns.completed ==> c.turns.completed[key].Completion? && c.turns.completed[key].key == key
    ensures SameFor(c, Waited(c, p, thread, key), k)
  {
    if key in c.turns.completed { TakeOther(c, p, key, k); }
    RegisterOther(c, p, key, k);
    FinishOther(c, p, key, k);
    hide TakeCompleted, Register, MarkWaited, Become, SameFor;
  }

  lemma TakeOther(c: Client, p: Pid, key: string, k: string)
    requires CallerAt(c, p).Finished? && key != k && key in c.turns.completed
    requires c.turns.completed[key].Completion? && c.turns.completed[key].key == key
    ensures SameFor(c, TakeCompleted(c, p, key), k)
  {
    ForAppend(c.turns.returned, c.turns.completed[key], k);
    CallersSame(c.callers, p, Finished(Some(c.turns.completed[key])), k);
  }

  lemma RegisterOther(c: Client, p: Pid, key: string, k: string)
    requires CallerAt(c, p).Finished? && key != k
    ensures SameFor(c, Register(c, p, key), k)
  {
    CallersSame(c.callers, p, Waiting(key, |c.chans|), k);
  }

  lemma FinishOther(c: Client, p: Pid, key: string, k: string)
    requires CallerAt(c, p).Finished? && key != k
    ensures SameFor(c, Become(c, p, Finished(None)), k)
    ensures SameFor(c, Become(MarkWaited(c, key), p, Finished(None)), k)
  {
    CallersSame(c.callers, p, Finished(None), k);
  }

  lemma WaitOwn(c: Client, p: Pid, thread: string, k: string)
    requires Inv(c) && TurnInv(c, k) && CallerAt(c, p).Finished? && k !in c.turns.waited
    ensures TurnInv(Waited(c, p, thread, k), k)
  {
    WaitUntracked(c, p, k);
    if k in c.turns.completed { TakeOwn(c, p, k); } else { RegisterOwn(c, p, k); }
    assert !c.flags.done;
    hide TakeCompleted, Register, MarkWaited, Become, TurnInv;
  }

  lemma TakeOwn(c: Client, p: Pid, k: string)
    requires TurnInv(c, k) && k !in c.turns.waited && k in c.turns.completed
    ensures TurnInv(TakeCompleted(c, p, k), k)
  {
    ForAppend(c.turns.returned, c.turns.completed[k], k);
  }

  lemma RegisterOwn(c: Client, p: Pid, k: string)
    requires TurnInv(c, k) && k !in c.turns.waited && k !in c.turns.completed
    ensures TurnInv(Register(c, p, k), k)
  {
    var after := Register(c, p, k);
    assert OnlyWaiter(after, k, p, after.waiters[k]);
  }

  lemma WaitUntracked(c: Client, p: Pid, k: string)
    requires Inv(c) && TurnInv(c, k) && CallerAt(c, p).Finished?
    ensures TurnInv(Become(c, p, Finished(None)), k)
  {
    CallersSame(c.callers, p, Finished(None), k);
    SameKeeps(c, Become(c, p, Finished(None)), k);
  }

  lemma CompletedOther(c: Client, thread: string, key: string, body: string, k: string)
    requires Inv(c) && key != k
    ensures SameFor(c, Completed(c, thread, key, body), k)
  {
    if key in c.waiters { assert Fresh(c.chans, c.waiters[key], ForTurn(key)); }
  }

  lemma CompletedOwn(c: Client, thread: string, k: string, body: string)
    requires Inv(c) && TurnInv(c, k) && k !in c.turns.arrived && thread in c.turns.tracked
    ensures TurnInv(Completed(c, thread, k, body), k)
  {
    var after := Completed(c, thread, k, body);
    if k in c.waiters {
      var ch := c.waiters[k];
      var p: Pid :| OnlyWaiter(c, k, p, ch);
      assert Fresh(c.chans, ch, ForTurn(k));
      assert Served(after, k, p, ch, Completion(k, body));
    }
  }

  /** What is kept as completed under a key is that turn's completion. */
  ghost predicate CompletedInv(completed: map<string, Message>) {
    forall key :: key in completed ==> completed[key].Completion? && completed[key].key == key
  }

  lemma CalmStepKeeps(c: Client, e: Event, k: string)
    requires Inv(c) && CanStep(c, e) && CompletedInv(c.turns.completed) && TurnInv(c, k) && CalmFor(c, e, k)
    ensures TurnInv(Step(c, e), k)
  {
    match e
    case Receive(p) =>
      if WaitsFor(CallerAt(c, p), k) { ReceiveOwn(c, p, k); }
      else { ReceiveOther(c, p, k); SameKeeps(c, Step(c, e), k); }
    case WaitTurn(p, thread, turn) =>
      var key := TurnKey(thread, turn);
      if key == k { WaitOwn(c, p, thread, k); }
      else { WaitOther(c, p, thread, key, k); SameKeeps(c, Step(c, e), k); }
    case TurnCompleted(thread, turn, body) =>
      var key := TurnKey(thread, turn);
      if key == k { CompletedOwn(c, thread, k, body); }
      else { CompletedOther(c, thread, key, body, k); SameKeeps(c, Step(c, e), k); }
    case Fail =>
    case _ => OtherKeeps(c, e, k);
  }

  lemma OtherKeeps(c: Client, e: Event, k: string)
    requires Inv(c) && CanStep(c, e) && TurnInv(c, k) && CalmFor(c, e, k)
    requires !e.Receive? && !e.WaitTurn? && !e.TurnCompleted? && !e.Fail?
    ensures TurnInv(Step(c, e), k)
  {
    OtherSteps(c, e, k);
    hide CanStep, CalmFor, Step;
    SameKeeps(c, Step(c, e), k);
  }

  lemma OtherSteps(c: Client, e: Event, k: string)
    requires Inv(c) && CanStep(c, e) && !c.flags.done && CalmFor(c, e, k)
    requires !e.Receive? && !e.WaitTurn? && !e.TurnCompleted? && !e.Fail?
    ensures SameFor(c, Step(c, e), k)
  {
    match e
    case Answer => AnswerSame(c, k);
    case Request(_) => CallerSteps(c, e, k);
    case Abandon(_) => CallerSteps(c, e, k);
    case CancelWait(_) => CallerSteps(c, e, k);
    case SeeDone(_) =>
    case _ => PlainSteps(c, e, k);
  }

  lemma AnswerSame(c: Client, k: string)
    requires Inv(c) && c.reading.Some?
    ensures SameFor(c, Step(c, Answer), k)
  {
    hide ChansInv, CallersInv, For;
  }

  lemma CallerSteps(c: Client, e: Event, k: string)
    requires CanStep(c, e) && CalmFor(c, e, k) && (e.Request? || e.Abandon? || e.CancelWait?)
    ensures SameFor(c, Step(c, e), k)
  {
    hide For;
  }

  lemma PlainSteps(c: Client, e: Event, k: string)
    requires CanStep(c, e) && CalmFor(c, e, k)
    requires e.TakeResponse? || e.Track? || e.ForgetThread? || e.CompleteHandshake? || e.Shut?
    ensures SameFor(c, Step(c, e), k)
  {
    hide For;
  }

  lemma StepKeepsCompleted(c: Client, e: Event)
    requires CanStep(c, e) && CompletedInv(c.turns.completed)
    ensures CompletedInv(Step(c, e).turns.completed)
  {
    match e
    case WaitTurn(p, thread, turn) => WaitedKeepsCompleted(c, p, thread, TurnKey(thread, turn));
    case TurnCompleted(thread, turn, body) => CompletedKeepsCompleted(c, thread, TurnKey(thread, turn), body);
    case ForgetThread(thread) =>
    case Fail =>
    case _ => OthersLeaveCompleted(c, e);
  }

  lemma WaitedKeepsCompleted(c: Client, p: Pid, thread: string, key: string)
    requires CompletedInv(c.turns.completed)
    ensures CompletedInv(Waited(c, p, thread, key).turns.completed)
  {
  }

  lemma CompletedKeepsCompleted(c: Client, thread: string, key: string, body: string)
    requires CompletedInv(c.turns.completed)
    ensures CompletedInv(Completed(c, thread, key, body).turns.completed)
  {
  }

  lemma OthersLeaveCompleted(c: Client, e: Event)
    requires CanStep(c, e) && !e.WaitTurn? && !e.TurnCompleted? && !e.ForgetThread? && !e.Fail?
    ensures Step(c, e).turns.completed == c.turns.completed
  {
    match e
    case Answer => AnswerLeavesTurns(c);
    case Receive(p) => ReceiveLeavesCompleted(c, p);
    case _ =>
  }

  lemma AnswerLeavesTurns(c: Client)
    requires c.reading.Some?
    ensures Step(c, Answer).turns == c.turns
  {
  }

  lemma ReceiveLeavesCompleted(c: Client, p: Pid)
    requires Ready(c, p)
    ensures Received(c, p).turns.completed == c.turns.completed
  {
  }

  ghost predicate CalmRun(run: seq<Client>, events: seq<Event>, k: string) {
    IsRun(run, events) && forall i :: 0 <= i < |events| ==> CalmFor(run[i], events[i], k)
  }

  lemma {:induction false} CalmRunKeeps(run: seq<Client>, events: seq<Event>, k: string, n: nat)
    requires CalmRun(run, events, k) && n < |run|
    ensures TurnInv(run[n], k) && CompletedInv(run[n].turns.completed)
  {
    if n > 0 {
      CalmRunKeeps(run, events, k, n - 1);
      RunKeepsInv(run, events, n - 1);
      hide CanStep, Step, CalmFor, Inv, TurnInv, CompletedInv;
      CalmStepKeeps(run[n - 1], events[n - 1], k);
      StepKeepsCompleted(run[n - 1], events[n - 1]);
    }
  }

  /**
   A turn's completion is returned to its one waiter exactly once, whether it
   arrives before or after the wait: once both have happened it has either been
   returned, and only it and only once, or its waiter is ready and the next
   thing it receives is that completion.
   */
  lemma CompletionReturnedOnce(run: seq<Client>, events: seq<Event>, k: string, n: nat)
    requires CalmRun(run, events, k) && n < |run|
    requires k in run[n].turns.waited && k in run[n].turns.arrived
    ensures var c := run[n]; var m := c.turns.arrived[k];
      || For(c.turns.returned, k) == [m]
      || (For(c.turns.returned, k) == [] && exists p: Pid ::
           WaitsFor(CallerAt(c, p), k) && Ready(c, p) && CallerAt(Received(c, p), p) == Finished(Some(m)))
  {
    CalmRunKeeps(run, events, k, n);
    var c := run[n];
    if For(c.turns.returned, k) == [] {
      var p: Pid, ch: nat :| Served(c, k, p, ch, c.turns.arrived[k]);
      assert WaitsFor(CallerAt(c, p), k) && Ready(c, p);
      assert CallerAt(Received(c, p), p) == Finished(Some(c.turns.arrived[k]));
    }
  }

  // ---- the two steps that are loops over the client's maps ----

  /**
   The client object's own fields, for the steps that walk its maps. Of its
   channels, those of requests and waiters are in chans; the handshake's and the
   client's own are open until handshakeDone and done.
   */
  class AppServer {
    var pending: map<string, nat>
    var turnWaiters: map<string, nat>
    var completedTurns: map<string, Message>
    var agentMessages: map<string, string>
    var toolErrors: map<string, string>
    var interactions: map<string, string>
    var ephemeralThreads: set<string>
    var chans: seq<Chan>
    var handshakeDone: bool
    var handshakeComplete: bool
    var done: bool
    var failed: bool

    /** The channels the maps hold are open, and each is held once; the other two are closed when their flags say so. */
    ghost predicate Valid()
      reads this
    {
      handshakeDone == handshakeComplete && done == failed && HeldOnce(pending, turnWaiters, chans)
    }

    /** The machine's client with this object's fields; what the object does not hold is rest's. */
    ghost function Abs(rest: Client): Client
      reads this
    {
      rest.(pending := pending, waiters := turnWaiters, chans := chans,
            turns := rest.turns.(completed := completedTurns, tracked := ephemeralThreads),
            flags := Flags(rest.flags.closing, failed, done, handshakeDone, handshakeComplete))
    }

    /** close(ch), which Go allows once. */
    method CloseChannel(ch: nat)
      requires ch < |chans| && !chans[ch].closed
      modifies this`chans
      ensures chans == old(chans)[ch := old(chans)[ch].(closed := true)]
    {
      chans := chans[ch := chans[ch].(closed := true)];
    }

    method CloseHandshake()
      requires !handshakeDone
      modifies this`handshakeDone
      ensures handshakeDone
    {
      handshakeDone := true;
    }

    method CloseDone()
      requires !done
      modifies this`done
      ensures done
    {
      done := true;
    }

    /** Closes the channels of one map, each by one close. */
    method CloseEach(m: map<string, nat>)
      requires forall k :: k in m ==> IsOpen(chans, m[k])
      requires forall k, k' :: k in m && k' in m && m[k] == m[k'] ==> k == k'
      modifies this`chans
      ensures chans == CloseAll(old(chans), m.Values)
    {
      var left := m;
      while left != map[]
        invariant Left(old(chans), m.Values, chans, left.Values)
        invariant forall k :: k in left ==> IsOpen(chans, left[k])
        invariant forall k, k' :: k in left && k' in left && left[k] == left[k'] ==> k == k'
        decreases |left|
      {
        var k :| k in left;
        CloseOne(old(chans), m.Values, chans, left, k);
        CloseChannel(left[k]);
        left := left - {k};
      }
    }

    /**
     Fails the client, once, as the machine's Fail does: every channel it holds is
     closed, each by one close, and everything kept is dropped.
     */
    method Fail()
      requires Valid()
      modifies this
      ensures Valid() && failed
      ensures forall rest: Client :: Abs(rest) == Failed(old(Abs(rest)))
      ensures old(failed) ==> unchanged(this)
      ensures !old(failed) ==> agentMessages == map[] && toolErrors == map[] && interactions == map[]
    {
      ValidIsClosable();
      hide CloseAll, IsOpen, HeldOnce, Closable;
      if failed { return; }
      if !handshakeComplete {
        handshakeComplete := true;
        CloseHandshake();
      }
      CloseHeld();
      NothingHeld(chans);
      DropKept();
      failed := true;
      CloseDone();
    }

    lemma ValidIsClosable()
      requires Valid()
      ensures forall rest: Client :: Closable(Abs(rest))
    {
    }

    method DropKept()
      modifies this`pending, this`turnWaiters, this`completedTurns, this`agentMessages, this`toolErrors,
               this`ephemeralThreads, this`interactions
      ensures pending == map[] && turnWaiters == map[] && completedTurns == map[] && ephemeralThreads == {}
      ensures agentMessages == map[] && toolErrors == map[] && interactions == map[]
    {
      pending, turnWaiters := map[], map[];
      completedTurns, agentMessages, toolErrors, ephemeralThreads, interactions := map[], map[], map[], {}, map[];
    }

    /** Every request's channel, and every waiter's. */
    method CloseHeld()
      requires HeldOnce(pending, turnWaiters, chans)
      modifies this`chans
      ensures chans == CloseAll(old(chans), pending.Values + turnWaiters.Values)
    {
      HeldAreOpen(pending, turnWaiters, chans);
      hide HeldOnce, CloseAll, IsOpen;
      CloseEach(pending);
      CloseEach(turnWaiters);
      CloseTwice(old(chans), pending.Values, turnWaiters.Values);
    }

    /** Drops a thread and every entry kept for one of its turns, as the machine's ForgetThread does. */
    method ForgetThread(thread: string)
      modifies this`ephemeralThreads, this`turnWaiters, this`completedTurns, this`agentMessages, this`toolErrors
      ensures forall rest: Client :: Abs(rest) == Forgotten(old(Abs(rest)), thread)
      ensures agentMessages == WithoutThread(old(agentMessages), thread)
      ensures toolErrors == WithoutThread(old(toolErrors), thread)
    {
      MinusOwn(turnWaiters, thread);
      MinusOwn(completedTurns, thread);
      hide WithoutThread, OwnKeys;
      ephemeralThreads := ephemeralThreads - {thread};
      var own := KeysOfThread(turnWaiters.Keys, thread);
      turnWaiters := turnWaiters - own;
      own := KeysOfThread(completedTurns.Keys, thread);
      completedTurns := completedTurns - own;
      ForgetTexts(thread);
    }

    /** The two maps of the loop that only collect texts. */
    method ForgetTexts(thread: string)
      modifies this`agentMessages, this`toolErrors
      ensures agentMessages == WithoutThread(old(agentMessages), thread)
      ensures toolErrors == WithoutThread(old(toolErrors), thread)
    {
      MinusOwn(agentMessages, thread);
      MinusOwn(toolErrors, thread);
      hide WithoutThread, OwnKeys;
      var own := KeysOfThread(agentMessages.Keys, thread);
      agentMessages := agentMessages - own;
      own := KeysOfThread(toolErrors.Keys, thread);
      toolErrors := toolErrors - own;
    }
  }

  /** In every run the machine's client is one the object's steps may be taken on. */
  lemma ClientIsValid(run: seq<Client>, events: seq<Event>, n: nat)
    requires IsRun(run, events) && n < |run|
    ensures var c := run[n];
      HeldOnce(c.pending, c.waiters, c.chans) && c.flags.handshakeDone == c.flags.handshakeComplete
      && c.flags.done == c.flags.failed
  {
    RunKeepsInv(run, events, n);
  }

  function OwnKeys(keys: set<string>, thread: string): set<string> { set k | k in keys && KeyOf(k, thread) }

  lemma MinusOwn<V>(m: map<string, V>, thread: string)
    ensures m - OwnKeys(m.Keys, thread) == WithoutThread(m, thread)
  {
  }

  /** The keys of a thread's turns, which ForgetThread looks for in each of its maps. */
  method KeysOfThread(keys: set<string>, thread: string) returns (own: set<string>)
    ensures own == OwnKeys(keys, thread)
  {
    own := {};
    var left := keys;
    while left != {}
      invariant left <= keys && own == set k | k in keys && k !in left && KeyOf(k, thread)
      decreases left
    {
      var key :| key in left;
      if KeyOf(key, thread) { own := own + {key}; }
      left := left - {key};
    }
  }

  /** What closing the channels one map after the other needs: those still to close are open. */
  lemma HeldAreOpen(pending: map<string, nat>, waiters: map<string, nat>, chans: seq<Chan>)
    requires HeldOnce(pending, waiters, chans)
    ensures forall k :: k in pending ==> IsOpen(chans, pending[k])
    ensures forall k, k' :: k in pending && k' in pending && pending[k] == pending[k'] ==> k == k'
    ensures forall k :: k in waiters ==> IsOpen(CloseAll(chans, pending.Values), waiters[k])
    ensures forall k, k' :: k in waiters && k' in waiters && waiters[k] == waiters[k'] ==> k == k'
  {
  }

  lemma CloseTwice(chans: seq<Chan>, a: set<nat>, b: set<nat>)
    ensures CloseAll(CloseAll(chans, a), b) == CloseAll(chans, a + b)
  {
  }

  /** The channels of the two maps are open, and each is held once. */
  ghost predicate HeldOnce(pending: map<string, nat>, waiters: map<string, nat>, chans: seq<Chan>) {
    && (forall k :: k in pending ==> IsOpen(chans, pending[k]))
    && (forall k :: k in waiters ==> IsOpen(chans, waiters[k]))
    && (forall k, k' :: k in pending && k' in pending && pending[k] == pending[k'] ==> k == k')
    && (forall k, k' :: k in waiters && k' in waiters && waiters[k] == waiters[k'] ==> k == k')
    && (forall k, k' :: k in pending && k' in waiters ==> pending[k] != waiters[k'])
  }

  lemma NothingHeld(chans: seq<Chan>)
    ensures HeldOnce(map[], map[], chans)
  {
  }

  predicate IsOpen(chans: seq<Chan>, ch: nat) { ch < |chans| && !chans[ch].closed }

  /** Of the channels to close, those still to do are untouched and the others closed. */
  ghost predicate Left(was: seq<Chan>, open: set<nat>, chans: seq<Chan>, left: set<nat>) {
    && |chans| == |was| && left <= open
    && forall i :: 0 <= i < |was| ==> chans[i] == if i in open && i !in left then was[i].(closed := true) else was[i]
  }

  lemma CloseOne(was: seq<Chan>, open: set<nat>, chans: seq<Chan>, m: map<string, nat>, k: string)
    requires k in m && m[k] < |chans| && Left(was, open, chans, m.Values)
    requires forall k, k' :: k in m && k' in m && m[k] == m[k'] ==> k == k'
    ensures Left(was, open, chans[m[k] := chans[m[k]].(closed := true)], (m - {k}).Values)
    ensures |m - {k}| < |m|
  {
    var m' := m - {k};
    assert m.Values == m'.Values + {m[k]} by {
      forall v | v in m.Values
        ensures v in m'.Values + {m[k]}
      {
        var j :| j in m && m[j] == v;
        assert j != k ==> j in m' && m'[j] == v;
      }
    }
    assert m[k] !in m'.Values;
    assert m'.Keys == m.Keys - {k};
    assert |m'.Keys| == |m'| && |m.Keys| == |m|;
  }
}
