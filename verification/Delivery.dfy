/**
 The delivery protocol the three drivers share: one delivery's ledger row
 (internal/sqlite/delivery.go, internal/fabricclient/client.go), any number of
 driver processes each on its way through claim, begin and a native insert, and
 what the native sessions hold. Every request and every reply can be lost, be
 late or meet a crash: a request stays in `sent` and may reach the ledger at any
 later time, or never.

 A driver gives the type A of what one of its dispatches is doing, and V of how
 a message goes in. Its own steps are those of a dispatch; the rest is here.
 */
module Delivery {

  type Token = nat
  type Pid = nat
  type Session = nat

  datatype Outcome = Delivered | Failed | Unknown | Expired | Cancelled

  /** One row: a claim carries its token and, for seat mail, the holder it resolved to. */
  datatype Row =
    | Queued
    | Claimed(token: Token, holder: Session)
    | Dispatching(token: Token, holder: Session)
    | Ended(outcome: Outcome)

  /**
   What a driver asks of the ledger. Acknowledge, Fail and Unknown are checked
   against the native attempt reference, which every attempt of a delivery
   shares, so the ledger does not look at their token.
   */
  datatype Request =
    | Release(token: Token)
    | Begin(token: Token)
    | NotInserted(token: Token)
    | Acknowledge
    | Fail(token: Token)
    | MarkUnknown

  /**
   The ledger: the row, the next claim token, the tokens whose Begin took
   effect, the latest of them and the session it was for, every request sent,
   and who holds the seat now.
   */
  datatype Fabric = Fabric(row: Row, next: Token, last: Token, lastHolder: Session, begun: set<Token>,
                           sent: set<Request>, seat: Session)

  /** The row after a request that is not refused reaches it; a fenced one changes nothing. */
  function Land(f: Fabric, r: Request): Fabric {
    match r
    case Release(t) => if f.row.Claimed? && f.row.token == t then f.(row := Queued) else f
    case Begin(t) =>
      if f.row.Claimed? && f.row.token == t then
        f.(row := Dispatching(t, f.row.holder), last := t, lastHolder := f.row.holder, begun := f.begun + {t})
      else f
    case NotInserted(t) => if f.row.Dispatching? && f.row.token == t then f.(row := Queued) else f
    case Acknowledge => if f.row.Dispatching? then f.(row := Ended(Delivered)) else f
    case Fail(_) => if f.row.Dispatching? then f.(row := Ended(Failed)) else f
    case MarkUnknown => if f.row.Dispatching? then f.(row := Ended(Unknown)) else f
  }

  /**
   One driver process. Holding has claimed; Beginning has asked for the
   dispatch to be recorded; Active is dispatching; Stuck is settling a dispatch
   that something else left in flight, in the session it went to if it knows it.
   */
  datatype Process<A> =
    | Idle
    | Holding(token: Token, session: Session, holder: Session)
    | Beginning(token: Token, session: Session, start: A)
    | Active(token: Token, session: Session, act: A)
    | Stuck(session: Session, known: bool)

  /** One native insert of the delivery: for which claim, into which session, how. */
  datatype Insert<V> = Insert(token: Token, session: Session, via: V, open: bool)

  /**
   `landed` is what the sessions hold, in order. `late` is what was sent and is
   not decided yet; an open one may still land however long its sender waits.
   */
  datatype State<A, V> = State(fabric: Fabric, procs: map<Pid, Process<A>>,
                               landed: seq<Insert<V>>, late: seq<Insert<V>>)

  function Start<A, V>(seat: Session): State<A, V> {
    State(Fabric(Queued, 1, 0, 0, {}, {}, seat), map[], [], [])
  }

  function At<A, V>(s: State<A, V>, p: Pid): Process<A> {
    if p in s.procs then s.procs[p] else Idle
  }

  function Become<A, V>(s: State<A, V>, p: Pid, process: Process<A>): State<A, V> {
    s.(procs := s.procs[p := process])
  }

  function Ask<A, V>(s: State<A, V>, r: Request): State<A, V> {
    s.(fabric := s.fabric.(sent := s.fabric.sent + {r}))
  }

  /** Asks for r and is done. */
  function Settle<A, V>(s: State<A, V>, p: Pid, r: Request): State<A, V> {
    Ask(Become(s, p, Idle), r)
  }

  function SetRow<A, V>(s: State<A, V>, row: Row): State<A, V> {
    s.(fabric := s.fabric.(row := row))
  }

  /** The steps every driver has. */
  datatype Event =
    | Claim(p: Pid, session: Session)           // the pass of the session's route claims the head
    | ClaimLost                                 // a claim whose answer never came back
    | LetGo(p: Pid)                             // release: another holder, or the session cannot be read
    | Recorded(p: Pid)                          // the answer to Begin came back
    | Crash(p: Pid)                             // or any answer lost, or the context ended
    | Reach(r: Request)                         // a request reaches the ledger
    | ClaimExpires
    | Terminate(outcome: Outcome)               // TTL, undeliverable, or cancelled by its sender
    | LeaseLost                                 // maintenance settles a dispatch whose adapter is gone
    | SeatMoves(session: Session)
    | Decide(i: nat, lands: bool)               // a late insert lands, or turns out never to
    | FindStuck(p: Pid, known: bool)
    | SettleStuck(p: Pid, seen: bool)

  predicate Holds<V>(landed: seq<Insert<V>>, session: Session) {
    exists i :: 0 <= i < |landed| && landed[i].session == session
  }

  predicate Enabled<A, V>(s: State<A, V>, e: Event) {
    match e
    case Claim(p, session) => At(s, p).Idle? && s.fabric.row.Queued?
    case ClaimLost => s.fabric.row.Queued?
    case LetGo(p) => At(s, p).Holding?
    case Recorded(p) => At(s, p).Beginning? && At(s, p).token in s.fabric.begun
    case Crash(p) => true
    case Reach(r) => r in s.fabric.sent
    case ClaimExpires => s.fabric.row.Claimed?
    case Terminate(outcome) =>
      (s.fabric.row.Queued? || s.fabric.row.Claimed?) && outcome in {Failed, Expired, Cancelled}
    case LeaseLost => s.fabric.row.Dispatching?
    case SeatMoves(_) => true
    case Decide(i, _) => i < |s.late|
    case FindStuck(p, _) => At(s, p).Idle? && s.fabric.row.Dispatching?
    case SettleStuck(p, seen) =>
      At(s, p).Stuck? && (seen ==> At(s, p).known && Holds(s.landed, At(s, p).session))
  }

  function Step<A, V>(s: State<A, V>, e: Event): State<A, V>
    requires Enabled(s, e)
  {
    match e
    case Claim(p, session) => Become(TakeClaim(s), p, Holding(s.fabric.next, session, s.fabric.seat))
    case ClaimLost => TakeClaim(s)
    case LetGo(p) => Settle(s, p, Release(At(s, p).token))
    case Recorded(p) => var w := At(s, p); Become(s, p, Active(w.token, w.session, w.start))
    case Crash(p) => Become(s, p, Idle)
    case Reach(r) => s.(fabric := Land(s.fabric, r))
    case ClaimExpires => SetRow(s, Queued)
    case Terminate(outcome) => SetRow(s, Ended(outcome))
    case LeaseLost => SetRow(s, Ended(Unknown))
    case SeatMoves(session) => s.(fabric := s.fabric.(seat := session))
    case Decide(i, lands) =>
      s.(landed := if lands then s.landed + [s.late[i]] else s.landed, late := s.late[..i] + s.late[i + 1..])
    case FindStuck(p, known) => Become(s, p, Stuck(s.fabric.row.holder, known))
    case SettleStuck(p, seen) => Settle(s, p, if seen then Acknowledge else MarkUnknown)
  }

  function TakeClaim<A, V>(s: State<A, V>): State<A, V> {
    s.(fabric := s.fabric.(row := Claimed(s.fabric.next, s.fabric.seat), next := s.fabric.next + 1))
  }

  /** A driver records the dispatch, in the session it read the seat for, and only if the claim agrees. */
  predicate CanBegin<A, V>(s: State<A, V>, p: Pid) {
    At(s, p).Holding? && At(s, p).session == At(s, p).holder
  }

  function AskBegin<A, V>(s: State<A, V>, p: Pid, start: A): State<A, V>
    requires CanBegin(s, p)
  {
    Ask(Become(s, p, Beginning(At(s, p).token, At(s, p).session, start)), Begin(At(s, p).token))
  }

  // ---- what every step keeps ----

  /** What a dispatch knows of what went in, given what it is doing. */
  type Fits<!A, !V> = (A, seq<Insert<V>>, seq<Insert<V>>) -> bool

  predicate Owns<A>(w: Process<A>, t: Token) {
    (w.Holding? || w.Beginning? || w.Active?) && w.token == t
  }

  /** Nothing went in, nothing can still go in, and no process may yet send. */
  ghost predicate Quiet<A, V>(s: State<A, V>) {
    && s.landed == [] && s.late == []
    && forall p: Pid, t: Token :: p in s.procs && Owns(s.procs[p], t) ==> t !in s.fabric.begun
  }

  ghost predicate RowInv<A, V>(s: State<A, V>) {
    var f := s.fabric;
    && f.last < f.next
    && (forall t: Token :: t in f.begun ==> t <= f.last)
    && (f.row.Claimed? ==> f.last < f.row.token < f.next)
    && (f.row.Dispatching? ==> f.row.token == f.last && f.row.holder == f.lastHolder && f.last in f.begun)
    && (f.row.Queued? || f.row.Claimed? || (f.row.Ended? && f.row.outcome in {Failed, Expired, Cancelled}) ==> Quiet(s))
    && (f.row == Ended(Delivered) ==> s.landed != [])
  }

  ghost predicate SentInv<A, V>(s: State<A, V>) {
    var f := s.fabric;
    && (forall t: Token :: Begin(t) in f.sent ==> t < f.next)
    && (forall t: Token :: NotInserted(t) in f.sent ==> t in f.begun)
    && (forall t: Token :: Fail(t) in f.sent ==>
      t == f.last && NotInserted(t) !in f.sent && (f.row.Dispatching? || f.row.Ended?))
    && (NotInserted(f.last) in f.sent || Fail(f.last) in f.sent ==> Quiet(s))
    && (Acknowledge in f.sent ==> s.landed != [])
  }

  ghost predicate ProcInv<A, V>(s: State<A, V>, fits: Fits<A, V>) {
    var f := s.fabric;
    && (forall p: Pid, q: Pid, t: Token ::
          p in s.procs && q in s.procs && Owns(s.procs[p], t) && Owns(s.procs[q], t) ==> p == q)
    && forall p :: p in s.procs ==> OneInv(s, s.procs[p], fits)
  }

  ghost predicate OneInv<A, V>(s: State<A, V>, w: Process<A>, fits: Fits<A, V>) {
    var f := s.fabric;
    match w
    case Holding(t, _, holder) => t < f.next && t !in f.begun && Begin(t) !in f.sent
      && (f.row.Claimed? && f.row.token == t ==> f.row.holder == holder)
    case Beginning(t, session, start) => t < f.next && fits(start, [], [])
      && (f.row.Claimed? && f.row.token == t ==> f.row.holder == session)
      && (t in f.begun ==> t == f.last && session == f.lastHolder && s.landed == [] && s.late == [])
    case Active(t, session, act) => t in f.begun && t == f.last && session == f.lastHolder
      && fits(act, s.landed, s.late)
    case _ => true
  }

  ghost predicate InsertInv<A, V>(s: State<A, V>) {
    && |s.landed| + |s.late| <= 1
    && (forall i :: 0 <= i < |s.landed| ==>
          s.landed[i].token == s.fabric.last && s.landed[i].session == s.fabric.lastHolder)
    && (forall i :: 0 <= i < |s.late| ==> s.late[i].token == s.fabric.last && s.late[i].session == s.fabric.lastHolder)
  }

  ghost predicate Inv<A, V>(s: State<A, V>, fits: Fits<A, V>) {
    RowInv(s) && SentInv(s) && ProcInv(s, fits) && InsertInv(s)
  }

  lemma StartInv<A, V>(seat: Session, fits: Fits<A, V>)
    ensures Inv<A, V>(Start(seat), fits)
  {
  }

  // ---- the shared steps keep it ----

  /** A claim hands out a token that nobody holds. */
  lemma ClaimKeeps<A, V>(s: State<A, V>, p: Pid, session: Session, fits: Fits<A, V>)
    requires Inv(s, fits) && Enabled(s, Claim(p, session))
    ensures Inv(Step(s, Claim(p, session)), fits)
  {
  }

  lemma ClaimLostKeeps<A, V>(s: State<A, V>, fits: Fits<A, V>)
    requires Inv(s, fits) && Enabled(s, ClaimLost)
    ensures Inv(Step(s, ClaimLost), fits)
  {
  }

  lemma CrashKeeps<A, V>(s: State<A, V>, p: Pid, fits: Fits<A, V>)
    requires Inv(s, fits)
    ensures Inv(Become(s, p, Idle), fits)
  {
  }

  lemma LetGoKeeps<A, V>(s: State<A, V>, p: Pid, fits: Fits<A, V>)
    requires Inv(s, fits) && Enabled(s, LetGo(p))
    ensures Inv(Step(s, LetGo(p)), fits)
  {
  }

  lemma RecordedKeeps<A, V>(s: State<A, V>, p: Pid, fits: Fits<A, V>)
    requires Inv(s, fits) && Enabled(s, Recorded(p))
    ensures Inv(Step(s, Recorded(p)), fits)
  {
  }

  lemma ReachKeeps<A, V>(s: State<A, V>, r: Request, fits: Fits<A, V>)
    requires Inv(s, fits) && Enabled(s, Reach(r))
    ensures Inv(Step(s, Reach(r)), fits)
  {
  }

  lemma LedgerKeeps<A, V>(s: State<A, V>, e: Event, fits: Fits<A, V>)
    requires Inv(s, fits) && Enabled(s, e)
    requires e.ClaimExpires? || e.Terminate? || e.LeaseLost? || e.SeatMoves?
    ensures Inv(Step(s, e), fits)
  {
  }

  lemma DecideKeeps<A, V>(s: State<A, V>, i: nat, lands: bool, fits: Fits<A, V>)
    requires Inv(s, fits) && Enabled(s, Decide(i, lands))
    requires forall p :: p in s.procs && s.procs[p].Active? && fits(s.procs[p].act, s.landed, s.late) ==>
      fits(s.procs[p].act, Step(s, Decide(i, lands)).landed, Step(s, Decide(i, lands)).late)
    ensures Inv(Step(s, Decide(i, lands)), fits)
  {
  }

  lemma StuckKeeps<A, V>(s: State<A, V>, e: Event, fits: Fits<A, V>)
    requires Inv(s, fits) && Enabled(s, e) && (e.FindStuck? || e.SettleStuck?)
    ensures Inv(Step(s, e), fits)
  {
  }

  lemma BeginKeeps<A, V>(s: State<A, V>, p: Pid, start: A, fits: Fits<A, V>)
    requires Inv(s, fits) && CanBegin(s, p) && fits(start, [], [])
    ensures Inv(AskBegin(s, p, start), fits)
  {
    var after := AskBegin(s, p, start);
    assert Owns(s.procs[p], At(s, p).token);
    assert forall q: Pid :: q in s.procs && q != p ==> !Owns(s.procs[q], At(s, p).token);
    assert forall q: Pid, t: Token :: q in after.procs && Owns(after.procs[q], t) ==> Owns(s.procs[q], t);
  }

  /** Every shared step keeps the invariant; what a late insert does to a dispatch is the driver's to say. */
  lemma StepKeepsInv<A, V>(s: State<A, V>, e: Event, fits: Fits<A, V>)
    requires Inv(s, fits) && Enabled(s, e)
    requires e.Decide? ==>
      forall p :: p in s.procs && s.procs[p].Active? && fits(s.procs[p].act, s.landed, s.late) ==>
        fits(s.procs[p].act, Step(s, e).landed, Step(s, e).late)
    ensures Inv(Step(s, e), fits)
  {
    hide Inv;
    match e
    case Claim(p, session) => ClaimKeeps(s, p, session, fits);
    case ClaimLost => ClaimLostKeeps(s, fits);
    case LetGo(p) => LetGoKeeps(s, p, fits);
    case Recorded(p) => RecordedKeeps(s, p, fits);
    case Crash(p) => CrashKeeps(s, p, fits);
    case Reach(r) => ReachKeeps(s, r, fits);
    case Decide(i, lands) => DecideKeeps(s, i, lands, fits);
    case FindStuck(_, _) => StuckKeeps(s, e, fits);
    case SettleStuck(_, _) => StuckKeeps(s, e, fits);
    case _ => LedgerKeeps(s, e, fits);
  }

  // ---- what a dispatch may do ----

  predicate Dispatches<A, V>(s: State<A, V>, p: Pid) { At(s, p).Active? }

  /** The dispatch goes on with what it now knows. */
  function GoOn<A, V>(s: State<A, V>, p: Pid, act: A): State<A, V>
    requires Dispatches(s, p)
  {
    Become(s, p, At(s, p).(act := act))
  }

  function Mine<A, V>(s: State<A, V>, p: Pid, via: V, open: bool): Insert<V>
    requires Dispatches(s, p)
  {
    Insert(At(s, p).token, At(s, p).session, via, open)
  }

  function Put<A, V>(s: State<A, V>, p: Pid, via: V): State<A, V>
    requires Dispatches(s, p)
  {
    s.(landed := s.landed + [Mine(s, p, via, false)])
  }

  function PutLate<A, V>(s: State<A, V>, p: Pid, via: V, open: bool): State<A, V>
    requires Dispatches(s, p)
  {
    s.(late := s.late + [Mine(s, p, via, open)])
  }

  lemma GoOnKeeps<A, V>(s: State<A, V>, p: Pid, act: A, fits: Fits<A, V>)
    requires Inv(s, fits) && Dispatches(s, p) && fits(act, s.landed, s.late)
    ensures Inv(GoOn(s, p, act), fits)
  {
    var after := GoOn(s, p, act);
    assert forall q: Pid, t: Token :: q in after.procs && Owns(after.procs[q], t) ==> Owns(s.procs[q], t);
  }

  /** A dispatch that knows nothing went in may send, whatever becomes of what it sends. */
  lemma PutKeeps<A, V>(s: State<A, V>, p: Pid, via: V, act: A, fits: Fits<A, V>)
    requires Inv(s, fits) && Dispatches(s, p) && s.landed == [] && s.late == []
    requires fits(act, Put(s, p, via).landed, Put(s, p, via).late)
    ensures Inv(GoOn(Put(s, p, via), p, act), fits)
  {
    var after := GoOn(Put(s, p, via), p, act);
    assert Owns(s.procs[p], At(s, p).token);
    assert forall q: Pid :: q in s.procs && q != p ==> !Owns(s.procs[q], At(s, p).token);
    assert forall q: Pid, t: Token :: q in after.procs && Owns(after.procs[q], t) ==> Owns(s.procs[q], t);
  }

  lemma PutLateKeeps<A, V>(s: State<A, V>, p: Pid, via: V, open: bool, act: A, fits: Fits<A, V>)
    requires Inv(s, fits) && Dispatches(s, p) && s.landed == [] && s.late == []
    requires fits(act, PutLate(s, p, via, open).landed, PutLate(s, p, via, open).late)
    ensures Inv(GoOn(PutLate(s, p, via, open), p, act), fits)
  {
    var after := GoOn(PutLate(s, p, via, open), p, act);
    assert Owns(s.procs[p], At(s, p).token);
    assert forall q: Pid :: q in s.procs && q != p ==> !Owns(s.procs[q], At(s, p).token);
    assert forall q: Pid, t: Token :: q in after.procs && Owns(after.procs[q], t) ==> Owns(s.procs[q], t);
  }

  /** A dispatch that sends and leaves the outcome to a later pass. */
  lemma PutLateThenIdle<A, V>(s: State<A, V>, p: Pid, via: V, fits: Fits<A, V>)
    requires Inv(s, fits) && Dispatches(s, p) && s.landed == [] && s.late == []
    ensures Inv(Become(PutLate(s, p, via, true), p, Idle), fits)
  {
    var after := Become(PutLate(s, p, via, true), p, Idle);
    assert Owns(s.procs[p], At(s, p).token);
    assert forall q: Pid :: q in s.procs && q != p ==> !Owns(s.procs[q], At(s, p).token);
    assert forall q: Pid, t: Token :: q in after.procs && Owns(after.procs[q], t) ==> Owns(s.procs[q], t);
  }

  /**
   How a dispatch may settle: requeue or fail only when nothing went in and
   nothing can, acknowledge only when the session holds it, and give the
   outcome up as unknown at any time.
   */
  predicate Justified<A, V>(s: State<A, V>, p: Pid, r: Request)
    requires Dispatches(s, p)
  {
    match r
    case NotInserted(t) => t == At(s, p).token && s.landed == [] && s.late == []
    case Fail(t) => t == At(s, p).token && s.landed == [] && s.late == []
    case Acknowledge => s.landed != []
    case MarkUnknown => true
    case _ => false
  }

  lemma SettleKeeps<A, V>(s: State<A, V>, p: Pid, r: Request, fits: Fits<A, V>)
    requires Inv(s, fits) && Dispatches(s, p) && Justified(s, p, r)
    ensures Inv(Settle(s, p, r), fits)
  {
    var after := Settle(s, p, r);
    assert forall q: Pid, t: Token :: q in after.procs && Owns(after.procs[q], t) ==> Owns(s.procs[q], t) && q != p;
  }

  // ---- what the invariant means ----

  /** At most one insert, in the session the claim resolved to, and a settled row that agrees with it. */
  lemma Safety<A, V>(s: State<A, V>, fits: Fits<A, V>)
    requires Inv(s, fits)
    ensures |s.landed| + |s.late| <= 1
    ensures forall i :: 0 <= i < |s.landed| ==> s.landed[i].session == s.fabric.lastHolder
    ensures s.fabric.row == Ended(Delivered) ==> |s.landed| == 1 && s.late == []
    ensures s.fabric.row.Queued? || s.fabric.row.Claimed? ==> Quiet(s)
    ensures s.fabric.row.Ended? && s.fabric.row.outcome in {Failed, Expired, Cancelled} ==> Quiet(s)
  {
  }

  /** The row is the one r is about: the very claim, or a dispatch in flight. */
  predicate InTime(row: Row, r: Request) {
    match r
    case Release(t) => row.Claimed? && row.token == t
    case Begin(t) => row.Claimed? && row.token == t
    case NotInserted(t) => row.Dispatching? && row.token == t
    case _ => row.Dispatching?
  }

  /**
   A request moves the row exactly when it comes in time, and then to where it
   asks; a second copy of it changes nothing, nor does any request once the row
   has ended.
   */
  lemma RequestsMoveTheRowOnce(f: Fabric, r: Request)
    ensures Land(f, r) != f ==> InTime(f.row, r)
    ensures InTime(f.row, r) ==>
      var row := Land(f, r).row;
      match r
      case Release(_) => row == Queued
      case Begin(t) => row == Dispatching(t, f.row.holder)
      case NotInserted(_) => row == Queued
      case Acknowledge => row == Ended(Delivered)
      case Fail(_) => row == Ended(Outcome.Failed)
      case MarkUnknown => row == Ended(Unknown)
    ensures Land(Land(f, r), r) == Land(f, r)
    ensures f.row.Ended? ==> Land(f, r) == f
  {
  }

  /** Everything that went in is in the session the latest claim resolved to. */
  lemma HeldWhereItWent<A, V>(s: State<A, V>)
    requires InsertInv(s)
    ensures Holds(s.landed, s.fabric.lastHolder) <==> s.landed != []
  {
    assert s.landed != [] ==> s.landed[0].session == s.fabric.lastHolder;
  }

  /** The row goes from dispatching back to the queue only when no session holds the message or ever will. */
  lemma RequeuedIsAbsent<A, V>(s: State<A, V>, e: Event, fits: Fits<A, V>)
    requires Inv(s, fits) && Enabled(s, e)
    requires s.fabric.row.Dispatching? && Step(s, e).fabric.row.Queued?
    ensures e == Reach(NotInserted(s.fabric.last)) && Quiet(s) && Quiet(Step(s, e))
  {
  }
}
