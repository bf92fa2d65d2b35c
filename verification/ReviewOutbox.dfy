/**
 The review outbox (internal/review/notice.go, submission_sqlite.go): one pass
 over the due notices, and what any number of passes do to a notice. What the
 clock reads, what Den or the fabric answers, whether the context has ended and
 whether the store takes a write are given for each notice of the pass.
 */
module ReviewOutbox {
  import opened Wrappers
  import Format

  type Time = int

  const TTL: int := 24 * 3600
  const RETRY_BASE: int := 30
  const RETRY_MAX: int := 15 * 60

  // ---- rows ----

  datatype Status = Pending | Sent | Abandoned

  datatype Row = Row(recipient: string, body: string, fallback: string, status: Status, attempts: nat,
                     createdAt: Time, nextAt: Time)

  datatype Mark = MarkSent | MarkAbandoned | MarkAttempt(at: Time) | Retarget(now: Time)

  /** What a mark does to a pending row; it leaves any other row alone. */
  function Apply(row: Row, mark: Mark): Row {
    if !row.status.Pending? then row
    else
      match mark
      case MarkSent => row.(status := Sent, attempts := row.attempts + 1)
      case MarkAbandoned => row.(status := Abandoned)
      case MarkAttempt(at) => row.(attempts := row.attempts + 1, nextAt := at)
      case Retarget(now) =>
        if row.fallback == "" then row else row.(recipient := row.fallback, fallback := "", nextAt := now)
  }

  function ApplyAll(row: Row, marks: seq<Mark>): Row
    decreases |marks|
  {
    if marks == [] then row else Apply(ApplyAll(row, marks[..|marks| - 1]), marks[|marks| - 1])
  }

  /** How many of the marks moved the row to another recipient. */
  function Moves(row: Row, marks: seq<Mark>): nat
    decreases |marks|
  {
    if marks == [] then 0
    else
      var before := ApplyAll(row, marks[..|marks| - 1]);
      Moves(row, marks[..|marks| - 1])
      + if Apply(before, marks[|marks| - 1]).recipient != before.recipient then 1 else 0
  }

  /**
   Whatever passes do to a notice, it goes to its first recipient or, once it
   moved, to its fallback, with the text it was made with; it moves at most
   once, and once sent or abandoned it stays so.
   */
  lemma {:induction false} MovesAtMostOnce(row: Row, marks: seq<Mark>)
    ensures Moves(row, marks) <= 1
    ensures var after := ApplyAll(row, marks);
      && after.body == row.body && after.createdAt == row.createdAt
      && (after.fallback == row.fallback || after.fallback == "")
      && (after.fallback == row.fallback && row.fallback != "" ==> after.recipient == row.recipient)
      && (after.recipient == row.recipient || after.recipient == row.fallback)
      && (Moves(row, marks) == 1 ==> after.fallback == "")
      && (row.fallback == "" ==> after.recipient == row.recipient)
      && (!row.status.Pending? ==> after == row)
  {
    if marks != [] {
      MovesAtMostOnce(row, marks[..|marks| - 1]);
    }
  }

  // ---- recipients ----

  const DEN_PREFIX := "den-task:"

  /** A den-task recipient, naming its project and task when well formed. */
  datatype Recipient = Fabric | DenTask(project: string, task: int) | BadDenTask

  /** Where the last slash is, or -1. */
  function LastSlash(s: string): (i: int)
    ensures -1 <= i < |s|
    ensures i >= 0 ==> s[i] == '/'
    ensures forall j :: i < j < |s| ==> s[j] != '/'
  {
    if s == [] then -1
    else if s[|s| - 1] == '/' then |s| - 1
    else LastSlash(s[..|s| - 1])
  }

  const MAX_INT64: int := 0x7FFF_FFFF_FFFF_FFFF

  /** strconv.ParseInt in base 10, for numbers above zero. */
  function ParsePositive(s: string): Option<int> {
    var digits := if s != [] && s[0] == '+' then s[1..] else s;
    if digits == [] || !Format.IsDigits(digits) then None
    else
      var n := Format.DecimalValue(digits);
      if n == 0 || n > MAX_INT64 then None else Some(n)
  }

  function DenTaskNoteKey(recipient: string): Recipient {
    if !(DEN_PREFIX <= recipient) then Fabric
    else
      var rest := recipient[|DEN_PREFIX|..];
      var slash := LastSlash(rest);
      if slash <= 0 then BadDenTask
      else
        match ParsePositive(rest[slash + 1..])
        case None => BadDenTask
        case Some(task) => DenTask(rest[..slash], task)
  }

  function DenTaskRecipient(project: string, task: nat): string {
    DEN_PREFIX + project + "/" + Format.Decimal(task)
  }

  /** Every task's recipient is read back as that task, whatever slashes its project holds. */
  lemma DenTaskReadsBack(project: string, task: nat)
    requires project != "" && 0 < task <= MAX_INT64
    ensures DenTaskNoteKey(DenTaskRecipient(project, task)) == DenTask(project, task)
  {
    var digits := Format.Decimal(task);
    var rest := project + "/" + digits;
    assert DenTaskRecipient(project, task)[|DEN_PREFIX|..] == rest;
    SlashBefore(project, digits);
    assert rest[|project| + 1..] == digits && rest[..|project|] == project;
    Format.DecimalReadsBack(task);
  }

  lemma {:induction false} SlashBefore(a: string, b: string)
    requires '/' !in b
    ensures LastSlash(a + "/" + b) == |a|
  {
    var s := a + "/" + b;
    if b != [] {
      assert s[..|s| - 1] == a + "/" + b[..|b| - 1];
      assert s[|s| - 1] == b[|b| - 1];
      SlashBefore(a, b[..|b| - 1]);
    }
  }

  // ---- backoff ----

  /** The base doubled attempts times, held at the cap once it is reached. */
  function Doubled(attempts: nat): (d: int)
    ensures RETRY_BASE <= d <= RETRY_MAX
  {
    if attempts == 0 then RETRY_BASE
    else
      var d := 2 * Doubled(attempts - 1);
      if d > RETRY_MAX then RETRY_MAX else d
  }

  method NoticeRetryDelay(attempts: nat) returns (delay: int)
    ensures delay == Doubled(attempts)
  {
    delay := RETRY_BASE;
    var i := 0;
    while i < attempts && delay < RETRY_MAX
      invariant 0 <= i <= attempts && delay >= RETRY_BASE
      invariant (if delay > RETRY_MAX then RETRY_MAX else delay) == Doubled(i)
    {
      delay := delay * 2;
      i := i + 1;
    }
    if delay >= RETRY_MAX {
      StaysAtCap(i, attempts);
      delay := RETRY_MAX;
    }
  }

  lemma {:induction false} StaysAtCap(i: nat, n: nat)
    requires i <= n && Doubled(i) == RETRY_MAX
    ensures Doubled(n) == RETRY_MAX
  {
    if i < n { StaysAtCap(i, n - 1); }
  }

  lemma {:induction false} DelayNeverShrinks(i: nat, n: nat)
    requires i <= n
    ensures Doubled(i) <= Doubled(n)
  {
    if i < n { DelayNeverShrinks(i, n - 1); }
  }

  // ---- one pass ----

  /** What Den or the fabric says to one notice. */
  datatype Answer = Accepted | Rejected | Unavailable | Broken

  /**
   What the world does while one notice is handled: two clock readings, the
   answer, whether the context has ended by then, whether the store takes the
   write.
   */
  datatype World = World(now: Time, later: Time, answer: Answer, ended: bool, writes: bool)

  datatype Config = Config(notifier: bool, poster: bool, retargeter: bool)

  /** Why a pass ended at a notice. */
  datatype Stop = GoesOn | StoreFailed | ContextEnded | FabricFailed

  /** What a pass did with one notice: whether it was sent anywhere, what was written, and how it went on. */
  datatype Entry = Entry(tried: bool, mark: Option<Mark>, stop: Stop)

  function Expiry(row: Row): Time { row.createdAt + TTL }

  /** The notice goes to the fabric or to Den, and this service can send it there. */
  predicate Sendable(config: Config, row: Row) {
    match DenTaskNoteKey(row.recipient)
    case Fabric => config.notifier
    case DenTask(_, _) => config.poster
    case BadDenTask => false
  }

  /** The fabric itself failed on this notice: it is put behind the others at once, not backed off. */
  predicate FabricBroke(row: Row, w: World) { DenTaskNoteKey(row.recipient).Fabric? && w.answer.Broken? }

  /** The backoff, held at the expiry. */
  function RetryAt(row: Row, now: Time): (at: Time)
    ensures at <= Expiry(row) && at <= now + Doubled(row.attempts)
    ensures at == Expiry(row) || at == now + Doubled(row.attempts)
  {
    if now + Doubled(row.attempts) > Expiry(row) then Expiry(row) else now + Doubled(row.attempts)
  }

  predicate CanMove(config: Config, row: Row) {
    row.fallback != "" && row.fallback != row.recipient && config.retargeter
  }

  /** What an answer to a notice that was tried has written of it, the context not having ended. */
  predicate Answers(config: Config, row: Row, w: World, mark: Mark) {
    match w.answer
    case Accepted => mark == MarkSent
    case Rejected =>
      mark == if DenTaskNoteKey(row.recipient).Fabric? then MarkAbandoned else MarkAttempt(RetryAt(row, w.later))
    case Unavailable =>
      mark == if DenTaskNoteKey(row.recipient).Fabric? && CanMove(config, row) then Retarget(w.later)
              else MarkAttempt(RetryAt(row, w.later))
    case Broken => mark == MarkAttempt(if FabricBroke(row, w) then w.later else RetryAt(row, w.later))
  }

  /**
   What a pass owes one notice it reached: past its expiry it is abandoned
   unsent, before it is tried if it can be sent at all. One that cannot be sent is
   abandoned if it was for Den and waits if it was for the fabric; one that was
   tried is marked for what the answer was, unless the context ended without
   its being accepted.
   */
  predicate Owed(config: Config, row: Row, w: World, e: Entry) {
    if w.now >= Expiry(row) then !e.tried && e.mark == Some(MarkAbandoned)
    else if !Sendable(config, row) then
      !e.tried && e.mark == if DenTaskNoteKey(row.recipient).Fabric? then None else Some(MarkAbandoned)
    else if w.ended && !w.answer.Accepted? then e.tried && e.mark == None
    else e.tried && e.mark.Some? && Answers(config, row, w, e.mark.value)
  }

  /**
   What ends a pass, and nothing else does: a write the store refused, a context
   that ended, or the fabric itself failing; never a recipient or a Den note that
   did not go through.
   */
  predicate StopsOnly(row: Row, w: World, e: Entry) {
    match e.stop
    case StoreFailed => e.mark.Some? && !w.writes
    case ContextEnded => e.tried && w.ended && !w.answer.Accepted?
    case FabricFailed => e.tried && FabricBroke(row, w) && !w.ended && w.writes
    case GoesOn => (e.mark.Some? ==> w.writes) && (e.tried ==> !FabricBroke(row, w) && (w.ended ==> w.answer.Accepted?))
  }

  datatype Due = Due(operationId: string, row: Row)

  function WriteOne(rows: map<string, Row>, op: string, mark: Option<Mark>, writes: bool): map<string, Row> {
    if mark.Some? && writes && op in rows then rows[op := Apply(rows[op], mark.value)] else rows
  }

  /** The table after the first n notices of a pass. */
  function Written(rows: map<string, Row>, due: seq<Due>, world: seq<World>, log: seq<Entry>, n: nat): map<string, Row>
    requires n <= |due| && n <= |world| && n <= |log|
  {
    if n == 0 then rows
    else WriteOne(Written(rows, due, world, log, n - 1), due[n - 1].operationId, log[n - 1].mark, world[n - 1].writes)
  }

  lemma {:induction false} WrittenPrefix(rows: map<string, Row>, due: seq<Due>, world: seq<World>, log: seq<Entry>,
                                         e: Entry, n: nat)
    requires n <= |log| <= |due| && |log| <= |world|
    ensures Written(rows, due, world, log + [e], n) == Written(rows, due, world, log, n)
  {
    if n > 0 { WrittenPrefix(rows, due, world, log, e, n - 1); }
  }

  /** Every entry of the log is what the pass owes that notice. */
  ghost predicate AllOwed(config: Config, due: seq<Due>, world: seq<World>, log: seq<Entry>) {
    && |log| <= |due| == |world|
    && forall i :: 0 <= i < |log| ==>
      Owed(config, due[i].row, world[i], log[i]) && StopsOnly(due[i].row, world[i], log[i])
  }

  ghost predicate AllGoOn(log: seq<Entry>) { forall i :: 0 <= i < |log| ==> log[i].stop.GoesOn? }

  lemma AllOwedNext(config: Config, due: seq<Due>, world: seq<World>, log: seq<Entry>, e: Entry)
    requires AllOwed(config, due, world, log) && |log| < |due|
    requires Owed(config, due[|log|].row, world[|log|], e) && StopsOnly(due[|log|].row, world[|log|], e)
    ensures AllOwed(config, due, world, log + [e])
  {
  }

  lemma WrittenNext(rows: map<string, Row>, due: seq<Due>, world: seq<World>, log: seq<Entry>, e: Entry)
    requires |log| < |due| == |world|
    ensures Written(rows, due, world, log + [e], |log| + 1) ==
      WriteOne(Written(rows, due, world, log, |log|), due[|log|].operationId, e.mark, world[|log|].writes)
  {
    WrittenPrefix(rows, due, world, log, e, |log|);
  }

  // ---- whole runs of passes ----

  /** One pass: what was due, what the world did, and what the pass made of it. */
  datatype Pass = Pass(due: seq<Due>, world: seq<World>, log: seq<Entry>)

  /** The table after some passes. */
  function AfterPasses(rows: map<string, Row>, passes: seq<Pass>): map<string, Row>
    requires forall i :: 0 <= i < |passes| ==> Whole(passes[i])
    decreases |passes|
  {
    if passes == [] then rows
    else
      var n := |passes| - 1;
      var p := passes[n];
      assert Whole(p);
      Written(AfterPasses(rows, passes[..n]), p.due, p.world, p.log, |p.log|)
  }

  predicate Whole(p: Pass) { |p.log| <= |p.due| == |p.world| }

  /** The marks that the first n entries of a pass put on one notice. */
  function MarksOf(op: string, p: Pass, n: nat): seq<Mark>
    requires n <= |p.log| && Whole(p)
  {
    if n == 0 then []
    else
      var e := p.log[n - 1];
      MarksOf(op, p, n - 1)
      + if p.due[n - 1].operationId == op && e.mark.Some? && p.world[n - 1].writes then [e.mark.value] else []
  }

  /** And that all passes put on it. */
  function AllMarksOf(op: string, passes: seq<Pass>): seq<Mark>
    requires forall i :: 0 <= i < |passes| ==> Whole(passes[i])
    decreases |passes|
  {
    if passes == [] then []
    else
      var n := |passes| - 1;
      AllMarksOf(op, passes[..n]) + MarksOf(op, passes[n], |passes[n].log|)
  }

  lemma {:induction false} ApplyMore(row: Row, a: seq<Mark>, b: seq<Mark>)
    ensures ApplyAll(row, a + b) == ApplyAll(ApplyAll(row, a), b)
    decreases |b|
  {
    if b == [] {
      assert a + b == a;
    } else {
      var n := |b| - 1;
      assert (a + b)[..|a + b| - 1] == a + b[..n] && (a + b)[|a + b| - 1] == b[n];
      ApplyMore(row, a, b[..n]);
    }
  }

  /** A pass does to a row what the marks it put on that notice do. */
  lemma {:induction false} PassMarks(rows: map<string, Row>, p: Pass, op: string, n: nat)
    requires Whole(p) && n <= |p.log| && op in rows
    ensures var after := Written(rows, p.due, p.world, p.log, n);
      op in after && after[op] == ApplyAll(rows[op], MarksOf(op, p, n))
  {
    if n > 0 {
      PassMarks(rows, p, op, n - 1);
      var e, marks := p.log[n - 1], MarksOf(op, p, n - 1);
      if e.mark.Some? {
        ApplyMore(rows[op], marks, [e.mark.value]);
        assert [e.mark.value][..0] == [];
      }
      assert marks + [] == marks;
    }
  }

  /** So do all passes. */
  lemma {:induction false} PassesMark(rows: map<string, Row>, passes: seq<Pass>, op: string)
    requires (forall i :: 0 <= i < |passes| ==> Whole(passes[i])) && op in rows
    ensures var after := AfterPasses(rows, passes);
      op in after && after[op] == ApplyAll(rows[op], AllMarksOf(op, passes))
    decreases |passes|
  {
    if passes != [] {
      var n := |passes| - 1;
      PassesMark(rows, passes[..n], op);
      PassMarks(AfterPasses(rows, passes[..n]), passes[n], op, |passes[n].log|);
      ApplyMore(rows[op], AllMarksOf(op, passes[..n]), MarksOf(op, passes[n], |passes[n].log|));
    }
  }

  /**
   Whatever passes run over the table, each of its notices keeps its text, goes to
   its first recipient or, moved there at most once, to its fallback, and once
   sent or abandoned stays so.
   */
  lemma NoticesMoveAtMostOnce(rows: map<string, Row>, passes: seq<Pass>, op: string)
    requires (forall i :: 0 <= i < |passes| ==> Whole(passes[i])) && op in rows
    ensures Moves(rows[op], AllMarksOf(op, passes)) <= 1
    ensures var row, after := rows[op], AfterPasses(rows, passes);
      && op in after && after[op] == ApplyAll(row, AllMarksOf(op, passes)) && after[op].body == row.body
      && (after[op].recipient == row.recipient || after[op].recipient == row.fallback)
      && (!row.status.Pending? ==> after[op] == row)
  {
    PassesMark(rows, passes, op);
    MovesAtMostOnce(rows[op], AllMarksOf(op, passes));
  }

  /** What was due is listed from the table, each notice once. */
  ghost predicate IsListing(rows: map<string, Row>, due: seq<Due>) {
    && (forall i :: 0 <= i < |due| ==> due[i].operationId in rows && rows[due[i].operationId] == due[i].row)
    && (forall i, j :: 0 <= i < j < |due| ==> due[i].operationId != due[j].operationId)
  }

  /** Then each notice is handled by the row the table still has for it. */
  lemma {:induction false} ListedRowIsHeld(rows: map<string, Row>, p: Pass, n: nat, k: nat)
    requires Whole(p) && IsListing(rows, p.due) && n <= |p.log| && n <= k < |p.due|
    ensures var held := Written(rows, p.due, p.world, p.log, n);
      p.due[k].operationId in held && held[p.due[k].operationId] == p.due[k].row
  {
    if n > 0 { ListedRowIsHeld(rows, p, n - 1, k); }
  }

  class Outbox {
    var rows: map<string, Row>

    /** One UPDATE of a pending row. */
    method Write(op: string, mark: Mark, writes: bool) returns (ok: bool)
      modifies this
      ensures ok == writes && rows == WriteOne(old(rows), op, Some(mark), writes)
    {
      ok := writes;
      if ok && op in rows { rows := rows[op := Apply(rows[op], mark)]; }
    }

    /** Handles one notice of a pass. */
    method Handle(config: Config, d: Due, w: World) returns (e: Entry)
      requires config.notifier || config.poster
      modifies this
      ensures Owed(config, d.row, w, e) && StopsOnly(d.row, w, e)
      ensures rows == WriteOne(old(rows), d.operationId, e.mark, w.writes)
    {
      var row, ok := d.row, true;
      var expiry := Expiry(row);
      var mark: Mark;
      if w.now >= expiry {
        ok := Write(d.operationId, MarkAbandoned, w.writes);
        return Entry(false, Some(MarkAbandoned), if ok then GoesOn else StoreFailed);
      }
      var to := DenTaskNoteKey(row.recipient);
      if !to.Fabric? {
        if !config.poster || to.BadDenTask? {
          ok := Write(d.operationId, MarkAbandoned, w.writes);
          return Entry(false, Some(MarkAbandoned), if ok then GoesOn else StoreFailed);
        }
        if w.answer.Accepted? {
          mark := MarkSent;
        } else {
          if w.ended { return Entry(true, None, ContextEnded); }
          mark := PutOff(row, w.later);
        }
        ok := Write(d.operationId, mark, w.writes);
        return Entry(true, Some(mark), if ok then GoesOn else StoreFailed);
      }
      if !config.notifier { return Entry(false, None, GoesOn); }
      if w.answer.Accepted? {
        mark := MarkSent;
      } else if w.ended {
        return Entry(true, None, ContextEnded);
      } else if w.answer.Rejected? {
        mark := MarkAbandoned;
      } else if w.answer.Unavailable? && row.fallback != "" && row.fallback != row.recipient && config.retargeter {
        mark := Retarget(w.later);
      } else if w.answer.Unavailable? {
        mark := PutOff(row, w.later);
      } else {
        mark := MarkAttempt(w.later);
        ok := Write(d.operationId, mark, w.writes);
        return Entry(true, Some(mark), if ok then FabricFailed else StoreFailed);
      }
      ok := Write(d.operationId, mark, w.writes);
      return Entry(true, Some(mark), if ok then GoesOn else StoreFailed);
    }

    /**
     One pass over the due notices. It goes past every notice whose recipient or
     Den note did not go through, and ends early only on one of StopsOnly's causes.
     */
    method SendNotices(config: Config, due: seq<Due>, world: seq<World>) returns (log: seq<Entry>)
      requires |world| == |due|
      modifies this
      ensures !config.notifier && !config.poster ==> log == [] && rows == old(rows)
      ensures config.notifier || config.poster ==>
        && AllOwed(config, due, world, log)
        && (|log| == |due| || (log != [] && !log[|log| - 1].stop.GoesOn?))
        && (log != [] ==> AllGoOn(log[..|log| - 1]))
        && rows == Written(old(rows), due, world, log, |log|)
    {
      log := [];
      if !config.notifier && !config.poster { return; }
      var i, stop := 0, GoesOn;
      while i < |due| && stop.GoesOn?
        invariant i == |log| <= |due| && AllOwed(config, due, world, log)
        invariant if stop.GoesOn? then AllGoOn(log) else log != [] && log[i - 1].stop == stop && AllGoOn(log[..i - 1])
        invariant rows == Written(old(rows), due, world, log, |log|)
      {
        var e := Handle(config, due[i], world[i]);
        WrittenNext(old(rows), due, world, log, e);
        AllOwedNext(config, due, world, log, e);
        assert (log + [e])[..i] == log;
        log, stop, i := log + [e], e.stop, i + 1;
      }
      assert stop.GoesOn? && log != [] ==> AllGoOn(log[..i - 1]);
    }
  }

  /** Backs off, but never past the expiry, so that the notice is still listed and abandoned on time. */
  method PutOff(row: Row, now: Time) returns (mark: Mark)
    ensures mark == MarkAttempt(RetryAt(row, now))
  {
    var delay := NoticeRetryDelay(row.attempts);
    var at := now + delay;
    if at > Expiry(row) { at := Expiry(row); }
    mark := MarkAttempt(at);
  }
}
