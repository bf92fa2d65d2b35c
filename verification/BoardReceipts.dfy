/**
 Receipts: a write runs once under its operation ID (internal/board/service.go
 do; the operations table of internal/board/boardsqlite/store.go). What a write
 plans is any function of the rows, so this covers every operation that goes
 through a receipt, with any clock, directory and new IDs; writes without one
 (pulled files, acknowledgements) come between as they like.
 */
module BoardReceipts {
  import opened Wrappers
  import opened BoardStore

  /** A stored result, and the IDs it holds. */
  datatype Result = Result(text: string, ids: set<string>)

  /** A receipt keeps the whole request; its hash is compared in its place. */
  datatype Receipt = Receipt(request: string, result: Result, purged: bool)

  datatype Rows = Rows(core: Core, operations: map<string, Receipt>)

  datatype Outcome =
    | Done(result: Result)
    | Replayed(result: Result)
    | Conflict
    | PurgedAway
    | Refused

  type Plan = Rows -> Option<(Result, seq<Change>)>

  /** The IDs a change scrubs: a post's, or a thread's and its posts'. */
  function Scrubs(c: Core, change: Change): set<string> {
    match change
    case ScrubPost(id) => {id}
    case ScrubThread(id) => {id} + set p | p in c.posts && c.posts[p].thread == id
    case _ => {}
  }

  /** A receipt whose result holds a scrubbed ID loses its result and stays, marked. */
  function ScrubReceipts(operations: map<string, Receipt>, ids: set<string>): map<string, Receipt> {
    map op | op in operations ::
      if operations[op].result.ids !! ids then operations[op]
      else operations[op].(result := Result("", {}), purged := true)
  }

  function ApplyChanges(rows: Rows, changes: seq<Change>): Option<Rows>
    decreases |changes|
  {
    if changes == [] then Some(rows)
    else
      var next := ApplyOne(rows.core, changes[0]);
      if next.None? then None
      else
        ApplyChanges(Rows(next.value, ScrubReceipts(rows.operations, Scrubs(rows.core, changes[0]))), changes[1..])
  }

  /** The transaction: the changes and, at the end, the receipt, whose key must be free. */
  function Commit(rows: Rows, changes: seq<Change>, op: string, receipt: Receipt): Option<Rows> {
    var after := ApplyChanges(rows, changes);
    if after.None? || op in after.value.operations then None
    else Some(after.value.(operations := after.value.operations[op := receipt]))
  }

  /** One call of do: what it answers and the rows it leaves. */
  function Do(rows: Rows, op: string, request: string, plan: Plan): (Outcome, Rows) {
    if op == "" then (Refused, rows)
    else if op in rows.operations then
      var receipt := rows.operations[op];
      if receipt.request != request then (Conflict, rows)
      else if receipt.purged then (PurgedAway, rows)
      else (Replayed(receipt.result), rows)
    else
      match plan(rows)
      case None => (Refused, rows)
      case Some(planned) =>
        var after := Commit(rows, planned.1, op, Receipt(request, planned.0, false));
        if after.None? then (Refused, rows) else (Done(planned.0), after.value)
  }

  /** Every receipt is still there for the same request, with its result or marked purged. */
  ghost predicate KeepsReceipts(before: map<string, Receipt>, after: map<string, Receipt>) {
    forall op :: op in before ==>
      && op in after && after[op].request == before[op].request
      && (after[op].purged || after[op] == before[op])
  }

  lemma {:induction false} ApplyKeepsReceipts(rows: Rows, changes: seq<Change>)
    ensures ApplyChanges(rows, changes).Some? ==>
      && KeepsReceipts(rows.operations, ApplyChanges(rows, changes).value.operations)
      && ApplyChanges(rows, changes).value.operations.Keys == rows.operations.Keys
    decreases |changes|
  {
    if changes != [] {
      var next := ApplyOne(rows.core, changes[0]);
      if next.Some? {
        var ops := ScrubReceipts(rows.operations, Scrubs(rows.core, changes[0]));
        ApplyKeepsReceipts(Rows(next.value, ops), changes[1..]);
        assert ops.Keys == rows.operations.Keys;
      }
    }
  }

  /** The core is what the store's own transaction leaves: receipts change nothing else. */
  lemma {:induction false} ApplyIsTheStores(rows: Rows, changes: seq<Change>)
    ensures ApplyChanges(rows, changes).Some? <==> ApplyAll(rows.core, changes).Some?
    ensures ApplyChanges(rows, changes).Some? ==>
      ApplyChanges(rows, changes).value.core == ApplyAll(rows.core, changes).value
    decreases |changes|
  {
    if changes != [] {
      var next := ApplyOne(rows.core, changes[0]);
      if next.Some? {
        var ops := ScrubReceipts(rows.operations, Scrubs(rows.core, changes[0]));
        ApplyIsTheStores(Rows(next.value, ops), changes[1..]);
      }
    }
  }

  // ---- whole runs ----

  /** A write under a receipt, or one without. */
  datatype Event = Under(op: string, request: string, plan: Plan) | Bare(changes: seq<Change>)

  function After(rows: Rows, e: Event): Rows {
    match e
    case Under(op, request, plan) => Do(rows, op, request, plan).1
    case Bare(changes) => if ApplyChanges(rows, changes).Some? then ApplyChanges(rows, changes).value else rows
  }

  function Answer(rows: Rows, e: Event): Outcome
    requires e.Under?
  {
    Do(rows, e.op, e.request, e.plan).0
  }

  ghost predicate IsRun(run: seq<Rows>, events: seq<Event>) {
    |run| == |events| + 1 && forall i :: 0 <= i < |events| ==> run[i + 1] == After(run[i], events[i])
  }

  lemma StepKeepsReceipts(rows: Rows, e: Event)
    ensures KeepsReceipts(rows.operations, After(rows, e).operations)
  {
    match e
    case Bare(changes) => ApplyKeepsReceipts(rows, changes);
    case Under(op, request, plan) =>
      if op !in rows.operations && plan(rows).Some? { ApplyKeepsReceipts(rows, plan(rows).value.1); }
  }

  lemma {:induction false} RunKeepsReceipts(run: seq<Rows>, events: seq<Event>, i: nat, j: nat)
    requires IsRun(run, events) && i <= j < |run|
    ensures KeepsReceipts(run[i].operations, run[j].operations)
    decreases j - i
  {
    if i < j {
      RunKeepsReceipts(run, events, i, j - 1);
      StepKeepsReceipts(run[j - 1], events[j - 1]);
    }
  }

  /** A write that was done leaves its receipt. */
  lemma DoneLeavesReceipt(rows: Rows, e: Event)
    requires e.Under? && Answer(rows, e).Done?
    ensures e.op !in rows.operations && e.op != ""
    ensures After(rows, e).operations[e.op] == Receipt(e.request, Answer(rows, e).result, false)
  {
  }

  /**
   In any run, once a request has been done: repeating it at any later time
   changes nothing and returns the first result, or says that what it wrote was
   purged; and reusing its operation ID for another request changes nothing.
   */
  lemma RetryChangesNothing(run: seq<Rows>, events: seq<Event>, i: nat, j: nat)
    requires IsRun(run, events) && i < j < |events|
    requires events[i].Under? && events[j].Under? && events[i].op == events[j].op
    requires Answer(run[i], events[i]).Done?
    ensures run[j + 1] == run[j]
    ensures events[j].request == events[i].request ==>
      Answer(run[j], events[j]) == Replayed(Answer(run[i], events[i]).result) || Answer(run[j], events[j]) == PurgedAway
    ensures events[j].request != events[i].request ==> Answer(run[j], events[j]) == Conflict
  {
    DoneLeavesReceipt(run[i], events[i]);
    assert run[i + 1] == After(run[i], events[i]);
    RunKeepsReceipts(run, events, i + 1, j);
    assert events[i].op in run[i + 1].operations;
    assert run[j + 1] == After(run[j], events[j]);
  }

  /** No operation ID is ever applied twice. */
  lemma AppliedAtMostOnce(run: seq<Rows>, events: seq<Event>, i: nat, j: nat)
    requires IsRun(run, events) && i < j < |events|
    requires events[i].Under? && events[j].Under? && events[i].op == events[j].op
    ensures !(Answer(run[i], events[i]).Done? && Answer(run[j], events[j]).Done?)
  {
    if Answer(run[i], events[i]).Done? { RetryChangesNothing(run, events, i, j); }
  }

  /** What is purged away stays away: a retry is refused from then on. */
  lemma PurgedStaysPurged(run: seq<Rows>, events: seq<Event>, i: nat, j: nat, op: string)
    requires IsRun(run, events) && i <= j < |run|
    requires op in run[i].operations && run[i].operations[op].purged
    ensures op in run[j].operations && run[j].operations[op].purged
  {
    RunKeepsReceipts(run, events, i, j);
  }
}
