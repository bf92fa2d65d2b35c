/**
 The record crew-claude keeps of one dispatched message, in memory and on disk,
 while pump passes, in-turn hook calls and crashes interleave
 (internal/claudedriver/driver.go, reconcile and keepDispatch). A pass copies the
 record, reads the transcript without a lock, and writes the whole copy back, so
 a slow pass may overwrite what a faster one learned. The one thing relied on is
 that the session shows a message only after it was handed over.
 */
module DispatchRecords {
  import opened Wrappers
  import opened Transcript

  /** How far a message's record has read, and what it has seen. */
  datatype Record = Record(offset: nat, inserted: bool, enqueued: bool)

  /** A pass's own copy, before and after it read the transcript. */
  datatype Pass = Copied(record: Record) | Read(record: Record)

  /**
   handed is the transcript's size when the message was handed over. A delivery is
   handed over at most once, since it never goes back to the queue
   (ClaudeDriver.NeverRequeued).
   */
  datatype State = State(
    file: string,
    handed: Option<nat>,
    memory: Option<Record>,
    disk: Option<Record>,
    passes: map<nat, Pass>,
    acknowledged: bool)

  datatype Step =
    | Append(text: string)                  // the session writes to its transcript
    | HandOver(saved: bool)                 // a new record, before the message is posted
    | Begin(pass: nat)                      // a pass copies the record, or rebuilds a lost one
    | ReadFile(pass: nat)                   // a pass reads the transcript
    | Keep(pass: nat, saved: bool)          // keepDispatch
    | Acknowledge(pass: nat, accepted: bool)
    | Settle(pass: nat, saved: bool)        // the record is dropped, acknowledged or not
    | Crash                                 // the driver restarts from disk

  // ---- lines that show the message ----

  /** A line of file starts at q. */
  predicate StartsLine(file: string, q: nat) { q <= |file| && (q == 0 || file[q - 1] == NEWLINE) }

  /** A complete line can be read from q on, and it shows the message. */
  predicate ReadsInsert(p: Probe, file: string, q: nat) {
    && q <= |file| && LineEnd(file[q..]) <= |file| - q
    && p.Inserts(file[q..][..LineEnd(file[q..])])
  }

  /** A complete line of file that shows the message starts at q. */
  predicate ShowsAt(p: Probe, file: string, q: nat) { StartsLine(file, q) && ReadsInsert(p, file, q) }

  /**
   Nothing of the message was written before h: no line begun before h shows it,
   nor does what a line in the writing at h gets from h on.
   */
  ghost predicate Silent(p: Probe, file: string, h: nat) {
    && (forall q: nat :: q < h ==> !ShowsAt(p, file, q))
    && (!StartsLine(file, h) ==> !ReadsInsert(p, file, h))
  }

  /** The session shows a message only after it was handed over. */
  ghost predicate Causal(p: Probe, file: string, handed: Option<nat>) {
    Silent(p, file, if handed.Some? then handed.value else |file|)
  }

  // ---- steps ----

  function Save(saved: bool, memory: Option<Record>, disk: Option<Record>): Option<Record> {
    if saved then memory else disk
  }

  /** A copy after reading: nothing is read again once the evidence was seen. */
  function AfterReading(p: Probe, file: string, r: Record): Record {
    if r.inserted then r
    else
      var found := ScanFrom(p, file, if r.offset > |file| then 0 else r.offset);
      Record(found.offset, found.inserted, r.enqueued || found.enqueued)
  }

  ghost predicate Enabled(p: Probe, s: State, step: Step) {
    match step
    case Append(text) => Causal(p, s.file + text, s.handed)
    case HandOver(_) => s.handed.None?
    case Begin(i) => i !in s.passes
    case ReadFile(i) => i in s.passes && s.passes[i].Copied?
    case Keep(i, _) => i in s.passes && s.passes[i].Read?
    case Acknowledge(i, _) => i in s.passes && s.passes[i].Read? && s.passes[i].record.inserted
    case Settle(i, _) => i in s.passes && s.passes[i].Read?
    case Crash => true
  }

  ghost function Next(p: Probe, s: State, step: Step): State
    requires Enabled(p, s, step)
  {
    match step
    case Append(text) => s.(file := s.file + text)
    case HandOver(saved) =>
      var memory := Some(Record(|s.file|, false, false));
      s.(handed := Some(|s.file|), memory := memory, disk := Save(saved, memory, s.disk))
    case Begin(i) =>
      var r := if s.memory.Some? then s.memory.value else Record(0, false, false);
      s.(memory := Some(r), passes := s.passes[i := Copied(r)])
    case ReadFile(i) => s.(passes := s.passes[i := Read(AfterReading(p, s.file, s.passes[i].record))])
    case Keep(i, saved) =>
      if s.memory.None? then s
      else
        var memory := Some(s.passes[i].record);
        s.(memory := memory, disk := Save(saved, memory, s.disk))
    case Acknowledge(i, accepted) => s.(acknowledged := s.acknowledged || accepted)
    case Settle(i, saved) =>
      s.(memory := None, disk := Save(saved, None, s.disk), passes := s.passes - {i})
    case Crash => s.(memory := s.disk, passes := map[])
  }

  // ---- what every step keeps ----

  ghost predicate Shown(p: Probe, file: string) { exists q: nat :: ShowsAt(p, file, q) }

  /** Every line that shows the message starts at or after offset. */
  ghost predicate AllAhead(p: Probe, file: string, offset: nat) {
    forall q: nat :: ShowsAt(p, file, q) ==> offset <= q
  }

  /**
   A record stands at a line's start or where the message was handed over, and
   never past evidence it does not hold.
   */
  ghost predicate Faithful(p: Probe, file: string, handed: Option<nat>, r: Record) {
    && r.offset <= |file| && (StartsLine(file, r.offset) || handed == Some(r.offset))
    && if r.inserted then Shown(p, file) else AllAhead(p, file, r.offset)
  }

  ghost predicate Inv(p: Probe, s: State) {
    && Causal(p, s.file, s.handed) && (s.handed.Some? ==> s.handed.value <= |s.file|)
    && (s.memory.Some? ==> Faithful(p, s.file, s.handed, s.memory.value))
    && (s.disk.Some? ==> Faithful(p, s.file, s.handed, s.disk.value))
    && (forall i :: i in s.passes ==> Faithful(p, s.file, s.handed, s.passes[i].record))
    && (s.acknowledged ==> Shown(p, s.file))
  }

  /** A line that can be read now reads the same once more is written. */
  lemma ReadsOn(p: Probe, file: string, more: string, q: nat)
    requires q <= |file| && LineEnd(file[q..]) <= |file| - q
    ensures ShowsAt(p, file + more, q) <==> ShowsAt(p, file, q)
  {
    var s := file[q..];
    assert (file + more)[q..] == s + more;
    LineEndOfPrefix(s, more);
    assert (s + more)[..LineEnd(s)] == s[..LineEnd(s)];
  }

  /** A line's start is past every line begun before it. */
  lemma EndsByNextLine(file: string, q: nat, next: nat)
    requires q < next && StartsLine(file, next)
    ensures q + LineEnd(file[q..]) <= next
  {
    var s := file[q..];
    LineEndIsFirstNewline(s);
    assert s[next - 1 - q] == NEWLINE;
  }

  lemma EndsInNewline(file: string, q: nat)
    requires q <= |file| && LineEnd(file[q..]) <= |file| - q
    ensures file[q + LineEnd(file[q..]) - 1] == NEWLINE
  {
    LineEndIsFirstNewline(file[q..]);
  }

  lemma AppendKeepsFaithful(p: Probe, file: string, more: string, handed: Option<nat>, r: Record)
    requires Faithful(p, file, handed, r) && Causal(p, file + more, handed)
    ensures Faithful(p, file + more, handed, r)
  {
    var file' := file + more;
    AppendKeepsShown(p, file, more);
    assert handed == Some(r.offset) ==> Silent(p, file', r.offset);
    forall q: nat | !r.inserted && ShowsAt(p, file', q)
      ensures r.offset <= q
    {
      if q < r.offset && StartsLine(file, r.offset) {
        EndsByNextLine(file, q, r.offset);
        ReadsOn(p, file, more, q);
      }
    }
  }

  lemma AppendKeepsShown(p: Probe, file: string, more: string)
    ensures Shown(p, file) ==> Shown(p, file + more)
  {
    if Shown(p, file) {
      var q: nat :| ShowsAt(p, file, q);
      ReadsOn(p, file, more, q);
      assert ShowsAt(p, file + more, q);
    }
  }

  /** Nothing can be read from a line without its newline, or from after its start. */
  lemma NothingInPartialLine(p: Probe, file: string, offset: nat, q: nat)
    requires offset <= q <= |file| && LineEnd(file[offset..]) > |file| - offset
    ensures !ReadsInsert(p, file, q)
  {
    LineEndIsFirstNewline(file[offset..]);
    assert forall j :: offset <= j < |file| ==> file[j] == file[offset..][j - offset];
    if LineEnd(file[q..]) <= |file| - q { EndsInNewline(file, q); }
  }

  /** The next line starts where this one ends, and none between. */
  lemma NextLineStarts(file: string, offset: nat)
    requires offset <= |file| && LineEnd(file[offset..]) <= |file| - offset
    ensures var next := offset + LineEnd(file[offset..]);
      StartsLine(file, next) && forall q: nat :: offset < q < next ==> !StartsLine(file, q)
  {
    var s := file[offset..];
    EndsInNewline(file, offset);
    LineEndIsFirstNewline(s);
    assert forall j :: offset <= j < |file| ==> file[j] == s[j - offset];
  }

  /** Reading from a line's start, or from a part that shows nothing, finds whatever shows the message from there on. */
  lemma {:induction false} ScanFinds(p: Probe, file: string, offset: nat)
    requires offset <= |file| && (StartsLine(file, offset) || !ReadsInsert(p, file, offset))
    ensures var found := ScanFrom(p, file, offset);
      && offset <= found.offset <= |file| && (StartsLine(file, found.offset) || found.offset == offset)
      && (found.inserted <==> exists q: nat :: offset <= q && ShowsAt(p, file, q))
    decreases |file| - offset
  {
    hide ScanFrom, StartsLine, LineEnd, p.Inserts;
    ScanStep(p, file, offset);
    var n := LineEnd(file[offset..]);
    if n > |file| - offset {
      forall q: nat | offset <= q <= |file|
        ensures !ReadsInsert(p, file, q)
      {
        NothingInPartialLine(p, file, offset, q);
      }
    } else {
      NextLineStarts(file, offset);
      if ReadsInsert(p, file, offset) {
        assert ShowsAt(p, file, offset);
      } else {
        ScanFinds(p, file, offset + n);
      }
    }
  }

  lemma ReadingKeepsFaithful(p: Probe, file: string, handed: Option<nat>, r: Record)
    requires Faithful(p, file, handed, r) && Causal(p, file, handed)
    ensures Faithful(p, file, handed, AfterReading(p, file, r))
  {
    if !r.inserted {
      ScanFinds(p, file, r.offset);
    }
  }

  lemma StepKeepsInv(p: Probe, s: State, step: Step)
    requires Inv(p, s) && Enabled(p, s, step)
    ensures Inv(p, Next(p, s, step))
  {
    hide Faithful, Causal, Shown;
    match step
    case Append(text) =>
      forall r | Faithful(p, s.file, s.handed, r)
        ensures Faithful(p, s.file + text, s.handed, r)
      {
        AppendKeepsFaithful(p, s.file, text, s.handed, r);
      }
      AppendKeepsShown(p, s.file, text);
    case HandOver(_) => HandOverKeeps(p, s);
    case Begin(_) => NewRecordIsFaithful(p, s.file, s.handed);
    case ReadFile(i) => ReadingKeepsFaithful(p, s.file, s.handed, s.passes[i].record);
    case Acknowledge(i, _) => InsertedIsShown(p, s.file, s.handed, s.passes[i].record);
    case _ =>
  }

  lemma NewRecordIsFaithful(p: Probe, file: string, handed: Option<nat>)
    ensures Faithful(p, file, handed, Record(0, false, false))
  {
  }

  lemma InsertedIsShown(p: Probe, file: string, handed: Option<nat>, r: Record)
    requires Faithful(p, file, handed, r) && r.inserted
    ensures Shown(p, file)
  {
  }

  lemma HandOverKeeps(p: Probe, s: State)
    requires Inv(p, s) && s.handed.None?
    ensures var handed := Some(|s.file|);
      && Causal(p, s.file, handed) && Faithful(p, s.file, handed, Record(|s.file|, false, false))
      && forall r :: Faithful(p, s.file, None, r) ==> Faithful(p, s.file, handed, r)
  {
  }

  // ---- whole runs ----

  /** The states of a run: every step enabled where it is taken. */
  ghost predicate Run(p: Probe, states: seq<State>, steps: seq<Step>) {
    && |states| == |steps| + 1
    && forall i :: 0 <= i < |steps| ==> Enabled(p, states[i], steps[i]) && states[i + 1] == Next(p, states[i], steps[i])
  }

  ghost predicate Start(p: Probe, s: State) {
    Causal(p, s.file, None) && s.handed.None? && s.memory.None? && s.disk.None? && s.passes == map[] && !s.acknowledged
  }

  lemma {:induction false} RunKeepsInv(p: Probe, states: seq<State>, steps: seq<Step>, k: nat)
    requires Run(p, states, steps) && Start(p, states[0]) && k < |states|
    ensures Inv(p, states[k])
  {
    if k > 0 {
      RunKeepsInv(p, states, steps, k - 1);
      hide Inv, Enabled, Next;
      StepKeepsInv(p, states[k - 1], steps[k - 1]);
    }
  }

  /** Reading the file from offset shows the message. */
  ghost predicate ShownFrom(p: Probe, file: string, offset: nat) {
    offset <= |file| && OneScan(p, file, offset).inserted
  }

  /**
   In every run, at every moment: no stored offset, in memory or on disk, lies
   past a line that shows the message unless the record says inserted, and
   reading on from it finds the message exactly when reading the whole transcript
   would. A record that says inserted, and an acknowledgement, rest on a complete
   line that shows the message and was begun after it was handed over.
   */
  lemma EvidenceIsNeverLost(p: Probe, states: seq<State>, steps: seq<Step>, k: nat)
    requires Run(p, states, steps) && Start(p, states[0]) && k < |states|
    ensures var s := states[k];
      && (s.acknowledged ==> ShownSinceHandOver(p, s))
      && (forall r :: s.memory == Some(r) || s.disk == Some(r) ==>
            && r.offset <= |s.file|
            && (r.inserted ==> ShownSinceHandOver(p, s))
            && (!r.inserted ==> AllAhead(p, s.file, r.offset))
            && (!r.inserted ==> (ShownFrom(p, s.file, r.offset) <==> ShownFrom(p, s.file, 0))))
  {
    RunKeepsInv(p, states, steps, k);
    var s := states[k];
    if Shown(p, s.file) { ShownIsSinceHandOver(p, s); }
    forall r | (s.memory == Some(r) || s.disk == Some(r)) && !r.inserted
      ensures ShownFrom(p, s.file, r.offset) <==> ShownFrom(p, s.file, 0)
    {
      ReadingOnIsReadingAll(p, s.file, s.handed, r);
    }
    hide ShownSinceHandOver, ShownFrom, Causal, AllAhead;
  }

  /** A complete line shows the message, begun when it had been handed over. */
  ghost predicate ShownSinceHandOver(p: Probe, s: State) {
    s.handed.Some? && exists q: nat :: s.handed.value <= q && ShowsAt(p, s.file, q)
  }

  lemma ShownIsSinceHandOver(p: Probe, s: State)
    requires Inv(p, s) && Shown(p, s.file)
    ensures ShownSinceHandOver(p, s)
  {
    var q: nat :| ShowsAt(p, s.file, q);
  }

  lemma ReadingOnIsReadingAll(p: Probe, file: string, handed: Option<nat>, r: Record)
    requires Causal(p, file, handed) && Faithful(p, file, handed, r) && !r.inserted
    ensures ShownFrom(p, file, r.offset) <==> ShownFrom(p, file, 0)
  {
    ScanFinds(p, file, r.offset);
    ScanFinds(p, file, 0);
    ScanFromIsOneScan(p, file, r.offset);
    ScanFromIsOneScan(p, file, 0);
  }

  // ---- what a pass learns ----

  /** Reading tells whether a complete line shows the message now, and stops after the first that does. */
  lemma ReadsWhatIsShown(p: Probe, s: State, i: nat)
    requires Inv(p, s) && Enabled(p, s, ReadFile(i))
    ensures Next(p, s, ReadFile(i)).passes.Keys == s.passes.Keys && Next(p, s, ReadFile(i)).passes[i].Read?
    ensures var r, r' := s.passes[i].record, Next(p, s, ReadFile(i)).passes[i].record;
      && (r'.inserted <==> Shown(p, s.file))
      && (r.inserted ==> r' == r)
      && (!r.inserted ==>
            var found := OneScan(p, s.file, r.offset);
            r'.offset == found.offset && (r'.enqueued <==> r.enqueued || found.enqueued))
  {
    var r := s.passes[i].record;
    assert Faithful(p, s.file, s.handed, r);
    if !r.inserted {
      ScanFinds(p, s.file, r.offset);
      ScanFromIsOneScan(p, s.file, r.offset);
    }
    hide ScanFrom, OneScan, ShowsAt, Causal;
  }

  /** The pass i that has read at j is still the same at k. */
  predicate SamePass(steps: seq<Step>, i: nat, j: nat, k: nat)
    requires j <= k <= |steps|
  {
    forall m :: j < m < k ==> !steps[m].Crash? && !(steps[m].Settle? && steps[m].pass == i)
  }

  lemma {:induction false} PassKeepsWhatItRead(p: Probe, states: seq<State>, steps: seq<Step>, i: nat, j: nat, k: nat)
    requires Run(p, states, steps) && j < k < |states| && steps[j] == ReadFile(i) && SamePass(steps, i, j, k)
    ensures i in states[j + 1].passes && i in states[k].passes && states[k].passes[i] == states[j + 1].passes[i]
    ensures states[k].passes[i].Read?
  {
    assert states[j + 1] == Next(p, states[j], steps[j]) && Enabled(p, states[j], steps[j]);
    if j + 1 < k {
      PassKeepsWhatItRead(p, states, steps, i, j, k - 1);
      assert Enabled(p, states[k - 1], steps[k - 1]) && states[k - 1 + 1] == Next(p, states[k - 1], steps[k - 1]);
    }
    hide AfterReading;
  }

  /**
   What a pass read it keeps: the record it writes back says the message was
   inserted exactly if a complete line showed it when the pass read, in memory
   and, if it could be saved, on disk. Only a record dropped meanwhile stays
   dropped.
   */
  lemma PassesLearnWhatIsShown(p: Probe, states: seq<State>, steps: seq<Step>, i: nat, j: nat, k: nat, saved: bool)
    requires Run(p, states, steps) && Start(p, states[0]) && j < k < |steps| && SamePass(steps, i, j, k)
    requires steps[j] == ReadFile(i) && steps[k] == Keep(i, saved)
    ensures states[k].memory.None? ==> states[k + 1] == states[k]
    ensures states[k].memory.Some? ==>
      var s' := states[k + 1];
      && s'.memory.Some? && (s'.memory.value.inserted <==> Shown(p, states[j].file))
      && s'.disk == if saved then s'.memory else states[k].disk
  {
    RunKeepsInv(p, states, steps, j);
    assert Enabled(p, states[j], steps[j]) && states[j + 1] == Next(p, states[j], steps[j]);
    ReadsWhatIsShown(p, states[j], i);
    PassKeepsWhatItRead(p, states, steps, i, j, k);
    hide Inv, AfterReading, Shown;
    assert Enabled(p, states[k], steps[k]) && states[k + 1] == Next(p, states[k], steps[k]);
  }

  predicate Accepted(steps: seq<Step>, k: nat)
    requires k <= |steps|
  {
    exists m :: 0 <= m < k && steps[m].Acknowledge? && steps[m].accepted
  }

  /**
   The message counts as acknowledged exactly once an acknowledgement was
   accepted; and a restart has what the disk had, which is what it had when last
   written.
   */
  lemma {:induction false} AcknowledgedWhenAccepted(p: Probe, states: seq<State>, steps: seq<Step>, k: nat)
    requires Run(p, states, steps) && Start(p, states[0]) && k < |states|
    ensures states[k].acknowledged <==> Accepted(steps, k)
    ensures k < |steps| && steps[k].Crash? ==>
      states[k + 1].memory == states[k].disk == states[k + 1].disk && states[k + 1].passes == map[]
  {
    if k > 0 {
      AcknowledgedWhenAccepted(p, states, steps, k - 1);
      assert states[k - 1 + 1] == Next(p, states[k - 1], steps[k - 1]);
    }
    if k < |steps| { assert states[k + 1] == Next(p, states[k], steps[k]); }
    hide AfterReading;
  }
}
