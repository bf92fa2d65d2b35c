/**
 What becomes of one notice (internal/board/notices.go: check, send, sendPerson),
 told by what happened to it: what its row says, which text is submitted, and
 where each step leaves the pass; and why each new entry of the notices table is
 there.
 */
module NoticeOutcomes {
  import opened Wrappers
  import opened BoardNotices

  // ---- told by the events alone ----

  predicate IsPurged<T>(events: seq<Event<T>>) { exists i :: 0 <= i < |events| && events[i].Purge? }

  /** The text of the row: the one last stored before any purge. */
  function Kept<T>(events: seq<Event<T>>): Option<T> {
    if events == [] then None
    else
      var before := events[..|events| - 1];
      match events[|events| - 1]
      case Store(_, applied) => if applied && !IsPurged(before) then PassText(before) else Kept(before)
      case Purge => None
      case _ => Kept(before)
  }

  /** The text the pass works with: the row's when it was read, or the one composed since. */
  function PassText<T>(events: seq<Event<T>>): Option<T> {
    if events == [] then None
    else
      var before := events[..|events| - 1];
      match events[|events| - 1]
      case Read => Kept(before)
      case Compose(text) => Some(text)
      case _ => PassText(before)
  }

  /** What the latest answer says to record. */
  function ToRecord<T>(events: seq<Event<T>>, person: bool): Option<Status> {
    if events == [] then None
    else
      match events[|events| - 1]
      case NotShown => Some(Failed)
      case NoPeople => Some(NoRoute)
      case Submit(_, Taken) => Some(if person then Delivered else Sent)
      case Submit(_, Refused) => Some(Failed)
      case Submit(_, NoAnswer(late)) => Some(if late then Failed else Pending)
      case Check(standing) =>
        Some(if standing == Arrived then Delivered
             else if standing == RanOut || standing == Waiting(true) then Expired
             else if standing == GivenUp then Failed
             else Sent)
      case _ => ToRecord(events[..|events| - 1], person)
  }

  /** What the row says: what was last recorded; a purge fails a pending one, and is the last word. */
  function Recorded<T>(events: seq<Event<T>>, person: bool): Status {
    if events == [] then Pending
    else
      var before := events[..|events| - 1];
      match events[|events| - 1]
      case Record(applied) =>
        if applied && !IsPurged(before) && ToRecord(before, person).Some? then ToRecord(before, person).value
        else Recorded(before, person)
      case Purge => if Recorded(before, person).Pending? then Failed else Recorded(before, person)
      case _ => Recorded(before, person)
  }

  function TextOf<T>(text: Option<T>, freeze: T -> string): string { if text.Some? then freeze(text.value) else "" }

  /** The row, and the copy the pass works on, are as the events say. */
  ghost predicate AsSaid<T>(s: State<T>, events: seq<Event<T>>, m: Envelope, freeze: T -> string) {
    && s.row == Row(Recorded(events, m.person), TextOf(Kept(events), freeze), IsPurged(events))
    && (IsPurged(events) ==> !s.row.status.Pending?)
    && PassAsSaid(s, events, m, freeze)
  }

  ghost predicate PassAsSaid<T>(s: State<T>, events: seq<Event<T>>, m: Envelope, freeze: T -> string) {
    match s.pass
    case Resting => true
    case Reading(copy) => CopyAsSaid(s.row, copy, events, freeze)
    case Composed(copy, text) =>
      CopyAsSaid(s.row.(body := copy.body), copy, events, freeze) && PassText(events) == Some(text)
    case Ready(copy, text) =>
      CopyAsSaid(s.row, copy, events, freeze) && PassText(events) == Some(text)
    case Answered(copy, status) =>
      CopyAsSaid(s.row, copy, events, freeze) && ToRecord(events, m.person) == Some(status)
  }

  /** The copy has the pass's text, and is the row as it is, unless that was purged. */
  predicate CopyAsSaid<T>(row: Row, copy: Row, events: seq<Event<T>>, freeze: T -> string) {
    && copy.body == TextOf(PassText(events), freeze) && !copy.purged
    && (row.purged || copy == row)
  }

  lemma LastEvent<T>(events: seq<Event<T>>, e: Event<T>)
    ensures (events + [e])[..|events|] == events && (events + [e])[|events|] == e
    ensures IsPurged(events + [e]) <==> IsPurged(events) || e.Purge?
  {
    var all := events + [e];
    if IsPurged(events) {
      var i :| 0 <= i < |events| && events[i].Purge?;
      assert all[i].Purge?;
    }
    assert all[|events|] == e;
  }

  lemma StepKeepsSaid<T(!new)>(s: State<T>, events: seq<Event<T>>, e: Event<T>, m: Envelope,
                               freeze: T -> string, thaw: string -> Option<T>)
    requires Lawful(freeze, thaw) && CanStep(s, e, m, thaw) && AsSaid(s, events, m, freeze)
    ensures AsSaid(Step(s, e, m, freeze, thaw), events + [e], m, freeze)
  {
    LastEvent(events, e);
    hide IsPurged;
  }

  lemma {:induction false} RunSays<T(!new)>(run: seq<State<T>>, events: seq<Event<T>>, m: Envelope,
                                            freeze: T -> string, thaw: string -> Option<T>, n: nat)
    requires Lawful(freeze, thaw) && IsRun(run, events, m, freeze, thaw) && n < |run|
    ensures AsSaid(run[n], events[..n], m, freeze)
  {
    if n > 0 {
      RunSays(run, events, m, freeze, thaw, n - 1);
      assert events[..n] == events[..n - 1] + [events[n - 1]];
      hide CanStep, Step, AsSaid, Lawful;
      StepKeepsSaid(run[n - 1], events[..n - 1], events[n - 1], m, freeze, thaw);
    }
  }

  /** Where a step leaves the pass. */
  ghost predicate LeadsTo<T>(before: Pass<T>, e: Event<T>, after: Pass<T>) {
    match e
    case Read => after.Reading?
    case NotShown => after.Answered?
    case Compose(_) => after.Composed?
    case Store(ok, _) => if ok then after.Ready? else after.Resting?
    case Reuse => after.Ready?
    case NoPeople => after.Answered?
    case Submit(_, _) => after.Answered?
    case Record(_) => after.Resting?
    case Check(_) => after.Answered?
    case Crash => after.Resting?
    case Purge => after == before
  }

  /**
   In every run the row says exactly what the latest recorded answer said, keeps
   exactly the text that was stored, and is cleared by a purge for good; and the
   pass goes from step to step as LeadsTo says.
   */
  lemma RowsSayWhatHappened<T(!new)>(run: seq<State<T>>, events: seq<Event<T>>, m: Envelope,
                                     freeze: T -> string, thaw: string -> Option<T>, n: nat)
    requires Lawful(freeze, thaw) && IsRun(run, events, m, freeze, thaw) && n < |run|
    ensures run[n].row == Row(Recorded(events[..n], m.person), TextOf(Kept(events[..n]), freeze), IsPurged(events[..n]))
    ensures n < |events| ==> LeadsTo(run[n].pass, events[n], run[n + 1].pass)
  {
    RunSays(run, events, m, freeze, thaw, n);
    if n < |events| {
      assert CanStep(run[n], events[n], m, thaw) && run[n + 1] == Step(run[n], events[n], m, freeze, thaw);
    }
  }

  /**
   A submission sends the text the pass read or composed, under the notice's own
   envelope, and nothing else is ever sent; the first that reaches the receiver is
   the one it took.
   */
  lemma SubmissionsAreAdded<T(!new)>(run: seq<State<T>>, events: seq<Event<T>>, m: Envelope,
                                     freeze: T -> string, thaw: string -> Option<T>, n: nat)
    requires Lawful(freeze, thaw) && IsRun(run, events, m, freeze, thaw) && n < |events|
    ensures match events[n]
      case Submit(reached, _) =>
        && PassText(events[..n]).Some?
        && var material := Material(m, PassText(events[..n]).value);
           && run[n + 1].submitted == run[n].submitted + [material]
           && run[n + 1].accepted == if reached && run[n].accepted.None? then Some(material) else run[n].accepted
      case _ => run[n + 1].submitted == run[n].submitted && run[n + 1].accepted == run[n].accepted
  {
    RunSays(run, events, m, freeze, thaw, n);
    assert CanStep(run[n], events[n], m, thaw) && run[n + 1] == Step(run[n], events[n], m, freeze, thaw);
    hide Lawful, PassText, Kept, Recorded, ToRecord, IsPurged;
  }

  // ---- why each entry of the notices table is there ----

  /** The entry is one the act was to make: for the strongest reason it called, or for a new mention. */
  ghost predicate Explains(d: Desk, site: string, a: Act, e: Entry) {
    && e.post == a.id
    && match a
       case Post(_, writing, calls, _) =>
         Strongest(calls, e.notice.recipient, e.notice.reason)
         && Hears(writing.author, writing.session, site, e.notice.recipient)
       case Edit(id, mentions) =>
         e.notice.reason == Mention && e.notice.recipient in mentions && id in d.posts
         && e.notice.recipient !in d.posts[id].mentions
         && Hears(d.posts[id].author, d.posts[id].session, site, e.notice.recipient)
  }

  lemma {:induction false} InsertedAreTheNotices(table: seq<Entry>, post: string, notices: seq<Notice>, i: nat)
    requires |table| <= i < |InsertAll(table, post, notices)|
    ensures var e := InsertAll(table, post, notices)[i]; e.post == post && e.notice in notices
    decreases |notices|
  {
    if notices != [] {
      var next := Insert(table, Entry(post, notices[0]));
      if i < |next| {
        OnlyAdds(next, post, notices[1..]);
      } else {
        InsertedAreTheNotices(next, post, notices[1..], i);
      }
    }
  }

  lemma {:induction false} OnlyAdds(table: seq<Entry>, post: string, notices: seq<Notice>)
    ensures table <= InsertAll(table, post, notices)
    decreases |notices|
  {
    if notices != [] { OnlyAdds(Insert(table, Entry(post, notices[0])), post, notices[1..]); }
  }

  lemma {:induction false} MentionNoticesMention(author: Participant, session: Option<string>, site: string,
                                                 mentions: seq<Participant>, n: Notice)
    requires n in MentionNotices(author, session, site, mentions)
    ensures n.reason == Mention && n.recipient in mentions && Hears(author, session, site, n.recipient)
  {
    if !(Hears(author, session, site, mentions[0]) && n == Notice(mentions[0], Mention)) {
      MentionNoticesMention(author, session, site, mentions[1..], n);
    }
  }

  /** Every entry a post or an edit adds has its reason in that post or edit. */
  lemma NewEntriesAreExplained(desks: seq<Desk>, site: string, acts: seq<Act>, n: nat, i: nat)
    requires IsHistory(desks, site, acts) && n < |acts|
    requires |desks[n].table| <= i < |desks[n + 1].table|
    ensures Explains(desks[n], site, acts[n], desks[n + 1].table[i])
  {
    var d, a := desks[n], acts[n];
    assert CanAct(d, site, a) && desks[n + 1] == AfterAct(d, site, a);
    match a
    case Post(id, writing, calls, notices) =>
      InsertedAreTheNotices(d.table, id, notices, i);
      var e := desks[n + 1].table[i];
      var j :| 0 <= j < |notices| && notices[j] == e.notice;
      assert Told(notices, e.notice.recipient);
    case Edit(id, mentions) =>
      var w := d.posts[id];
      var notices := MentionNotices(w.author, w.session, site, Added(mentions, w.mentions));
      InsertedAreTheNotices(d.table, id, notices, i);
      MentionNoticesMention(w.author, w.session, site, Added(mentions, w.mentions), desks[n + 1].table[i].notice);
  }
}
