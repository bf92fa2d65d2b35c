/**
 Board notices (internal/board/notices.go): who hears about a post, and how one
 notice is sent. A pass works on a copy of the notice's row; the text is fixed and
 stored before the first attempt so that every retry submits the same. A step is
 one store write, one submission or one crash, so runs are all ways a pass can be
 cut short and repeated, with a purge of the post at any point.
 */
module BoardNotices {
  import opened Wrappers

  // ---- sending one notice ----

  datatype Status = Pending | Sent | Delivered | Expired | Failed | NoRoute

  /** The columns a pass may write, and whether the post was purged. */
  datatype Row = Row(status: Status, body: string, purged: bool)

  /** What a submission carries besides its text: fixed when the notice is made; a person's goes to crew-humans. */
  datatype Envelope = Envelope(operationId: string, recipient: string, policy: string, person: bool)

  /** A submission is taken, refused for good, or came to nothing, perhaps after the notice's time to give up. */
  datatype Answer = Taken | Refused | NoAnswer(late: bool)

  /** What the recipient's mailbox says of a sent message; a wait may be past the message's time. */
  datatype Standing = Unlisted | Waiting(past: bool) | InFlight | Arrived | RanOut | GivenUp

  function StatusAfter(answer: Answer, person: bool): Status {
    match answer
    case Taken => if person then Delivered else Sent
    case Refused => Failed
    case NoAnswer(late) => if late then Failed else Pending
  }

  function StatusFound(standing: Standing): Status {
    match standing
    case Arrived => Delivered
    case RanOut => Expired
    case Waiting(past) => if past then Expired else Sent
    case GivenUp => Failed
    case _ => Sent
  }

  /** One submission: the text is a fabric message's body or a request to crew-humans. */
  datatype Material<T> = Material(envelope: Envelope, text: T)

  /** Where the notifier is; it works on one notice at a time, on its own copy of the row. */
  datatype Pass<T> =
    | Resting
    | Reading(copy: Row)
    | Composed(copy: Row, text: T)
    | Ready(copy: Row, text: T)
    | Answered(copy: Row, status: Status)

  /**
   `stored` are the bodies ever written durably, `submitted` every submission in
   order, and `accepted` what the idempotent receiver took under the operation ID.
   */
  datatype State<T> = State(row: Row, pass: Pass<T>, stored: set<string>,
                            submitted: seq<Material<T>>, accepted: Option<Material<T>>)

  function Start<T>(): State<T> { State(Row(Pending, "", false), Resting, {}, [], None) }

  datatype Event<T> =
    | Read                                    // DueNotices
    | NotShown                                // the post is gone, or cannot be rendered
    | Compose(text: T)
    | Store(ok: bool, applied: bool)          // a failed write may or may not have been applied
    | Reuse                                   // the row already has its text
    | NoPeople                                // a person's notice, and nobody takes those
    | Submit(reached: bool, answer: Answer)
    | Record(applied: bool)
    | Check(standing: Standing)
    | Crash
    | Purge

  predicate Due(r: Row) { (r.status.Pending? || r.status.Sent?) && !r.purged }

  predicate CanStep<T>(s: State<T>, e: Event<T>, m: Envelope, thaw: string -> Option<T>) {
    match e
    case Read => s.pass.Resting? && Due(s.row)
    case NotShown => s.pass.Reading? && s.pass.copy.status.Pending?
    case Compose(_) => s.pass.Reading? && s.pass.copy.status.Pending? && s.pass.copy.body == ""
    case Store(ok, applied) => s.pass.Composed? && (ok ==> applied)
    case Reuse =>
      s.pass.Reading? && s.pass.copy.status.Pending? && s.pass.copy.body != "" && thaw(s.pass.copy.body).Some?
    case NoPeople => s.pass.Reading? && s.pass.copy.status.Pending? && m.person
    case Submit(reached, answer) => s.pass.Ready? && (answer.Taken? ==> reached) && (answer.Refused? ==> !reached)
    case Record(_) => s.pass.Answered?
    case Check(_) => s.pass.Reading? && s.pass.copy.status.Sent?
    case Crash => true
    case Purge => true
  }

  /** UpdateNotice: a purged row is left alone, and the write still succeeds. */
  function Update<T>(s: State<T>, r: Row): State<T> {
    if s.row.purged then s
    else s.(row := r.(purged := false), stored := if r.body == "" then s.stored else s.stored + {r.body})
  }

  function Step<T>(s: State<T>, e: Event<T>, m: Envelope, freeze: T -> string, thaw: string -> Option<T>): State<T>
    requires CanStep(s, e, m, thaw)
  {
    match e
    case Read => s.(pass := Reading(s.row))
    case NotShown => s.(pass := Answered(s.pass.copy, Failed))
    case Compose(text) => s.(pass := Composed(s.pass.copy.(body := freeze(text)), text))
    case Store(ok, applied) =>
      var s' := if applied then Update(s, s.pass.copy) else s;
      if ok then s'.(pass := Ready(s.pass.copy, s.pass.text)) else s'.(pass := Resting)
    case Reuse => s.(pass := Ready(s.pass.copy, thaw(s.pass.copy.body).value))
    case NoPeople => s.(pass := Answered(s.pass.copy, NoRoute))
    case Submit(reached, answer) =>
      var material := Material(m, s.pass.text);
      s.(submitted := s.submitted + [material],
         accepted := if reached && s.accepted.None? then Some(material) else s.accepted,
         pass := Answered(s.pass.copy, StatusAfter(answer, m.person)))
    case Record(applied) =>
      var s' := if applied then Update(s, s.pass.copy.(status := s.pass.status)) else s;
      s'.(pass := Resting)
    case Check(standing) => s.(pass := Answered(s.pass.copy, StatusFound(standing)))
    case Crash => s.(pass := Resting)
    case Purge => s.(row := Row(if s.row.status.Pending? then Failed else s.row.status, "", true))
  }

  /** A text survives being stored: what is read back is what was stored, and never nothing. */
  ghost predicate Lawful<T(!new)>(freeze: T -> string, thaw: string -> Option<T>) {
    forall t: T :: freeze(t) != "" && thaw(freeze(t)) == Some(t)
  }

  // ---- what every step keeps ----

  /** The copy a pass works on is the row, as it is or as it was when purged. */
  predicate Follows(s: Row, copy: Row) { !copy.purged && (s.purged || copy.body == s.body) }

  ghost predicate Inv<T(!new)>(s: State<T>, m: Envelope, freeze: T -> string) {
    && (s.row.body != "" ==> s.row.body in s.stored && !s.row.purged && Frozen(s.row.body, freeze))
    && (s.row.body == "" && !s.row.purged ==> s.stored == {})
    // every submission so far carries one text, and an unpurged row holds it
    && (forall i :: 0 <= i < |s.submitted| ==> s.submitted[i].envelope == m)
    && (forall i, j :: 0 <= i < |s.submitted| && 0 <= j < |s.submitted| ==> s.submitted[i] == s.submitted[j])
    && (s.submitted != [] && !s.row.purged ==> s.row.body == freeze(s.submitted[0].text))
    && (s.accepted.Some? ==> s.accepted.value in s.submitted)
    && PassInv(s, freeze)
  }

  ghost predicate Frozen<T(!new)>(body: string, freeze: T -> string) { exists t: T :: body == freeze(t) }

  /** A copy just read, or about to be written back. */
  ghost predicate CopyInv<T(!new)>(s: State<T>, copy: Row, freeze: T -> string) {
    && Follows(s.row, copy)
    && (s.submitted != [] ==> copy.body == freeze(s.submitted[0].text))
    && (copy.body != "" ==> Frozen(copy.body, freeze))
  }

  ghost predicate PassInv<T(!new)>(s: State<T>, freeze: T -> string) {
    match s.pass
    case Resting => true
    case Reading(copy) =>
      CopyInv(s, copy, freeze) && if copy.body == "" then s.stored == {} else copy.body in s.stored
    case Composed(copy, text) =>
      !copy.purged && (s.row.purged || s.row.body == "") && copy.body == freeze(text) && s.submitted == []
      && s.stored == {}
    case Ready(copy, text) =>
      && Follows(s.row, copy) && copy.body == freeze(text)
      && (s.submitted != [] ==> s.submitted[0].text == text)
    case Answered(copy, _) => CopyInv(s, copy, freeze)
  }

  lemma StepKeepsInv<T(!new)>(s: State<T>, e: Event<T>, m: Envelope, freeze: T -> string, thaw: string -> Option<T>)
    requires Lawful(freeze, thaw) && Inv(s, m, freeze) && CanStep(s, e, m, thaw)
    ensures Inv(Step(s, e, m, freeze, thaw), m, freeze)
  {
    match e
    case Submit(_, _) => SubmitKeeps(s, e, m, freeze, thaw);
    case Reuse => ReuseKeeps(s, e, m, freeze, thaw);
    case Store(_, _) => StoreKeeps(s, e, m, freeze, thaw);
    case Record(_) => RecordKeeps(s, e, m, freeze, thaw);
    case _ =>
  }

  lemma SubmitKeeps<T(!new)>(s: State<T>, e: Event<T>, m: Envelope, freeze: T -> string, thaw: string -> Option<T>)
    requires Lawful(freeze, thaw) && Inv(s, m, freeze) && CanStep(s, e, m, thaw) && e.Submit?
    ensures Inv(Step(s, e, m, freeze, thaw), m, freeze)
  {
  }

  lemma ReuseKeeps<T(!new)>(s: State<T>, e: Event<T>, m: Envelope, freeze: T -> string, thaw: string -> Option<T>)
    requires Lawful(freeze, thaw) && Inv(s, m, freeze) && CanStep(s, e, m, thaw) && e.Reuse?
    ensures Inv(Step(s, e, m, freeze, thaw), m, freeze)
  {
    var t: T :| s.pass.copy.body == freeze(t);
    assert thaw(freeze(t)) == Some(t);
  }

  lemma StoreKeeps<T(!new)>(s: State<T>, e: Event<T>, m: Envelope, freeze: T -> string, thaw: string -> Option<T>)
    requires Lawful(freeze, thaw) && Inv(s, m, freeze) && CanStep(s, e, m, thaw) && e.Store?
    ensures Inv(Step(s, e, m, freeze, thaw), m, freeze)
  {
  }

  lemma RecordKeeps<T(!new)>(s: State<T>, e: Event<T>, m: Envelope, freeze: T -> string, thaw: string -> Option<T>)
    requires Lawful(freeze, thaw) && Inv(s, m, freeze) && CanStep(s, e, m, thaw) && e.Record?
    ensures Inv(Step(s, e, m, freeze, thaw), m, freeze)
  {
  }

  // ---- whole runs ----

  ghost predicate IsRun<T(!new)>(run: seq<State<T>>, events: seq<Event<T>>, m: Envelope,
                                 freeze: T -> string, thaw: string -> Option<T>) {
    && |run| == |events| + 1 && run[0] == Start<T>()
    && forall i :: 0 <= i < |events| ==>
      CanStep(run[i], events[i], m, thaw) && run[i + 1] == Step(run[i], events[i], m, freeze, thaw)
  }

  lemma {:induction false} RunKeepsInv<T(!new)>(run: seq<State<T>>, events: seq<Event<T>>, m: Envelope,
                                                freeze: T -> string, thaw: string -> Option<T>, n: nat)
    requires Lawful(freeze, thaw) && IsRun(run, events, m, freeze, thaw) && n < |run|
    ensures Inv(run[n], m, freeze)
  {
    if n > 0 {
      RunKeepsInv(run, events, m, freeze, thaw, n - 1);
      hide Inv, CanStep, Step;
      StepKeepsInv(run[n - 1], events[n - 1], m, freeze, thaw);
    }
  }

  /**
   In every run all submissions of one notice are the same material, and what
   an idempotent receiver accepted is that material: no retry ever conflicts
   with what it took.
   */
  lemma MaterialIsFrozen<T(!new)>(run: seq<State<T>>, events: seq<Event<T>>, m: Envelope,
                                  freeze: T -> string, thaw: string -> Option<T>, n: nat, i: nat)
    requires Lawful(freeze, thaw) && IsRun(run, events, m, freeze, thaw) && n < |run| && i < |run[n].submitted|
    ensures run[n].submitted[i] == run[n].submitted[0] && run[n].submitted[i].envelope == m
    ensures run[n].accepted.Some? ==> run[n].submitted[i] == run[n].accepted.value
  {
    RunKeepsInv(run, events, m, freeze, thaw, n);
  }

  /** The last step before n that is not a purge, or -1. */
  function LastStep<T>(events: seq<Event<T>>, n: nat): (k: int)
    requires n <= |events|
    ensures -1 <= k < n && (k >= 0 ==> !events[k].Purge?) && forall j :: k < j < n ==> events[j].Purge?
  {
    if n == 0 then -1 else if !events[n - 1].Purge? then n - 1 else LastStep(events, n - 1)
  }

  /**
   What made the notice ready to be submitted at step n: the storing or the
   reuse of its text, with nothing but purges after. The text is stored durably
   before the submission exactly when that step was not the storing of a row
   already purged.
   */
  lemma SubmitsAfterStoring<T(!new)>(run: seq<State<T>>, events: seq<Event<T>>, m: Envelope,
                                     freeze: T -> string, thaw: string -> Option<T>, n: nat)
    requires Lawful(freeze, thaw) && IsRun(run, events, m, freeze, thaw) && n < |events| && events[n].Submit?
    ensures var k := LastStep(events, n);
      && k >= 0 && (events[k].Store? || events[k].Reuse?) && run[n].pass.Ready?
      && (freeze(run[n].pass.text) in run[n].stored <==> !(events[k].Store? && run[k].row.purged))
  {
    ReadySince(run, events, m, freeze, thaw, n);
    var k := LastStep(events, n);
    RunKeepsInv(run, events, m, freeze, thaw, k);
    RunKeepsInv(run, events, m, freeze, thaw, n);
  }

  /** A notice that is ready was made so by the last step that is not a purge, and has the text it had then. */
  lemma {:induction false} ReadySince<T(!new)>(run: seq<State<T>>, events: seq<Event<T>>, m: Envelope,
                                               freeze: T -> string, thaw: string -> Option<T>, n: nat)
    requires IsRun(run, events, m, freeze, thaw) && n < |run| && run[n].pass.Ready?
    ensures var k := LastStep(events, n);
      && k >= 0 && (events[k].Store? || events[k].Reuse?) && CanStep(run[k], events[k], m, thaw)
      && run[n].pass == run[k + 1].pass && run[n].stored == run[k + 1].stored
      && run[k + 1] == Step(run[k], events[k], m, freeze, thaw)
  {
    assert n > 0 && CanStep(run[n - 1], events[n - 1], m, thaw);
    if events[n - 1].Purge? { ReadySince(run, events, m, freeze, thaw, n - 1); }
  }

  /** A purge between reading the notice and storing its text: the text goes out and was never stored. */
  lemma PurgeCanOutrunStoring<T(!new)>(m: Envelope, freeze: T -> string, thaw: string -> Option<T>, text: T)
    requires Lawful(freeze, thaw)
    ensures exists run: seq<State<T>>, events: seq<Event<T>> ::
      IsRun(run, events, m, freeze, thaw) && |events| == 5
      && run[5].submitted == [Material(m, text)] && freeze(text) !in run[5].stored
  {
    var events := [Read, Compose(text), Purge, Store(true, true), Submit(true, Taken)];
    var s0 := Start<T>();
    var s1 := Step(s0, Read, m, freeze, thaw);
    var s2 := Step(s1, Compose(text), m, freeze, thaw);
    var s3 := Step(s2, Purge, m, freeze, thaw);
    var s4 := Step(s3, Store(true, true), m, freeze, thaw);
    var s5 := Step(s4, Submit(true, Taken), m, freeze, thaw);
    var run := [s0, s1, s2, s3, s4, s5];
    assert IsRun(run, events, m, freeze, thaw);
  }

  // ---- who hears about a post ----

  datatype Participant = Participant(kind: string, address: string, site: string)

  datatype Reason = Mention | Reply | Subscription

  /** Lower is stronger. */
  function Strength(r: Reason): nat {
    match r case Mention => 0 case Reply => 1 case Subscription => 2
  }

  /** One reason for one participant to hear. */
  datatype Call = Call(who: Participant, why: Reason)

  datatype Notice = Notice(recipient: Participant, reason: Reason)

  function CallsFor(mentions: seq<Participant>, why: Reason): (calls: seq<Call>)
    ensures |calls| == |mentions|
    ensures forall i :: 0 <= i < |mentions| ==> calls[i] == Call(mentions[i], why)
  {
    seq(|mentions|, i requires 0 <= i < |mentions| => Call(mentions[i], why))
  }

  predicate Called(calls: seq<Call>, p: Participant) { exists i :: 0 <= i < |calls| && calls[i].who == p }

  /** why is a reason p was called for, and none p was called for is stronger. */
  ghost predicate Strongest(calls: seq<Call>, p: Participant, why: Reason) {
    && Call(p, why) in calls
    && forall i :: 0 <= i < |calls| && calls[i].who == p ==> Strength(why) <= Strength(calls[i].why)
  }

  /** The author, or the session that writes as the seat the author is. */
  predicate IsSelf(author: Participant, session: Option<string>, p: Participant) {
    author == p || (session.Some? && p == Participant("session", session.value, author.site))
  }

  predicate Hears(author: Participant, session: Option<string>, site: string, p: Participant) {
    !IsSelf(author, session, p) && p.site == site
  }

  /** Each participant called, once, with the strongest reason so far. */
  ghost predicate Collected(calls: seq<Call>, reasons: map<Participant, Reason>, order: seq<Participant>) {
    && (forall p :: p in reasons <==> p in order)
    && (forall i, j :: 0 <= i < j < |order| ==> order[i] != order[j])
    && (forall p :: p in reasons ==> Strongest(calls, p, reasons[p]))
    && (forall i :: 0 <= i < |calls| ==> calls[i].who in reasons)
  }

  /** The calls in order, each participant keeping the strongest reason. */
  method Collect(calls: seq<Call>) returns (reasons: map<Participant, Reason>, order: seq<Participant>)
    ensures Collected(calls, reasons, order)
  {
    reasons, order := map[], [];
    for n := 0 to |calls|
      invariant Collected(calls[..n], reasons, order)
    {
      var Call(p, why) := calls[n];
      assert calls[..n + 1] == calls[..n] + [calls[n]];
      if p !in reasons {
        order := order + [p];
        reasons := reasons[p := why];
      } else if Strength(why) < Strength(reasons[p]) {
        reasons := reasons[p := why];
      }
    }
    assert calls[..|calls|] == calls;
  }

  ghost predicate Once(notices: seq<Notice>) {
    forall i, j :: 0 <= i < j < |notices| ==> notices[i].recipient != notices[j].recipient
  }

  predicate Told(notices: seq<Notice>, p: Participant) { exists i :: 0 <= i < |notices| && notices[i].recipient == p }

  /** Everyone a new post calls: whom it mentions, whom it answers, who follows. */
  function AllCalls(mentions: seq<Participant>, replyTo: seq<Participant>, reason: Reason,
                    subscribers: seq<Participant>): seq<Call> {
    CallsFor(mentions, Mention) + CallsFor(replyTo, reason) + CallsFor(subscribers, Subscription)
  }

  /** The notices go to exactly those called who hear, once each, for the strongest reason. */
  ghost predicate AreNoticesFor(author: Participant, session: Option<string>, site: string, calls: seq<Call>,
                                notices: seq<Notice>) {
    && Once(notices)
    && (forall i :: 0 <= i < |notices| ==> Strongest(calls, notices[i].recipient, notices[i].reason))
    && (forall p :: Told(notices, p) <==> Called(calls, p) && Hears(author, session, site, p))
  }

  /**
   Who hears about a new post, and why: everyone called who is of this site and
   not the author, once each, for the strongest reason.
   */
  method NoticesFor(author: Participant, session: Option<string>, site: string, mentions: seq<Participant>,
                    replyTo: seq<Participant>, reason: Reason, subscribers: seq<Participant>)
    returns (notices: seq<Notice>)
    ensures AreNoticesFor(author, session, site, AllCalls(mentions, replyTo, reason, subscribers), notices)
  {
    var calls := AllCalls(mentions, replyTo, reason, subscribers);
    var reasons, order := Collect(calls);
    CollectedAreCalled(calls, reasons, order);
    notices := [];
    hide Strongest, Called, Hears;
    for n := 0 to |order|
      invariant Once(notices)
      invariant forall i :: 0 <= i < |notices| ==>
        notices[i].recipient in reasons && notices[i].reason == reasons[notices[i].recipient]
      invariant forall p :: Told(notices, p) <==> p in order[..n] && Hears(author, session, site, p)
    {
      var p := order[n];
      assert order[..n + 1] == order[..n] + [p];
      if Hears(author, session, site, p) {
        ToldAppend(notices, Notice(p, reasons[p]));
        notices := notices + [Notice(p, reasons[p])];
      }
    }
    assert order[..|order|] == order;
  }

  lemma CollectedAreCalled(calls: seq<Call>, reasons: map<Participant, Reason>, order: seq<Participant>)
    requires Collected(calls, reasons, order)
    ensures forall p :: p in order <==> Called(calls, p)
  {
    forall p | p in order
      ensures Called(calls, p)
    {
      assert Call(p, reasons[p]) in calls;
    }
  }

  lemma ToldAppend(notices: seq<Notice>, n: Notice)
    ensures forall p :: Told(notices + [n], p) <==> Told(notices, p) || p == n.recipient
  {
    var all := notices + [n];
    assert forall i :: 0 <= i < |notices| ==> all[i] == notices[i];
    assert all[|notices|] == n;
    forall p
      ensures Told(all, p) <==> Told(notices, p) || p == n.recipient
    {
      if Told(notices, p) {
        var i :| 0 <= i < |notices| && notices[i].recipient == p;
        assert all[i].recipient == p;
      }
    }
  }

  /** mentionNotices, after an edit: one notice a mention, so the list has a participant named twice twice. */
  function MentionNotices(author: Participant, session: Option<string>, site: string,
                          mentions: seq<Participant>): seq<Notice> {
    if mentions == [] then []
    else
      (if Hears(author, session, site, mentions[0]) then [Notice(mentions[0], Mention)] else [])
      + MentionNotices(author, session, site, mentions[1..])
  }

  /** No participant who hears is mentioned twice. */
  ghost predicate MentionedOnce(author: Participant, session: Option<string>, site: string,
                                mentions: seq<Participant>) {
    forall i, j :: 0 <= i < j < |mentions| && Hears(author, session, site, mentions[i]) ==> mentions[i] != mentions[j]
  }

  /** An edit's list has each participant once exactly when no one who hears is mentioned twice. */
  lemma {:induction false} MentionNoticesOnce(author: Participant, session: Option<string>, site: string,
                                              mentions: seq<Participant>)
    ensures Once(MentionNotices(author, session, site, mentions)) <==> MentionedOnce(author, session, site, mentions)
  {
    if mentions != [] {
      var p, rest := mentions[0], mentions[1..];
      MentionNoticesOnce(author, session, site, rest);
      MentionedHears(author, session, site, rest, p);
      OnceCons(Notice(p, Mention), MentionNotices(author, session, site, rest));
      MentionedOnceCons(author, session, site, mentions);
      hide Once, MentionedOnce, Told;
      assert [] + MentionNotices(author, session, site, rest) == MentionNotices(author, session, site, rest);
    }
  }

  lemma OnceCons(n: Notice, tail: seq<Notice>)
    ensures Once([n] + tail) <==> Once(tail) && !Told(tail, n.recipient)
  {
    var all := [n] + tail;
    assert all[0] == n && all[1..] == tail;
    forall i, j | 0 <= i < j < |tail|
      ensures all[i + 1] == tail[i] && all[j + 1] == tail[j]
      ensures Once(all) ==> all[i + 1].recipient != all[j + 1].recipient
    {
    }
    assert forall i :: 0 <= i < |tail| && Once(all) ==> tail[i] == all[i + 1] && tail[i].recipient != n.recipient;
    assert forall i :: 0 < i < |all| ==> all[i] == tail[i - 1];
  }

  lemma MentionedOnceCons(author: Participant, session: Option<string>, site: string, mentions: seq<Participant>)
    requires mentions != []
    ensures MentionedOnce(author, session, site, mentions) <==>
      MentionedOnce(author, session, site, mentions[1..])
      && (Hears(author, session, site, mentions[0]) ==> mentions[0] !in mentions[1..])
  {
    var rest := mentions[1..];
    assert forall i :: 0 <= i < |rest| ==> rest[i] == mentions[i + 1];
    assert forall i :: 0 < i < |mentions| ==> mentions[i] == rest[i - 1];
  }

  /** p is sent a notice exactly when p is mentioned and hears. */
  lemma {:induction false} MentionedHears(author: Participant, session: Option<string>, site: string,
                                          mentions: seq<Participant>, p: Participant)
    ensures Told(MentionNotices(author, session, site, mentions), p) <==>
      p in mentions && Hears(author, session, site, p)
  {
    if mentions != [] {
      var rest := mentions[1..];
      MentionedHears(author, session, site, rest, p);
      ToldCons(Notice(mentions[0], Mention), MentionNotices(author, session, site, rest), p);
      assert [] + MentionNotices(author, session, site, rest) == MentionNotices(author, session, site, rest);
    }
  }

  lemma ToldCons(n: Notice, tail: seq<Notice>, p: Participant)
    ensures Told([n] + tail, p) <==> n.recipient == p || Told(tail, p)
  {
    var all := [n] + tail;
    assert forall i :: 0 <= i < |tail| ==> tail[i] == all[i + 1];
    assert forall i :: 0 < i < |all| ==> all[i] == tail[i - 1];
    assert all[0] == n;
  }

  // ---- the notices table ----

  datatype Entry = Entry(post: string, notice: Notice)

  predicate Has(table: seq<Entry>, post: string, who: Participant) {
    exists i :: 0 <= i < |table| && table[i].post == post && table[i].notice.recipient == who
  }

  /** INSERT OR IGNORE under the key of post and recipient: the first notice stays. */
  function Insert(table: seq<Entry>, e: Entry): seq<Entry> {
    if Has(table, e.post, e.notice.recipient) then table else table + [e]
  }

  function InsertAll(table: seq<Entry>, post: string, notices: seq<Notice>): seq<Entry>
    decreases |notices|
  {
    if notices == [] then table else InsertAll(Insert(table, Entry(post, notices[0])), post, notices[1..])
  }

  /** No participant has two notices of one post. */
  ghost predicate OncePerPost(table: seq<Entry>) {
    forall i, j :: 0 <= i < j < |table| ==>
      table[i].post != table[j].post || table[i].notice.recipient != table[j].notice.recipient
  }

  lemma InsertOne(table: seq<Entry>, e: Entry)
    requires OncePerPost(table)
    ensures OncePerPost(Insert(table, e)) && table <= Insert(table, e)
    ensures forall q, w :: Has(Insert(table, e), q, w) <==> Has(table, q, w) || (q == e.post && w == e.notice.recipient)
  {
    var all := table + [e];
    assert all[|table|] == e && forall i :: 0 <= i < |table| ==> all[i] == table[i];
    forall q, w | Has(table, q, w)
      ensures Has(all, q, w)
    {
      var i :| 0 <= i < |table| && table[i].post == q && table[i].notice.recipient == w;
      assert all[i].post == q;
    }
  }

  lemma {:induction false} InsertsOnce(table: seq<Entry>, post: string, notices: seq<Notice>)
    requires OncePerPost(table)
    ensures OncePerPost(InsertAll(table, post, notices)) && table <= InsertAll(table, post, notices)
    ensures forall q, w :: Has(InsertAll(table, post, notices), q, w) <==>
      Has(table, q, w) || (q == post && Told(notices, w))
    decreases |notices|
  {
    if notices != [] {
      InsertOne(table, Entry(post, notices[0]));
      InsertsOnce(Insert(table, Entry(post, notices[0])), post, notices[1..]);
      assert [notices[0]] + notices[1..] == notices;
      forall w
        ensures Told(notices, w) <==> notices[0].recipient == w || Told(notices[1..], w)
      {
        ToldCons(notices[0], notices[1..], w);
      }
      hide Has, Told, Insert, OncePerPost;
    }
  }

  // ---- posts and edits at one site ----

  /** A post as its notices see it: who wrote it, and whom its current revision mentions. */
  datatype Writing = Writing(author: Participant, session: Option<string>, mentions: seq<Participant>)

  /** The site's posts and its notices table. */
  datatype Desk = Desk(posts: map<string, Writing>, table: seq<Entry>)

  datatype Act =
    | Post(id: string, writing: Writing, calls: seq<Call>, notices: seq<Notice>)  // the notices are noticesFor's
    | Edit(id: string, mentions: seq<Participant>)

  /** The mentions that the revision before did not have. */
  function Added(mentions: seq<Participant>, earlier: seq<Participant>): (r: seq<Participant>)
    ensures forall p :: p in r <==> p in mentions && p !in earlier
  {
    if mentions == [] then []
    else (if mentions[0] in earlier then [] else [mentions[0]]) + Added(mentions[1..], earlier)
  }

  ghost predicate CanAct(d: Desk, site: string, a: Act) {
    match a
    case Post(id, writing, calls, notices) =>
      && id !in d.posts
      && (forall p :: p in writing.mentions ==> Called(calls, p))
      && AreNoticesFor(writing.author, writing.session, site, calls, notices)
    case Edit(id, _) => id in d.posts
  }

  function AfterAct(d: Desk, site: string, a: Act): Desk {
    match a
    case Post(id, writing, _, notices) => Desk(d.posts[id := writing], InsertAll(d.table, id, notices))
    case Edit(id, mentions) =>
      if id !in d.posts then d
      else
        var w := d.posts[id];
        Desk(d.posts[id := w.(mentions := mentions)],
             InsertAll(d.table, id, MentionNotices(w.author, w.session, site, Added(mentions, w.mentions))))
  }

  /** The act calls p to the post: making it did, or p is in an edit's mentions. */
  predicate Calls(a: Act, id: string, p: Participant) {
    a.id == id && if a.Post? then Called(a.calls, p) else p in a.mentions
  }

  predicate EverCalled(acts: seq<Act>, id: string, p: Participant) {
    exists i :: 0 <= i < |acts| && Calls(acts[i], id, p)
  }

  lemma EverCalledNext(acts: seq<Act>, a: Act, id: string, p: Participant)
    ensures EverCalled(acts + [a], id, p) <==> EverCalled(acts, id, p) || Calls(a, id, p)
  {
    var all := acts + [a];
    assert all[|acts|] == a && forall i :: 0 <= i < |acts| ==> all[i] == acts[i];
    if EverCalled(acts, id, p) {
      var i :| 0 <= i < |acts| && Calls(acts[i], id, p);
      assert Calls(all[i], id, p);
    }
  }

  /** Each has one notice of a post who was ever called to it and hears, and no one else has any. */
  ghost predicate DeskInv(d: Desk, site: string, acts: seq<Act>) {
    && OncePerPost(d.table)
    && (forall id, p :: Has(d.table, id, p) <==>
          id in d.posts && EverCalled(acts, id, p) && Hears(d.posts[id].author, d.posts[id].session, site, p))
    && (forall id, p :: EverCalled(acts, id, p) ==> id in d.posts)
    && (forall id, p :: id in d.posts && p in d.posts[id].mentions ==> EverCalled(acts, id, p))
  }

  lemma ActKeepsInv(d: Desk, site: string, acts: seq<Act>, a: Act)
    requires DeskInv(d, site, acts) && CanAct(d, site, a)
    ensures DeskInv(AfterAct(d, site, a), site, acts + [a]) && d.table <= AfterAct(d, site, a).table
  {
    hide DeskInv;
    if a.Post? { PostKeepsInv(d, site, acts, a); } else { EditKeepsInv(d, site, acts, a); }
  }

  lemma AllEverCalledNext(acts: seq<Act>, a: Act)
    ensures forall id, p :: EverCalled(acts + [a], id, p) <==> EverCalled(acts, id, p) || Calls(a, id, p)
  {
    forall id, p
      ensures EverCalled(acts + [a], id, p) <==> EverCalled(acts, id, p) || Calls(a, id, p)
    {
      EverCalledNext(acts, a, id, p);
    }
  }

  lemma PostKeepsInv(d: Desk, site: string, acts: seq<Act>, a: Act)
    requires DeskInv(d, site, acts) && CanAct(d, site, a) && a.Post?
    ensures DeskInv(AfterAct(d, site, a), site, acts + [a]) && d.table <= AfterAct(d, site, a).table
  {
    AllEverCalledNext(acts, a);
    InsertsOnce(d.table, a.id, a.notices);
    hide EverCalled, Has, OncePerPost, Hears, Called, Told, Once, Strongest, InsertAll;
  }

  lemma EditKeepsInv(d: Desk, site: string, acts: seq<Act>, a: Act)
    requires DeskInv(d, site, acts) && CanAct(d, site, a) && a.Edit?
    ensures DeskInv(AfterAct(d, site, a), site, acts + [a]) && d.table <= AfterAct(d, site, a).table
  {
    var w, after := d.posts[a.id], AfterAct(d, site, a);
    AllEverCalledNext(acts, a);
    InsertsOnce(d.table, a.id, MentionNotices(w.author, w.session, site, Added(a.mentions, w.mentions)));
    forall id, p
      ensures Has(after.table, id, p) <==>
        id in after.posts && EverCalled(acts + [a], id, p)
          && Hears(after.posts[id].author, after.posts[id].session, site, p)
    {
      EditTells(d, site, acts, a, id, p);
    }
    hide EverCalled, Has, OncePerPost, Hears, InsertAll, MentionNotices, Added;
  }

  lemma EditTells(d: Desk, site: string, acts: seq<Act>, a: Act, id: string, p: Participant)
    requires DeskInv(d, site, acts) && CanAct(d, site, a) && a.Edit?
    ensures var after := AfterAct(d, site, a);
      Has(after.table, id, p) <==>
        id in after.posts && EverCalled(acts + [a], id, p)
          && Hears(after.posts[id].author, after.posts[id].session, site, p)
  {
    var w := d.posts[a.id];
    var added := Added(a.mentions, w.mentions);
    var notices := MentionNotices(w.author, w.session, site, added);
    EverCalledNext(acts, a, id, p);
    InsertsOnce(d.table, a.id, notices);
    MentionedHears(w.author, w.session, site, added, p);
    assert Has(InsertAll(d.table, a.id, notices), id, p) <==> Has(d.table, id, p) || (id == a.id && Told(notices, p));
    hide EverCalled, Has, OncePerPost, Hears, Told, InsertAll, MentionNotices;
  }

  ghost predicate IsHistory(desks: seq<Desk>, site: string, acts: seq<Act>) {
    && |desks| == |acts| + 1 && desks[0] == Desk(map[], [])
    && forall i :: 0 <= i < |acts| ==>
      CanAct(desks[i], site, acts[i]) && desks[i + 1] == AfterAct(desks[i], site, acts[i])
  }

  lemma {:induction false} HistoryKeepsInv(desks: seq<Desk>, site: string, acts: seq<Act>, n: nat)
    requires IsHistory(desks, site, acts) && n < |desks|
    ensures DeskInv(desks[n], site, acts[..n])
  {
    if n > 0 {
      HistoryKeepsInv(desks, site, acts, n - 1);
      assert acts[..n] == acts[..n - 1] + [acts[n - 1]];
      hide DeskInv, CanAct, AfterAct;
      ActKeepsInv(desks[n - 1], site, acts[..n - 1], acts[n - 1]);
    }
  }

  /**
   Over any run of posting and editing, whatever an edit's list repeats, a
   participant has at most one notice of a post, and has one exactly if the post
   or one of its revisions called them and they hear; a notice once made stays as
   it is.
   */
  lemma OneNoticeEach(desks: seq<Desk>, site: string, acts: seq<Act>, n: nat, id: string, p: Participant)
    requires IsHistory(desks, site, acts) && n < |desks|
    ensures OncePerPost(desks[n].table)
    ensures Has(desks[n].table, id, p) <==>
      id in desks[n].posts && EverCalled(acts[..n], id, p)
        && Hears(desks[n].posts[id].author, desks[n].posts[id].session, site, p)
    ensures n > 0 ==> desks[n - 1].table <= desks[n].table
  {
    HistoryKeepsInv(desks, site, acts, n);
    if n > 0 {
      HistoryKeepsInv(desks, site, acts, n - 1);
      hide DeskInv, CanAct, AfterAct;
      ActKeepsInv(desks[n - 1], site, acts[..n - 1], acts[n - 1]);
    }
  }
}
