/**
 What each operation asked for at a site does: exactly when it is accepted, and
 which rows it leaves, in terms of what was asked (internal/board/service.go and
 internal/board/curation.go). A refused operation leaves every row as it was.
 */
module BoardOperations {
  import opened Wrappers
  import opened BoardStore
  import opened BoardWrites
  import opened BoardHistory
  import opened BoardPurges
  import Format

  // ---- what an operation needs ----

  /** The post is there, in a thread that is not purged. */
  predicate CanRead(c: Core, p: string) {
    p in c.posts && c.posts[p].thread in c.threads && !c.threads[c.posts[p].thread].purged
  }

  predicate CanAct(c: Core, p: string) { CanRead(c, p) && c.posts[p].state.Visible? }

  predicate HasThread(c: Core, t: string) { t in c.threads && !c.threads[t].purged }

  /** The same person, session or seat, of the same site. */
  predicate IsSame(who: Author, author: Author) {
    who.kind == author.kind && who.address == author.address && who.site == author.site
  }

  predicate HasText(rules: Rules, body: string) { rules.trim(body) != "" && |body| <= 1048576 }

  predicate HasTitle(rules: Rules, title: string) { 1 <= |rules.trim(title)| <= 200 }

  /** A person, session or seat of the site is called by kind, address and site. */
  function Called(who: Author): Participant { Participant(who.kind, who.address, who.site) }

  predicate IsNamed(mentions: seq<Mention>, who: Participant) {
    exists i :: 0 <= i < |mentions| && mentions[i].who == who
  }

  /** The post's board is shared on a network. */
  predicate IsShared(c: Core, p: string)
    requires CanRead(c, p)
  {
    var board := c.threads[c.posts[p].thread].board;
    board in c.boards && c.boards[board].network != ""
  }

  predicate Accepts(rules: Rules, c: Core, op: Local, who: Author) {
    match op
    case CreateBoard(name, _, network) =>
      && Format.IsBoardPart(rules.trim(name)) && rules.trim(name) !in c.boards
      && (network == "" || rules.network(network))
    case OpenThread(board, threadId, postId, title, body, _, _, _) =>
      && HasTitle(rules, title) && HasText(rules, body) && board in c.boards
      && threadId !in c.threads && postId !in c.posts
    case Reply(thread, parent, postId, body, _, _, _) =>
      && HasText(rules, body) && HasThread(c, thread) && postId !in c.posts
      && (parent == "" || (CanRead(c, parent) && c.posts[parent].thread == thread))
    case Edit(post, body, _, _) => HasText(rules, body) && CanAct(c, post) && IsSame(who, c.posts[post].author)
    case Retract(post, _, eventId) => CanAct(c, post) && IsSame(who, c.posts[post].author) && eventId !in c.events
    case Hide(post, _, eventId) => who.kind == "person" && CanAct(c, post) && eventId !in c.events
    case Purge(post, _, eventId) =>
      who.kind == "person" && CanRead(c, post) && !c.posts[post].state.Purged? && eventId !in c.events
    case Curating(kind, thread, into, title, redirect, _, eventId) =>
      && HasThread(c, thread) && eventId !in c.events
      && (kind.Settle? ==> rules.isLink(rules.trim(into))) && (kind.Rename? ==> HasTitle(rules, title))
      && (kind.Close? && redirect != "" ==> HasThread(c, redirect) && redirect != thread)
    case Ack(post, eventId) =>
      && CanAct(c, post) && c.posts[post].kind == "decision" && (post, c.posts[post].revision) in c.revisions
      && IsNamed(c.revisions[(post, c.posts[post].revision)].mentions, Called(who))
      && (post, Called(who)) !in c.acks && (IsShared(c, post) ==> eventId !in c.events)
  }

  // ---- what it leaves ----

  function At(threads: map<string, ThreadRow>, t: string, now: Time): map<string, ThreadRow> {
    if t in threads then threads[t := threads[t].(lastActivity := now)] else threads
  }

  /** A new post: visible, at its first revision, with the text as asked. */
  ghost predicate Posted(c: Core, d: Core, thread: string, parent: string, postId: string, site: string, who: Author,
                         body: string, mentions: seq<Mention>, urgent: bool, kind: string, now: Time) {
    && d.posts == c.posts[postId := PostRow(thread, parent, who, site, Visible, 1, "", urgent, kind, now, 0)]
    && d.revisions == c.revisions[(postId, 1) := RevisionRow(body, mentions, who.model, now)]
    && d.boards == c.boards && d.events == c.events && d.acks == c.acks
  }

  /** Edited: one revision more, with the text as asked, and the note gone. */
  ghost predicate Edited(c: Core, d: Core, post: string, body: string, mentions: seq<Mention>, model: string, now: Time)
    requires post in c.posts
  {
    var p := c.posts[post];
    && d.posts == c.posts[post := p.(revision := p.revision + 1, note := "", editedAt := now)]
    && d.revisions == c.revisions[(post, p.revision + 1) := RevisionRow(body, mentions, model, now)]
    && d.threads == At(c.threads, p.thread, now) && d.boards == c.boards && d.events == c.events && d.acks == c.acks
  }

  ghost predicate Withdrawn(c: Core, d: Core, post: string, state: PostState, note: string, eventId: string,
                            event: EventRow)
    requires post in c.posts
  {
    && d.posts == c.posts[post := c.posts[post].(state := state, note := note)]
    && d.events == c.events[eventId := event]
    && d.threads == c.threads && d.boards == c.boards && d.revisions == c.revisions && d.acks == c.acks
  }

  predicate Linked(t: ThreadRow, into: string) { exists i :: 0 <= i < |t.links| && t.links[i].ref == into }

  /** The thread's links once it settled into something. */
  function LinksAfter(t: ThreadRow, into: string, note: string, who: Author, now: Time): seq<Link> {
    if Linked(t, into) then t.links else t.links + [Link(into, note, who, now)]
  }

  function AliasesAfter(t: ThreadRow, title: string): seq<string> {
    if title != t.title && t.title !in t.aliases then t.aliases + [t.title] else t.aliases
  }

  function CurationName(kind: Curation): string {
    match kind case Settle => "settle" case Rename => "rename" case Close => "close"
  }

  ghost predicate Curated(rules: Rules, c: Core, d: Core, op: Local, who: Author, now: Time)
    requires op.Curating? && op.thread in c.threads
  {
    var t, note := c.threads[op.thread], rules.trim(op.note);
    var t' := match op.op
      case Settle => t.(state := Settled, links := LinksAfter(t, rules.trim(op.into), note, who, now))
      case Rename => t.(title := rules.trim(op.title), aliases := AliasesAfter(t, rules.trim(op.title)))
      case Close => t.(state := Closed, redirect := op.redirect);
    var event := EventRow(op.thread, "", CurationName(op.op), note, who, ThreadData(op.into, op.title, op.redirect),
                          now);
    && d.threads == c.threads[op.thread := t'] && d.events == c.events[op.eventId := event]
    && d.boards == c.boards && d.posts == c.posts && d.revisions == c.revisions && d.acks == c.acks
  }

  ghost predicate Acked(c: Core, d: Core, post: string, eventId: string, who: Author, now: Time)
    requires CanRead(c, post)
  {
    var event := EventRow(c.posts[post].thread, post, "ack", "", who, AckData(Called(who)), now);
    && d.acks == c.acks[(post, Called(who)) := AckRow(who, now)]
    && d.events == (if IsShared(c, post) then c.events[eventId := event] else c.events)
    && d.boards == c.boards && d.threads == c.threads && d.posts == c.posts && d.revisions == c.revisions
  }

  /** d is c with what was asked for done, and nothing else. */
  ghost predicate Done(rules: Rules, c: Core, d: Core, op: Local, site: string, who: Author, now: Time)
    requires Accepts(rules, c, op, who)
  {
    match op
    case CreateBoard(name, description, network) =>
      && d.boards == c.boards[rules.trim(name) := BoardRow(site, rules.trim(description), who, now, network)]
      && d.(boards := c.boards) == c
    case OpenThread(board, threadId, postId, title, body, mentions, urgent, kind) =>
      && d.threads == c.threads[threadId :=
           ThreadRow(board, rules.trim(title), Open, postId, who, now, now, [], [], "", false)]
      && Posted(c, d, threadId, "", postId, site, who, body, mentions, urgent, NormalKind(rules, kind), now)
    case Reply(thread, parent, postId, body, mentions, urgent, kind) =>
      var parent := if parent == "" then c.threads[thread].opening else parent;
      && d.threads == At(c.threads, thread, now)
      && Posted(c, d, thread, parent, postId, site, who, body, mentions, urgent, NormalKind(rules, kind), now)
    case Edit(post, body, mentions, model) => Edited(c, d, post, body, mentions, model, now)
    case Retract(post, note, eventId) =>
      var p, note := c.posts[post], rules.trim(note);
      Withdrawn(c, d, post, Retracted, note, eventId, EventRow(p.thread, post, "retract", note, p.author, NoData, now))
    case Hide(post, note, eventId) =>
      var p := c.posts[post];
      Withdrawn(c, d, post, Hidden, p.note, eventId,
                EventRow(p.thread, post, "hide", rules.trim(note), who, NoData, now))
    case Purge(post, note, eventId) =>
      var t := c.posts[post].thread;
      var event := EventRow(t, post, "purge", rules.trim(note), who, NoData, now);
      if c.threads[t].opening == post then ThreadPurgedFrom(c, d, t, eventId, event)
      else PostPurgedFrom(c, d, post, eventId, event)
    case Curating(_, _, _, _, _, _, _) => Curated(rules, c, d, op, who, now)
    case Ack(post, eventId) => Acked(c, d, post, eventId, who, now)
  }

  // ---- each operation ----

  lemma ReadsAre(c: Core, p: string)
    requires CoreInv(c)
    ensures GetPost(c, p).Some? <==> CanRead(c, p)
    ensures CanRead(c, p) ==>
      GetPost(c, p).value.row == c.posts[p] && (p, c.posts[p].revision) in c.revisions
      && GetPost(c, p).value.current == c.revisions[(p, c.posts[p].revision)]
      && (p, c.posts[p].revision + 1) !in c.revisions
    ensures p !in c.posts ==> (p, 1) !in c.revisions
  {
  }

  /** What was asked is done exactly when it is accepted; otherwise every row stays as it was. */
  ghost predicate AsAsked(rules: Rules, c: Core, op: Local, site: string, who: Author, now: Time) {
    var d := Write(rules, c, op, site, who, now);
    if Accepts(rules, c, op, who) then Done(rules, c, d, op, site, who, now) else d == c
  }

  lemma CreateAsAsked(rules: Rules, c: Core, op: Local, site: string, who: Author, now: Time)
    requires CoreInv(c) && op.CreateBoard?
    ensures AsAsked(rules, c, op, site, who, now)
  {
    hide CoreInv, Posted, Edited, Withdrawn, Curated, Acked, PostPurgedFrom, ThreadPurgedFrom;
  }

  lemma OpenIsPlanned(rules: Rules, c: Core, op: Local, site: string, who: Author, now: Time)
    requires op.OpenThread?
    ensures Plan(rules, c, op, site, who, now) ==
      if !HasTitle(rules, op.title) || !HasText(rules, op.body) || op.board !in c.boards then None
      else
        Some(OpenWith(op.threadId,
                      ThreadRow(op.board, rules.trim(op.title), Open, op.postId, who, now, now, [], [], "", false),
                      op.postId,
                      PostRow(op.threadId, "", who, site, Visible, 1, "", op.urgent, NormalKind(rules, op.kind), now,
                              0),
                      RevisionRow(op.body, op.mentions, who.model, now)))
  {
    hide PlanCuration, PlanAck, GetPost, NormalKind;
  }

  lemma OpenAsAsked(rules: Rules, c: Core, op: Local, site: string, who: Author, now: Time)
    requires CoreInv(c) && op.OpenThread?
    ensures AsAsked(rules, c, op, site, who, now)
  {
    OpenIsPlanned(rules, c, op, site, who, now);
    ReadsAre(c, op.postId);
    hide Plan, CoreInv, Edited, Withdrawn, Curated, Acked, PostPurgedFrom, ThreadPurgedFrom, HasTitle, HasText,
      NormalKind;
  }

  lemma ReplyIsPlanned(rules: Rules, c: Core, op: Local, site: string, who: Author, now: Time)
    requires CoreInv(c) && op.Reply?
    ensures Plan(rules, c, op, site, who, now) ==
      if !HasText(rules, op.body) || !HasThread(c, op.thread)
        || (op.parent != "" && (!CanRead(c, op.parent) || c.posts[op.parent].thread != op.thread)) then None
      else
        var parent := if op.parent == "" then c.threads[op.thread].opening else op.parent;
        Some(AddTo(op.postId,
                   PostRow(op.thread, parent, who, site, Visible, 1, "", op.urgent, NormalKind(rules, op.kind), now, 0),
                   RevisionRow(op.body, op.mentions, who.model, now), now))
  {
    ReadsAre(c, op.parent);
    hide CoreInv, PlanCuration, PlanAck, GetPost, NormalKind;
  }

  lemma ReplyAsAsked(rules: Rules, c: Core, op: Local, site: string, who: Author, now: Time)
    requires CoreInv(c) && op.Reply?
    ensures AsAsked(rules, c, op, site, who, now)
  {
    ReplyIsPlanned(rules, c, op, site, who, now);
    ReadsAre(c, op.postId);
    hide Plan, CoreInv, Edited, Withdrawn, Curated, Acked, PostPurgedFrom, ThreadPurgedFrom, HasText, NormalKind,
      GetPost;
  }

  lemma EditAsAsked(rules: Rules, c: Core, op: Local, site: string, who: Author, now: Time)
    requires CoreInv(c) && op.Edit?
    ensures AsAsked(rules, c, op, site, who, now)
  {
    ReadsAre(c, op.post);
    hide CoreInv, Posted, Withdrawn, Curated, Acked, PostPurgedFrom, ThreadPurgedFrom;
    hide PlanCuration, PlanAck, GetPost;
  }

  lemma RetractAsAsked(rules: Rules, c: Core, op: Local, site: string, who: Author, now: Time)
    requires CoreInv(c) && op.Retract?
    ensures AsAsked(rules, c, op, site, who, now)
  {
    ReadsAre(c, op.post);
    hide CoreInv, Posted, Edited, Curated, Acked, PostPurgedFrom, ThreadPurgedFrom;
    hide PlanCuration, PlanAck, GetPost;
  }

  lemma HideAsAsked(rules: Rules, c: Core, op: Local, site: string, who: Author, now: Time)
    requires CoreInv(c) && op.Hide?
    ensures AsAsked(rules, c, op, site, who, now)
  {
    ReadsAre(c, op.post);
    hide CoreInv, Posted, Edited, Curated, Acked, PostPurgedFrom, ThreadPurgedFrom;
    hide PlanCuration, PlanAck, GetPost;
  }

  lemma PurgeAsAsked(rules: Rules, c: Core, op: Local, site: string, who: Author, now: Time)
    requires CoreInv(c) && op.Purge?
    ensures AsAsked(rules, c, op, site, who, now)
  {
    hide Posted, Edited, Curated, Acked, Withdrawn, PostPurgedFrom, ThreadPurgedFrom, PlanCuration, PlanAck, Result;
    ReadsAre(c, op.post);
    var plan := Plan(rules, c, op, site, who, now);
    if plan.Some? && Fits(c, plan.value) {
      if plan.value.PurgePost? { PostIsPurged(c, plan.value); } else { ThreadIsPurged(c, plan.value); }
    }
    hide CoreInv, GetPost;
  }

  lemma SettleAsAsked(rules: Rules, c: Core, op: Local, site: string, who: Author, now: Time)
    requires CoreInv(c) && op.Curating? && op.op.Settle?
    ensures AsAsked(rules, c, op, site, who, now)
  {
    hide CoreInv, Posted, Edited, Withdrawn, Acked, PostPurgedFrom, ThreadPurgedFrom;
    hide PlanAck, GetPost, WithAlias, AliasesAfter;
  }

  lemma RenameAsAsked(rules: Rules, c: Core, op: Local, site: string, who: Author, now: Time)
    requires CoreInv(c) && op.Curating? && op.op.Rename?
    ensures AsAsked(rules, c, op, site, who, now)
  {
    hide CoreInv, Posted, Edited, Withdrawn, Acked, PostPurgedFrom, ThreadPurgedFrom;
    hide PlanAck, GetPost, WithLink, LinksAfter;
  }

  lemma CloseAsAsked(rules: Rules, c: Core, op: Local, site: string, who: Author, now: Time)
    requires CoreInv(c) && op.Curating? && op.op.Close?
    ensures AsAsked(rules, c, op, site, who, now)
  {
    hide CoreInv, Posted, Edited, Withdrawn, Acked, PostPurgedFrom, ThreadPurgedFrom;
    hide PlanAck, GetPost, WithLink, LinksAfter, WithAlias, AliasesAfter;
  }

  lemma AckAsAsked(rules: Rules, c: Core, op: Local, site: string, who: Author, now: Time)
    requires CoreInv(c) && op.Ack?
    ensures AsAsked(rules, c, op, site, who, now)
  {
    hide Acked, Write, Accepts;
    if Accepts(rules, c, op, who) {
      AckIsDone(rules, c, op, site, who, now);
    } else {
      AckIsRefused(rules, c, op, site, who, now);
    }
  }

  lemma AckIsDone(rules: Rules, c: Core, op: Local, site: string, who: Author, now: Time)
    requires CoreInv(c) && op.Ack? && Accepts(rules, c, op, who)
    ensures Acked(c, Write(rules, c, op, site, who, now), op.post, op.eventId, who, now)
  {
    AckIsPlanned(rules, c, op, site, who, now);
    var e := Plan(rules, c, op, site, who, now).value;
    assert (op.post, Called(who)) !in c.acks && CanRead(c, op.post);
    assert Fits(c, e);
    hide Plan, CoreInv, GetPost, IsNamed, Called, Acked, Result, Fits, Accepts;
    AckRowsAre(c, e, op.post, op.eventId, who, now);
  }

  lemma AckRowsAre(c: Core, e: Effect, post: string, eventId: string, who: Author, now: Time)
    requires CanRead(c, post) && (post, Called(who)) !in c.acks
    requires e == if !IsShared(c, post) then AckHere(post, Called(who), AckRow(who, now))
                  else Acknowledge(post, Called(who), AckRow(who, now), eventId,
                                   EventRow(c.posts[post].thread, post, "ack", "", who, AckData(Called(who)), now))
    ensures Acked(c, Result(c, e), post, eventId, who, now)
  {
    hide IsShared, Called;
  }

  lemma AckIsRefused(rules: Rules, c: Core, op: Local, site: string, who: Author, now: Time)
    requires CoreInv(c) && op.Ack? && !Accepts(rules, c, op, who)
    ensures Write(rules, c, op, site, who, now) == c
  {
    AckIsPlanned(rules, c, op, site, who, now);
    ReadsAre(c, op.post);
    hide Plan, CoreInv, GetPost, IsNamed, Called, Result;
  }

  lemma AckIsPlanned(rules: Rules, c: Core, op: Local, site: string, who: Author, now: Time)
    requires CoreInv(c) && op.Ack?
    ensures Plan(rules, c, op, site, who, now) ==
      if !CanAct(c, op.post) || c.posts[op.post].kind != "decision"
        || !IsNamed(c.revisions[(op.post, c.posts[op.post].revision)].mentions, Called(who))
        || (op.post, Called(who)) in c.acks then None
      else if !IsShared(c, op.post) then Some(AckHere(op.post, Called(who), AckRow(who, now)))
      else
        Some(Acknowledge(op.post, Called(who), AckRow(who, now), op.eventId,
                         EventRow(c.posts[op.post].thread, op.post, "ack", "", who, AckData(Called(who)), now)))
  {
    ReadsAre(c, op.post);
    hide CoreInv, PlanCuration, GetPost;
  }

  /**
   Whatever is asked of a site, by whomever: it is accepted exactly when Accepts
   says so, then it does what was asked and nothing else, and otherwise nothing.
   */
  lemma OperationsDoAsAsked(rules: Rules, c: Core, op: Local, site: string, who: Author, now: Time)
    requires CoreInv(c)
    ensures AsAsked(rules, c, op, site, who, now)
  {
    hide AsAsked, CoreInv;
    match op
    case CreateBoard(_, _, _) => CreateAsAsked(rules, c, op, site, who, now);
    case OpenThread(_, _, _, _, _, _, _, _) => OpenAsAsked(rules, c, op, site, who, now);
    case Reply(_, _, _, _, _, _, _) => ReplyAsAsked(rules, c, op, site, who, now);
    case Edit(_, _, _, _) => EditAsAsked(rules, c, op, site, who, now);
    case Retract(_, _, _) => RetractAsAsked(rules, c, op, site, who, now);
    case Hide(_, _, _) => HideAsAsked(rules, c, op, site, who, now);
    case Purge(_, _, _) => PurgeAsAsked(rules, c, op, site, who, now);
    case Curating(kind, _, _, _, _, _, _) =>
      match kind {
        case Settle => SettleAsAsked(rules, c, op, site, who, now);
        case Rename => RenameAsAsked(rules, c, op, site, who, now);
        case Close => CloseAsAsked(rules, c, op, site, who, now);
      }
    case Ack(_, _) => AckAsAsked(rules, c, op, site, who, now);
  }
}
