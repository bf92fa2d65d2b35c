/**
 Who may change what on a board: what a site writes, and what it takes from files,
 each by the right of who asked or who signed (internal/board/service.go;
 internal/board/shared.go ApplyRemote).
 */
module BoardAuthority {
  import opened BoardStore
  import opened BoardFiles
  import opened BoardWrites
  import opened BoardHistory
  import opened BoardPurges
  import opened BoardOperations
  import opened BoardPulled

  // ---- who did it ----

  /** An event's file, made out to its signer. */
  predicate SignedEvent(e: Event, kind: string) {
    && e.From? && e.f.doc.Doc? && e.f.doc.file.EventFile? && e.f.doc.head.EventHead?
    && e.f.doc.head.kind == kind && e.f.doc.head.site == e.f.signer
  }

  /** The post's author retracts it here, or the post's own site says so. */
  predicate Retracts(c: Core, e: Event, p: string)
    requires p in c.posts
  {
    || (e.Here? && e.op.Retract? && e.op.post == p && IsSame(e.who, c.posts[p].author))
    || (SignedEvent(e, "retract") && e.f.doc.head.post == p && e.f.signer == c.posts[p].site)
  }

  /** A person hides it here. */
  predicate Hides(e: Event, p: string) { e.Here? && e.op.Hide? && e.op.post == p && e.who.kind == "person" }

  /** A purge of the post itself, or of the post that opens its thread. */
  predicate PurgeReaches(c: Core, named: string, thread: string, p: string)
    requires p in c.posts
  {
    || named == p
    || (c.posts[p].thread == thread && thread in c.threads && (named == "" || named == c.threads[thread].opening))
  }

  /** A person purges it here, or a site's event does. */
  predicate Purges(c: Core, e: Event, p: string)
    requires p in c.posts
  {
    || (e.Here? && e.op.Purge? && e.who.kind == "person" && e.op.post in c.posts
        && PurgeReaches(c, e.op.post, c.posts[e.op.post].thread, p))
    || (SignedEvent(e, "purge") && PurgeReaches(c, e.f.doc.head.post, e.f.doc.head.thread, p))
  }

  /** The participant acknowledges here, or its own site says that it did. */
  predicate Acknowledges(e: Event, post: string, who: Participant) {
    || (e.Here? && e.op.Ack? && e.op.post == post && Called(e.who) == who)
    || (SignedEvent(e, "ack") && e.f.doc.head.post == post && e.f.doc.head.data == AckData(who)
        && e.f.signer == who.site)
  }

  /** Whose site it was: the writer's here, or the signer. */
  function SiteOf(site: string, e: Event): string { if e.Here? then site else e.f.signer }

  /** A thread is changed as a whole by a settle, rename or close of it, or by a purge. */
  predicate Curates(e: Event, t: string) {
    || (e.Here? && e.op.Curating? && e.op.thread == t)
    || ((SignedEvent(e, "settle") || SignedEvent(e, "rename") || SignedEvent(e, "close")) && e.f.doc.head.thread == t)
  }

  // ---- one step ----

  /** What becomes of a post is done by right. */
  ghost predicate PostByRight(c: Core, d: Core, e: Event, p: string)
    requires p in c.posts && p in d.posts
  {
    var was, now := c.posts[p].state, d.posts[p].state;
    && (now.Retracted? && !was.Retracted? ==> was.Visible? && Retracts(c, e, p))
    && (now.Hidden? && !was.Hidden? ==> was.Visible? && Hides(e, p))
    && (now.Purged? && !was.Purged? ==> Purges(c, e, p))
    && (now.Visible? ==> was.Visible?)
  }

  /** What is new is of the writer's or the signer's own site. */
  ghost predicate NewByRight(c: Core, d: Core, site: string, e: Event) {
    && (forall b :: b in d.boards && b !in c.boards ==> d.boards[b].site == SiteOf(site, e))
    && (forall t :: t in d.threads && t !in c.threads ==> d.threads[t].createdBy.site == SiteOf(site, e))
    && (forall p :: p in d.posts && p !in c.posts ==>
          d.posts[p].site == SiteOf(site, e) && d.posts[p].author.site == SiteOf(site, e))
    && (forall post: string, who: Participant :: (post, who) in d.acks && (post, who) !in c.acks ==>
          Acknowledges(e, post, who))
  }

  /** A thread changes, but for its activity time, only when it is curated or purged. */
  predicate ThreadByRight(c: Core, d: Core, e: Event, t: string)
    requires t in c.threads && t in d.threads
  {
    || d.threads[t] == c.threads[t].(lastActivity := d.threads[t].lastActivity)
    || Curates(e, t)
    || (d.threads[t].purged && ((e.Here? && e.op.Purge? && e.who.kind == "person") || SignedEvent(e, "purge")))
  }

  ghost predicate ByRight(c: Core, d: Core, site: string, e: Event) {
    && (forall p :: p in c.posts ==> p in d.posts && PostByRight(c, d, e, p))
    && (forall t :: t in c.threads ==> t in d.threads && ThreadByRight(c, d, e, t))
    && NewByRight(c, d, site, e)
  }

  lemma NothingByRight(c: Core, site: string, e: Event)
    ensures ByRight(c, c, site, e)
  {
  }

  lemma MakeHere(rules: Rules, c: Core, d: Core, site: string, e: Event)
    requires e.Here? && e.who.site == site && Accepts(rules, c, e.op, e.who)
    requires Done(rules, c, d, e.op, site, e.who, e.now) && e.op.CreateBoard?
    ensures ByRight(c, d, site, e)
  {
    hide NormalKind, HasText, HasTitle, IsNamed;
  }

  lemma OpenHere(rules: Rules, c: Core, d: Core, site: string, e: Event)
    requires e.Here? && e.who.site == site && Accepts(rules, c, e.op, e.who)
    requires Done(rules, c, d, e.op, site, e.who, e.now) && e.op.OpenThread?
    ensures ByRight(c, d, site, e)
  {
    hide NormalKind, HasText, HasTitle, IsNamed;
  }

  lemma ReplyHere(rules: Rules, c: Core, d: Core, site: string, e: Event)
    requires e.Here? && e.who.site == site && Accepts(rules, c, e.op, e.who)
    requires Done(rules, c, d, e.op, site, e.who, e.now) && e.op.Reply?
    ensures ByRight(c, d, site, e)
  {
    hide NormalKind, HasText, HasTitle, IsNamed;
  }

  lemma EditHere(rules: Rules, c: Core, d: Core, site: string, e: Event)
    requires e.Here? && e.who.site == site && Accepts(rules, c, e.op, e.who)
    requires Done(rules, c, d, e.op, site, e.who, e.now) && e.op.Edit?
    ensures ByRight(c, d, site, e)
  {
    hide NormalKind, HasText, HasTitle, IsNamed;
  }

  lemma RetractHere(rules: Rules, c: Core, d: Core, site: string, e: Event)
    requires e.Here? && e.who.site == site && Accepts(rules, c, e.op, e.who)
    requires Done(rules, c, d, e.op, site, e.who, e.now) && e.op.Retract?
    ensures ByRight(c, d, site, e)
  {
    hide NormalKind, HasText, HasTitle, IsNamed;
  }

  lemma HideHere(rules: Rules, c: Core, d: Core, site: string, e: Event)
    requires e.Here? && e.who.site == site && Accepts(rules, c, e.op, e.who)
    requires Done(rules, c, d, e.op, site, e.who, e.now) && e.op.Hide?
    ensures ByRight(c, d, site, e)
  {
    hide NormalKind, HasText, HasTitle, IsNamed;
  }

  lemma PurgeHere(rules: Rules, c: Core, d: Core, site: string, e: Event)
    requires e.Here? && e.who.site == site && Accepts(rules, c, e.op, e.who)
    requires Done(rules, c, d, e.op, site, e.who, e.now) && e.op.Purge?
    requires c.threads[c.posts[e.op.post].thread].opening != e.op.post
    ensures ByRight(c, d, site, e)
  {
    hide NormalKind, HasText, HasTitle, IsNamed, EventsEmptied, RevisionEmptiedFrom, ThreadPurgedFrom;
  }

  lemma PurgeThreadHere(rules: Rules, c: Core, d: Core, site: string, e: Event)
    requires e.Here? && e.who.site == site && Accepts(rules, c, e.op, e.who)
    requires Done(rules, c, d, e.op, site, e.who, e.now) && e.op.Purge?
    requires c.threads[c.posts[e.op.post].thread].opening == e.op.post
    ensures ByRight(c, d, site, e)
  {
    hide NormalKind, HasText, HasTitle, IsNamed, EventsEmptied, RevisionEmptiedFrom, PostPurgedFrom;
  }

  lemma PurgedHere(rules: Rules, c: Core, d: Core, site: string, e: Event)
    requires e.Here? && e.who.site == site && Accepts(rules, c, e.op, e.who)
    requires Done(rules, c, d, e.op, site, e.who, e.now) && e.op.Purge?
    ensures ByRight(c, d, site, e)
  {
    assert CanRead(c, e.op.post);
    hide Done, ByRight, Accepts;
    if c.threads[c.posts[e.op.post].thread].opening == e.op.post {
      PurgeThreadHere(rules, c, d, site, e);
    } else {
      PurgeHere(rules, c, d, site, e);
    }
  }

  lemma CurateHere(rules: Rules, c: Core, d: Core, site: string, e: Event)
    requires e.Here? && e.who.site == site && Accepts(rules, c, e.op, e.who)
    requires Done(rules, c, d, e.op, site, e.who, e.now) && (e.op.Curating? || e.op.Ack?)
    ensures ByRight(c, d, site, e)
  {
    hide NormalKind, HasText, HasTitle, IsNamed, LinksAfter, AliasesAfter;
  }

  lemma HereByRight(rules: Rules, c: Core, site: string, e: Event)
    requires CoreInv(c) && e.Here? && e.who.site == site
    ensures ByRight(c, After(rules, c, site, e), site, e)
  {
    OperationsDoAsAsked(rules, c, e.op, site, e.who, e.now);
    NothingByRight(c, site, e);
    var d := Write(rules, c, e.op, site, e.who, e.now);
    hide CoreInv, Write, Accepts, Done, ByRight;
    if Accepts(rules, c, e.op, e.who) {
      match e.op {
        case CreateBoard(_, _, _) => MakeHere(rules, c, d, site, e);
        case OpenThread(_, _, _, _, _, _, _, _) => OpenHere(rules, c, d, site, e);
        case Reply(_, _, _, _, _, _, _) => ReplyHere(rules, c, d, site, e);
        case Edit(_, _, _, _) => EditHere(rules, c, d, site, e);
        case Retract(_, _, _) => RetractHere(rules, c, d, site, e);
        case Hide(_, _, _) => HideHere(rules, c, d, site, e);
        case Purge(post, _, _) => PurgedHere(rules, c, d, site, e);
        case _ => CurateHere(rules, c, d, site, e);
      }
    }
  }

  lemma BoardFrom(rules: Rules, c: Core, d: Core, site: string, e: Event)
    requires e.From? && Takes(rules, c, e.f) && Taken(rules, c, d, e.f) && e.f.doc.file.BoardFile?
    ensures ByRight(c, d, site, e)
  {
    hide HasTitle, IdOf, RowOf;
  }

  lemma ThreadFrom(rules: Rules, c: Core, d: Core, site: string, e: Event)
    requires e.From? && Takes(rules, c, e.f) && Taken(rules, c, d, e.f) && e.f.doc.file.ThreadFile?
    ensures ByRight(c, d, site, e)
  {
    hide HasTitle, IdOf, RowOf;
  }

  lemma PostFrom(rules: Rules, c: Core, d: Core, site: string, e: Event)
    requires e.From? && Takes(rules, c, e.f) && Taken(rules, c, d, e.f) && e.f.doc.file.PostFile?
    ensures ByRight(c, d, site, e)
  {
    hide HasTitle, IdOf, RowOf;
  }

  lemma PurgeFrom(rules: Rules, c: Core, d: Core, site: string, e: Event)
    requires e.From? && Takes(rules, c, e.f) && Taken(rules, c, d, e.f)
    requires e.f.doc.file.EventFile? && e.f.doc.head.kind == "purge"
    ensures ByRight(c, d, site, e)
  {
    hide HasTitle, IdOf, RowOf, EventsEmptied, RevisionEmptiedFrom;
  }

  lemma EventFrom(rules: Rules, c: Core, d: Core, site: string, e: Event)
    requires e.From? && Takes(rules, c, e.f) && Taken(rules, c, d, e.f)
    requires e.f.doc.file.EventFile? && e.f.doc.head.kind != "purge"
    ensures ByRight(c, d, site, e)
  {
    hide HasTitle, IdOf, RowOf, ThreadCurated, EventOf, IntoOf, TitleOf;
  }

  lemma FromByRight(rules: Rules, c: Core, site: string, e: Event)
    requires CoreInv(c) && e.From?
    ensures ByRight(c, After(rules, c, site, e), site, e)
  {
    FilesDoAsSigned(rules, c, e.f);
    NothingByRight(c, site, e);
    var d := Pull(rules, c, e.f);
    hide CoreInv, Pull, Taken, ByRight;
    if Takes(rules, c, e.f) {
      match e.f.doc.file
      case BoardFile(_) => BoardFrom(rules, c, d, site, e);
      case ThreadFile(_, _) => ThreadFrom(rules, c, d, site, e);
      case PostFile(_, _, _, _) => PostFrom(rules, c, d, site, e);
      case EventFile(_, _, _) =>
        if e.f.doc.head.kind == "purge" { PurgeFrom(rules, c, d, site, e); } else { EventFrom(rules, c, d, site, e); }
      case BlobFile(_, _) =>
    }
  }

  /**
   In every run, whatever local operations and pulled files it is made of and
   whoever signed them: a post is retracted only by its author here or by its own
   site, hidden only by a person here, and purged only by a person here or by a
   purge event; what is new is of the writer's or the signer's own site; a
   participant acknowledges here or by its own site's word; and a thread is
   changed only by curating or purging it.
   */
  lemma EveryStepIsByRight(rules: Rules, site: string, run: seq<Core>, events: seq<Event>, i: nat)
    requires IsRun(rules, site, run, events) && i < |events|
    ensures ByRight(run[i], run[i + 1], site, events[i])
  {
    RunGrows(rules, site, run, events, i, i);
    hide CoreInv, Grows, After, ByRight;
    if events[i].Here? { HereByRight(rules, run[i], site, events[i]); }
    else { FromByRight(rules, run[i], site, events[i]); }
  }
}
