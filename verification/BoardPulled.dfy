/**
 What each pulled file does: exactly when it is taken, and which rows it leaves,
 in terms of what it holds and who signed it (internal/board/shared.go
 ApplyRemote). A file that is not taken leaves every row as it was.
 */
module BoardPulled {
  import opened Wrappers
  import opened BoardStore
  import opened BoardFiles
  import opened BoardWrites
  import opened BoardHistory
  import opened BoardPurges
  import opened BoardOperations
  import Format

  // ---- what a file needs ----

  /** The site has the board, shared on the file's network. */
  predicate OnBoard(c: Core, f: Pulled, board: string) { board in c.boards && c.boards[board].network == f.network }

  predicate IdOf(signer: string, id: string) {
    |id| > |signer| && id[..|signer|] == signer && id[|signer|] == '-'
  }

  predicate TakesBoard(c: Core, f: Pulled)
    requires f.doc.Doc? && f.doc.file.BoardFile?
  {
    var h := f.doc.head;
    h.BoardHead? && h.site == f.signer && h.name == f.doc.file.board && f.doc.file.board !in c.boards
  }

  predicate TakesThread(c: Core, f: Pulled)
    requires f.doc.Doc? && f.doc.file.ThreadFile?
  {
    var h, id := f.doc.head, f.doc.file.thread;
    && h.ThreadHead? && h.site == f.signer && h.createdBy.site == f.signer && IdOf(f.signer, id)
    && h.id == id && h.board == f.doc.file.board && OnBoard(c, f, h.board) && id !in c.threads
  }

  /** The file of a post's revision, made out to its path and its signer, for a thread the site has. */
  predicate IsPostFor(c: Core, f: Pulled)
    requires f.doc.Doc? && f.doc.file.PostFile?
  {
    var h, id := f.doc.head, f.doc.file.id;
    && h.PostHead? && h.site == f.signer && h.author.site == f.signer && IdOf(f.signer, id)
    && h.id == id && h.thread == f.doc.file.thread && h.revision == f.doc.file.revision
    && OnBoard(c, f, f.doc.file.board) && HasThread(c, h.thread)
  }

  predicate TakesPost(c: Core, f: Pulled)
    requires f.doc.Doc? && f.doc.file.PostFile?
  {
    var id := f.doc.file.id;
    && IsPostFor(c, f)
    && if f.doc.file.revision == 1 then id !in c.posts
       else CanAct(c, id) && c.posts[id].site == f.signer && f.doc.file.revision == c.posts[id].revision + 1
  }

  predicate IsEventFor(c: Core, f: Pulled)
    requires f.doc.Doc? && f.doc.file.EventFile?
  {
    var h, id := f.doc.head, f.doc.file.id;
    && h.EventHead? && h.site == f.signer && IdOf(f.signer, id) && h.id == id && h.thread == f.doc.file.thread
    && OnBoard(c, f, f.doc.file.board) && HasThread(c, h.thread) && id !in c.events
  }

  function IntoOf(h: Head): string
    requires h.EventHead?
  {
    if h.data.ThreadData? then h.data.into else ""
  }

  function TitleOf(h: Head): string
    requires h.EventHead?
  {
    if h.data.ThreadData? then h.data.title else ""
  }

  function RedirectOf(h: Head): string
    requires h.EventHead?
  {
    if h.data.ThreadData? then h.data.redirect else ""
  }

  /** Only the post's own site retracts it; only for its own participants does a site acknowledge. */
  predicate TakesEvent(rules: Rules, c: Core, f: Pulled)
    requires f.doc.Doc? && f.doc.file.EventFile?
  {
    && IsEventFor(c, f)
    && var h := f.doc.head;
       || (h.kind == "retract" && CanAct(c, h.post) && c.posts[h.post].site == f.signer)
       || h.kind == "purge"
       || (h.kind == "settle" && rules.isLink(IntoOf(h)))
       || (h.kind == "rename" && HasTitle(rules, TitleOf(h)))
       || h.kind == "close"
       || (h.kind == "ack" && h.data.AckData? && h.data.who.site == f.signer && h.post in c.posts)
  }

  predicate Takes(rules: Rules, c: Core, f: Pulled) {
    && f.doc.Doc?
    && match f.doc.file
       case BoardFile(_) => TakesBoard(c, f)
       case ThreadFile(_, _) => TakesThread(c, f)
       case PostFile(_, _, _, _) => TakesPost(c, f)
       case EventFile(_, _, _) => TakesEvent(rules, c, f)
       case BlobFile(_, _) => false
  }

  // ---- what it leaves ----

  function Later(a: Time, b: Time): Time { if a < b then b else a }

  /** The author with names cleaned. */
  function AuthorOf(rules: Rules, a: Author): Author {
    Author(a.kind, a.address, a.session, a.adapter, rules.model(a.model), rules.display(a.display), a.workingFor,
           a.site)
  }

  function RowOf(rules: Rules, f: Pulled): RevisionRow
    requires f.doc.Doc? && f.doc.head.PostHead?
  {
    RevisionRow(f.doc.body, f.doc.head.mentions, rules.model(f.doc.head.model), f.doc.head.createdAt)
  }

  ghost predicate PostTaken(rules: Rules, c: Core, d: Core, f: Pulled)
    requires f.doc.Doc? && f.doc.file.PostFile? && TakesPost(c, f)
  {
    var h, id := f.doc.head, f.doc.file.id;
    && d.threads == At(c.threads, h.thread, Later(c.threads[h.thread].lastActivity, h.createdAt))
    && d.boards == c.boards && d.events == c.events && d.acks == c.acks
    && d.revisions == c.revisions[(id, f.doc.file.revision) := RowOf(rules, f)]
    && d.posts == c.posts[id :=
         if f.doc.file.revision == 1 then
           PostRow(h.thread, h.parent, AuthorOf(rules, h.author), f.signer, Visible, 1, "", h.urgent, h.kind,
                   h.createdAt, 0)
         else c.posts[id].(revision := f.doc.file.revision, note := "", editedAt := h.createdAt)]
  }

  function EventOf(h: Head): EventRow
    requires h.EventHead?
  {
    EventRow(h.thread, h.post, h.kind, h.note, h.actor, h.data, h.createdAt)
  }

  /** A purge's event keeps who purged and when, not what it says. */
  function PurgeOf(h: Head): EventRow
    requires h.EventHead?
  {
    EventRow(h.thread, h.post, h.kind, "", h.actor, h.data, h.createdAt)
  }

  function ThreadCurated(rules: Rules, t: ThreadRow, h: Head): ThreadRow
    requires h.EventHead?
  {
    if h.kind == "settle" then
      t.(state := Settled, links := LinksAfter(t, IntoOf(h), h.note, h.actor, h.createdAt))
    else if h.kind == "rename" then
      t.(title := rules.trim(TitleOf(h)), aliases := AliasesAfter(t, rules.trim(TitleOf(h))))
    else t.(state := Closed, redirect := RedirectOf(h))
  }

  ghost predicate ThreadChanged(rules: Rules, c: Core, d: Core, h: Head)
    requires h.EventHead? && h.thread in c.threads
  {
    && d.threads == c.threads[h.thread := ThreadCurated(rules, c.threads[h.thread], h)]
    && d.events == c.events[h.id := EventOf(h)]
    && d.boards == c.boards && d.posts == c.posts && d.revisions == c.revisions && d.acks == c.acks
  }

  ghost predicate AckTaken(c: Core, d: Core, h: Head)
    requires h.EventHead? && h.data.AckData?
  {
    && d.acks == (if (h.post, h.data.who) in c.acks then c.acks
                  else c.acks[(h.post, h.data.who) := AckRow(h.actor, h.createdAt)])
    && d.events == c.events[h.id := EventOf(h)]
    && d.boards == c.boards && d.threads == c.threads && d.posts == c.posts && d.revisions == c.revisions
  }

  ghost predicate EventTaken(rules: Rules, c: Core, d: Core, f: Pulled)
    requires f.doc.Doc? && f.doc.file.EventFile? && TakesEvent(rules, c, f)
  {
    var h := f.doc.head;
    if h.kind == "retract" then Withdrawn(c, d, h.post, Retracted, h.note, h.id, EventOf(h))
    else if h.kind == "purge" then
      if h.post == "" || h.post == c.threads[h.thread].opening then ThreadPurgedFrom(c, d, h.thread, h.id, PurgeOf(h))
      else PostPurgedFrom(c, d, h.post, h.id, PurgeOf(h))
    else if h.kind == "ack" then AckTaken(c, d, h)
    else ThreadChanged(rules, c, d, h)
  }

  /** d is c with the file's content in, and nothing else. */
  ghost predicate Taken(rules: Rules, c: Core, d: Core, f: Pulled)
    requires Takes(rules, c, f)
  {
    var doc := f.doc;
    match doc.file
    case BoardFile(name) =>
      && d.boards == c.boards[name :=
           BoardRow(f.signer, doc.body, doc.head.createdBy, doc.head.createdAt, f.network)]
      && d.(boards := c.boards) == c
    case ThreadFile(board, id) =>
      var h := doc.head;
      && d.threads == c.threads[id :=
           ThreadRow(board, h.title, Open, h.opening, h.createdBy, h.createdAt, h.createdAt, [], [], "", false)]
      && d.(threads := c.threads) == c
    case PostFile(_, _, _, _) => PostTaken(rules, c, d, f)
    case EventFile(_, _, _) => EventTaken(rules, c, d, f)
    case BlobFile(_, _) => false
  }

  /** The file is taken exactly when Takes says so, and then leaves just what it holds; otherwise nothing changes. */
  ghost predicate AsSigned(rules: Rules, c: Core, f: Pulled) {
    var d := Pull(rules, c, f);
    if Takes(rules, c, f) then Taken(rules, c, d, f) else d == c
  }

  // ---- each kind of file ----

  lemma OwnIs(id: string, signer: string)
    ensures Own(id, signer) <==> IdOf(signer, id)
  {
    var mark := signer + "-";
    assert mark[|signer|] == '-' && mark[..|signer|] == signer;
    if IdOf(signer, id) { assert id[..|signer| + 1] == mark; }
    if Own(id, signer) { assert id[..|signer| + 1] == mark; }
  }

  lemma BoardAsSigned(rules: Rules, c: Core, f: Pulled)
    requires CoreInv(c) && f.doc.Doc? && f.doc.file.BoardFile?
    ensures AsSigned(rules, c, f)
  {
    hide CoreInv, PostTaken, EventTaken;
  }

  lemma ThreadAsSigned(rules: Rules, c: Core, f: Pulled)
    requires CoreInv(c) && f.doc.Doc? && f.doc.file.ThreadFile?
    ensures AsSigned(rules, c, f)
  {
    OwnIs(f.doc.file.thread, f.signer);
    hide CoreInv, PostTaken, EventTaken, Own, IdOf, JudgePost, JudgeEvent, JudgeBoard;
  }

  predicate IsTake(v: Verdict, e: Effect) { v == Take(e) }

  lemma FirstIsJudged(rules: Rules, c: Core, f: Pulled)
    requires CoreInv(c) && f.doc.Doc? && f.doc.file.PostFile? && f.doc.file.revision == 1
    ensures var h, id, v := f.doc.head, f.doc.file.id, Judge(rules, c, f);
      if IsPostFor(c, f) && !CanRead(c, id) then
        IsTake(v, AddTo(id, PostRow(h.thread, h.parent, AuthorOf(rules, h.author), f.signer, Visible, 1, "", h.urgent,
                                    h.kind, h.createdAt, 0),
                        RowOf(rules, f), Later(c.threads[h.thread].lastActivity, h.createdAt)))
      else !v.Take?
  {
    OwnIs(f.doc.file.id, f.signer);
    ReadsAre(c, f.doc.file.id);
    hide CoreInv, Own, IdOf, JudgeThread, JudgeEvent, JudgeBoard, GetPost, CanRead;
  }

  lemma LaterIsJudged(rules: Rules, c: Core, f: Pulled)
    requires CoreInv(c) && f.doc.Doc? && f.doc.file.PostFile? && f.doc.file.revision != 1
    ensures var h, id, v := f.doc.head, f.doc.file.id, Judge(rules, c, f);
      if TakesPost(c, f) then
        IsTake(v, Revise(id, RowOf(rules, f), Later(c.threads[h.thread].lastActivity, h.createdAt), h.thread))
      else !v.Take?
  {
    OwnIs(f.doc.file.id, f.signer);
    ReadsAre(c, f.doc.file.id);
    hide CoreInv, Own, IdOf, JudgeThread, JudgeEvent, JudgeBoard, GetPost, CanRead;
  }

  lemma FirstAsSigned(rules: Rules, c: Core, f: Pulled)
    requires CoreInv(c) && f.doc.Doc? && f.doc.file.PostFile? && f.doc.file.revision == 1
    ensures AsSigned(rules, c, f)
  {
    FirstIsJudged(rules, c, f);
    ReadsAre(c, f.doc.file.id);
    hide CoreInv, EventTaken, IdOf, Judge, GetPost, RowOf, AuthorOf;
  }

  lemma LaterAsSigned(rules: Rules, c: Core, f: Pulled)
    requires CoreInv(c) && f.doc.Doc? && f.doc.file.PostFile? && f.doc.file.revision != 1
    ensures AsSigned(rules, c, f)
  {
    LaterIsJudged(rules, c, f);
    ReadsAre(c, f.doc.file.id);
    hide CoreInv, EventTaken, IdOf, Judge, GetPost, RowOf, AuthorOf;
  }

  // An event file comes down to its event, and the event to what its kind says.

  lemma EventComesDown(rules: Rules, c: Core, f: Pulled)
    requires f.doc.Doc? && f.doc.file.EventFile?
    ensures var v := Judge(rules, c, f);
      if IsEventFor(c, f) then v == JudgeNewEvent(rules, c, f, f.doc.head) else !v.Take?
  {
    OwnIs(f.doc.file.id, f.signer);
    hide Own, IdOf, JudgeThread, JudgePost, JudgeBoard, JudgeNewEvent;
  }

  lemma RetractAsSigned(rules: Rules, c: Core, f: Pulled)
    requires CoreInv(c) && f.doc.Doc? && f.doc.file.EventFile? && IsEventFor(c, f) && f.doc.head.kind == "retract"
    ensures AsSigned(rules, c, f)
  {
    EventComesDown(rules, c, f);
    ReadsAre(c, f.doc.head.post);
    hide CoreInv, PostTaken, IdOf, Judge, GetPost, ThreadPurgedFrom, PostPurgedFrom, AckTaken, ThreadChanged;
  }

  lemma PurgeAsSigned(rules: Rules, c: Core, f: Pulled)
    requires CoreInv(c) && f.doc.Doc? && f.doc.file.EventFile? && IsEventFor(c, f) && f.doc.head.kind == "purge"
    ensures AsSigned(rules, c, f)
  {
    EventComesDown(rules, c, f);
    var v := JudgeNewEvent(rules, c, f, f.doc.head);
    if v.effect.PurgePost? { PostIsPurged(c, v.effect); } else { ThreadIsPurged(c, v.effect); }
    hide CoreInv, PostTaken, IdOf, Judge, GetPost, ThreadPurgedFrom, PostPurgedFrom, AckTaken, ThreadChanged, Withdrawn,
      Result;
  }

  lemma SettleAsSigned(rules: Rules, c: Core, f: Pulled)
    requires CoreInv(c) && f.doc.Doc? && f.doc.file.EventFile? && IsEventFor(c, f) && f.doc.head.kind == "settle"
    ensures AsSigned(rules, c, f)
  {
    EventComesDown(rules, c, f);
    hide CoreInv, PostTaken, IdOf, Judge, GetPost, ThreadPurgedFrom, PostPurgedFrom, AckTaken, Withdrawn, WithAlias,
      AliasesAfter;
  }

  lemma RenameAsSigned(rules: Rules, c: Core, f: Pulled)
    requires CoreInv(c) && f.doc.Doc? && f.doc.file.EventFile? && IsEventFor(c, f) && f.doc.head.kind == "rename"
    ensures AsSigned(rules, c, f)
  {
    EventComesDown(rules, c, f);
    hide CoreInv, PostTaken, IdOf, Judge, GetPost, ThreadPurgedFrom, PostPurgedFrom, AckTaken, Withdrawn, WithLink,
      LinksAfter;
  }

  lemma CloseAsSigned(rules: Rules, c: Core, f: Pulled)
    requires CoreInv(c) && f.doc.Doc? && f.doc.file.EventFile? && IsEventFor(c, f) && f.doc.head.kind == "close"
    ensures AsSigned(rules, c, f)
  {
    EventComesDown(rules, c, f);
    hide CoreInv, PostTaken, IdOf, Judge, GetPost, ThreadPurgedFrom, PostPurgedFrom, AckTaken, Withdrawn, WithLink,
      LinksAfter, WithAlias, AliasesAfter;
  }

  lemma AckAsSigned(rules: Rules, c: Core, f: Pulled)
    requires CoreInv(c) && f.doc.Doc? && f.doc.file.EventFile? && IsEventFor(c, f) && f.doc.head.kind == "ack"
    ensures AsSigned(rules, c, f)
  {
    EventComesDown(rules, c, f);
    hide CoreInv, PostTaken, IdOf, Judge, GetPost, ThreadPurgedFrom, PostPurgedFrom, ThreadChanged, Withdrawn;
  }

  lemma OtherEventAsSigned(rules: Rules, c: Core, f: Pulled)
    requires CoreInv(c) && f.doc.Doc? && f.doc.file.EventFile?
    requires !IsEventFor(c, f) || f.doc.head.kind !in {"retract", "purge", "settle", "rename", "close", "ack"}
    ensures AsSigned(rules, c, f)
  {
    EventComesDown(rules, c, f);
    hide CoreInv, PostTaken, IdOf, Judge, GetPost, EventTaken;
  }

  lemma EventAsSigned(rules: Rules, c: Core, f: Pulled)
    requires CoreInv(c) && f.doc.Doc? && f.doc.file.EventFile?
    ensures AsSigned(rules, c, f)
  {
    hide AsSigned, CoreInv;
    if !IsEventFor(c, f) {
      OtherEventAsSigned(rules, c, f);
    } else {
      var kind := f.doc.head.kind;
      hide IsEventFor;
      if kind == "retract" { RetractAsSigned(rules, c, f); }
      else if kind == "purge" { PurgeAsSigned(rules, c, f); }
      else if kind == "settle" { SettleAsSigned(rules, c, f); }
      else if kind == "rename" { RenameAsSigned(rules, c, f); }
      else if kind == "close" { CloseAsSigned(rules, c, f); }
      else if kind == "ack" { AckAsSigned(rules, c, f); }
      else { OtherEventAsSigned(rules, c, f); }
    }
  }

  /** Files that cannot be read, or are not the board's, change nothing. */
  lemma OtherAsSigned(rules: Rules, c: Core, f: Pulled)
    requires !f.doc.Doc? || f.doc.file.BlobFile?
    ensures AsSigned(rules, c, f)
  {
    hide PostTaken, EventTaken;
  }

  /**
   Whatever is pulled, and whoever signed it: it is taken exactly when Takes says
   so, then it leaves just what it holds, and otherwise nothing changes.
   */
  lemma FilesDoAsSigned(rules: Rules, c: Core, f: Pulled)
    requires CoreInv(c)
    ensures AsSigned(rules, c, f)
  {
    hide AsSigned, CoreInv;
    if !f.doc.Doc? {
      OtherAsSigned(rules, c, f);
    } else {
      match f.doc.file
      case BoardFile(_) => BoardAsSigned(rules, c, f);
      case ThreadFile(_, _) => ThreadAsSigned(rules, c, f);
      case PostFile(_, _, _, n) => if n == 1 { FirstAsSigned(rules, c, f); } else { LaterAsSigned(rules, c, f); }
      case EventFile(_, _, _) => EventAsSigned(rules, c, f);
      case BlobFile(_, _) => OtherAsSigned(rules, c, f);
    }
  }
}
