/**
 What a write on a board does: the local operations of
 internal/board/service.go and internal/board/curation.go, and the pulled files
 of internal/board/shared.go, each down to the changes it hands the store. Who
 the caller is, the clock, new IDs and resolved mentions are given.
 */
module BoardWrites {
  import opened Wrappers
  import opened BoardStore
  import opened BoardFiles
  import Format
  import Ids

  /**
   Text rules the service applies: trimming and lower case, what a thread can
   settle into, cleaned display names, and the networks the site is configured for.
   */
  datatype Rules = Rules(trim: string -> string, lower: string -> string, isLink: string -> bool,
                         model: string -> string, display: string -> string, network: string -> bool)

  /** normalKind: a note is the kind of post that is none. */
  function NormalKind(rules: Rules, kind: string): string {
    var kind := rules.lower(rules.trim(kind));
    if kind == "note" then "" else kind
  }

  const MAX_TITLE: nat := 200

  /** A caller the directory has vouched for: of this site, its display names cleaned. */
  predicate Resolved(rules: Rules, site: string, who: Author) {
    who.site == site && rules.model(who.model) == who.model && rules.display(who.display) == who.display
  }

  // ---- effects: the shapes a write's changes come in ----

  datatype Effect =
    | MakeBoard(name: string, board: BoardRow)
    | MakeThread(id: string, thread: ThreadRow)
    | OpenWith(id: string, thread: ThreadRow, postId: string, post: PostRow, revision: RevisionRow)
    | AddTo(postId: string, post: PostRow, revision: RevisionRow, at: Time)
    | Revise(postId: string, revision: RevisionRow, at: Time, touched: string)
    | Withdraw(postId: string, to: PostState, note: string, eventId: string, event: EventRow)
    | PurgePost(postId: string, eventId: string, event: EventRow)
    | PurgeThread(id: string, eventId: string, event: EventRow)
    | Curate(id: string, state: ThreadState, title: string, links: seq<Link>, aliases: seq<string>, redirect: string,
             eventId: string, event: EventRow)
    | Acknowledge(postId: string, who: Participant, ack: AckRow, eventId: string, event: EventRow)
    | AckHere(postId: string, who: Participant, ack: AckRow)

  /** The rows an effect leaves. */
  function Result(c: Core, e: Effect): Core {
    match e
    case MakeBoard(name, board) => c.(boards := c.boards[name := board])
    case MakeThread(id, thread) => c.(threads := c.threads[id := thread])
    case OpenWith(id, thread, postId, post, revision) =>
      c.(threads := c.threads[id := thread], posts := c.posts[postId := post],
         revisions := c.revisions[(postId, 1) := revision])
    case AddTo(postId, post, revision, at) =>
      Touched(c, post.thread, at).(posts := c.posts[postId := post], revisions := c.revisions[(postId, 1) := revision])
    case Revise(postId, revision, at, thread) =>
      if postId !in c.posts then c
      else
        var p := c.posts[postId];
        var n := p.revision + 1;
        Touched(c, thread, at).(
          posts := c.posts[postId := p.(state := Visible, revision := n, note := "", editedAt := revision.createdAt)],
          revisions := c.revisions[(postId, n) := revision])
    case Withdraw(postId, state, note, eventId, event) =>
      if postId !in c.posts then c
      else
        c.(posts := c.posts[postId := c.posts[postId].(state := state, note := note)],
           events := c.events[eventId := event])
    case PurgePost(postId, eventId, event) =>
      var s := ScrubOnePost(c, postId);
      s.(events := s.events[eventId := event])
    case PurgeThread(id, eventId, event) =>
      var s := ScrubWholeThread(c, id);
      s.(events := s.events[eventId := event])
    case Curate(id, state, title, links, aliases, redirect, eventId, event) =>
      if id !in c.threads then c
      else
        var row := c.threads[id].(state := state, title := title, links := links, aliases := aliases,
                                  redirect := redirect);
        c.(threads := c.threads[id := row], events := c.events[eventId := event])
    case Acknowledge(postId, who, ack, eventId, event) =>
      c.(acks := if (postId, who) in c.acks then c.acks else c.acks[(postId, who) := ack],
         events := c.events[eventId := event])
    case AckHere(postId, who, ack) =>
      c.(acks := if (postId, who) in c.acks then c.acks else c.acks[(postId, who) := ack])
  }

  function Touched(c: Core, thread: string, at: Time): Core {
    if thread in c.threads then c.(threads := c.threads[thread := c.threads[thread].(lastActivity := at)]) else c
  }

  /** What the store's keys and references ask of an effect. */
  predicate Fits(c: Core, e: Effect) {
    match e
    case MakeBoard(name, _) => name !in c.boards
    case MakeThread(id, thread) => id !in c.threads && thread.board in c.boards
    case OpenWith(id, thread, postId, post, _) =>
      && id !in c.threads && thread.board in c.boards && postId !in c.posts && post.thread in c.threads[id := thread]
      && (postId, 1) !in c.revisions
    case AddTo(postId, post, _, _) => postId !in c.posts && post.thread in c.threads && (postId, 1) !in c.revisions
    case Revise(postId, _, _, _) => postId in c.posts && (postId, c.posts[postId].revision + 1) !in c.revisions
    case Withdraw(postId, _, _, eventId, event) =>
      postId in c.posts && eventId !in c.events && event.thread in c.threads
    case PurgePost(postId, eventId, event) => eventId !in c.events && event.thread in c.threads
    case PurgeThread(id, eventId, event) => eventId !in c.events && event.thread in c.threads
    case Curate(id, _, _, _, _, _, eventId, event) =>
      id in c.threads && eventId !in c.events && event.thread in c.threads
    case Acknowledge(postId, _, _, eventId, event) =>
      postId in c.posts && eventId !in c.events && event.thread in c.threads
    case AckHere(postId, _, _) => postId in c.posts
  }

  /** The changes, in the order the code hands them over: a local write puts the event last, a pulled one first. */
  function ChangesOf(c: Core, e: Effect, pulled: bool): seq<Change> {
    match e
    case MakeBoard(name, board) => [AddBoard(name, board)]
    case MakeThread(id, thread) => [AddThread(id, thread)]
    case OpenWith(id, thread, postId, post, revision) =>
      [AddThread(id, thread), AddPost(postId, post), AddRevision(postId, 1, revision)]
    case AddTo(postId, post, revision, at) =>
      [AddPost(postId, post), AddRevision(postId, 1, revision), Touch(post.thread, at)]
    case Revise(postId, revision, at, thread) =>
      var n := if postId in c.posts then c.posts[postId].revision + 1 else 0;
      [AddRevision(postId, n, revision), SetPost(postId, Visible, n, "", revision.createdAt), Touch(thread, at)]
    case Withdraw(postId, state, note, eventId, event) =>
      var n := if postId in c.posts then c.posts[postId].revision else 0;
      var editedAt := if postId in c.posts then c.posts[postId].editedAt else 0;
      Ordered(SetPost(postId, state, n, note, editedAt), AddEvent(eventId, event), pulled)
    case PurgePost(postId, eventId, event) => [ScrubPost(postId), AddEvent(eventId, event)]
    case PurgeThread(id, eventId, event) => [ScrubThread(id), AddEvent(eventId, event)]
    case Curate(id, state, title, links, aliases, redirect, eventId, event) =>
      Ordered(UpdateThread(id, state, title, links, aliases, redirect), AddEvent(eventId, event), pulled)
    case Acknowledge(postId, who, ack, eventId, event) =>
      Ordered(AddAck(postId, who, ack), AddEvent(eventId, event), pulled)
    case AckHere(postId, who, ack) => [AddAck(postId, who, ack)]
  }

  function Ordered(change: Change, event: Change, pulled: bool): seq<Change> {
    if pulled then [event, change] else [change, event]
  }

  lemma MakeIsResult(c: Core, e: Effect, pulled: bool)
    requires e.MakeBoard? || e.MakeThread?
    ensures ApplyAll(c, ChangesOf(c, e, pulled)) == if Fits(c, e) then Some(Result(c, e)) else None
  {
    ApplySingle(c, if e.MakeBoard? then AddBoard(e.name, e.board) else AddThread(e.id, e.thread));
  }

  lemma WithdrawIsResult(c: Core, e: Effect, pulled: bool)
    requires e.Withdraw? && e.postId in c.posts
    ensures ApplyAll(c, ChangesOf(c, e, pulled)) == if Fits(c, e) then Some(Result(c, e)) else None
  {
    var p := c.posts[e.postId];
    OrderedIsResult(c, SetPost(e.postId, e.to, p.revision, e.note, p.editedAt), e.eventId, e.event, pulled);
  }

  lemma PurgeIsResult(c: Core, e: Effect, pulled: bool)
    requires e.PurgePost? || e.PurgeThread?
    ensures ApplyAll(c, ChangesOf(c, e, pulled)) == if Fits(c, e) then Some(Result(c, e)) else None
  {
    var scrub := if e.PurgePost? then ScrubPost(e.postId) else ScrubThread(e.id);
    ApplyTwo(c, scrub, AddEvent(e.eventId, e.event));
  }

  lemma CurateIsResult(c: Core, e: Effect, pulled: bool)
    requires e.Curate? && e.id in c.threads
    ensures ApplyAll(c, ChangesOf(c, e, pulled)) == if Fits(c, e) then Some(Result(c, e)) else None
  {
    OrderedIsResult(c, UpdateThread(e.id, e.state, e.title, e.links, e.aliases, e.redirect), e.eventId, e.event,
                    pulled);
  }

  lemma AckIsResult(c: Core, e: Effect, pulled: bool)
    requires e.Acknowledge?
    ensures ApplyAll(c, ChangesOf(c, e, pulled)) == if Fits(c, e) then Some(Result(c, e)) else None
  {
    OrderedIsResult(c, AddAck(e.postId, e.who, e.ack), e.eventId, e.event, pulled);
  }

  lemma AckHereIsResult(c: Core, e: Effect, pulled: bool)
    requires e.AckHere?
    ensures ApplyAll(c, ChangesOf(c, e, pulled)) == if Fits(c, e) then Some(Result(c, e)) else None
  {
    ApplySingle(c, AddAck(e.postId, e.who, e.ack));
  }

  /** The store takes an effect's changes exactly when the effect fits, and they leave its result. */
  lemma ApplyIsResult(c: Core, e: Effect, pulled: bool)
    requires HasRows(c, e)
    ensures ApplyAll(c, ChangesOf(c, e, pulled)) == if Fits(c, e) then Some(Result(c, e)) else None
  {
    assert (e.Withdraw? || e.Revise? ==> e.postId in c.posts) && (e.Curate? ==> e.id in c.threads);
    hide *;
    match e
    case MakeBoard(_, _) => MakeIsResult(c, e, pulled);
    case MakeThread(_, _) => MakeIsResult(c, e, pulled);
    case OpenWith(_, _, _, _, _) => OpenIsResult(c, e, pulled);
    case AddTo(_, _, _, _) => AddIsResult(c, e, pulled);
    case Revise(_, _, _, _) => ReviseIsResult(c, e, pulled);
    case Withdraw(_, _, _, _, _) => WithdrawIsResult(c, e, pulled);
    case PurgePost(_, _, _) => PurgeIsResult(c, e, pulled);
    case PurgeThread(_, _, _) => PurgeIsResult(c, e, pulled);
    case Curate(_, _, _, _, _, _, _, _) => CurateIsResult(c, e, pulled);
    case Acknowledge(_, _, _, _, _) => AckIsResult(c, e, pulled);
    case AckHere(_, _, _) => AckHereIsResult(c, e, pulled);
  }

  lemma OpenIsResult(c: Core, e: Effect, pulled: bool)
    requires e.OpenWith?
    ensures ApplyAll(c, ChangesOf(c, e, pulled)) == if Fits(c, e) then Some(Result(c, e)) else None
  {
    ApplyThree(c, AddThread(e.id, e.thread), AddPost(e.postId, e.post), AddRevision(e.postId, 1, e.revision));
    if ApplyOne(c, AddThread(e.id, e.thread)).Some? {
      ApplyTwo(c.(threads := c.threads[e.id := e.thread]), AddPost(e.postId, e.post),
               AddRevision(e.postId, 1, e.revision));
    }
  }

  lemma AddIsResult(c: Core, e: Effect, pulled: bool)
    requires e.AddTo?
    ensures ApplyAll(c, ChangesOf(c, e, pulled)) == if Fits(c, e) then Some(Result(c, e)) else None
  {
    ApplyThree(c, AddPost(e.postId, e.post), AddRevision(e.postId, 1, e.revision), Touch(e.post.thread, e.at));
    if ApplyOne(c, AddPost(e.postId, e.post)).Some? {
      ApplyTwo(c.(posts := c.posts[e.postId := e.post]), AddRevision(e.postId, 1, e.revision),
               Touch(e.post.thread, e.at));
    }
  }

  lemma ReviseIsResult(c: Core, e: Effect, pulled: bool)
    requires e.Revise? && e.postId in c.posts
    ensures ApplyAll(c, ChangesOf(c, e, pulled)) == if Fits(c, e) then Some(Result(c, e)) else None
  {
    var p := c.posts[e.postId];
    var n := p.revision + 1;
    var add, place, touch :=
      AddRevision(e.postId, n, e.revision), SetPost(e.postId, Visible, n, "", e.revision.createdAt),
      Touch(e.touched, e.at);
    ApplyThree(c, add, place, touch);
    assert ChangesOf(c, e, pulled) == [add, place, touch];
    if ApplyOne(c, add).Some? { ApplyTwo(ApplyOne(c, add).value, place, touch); }
    hide ApplyAll, ChangesOf;
  }

  /** A change to one table and an event added are the same in either order. */
  lemma OrderedIsResult(c: Core, change: Change, eventId: string, event: EventRow, pulled: bool)
    requires change.SetPost? || change.UpdateThread? || change.AddAck?
    ensures ApplyAll(c, Ordered(change, AddEvent(eventId, event), pulled)) ==
      if ApplyOne(c, change).None? || eventId in c.events || event.thread !in c.threads then None
      else Some(ApplyOne(c, change).value.(events := c.events[eventId := event]))
  {
    if pulled { ApplyTwo(c, AddEvent(eventId, event), change); } else { ApplyTwo(c, change, AddEvent(eventId, event)); }
  }

  // ---- local operations ----

  datatype Curation = Settle | Rename | Close

  datatype Local =
    | CreateBoard(name: string, description: string, network: string)
    | OpenThread(board: string, threadId: string, postId: string, title: string, body: string, mentions: seq<Mention>,
                 urgent: bool, kind: string)
    | Reply(thread: string, parent: string, postId: string, body: string, mentions: seq<Mention>, urgent: bool,
            kind: string)
    | Edit(post: string, body: string, mentions: seq<Mention>, model: string)
    | Retract(post: string, note: string, eventId: string)
    | Hide(post: string, note: string, eventId: string)
    | Purge(post: string, note: string, eventId: string)
    | Curating(op: Curation, thread: string, into: string, title: string, redirect: string, note: string,
               eventId: string)
    | Ack(post: string, eventId: string)

  const MAX_BODY: nat := 0x10_0000

  predicate BodyOk(rules: Rules, body: string) { rules.trim(body) != "" && |body| <= MAX_BODY }

  predicate TitleOk(title: string) { 1 <= |title| <= MAX_TITLE }

  /** The caller is the post's author: the same person, session or seat of the same site. */
  predicate SameParticipant(who: Author, author: Author) { Who(who) == Who(author) }

  /** A post that can still be acted on. */
  function Actable(c: Core, id: string): Option<Post> {
    match GetPost(c, id)
    case None => None
    case Some(p) => if p.row.state.Purged? then None else Some(p)
  }

  function NewPost(thread: string, parent: string, who: Author, site: string, urgent: bool, kind: string,
                   now: Time): PostRow {
    PostRow(thread, parent, who, site, Visible, 1, "", urgent, kind, now, 0)
  }

  /** What a local operation would do, or None where it is refused. */
  function Plan(rules: Rules, c: Core, op: Local, site: string, who: Author, now: Time): Option<Effect> {
    match op
    case CreateBoard(name, description, network) =>
      var name := rules.trim(name);
      if !Format.IsBoardPart(name) || name in c.boards || (network != "" && !rules.network(network)) then None
      else Some(MakeBoard(name, BoardRow(site, rules.trim(description), who, now, network)))
    case OpenThread(board, threadId, postId, title, body, mentions, urgent, kind) =>
      var title := rules.trim(title);
      if !TitleOk(title) || !BodyOk(rules, body) || board !in c.boards then None
      else
        Some(OpenWith(threadId, ThreadRow(board, title, Open, postId, who, now, now, [], [], "", false),
                      postId, NewPost(threadId, "", who, site, urgent, NormalKind(rules, kind), now),
                      RevisionRow(body, mentions, who.model, now)))
    case Reply(thread, parent, postId, body, mentions, urgent, kind) =>
      if !BodyOk(rules, body) || GetThread(c, thread).None? then None
      else if parent != "" && (GetPost(c, parent).None? || c.posts[parent].thread != thread) then None
      else
        var parent := if parent == "" then c.threads[thread].opening else parent;
        Some(AddTo(postId, NewPost(thread, parent, who, site, urgent, NormalKind(rules, kind), now),
                   RevisionRow(body, mentions, who.model, now), now))
    case Edit(post, body, mentions, model) =>
      var p := Actable(c, post);
      if !BodyOk(rules, body) || p.None? || !SameParticipant(who, p.value.row.author)
        || !p.value.row.state.Visible? then None
      else Some(Revise(post, RevisionRow(body, mentions, model, now), now, p.value.row.thread))
    case Retract(post, note, eventId) =>
      var p := Actable(c, post);
      if p.None? || !SameParticipant(who, p.value.row.author) || !p.value.row.state.Visible? then None
      else
        var note := rules.trim(note);
        Some(Withdraw(post, Retracted, note, eventId,
                      EventRow(p.value.row.thread, post, "retract", note, p.value.row.author, NoData, now)))
    case Hide(post, note, eventId) =>
      var p := Actable(c, post);
      if who.kind != "person" || p.None? || !p.value.row.state.Visible? then None
      else
        Some(Withdraw(post, Hidden, p.value.row.note, eventId,
                      EventRow(p.value.row.thread, post, "hide", rules.trim(note), who, NoData, now)))
    case Purge(post, note, eventId) =>
      var p := Actable(c, post);
      if who.kind != "person" || p.None? then None
      else
        var thread := p.value.row.thread;
        var event := EventRow(thread, post, "purge", rules.trim(note), who, NoData, now);
        if post == c.threads[thread].opening then Some(PurgeThread(thread, eventId, event))
        else Some(PurgePost(post, eventId, event))
    case Curating(_, _, _, _, _, _, _) => PlanCuration(rules, c, op, who, now)
    case Ack(post, eventId) => PlanAck(c, post, eventId, who, now)
  }

  predicate HasLink(links: seq<Link>, ref: string) { exists i :: 0 <= i < |links| && links[i].ref == ref }

  function WithLink(links: seq<Link>, link: Link): seq<Link> {
    if HasLink(links, link.ref) then links else links + [link]
  }

  /** A new title, the old one kept as an alias once. */
  function WithAlias(t: ThreadRow, title: string): seq<string> {
    if title == t.title || t.title in t.aliases then t.aliases else t.aliases + [t.title]
  }

  function PlanCuration(rules: Rules, c: Core, op: Local, who: Author, now: Time): Option<Effect>
    requires op.Curating?
  {
    var thread := GetThread(c, op.thread);
    if thread.None? then None
    else
      var t, note := thread.value, rules.trim(op.note);
      var event := EventRow(op.thread, "", CurationKind(op.op), note, who, ThreadData(op.into, op.title, op.redirect),
                            now);
      match op.op
      case Settle =>
        var into := rules.trim(op.into);
        if !rules.isLink(into) then None
        else
          Some(Curate(op.thread, Settled, t.title, WithLink(t.links, Link(into, note, who, now)), t.aliases, t.redirect,
                      op.eventId, event))
      case Rename =>
        var title := rules.trim(op.title);
        if !TitleOk(title) then None
        else Some(Curate(op.thread, t.state, title, t.links, WithAlias(t, title), t.redirect, op.eventId, event))
      case Close =>
        if op.redirect != "" && (GetThread(c, op.redirect).None? || op.redirect == op.thread) then None
        else Some(Curate(op.thread, Closed, t.title, t.links, t.aliases, op.redirect, op.eventId, event))
  }

  function CurationKind(op: Curation): string {
    match op case Settle => "settle" case Rename => "rename" case Close => "close"
  }

  predicate Names(mentions: seq<Mention>, who: Participant) {
    exists i :: 0 <= i < |mentions| && mentions[i].who == who
  }

  /** Acknowledging a decision that names the caller; on a shared board as an event too. */
  function PlanAck(c: Core, post: string, eventId: string, who: Author, now: Time): Option<Effect> {
    var p := Actable(c, post);
    if p.None? || p.value.row.kind != "decision" || !p.value.row.state.Visible?
      || !Names(p.value.current.mentions, Who(who))
       || (post, Who(who)) in c.acks then None
    else
      var thread, ack := p.value.row.thread, AckRow(who, now);
      if NetworkOf(c, c.threads[thread].board) == "" then Some(AckHere(post, Who(who), ack))
      else
        Some(Acknowledge(post, Who(who), ack, eventId, EventRow(thread, post, "ack", "", who, AckData(Who(who)), now)))
  }

  /** The network a board is shared on, or nothing. */
  function NetworkOf(c: Core, board: string): string {
    if board in c.boards then c.boards[board].network else ""
  }

  // ---- sharing a write ----

  /** The thread a write adds under id: the last, if it adds several. */
  function AddedThread(changes: seq<Change>, id: string): Option<ThreadRow> {
    if changes == [] then None
    else
      var n := |changes| - 1;
      if changes[n].AddThread? && changes[n].id == id then Some(changes[n].thread) else AddedThread(changes[..n], id)
  }

  function AddedPost(changes: seq<Change>, id: string): Option<PostRow> {
    if changes == [] then None
    else
      var n := |changes| - 1;
      if changes[n].AddPost? && changes[n].id == id then Some(changes[n].post) else AddedPost(changes[..n], id)
  }

  /** The network of the first board a write adds under that name. */
  function AddedNetwork(changes: seq<Change>, board: string): Option<string> {
    if changes == [] then None
    else if changes[0].AddBoard? && changes[0].name == board then Some(changes[0].board.network)
    else AddedNetwork(changes[1..], board)
  }

  /** The network of a board of the write itself, or of the index. */
  function NetworkIn(c: Core, changes: seq<Change>, board: string): string {
    if AddedNetwork(changes, board).Some? then AddedNetwork(changes, board).value else NetworkOf(c, board)
  }

  /** A thread of the write itself, or of the index. */
  function ThreadOf(c: Core, changes: seq<Change>, id: string): Option<ThreadRow> {
    if AddedThread(changes, id).Some? then AddedThread(changes, id) else GetThread(c, id)
  }

  function PostOf(c: Core, changes: seq<Change>, id: string): Option<PostRow> {
    if AddedPost(changes, id).Some? then AddedPost(changes, id)
    else if GetPost(c, id).Some? then Some(GetPost(c, id).value.row)
    else None
  }

  /** The file one change of a write means for a shared board. */
  function ShareOne(json: Codec, c: Core, changes: seq<Change>, change: Change, site: string): seq<File> {
    match change
    case AddBoard(name, board) => if board.network != "" then [BoardFile(json, name, board)] else []
    case AddThread(id, thread) =>
      if NetworkIn(c, changes, thread.board) != "" then [ThreadFile(json, id, thread)] else []
    case AddRevision(id, n, revision) =>
      var p := PostOf(c, changes, id);
      if p.None? || ThreadOf(c, changes, p.value.thread).None? then []
      else
        var board := ThreadOf(c, changes, p.value.thread).value.board;
        if NetworkIn(c, changes, board) != "" then [PostFile(json, board, id, p.value, n, revision)] else []
    case AddEvent(id, event) =>
      var t := ThreadOf(c, changes, event.thread);
      if event.kind == "hide" || t.None? || NetworkIn(c, changes, t.value.board) == "" then []
      else [EventFile(json, t.value.board, id, event, site)]
    case _ => []
  }

  /** The repo files a write adds to its transaction, in order. */
  function Share(json: Codec, c: Core, changes: seq<Change>, n: nat, site: string): seq<File>
    requires n <= |changes|
    decreases |changes| - n
  {
    if n == |changes| then []
    else ShareOne(json, c, changes, changes[n], site) + Share(json, c, changes, n + 1, site)
  }

  /** The threads and posts a write adds, by ID. */
  method Tables(changes: seq<Change>) returns (threads: map<string, ThreadRow>, posts: map<string, PostRow>)
    ensures forall id :: AddedThread(changes, id) == if id in threads then Some(threads[id]) else None
    ensures forall id :: AddedPost(changes, id) == if id in posts then Some(posts[id]) else None
  {
    threads, posts := map[], map[];
    for n := 0 to |changes|
      invariant forall id :: AddedThread(changes[..n], id) == if id in threads then Some(threads[id]) else None
      invariant forall id :: AddedPost(changes[..n], id) == if id in posts then Some(posts[id]) else None
    {
      assert changes[..n + 1][..n] == changes[..n];
      var change := changes[n];
      if change.AddThread? {
        threads := threads[change.id := change.thread];
      } else if change.AddPost? {
        posts := posts[change.id := change.post];
      }
    }
    assert changes[..|changes|] == changes;
  }

  /** boardNetwork */
  method BoardNetwork(c: Core, changes: seq<Change>, board: string) returns (network: string)
    ensures network == NetworkIn(c, changes, board)
  {
    for n := 0 to |changes|
      invariant AddedNetwork(changes[n..], board) == AddedNetwork(changes, board)
    {
      assert changes[n..][1..] == changes[n + 1..];
      if changes[n].AddBoard? && changes[n].name == board {
        return changes[n].board.network;
      }
    }
    return if board in c.boards then c.boards[board].network else "";
  }

  /** share: the files of a write, each change's in turn. */
  method ShareChanges(json: Codec, c: Core, changes: seq<Change>, site: string) returns (files: seq<File>)
    ensures files == Share(json, c, changes, 0, site)
  {
    hide BoardFile, ThreadFile, PostFile, EventFile, NetworkIn, AddedThread, AddedPost;
    var threads, posts := Tables(changes);
    files := [];
    for n := 0 to |changes|
      invariant files + Share(json, c, changes, n, site) == Share(json, c, changes, 0, site)
    {
      var more: seq<File> := [];
      match changes[n] {
        case AddBoard(name, board) =>
          if board.network != "" { more := [BoardFile(json, name, board)]; }
        case AddThread(id, thread) =>
          var network := BoardNetwork(c, changes, thread.board);
          if network != "" { more := [ThreadFile(json, id, thread)]; }
        case AddRevision(id, k, revision) =>
          var p := if id in posts then Some(posts[id]) else if GetPost(c, id).Some? then Some(c.posts[id]) else None;
          if p.Some? {
            var t := if p.value.thread in threads then Some(threads[p.value.thread]) else GetThread(c, p.value.thread);
            if t.Some? {
              var network := BoardNetwork(c, changes, t.value.board);
              if network != "" { more := [PostFile(json, t.value.board, id, p.value, k, revision)]; }
            }
          }
        case AddEvent(id, event) =>
          var t := if event.thread in threads then Some(threads[event.thread]) else GetThread(c, event.thread);
          if event.kind != "hide" && t.Some? {
            var network := BoardNetwork(c, changes, t.value.board);
            if network != "" { more := [EventFile(json, t.value.board, id, event, site)]; }
          }
        case _ =>
      }
      assert more == ShareOne(json, c, changes, changes[n], site);
      Regroup(files, more, Share(json, c, changes, n + 1, site));
      files := files + more;
    }
  }

  // ---- pulled files ----

  /** A pulled file: its network, who signed the commit that added it, and what it holds. */
  datatype Pulled = Pulled(network: string, signer: string, doc: Doc)

  datatype Verdict = Take(effect: Effect) | Nothing | Ignored

  predicate SharedBoard(c: Core, f: Pulled, board: string) { board in c.boards && c.boards[board].network == f.network }

  predicate ThreadPurged(c: Core, id: string) { id in c.threads && c.threads[id].purged }

  /** The ID is one of the signer's own, as far as its beginning says. */
  predicate Own(id: string, signer: string) { signer + "-" <= id }

  /**
   An ID that a site made passes for the signer's own exactly when the signer is
   that site, or the site's name goes on from the signer's with a hyphen; and
   then the signer made it exactly when it is as long as the signer's IDs are.
   */
  lemma OwnIsMadeIff(id: string, site: string, n: nat, signer: string)
    requires Ids.IsId(id, site, n)
    ensures Own(id, signer) <==> signer == site || signer + "-" <= site
    ensures Own(id, signer) ==> (signer == site <==> |id| == |signer| + 27)
  {
    var tail, mark := id[|site| + 1..], signer + "-";
    assert forall j :: |site| < j < |id| ==> id[j] == tail[j - |site| - 1];
    assert !Ids.IsDigit('-') && mark[|signer|] == '-';
    assert |signer| < |site| ==> id[..|signer| + 1] == site[..|signer| + 1];
    assert Own(id, signer) ==> id[|signer|] == '-' && id[..|signer|] == mark[..|signer|] == signer;
  }

  function Max(a: Time, b: Time): Time { if b > a then b else a }

  function Judge(rules: Rules, c: Core, f: Pulled): Verdict {
    if f.doc.Foreign? then Ignored
    else
      match f.doc.file
      case BoardFile(board) => JudgeBoard(c, f, board)
      case ThreadFile(board, thread) => JudgeThread(c, f, board, thread)
      case PostFile(board, thread, id, revision) => JudgePost(rules, c, f, board, thread, id, revision)
      case EventFile(board, thread, id) => JudgeEvent(rules, c, f, board, thread, id)
      case BlobFile(_, _) => Ignored
  }

  function JudgeBoard(c: Core, f: Pulled, board: string): Verdict
    requires !f.doc.Foreign?
  {
    if f.doc.Unreadable? || !f.doc.head.BoardHead? then Ignored
    else
      var h := f.doc.head;
      if h.site != f.signer || h.name != board then Ignored
      else if board in c.boards then (if c.boards[board].network != f.network then Ignored else Nothing)
      else Take(MakeBoard(board, BoardRow(h.site, f.doc.body, h.createdBy, h.createdAt, f.network)))
  }

  function JudgeThread(c: Core, f: Pulled, board: string, thread: string): Verdict
    requires !f.doc.Foreign?
  {
    if !SharedBoard(c, f, board) then Ignored
    else if ThreadPurged(c, thread) then Nothing
    else if f.doc.Unreadable? || !f.doc.head.ThreadHead? then Ignored
    else
      var h := f.doc.head;
      if h.site != f.signer || h.createdBy.site != f.signer || h.id != thread || h.board != board
        || !Own(thread, f.signer)
      then Ignored
      else if GetThread(c, thread).Some? then Nothing
      else
        Take(MakeThread(thread, ThreadRow(board, h.title, Open, h.opening, h.createdBy, h.createdAt, h.createdAt,
                                          [], [], "", false)))
  }

  function Cleaned(rules: Rules, a: Author): Author {
    a.(model := rules.model(a.model), display := rules.display(a.display))
  }

  function JudgePost(rules: Rules, c: Core, f: Pulled, board: string, thread: string, id: string,
                     revision: nat): Verdict
    requires !f.doc.Foreign?
  {
    if !SharedBoard(c, f, board) then Ignored
    else if ThreadPurged(c, thread) then Nothing
    else if f.doc.Unreadable? || !f.doc.head.PostHead? then Ignored
    else
      var h := f.doc.head;
      if h.site != f.signer || h.author.site != f.signer || h.id != id || h.thread != thread || h.revision != revision
         || !Own(id, f.signer) || GetThread(c, thread).None? then Ignored
      else
        var row := RevisionRow(f.doc.body, h.mentions, rules.model(h.model), h.createdAt);
        var at := Max(c.threads[thread].lastActivity, h.createdAt);
        if revision == 1 then
          if GetPost(c, id).Some? then Nothing
          else
            Take(AddTo(id, PostRow(thread, h.parent, Cleaned(rules, h.author), h.site, Visible, 1, "", h.urgent, h.kind,
                                   h.createdAt, 0), row, at))
        else if GetPost(c, id).None? || c.posts[id].site != f.signer then Ignored
        else if revision <= c.posts[id].revision then Nothing
        else if revision != c.posts[id].revision + 1 || !c.posts[id].state.Visible? then Ignored
        else Take(Revise(id, row, at, thread))
  }

  function Into(d: Data): string { if d.ThreadData? then d.into else "" }
  function Title(d: Data): string { if d.ThreadData? then d.title else "" }
  function Redirect(d: Data): string { if d.ThreadData? then d.redirect else "" }

  function JudgeEvent(rules: Rules, c: Core, f: Pulled, board: string, thread: string, id: string): Verdict
    requires !f.doc.Foreign?
  {
    if !SharedBoard(c, f, board) then Ignored
    else if f.doc.Unreadable? || !f.doc.head.EventHead? then Ignored
    else
      var h := f.doc.head;
      if h.site != f.signer || h.id != id || h.thread != thread || !Own(id, f.signer) then Ignored
      else if id in c.events || GetThread(c, thread).None? then Nothing
      else JudgeNewEvent(rules, c, f, h)
  }

  function JudgeNewEvent(rules: Rules, c: Core, f: Pulled, h: Head): Verdict
    requires h.EventHead? && GetThread(c, h.thread).Some?
  {
    var t := c.threads[h.thread];
    var event := EventRow(h.thread, h.post, h.kind, h.note, h.actor, h.data, h.createdAt);
    if h.kind == "retract" then
      if GetPost(c, h.post).None? || !c.posts[h.post].state.Visible? then Nothing
      else if c.posts[h.post].site != f.signer then Ignored
      else Take(Withdraw(h.post, Retracted, h.note, h.id, event))
    else if h.kind == "purge" then
      if h.post == "" || h.post == t.opening then Take(PurgeThread(h.thread, h.id, event.(note := "")))
      else Take(PurgePost(h.post, h.id, event.(note := "")))
    else if h.kind == "settle" then
      var into := Into(h.data);
      if !rules.isLink(into) then Ignored
      else
        Take(Curate(h.thread, Settled, t.title, WithLink(t.links, Link(into, h.note, h.actor, h.createdAt)), t.aliases,
                    t.redirect, h.id, event))
    else if h.kind == "rename" then
      var title := rules.trim(Title(h.data));
      if !TitleOk(title) then Ignored
      else Take(Curate(h.thread, t.state, title, t.links, WithAlias(t, title), t.redirect, h.id, event))
    else if h.kind == "close" then
      Take(Curate(h.thread, Closed, t.title, t.links, t.aliases, Redirect(h.data), h.id, event))
    else if h.kind == "ack" then
      if !h.data.AckData? || h.data.who.site != f.signer then Ignored
      else Take(Acknowledge(h.post, h.data.who, AckRow(h.actor, h.createdAt), h.id, event))
    else Ignored
  }

  /** The rows after a pulled file: an ignored or failed one leaves them as they were. */
  function Pull(rules: Rules, c: Core, f: Pulled): Core {
    var v := Judge(rules, c, f);
    if v.Take? && Fits(c, v.effect) then Result(c, v.effect) else c
  }

  /** The rows after a local operation: a refused or failed one leaves them as they were. */
  function Write(rules: Rules, c: Core, op: Local, site: string, who: Author, now: Time): Core {
    var e := Plan(rules, c, op, site, who, now);
    if e.Some? && Fits(c, e.value) then Result(c, e.value) else c
  }

  /** A local operation is its plan's changes applied to the store in one go. */
  lemma WriteIsApplied(rules: Rules, c: Core, op: Local, site: string, who: Author, now: Time)
    ensures var plan := Plan(rules, c, op, site, who, now);
      Write(rules, c, op, site, who, now) == if plan.None? then c else Committed(c, ChangesOf(c, plan.value, false))
  {
    var plan := Plan(rules, c, op, site, who, now);
    if plan.Some? {
      PlanHasRows(rules, c, op, site, who, now);
      hide Plan, Fits, Result;
      ApplyIsResult(c, plan.value, false);
    }
  }

  /** And so is a pulled file. */
  lemma PullIsApplied(rules: Rules, c: Core, f: Pulled)
    ensures var v := Judge(rules, c, f);
      Pull(rules, c, f) == if v.Take? then Committed(c, ChangesOf(c, v.effect, true)) else c
  {
    var v := Judge(rules, c, f);
    if v.Take? {
      VerdictHasRows(rules, c, f);
      hide Judge, Fits, Result;
      ApplyIsResult(c, v.effect, true);
    }
  }

  /** What Store.Apply leaves. */
  function Committed(c: Core, changes: seq<Change>): Core {
    var after := ApplyAll(c, changes);
    if after.Some? then after.value else c
  }

  /** The rows an effect updates are there. */
  predicate HasRows(c: Core, e: Effect) {
    (e.Withdraw? || e.Revise? ==> e.postId in c.posts) && (e.Curate? ==> e.id in c.threads)
  }

  lemma PlanHasRows(rules: Rules, c: Core, op: Local, site: string, who: Author, now: Time)
    requires Plan(rules, c, op, site, who, now).Some?
    ensures HasRows(c, Plan(rules, c, op, site, who, now).value)
  {
  }

  lemma VerdictHasRows(rules: Rules, c: Core, f: Pulled)
    requires Judge(rules, c, f).Take?
    ensures HasRows(c, Judge(rules, c, f).effect)
  {
  }
}
