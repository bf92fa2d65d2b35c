/**
 Two sites' copies of a shared board: a write at one, shared as files and pulled
 by the other, leaves the copies agreeing (internal/board/shared.go share and
 ApplyRemote; service.go and curation.go for the writes). The files are printed,
 classified, parsed and judged on the way.
 */
module BoardSync {
  import opened Wrappers
  import opened BoardStore
  import opened BoardFiles
  import opened BoardWrites
  import opened BoardHistory
  import Format
  import Ids

  // ---- copies that agree ----

  predicate ThreadOn(c: Core, board: string, t: string) { t in c.threads && c.threads[t].board == board }

  predicate PostOn(c: Core, board: string, p: string) { p in c.posts && ThreadOn(c, board, c.posts[p].thread) }

  predicate EventOn(c: Core, board: string, e: string) { e in c.events && ThreadOn(c, board, c.events[e].thread) }

  /** Everything but when a thread was last active, which each site keeps by its own clock. */
  predicate SameThread(t: ThreadRow, t': ThreadRow) { t'.(lastActivity := t.lastActivity) == t }

  /** Equal up to one trailing newline. */
  predicate SameText(a: string, b: string) { a == b || a == b + "\n" || b == a + "\n" }

  predicate SameRevision(r: RevisionRow, r': RevisionRow) {
    r'.mentions == r.mentions && r'.model == r.model && r'.createdAt == r.createdAt && SameText(r.body, r'.body)
  }

  ghost predicate AgreeThreads(c: Core, d: Core, board: string) {
    forall t :: (ThreadOn(c, board, t) <==> ThreadOn(d, board, t))
      && (ThreadOn(c, board, t) ==> SameThread(c.threads[t], d.threads[t]))
  }

  ghost predicate AgreePosts(c: Core, d: Core, board: string) {
    forall p :: (PostOn(c, board, p) <==> PostOn(d, board, p)) && (PostOn(c, board, p) ==> c.posts[p] == d.posts[p])
  }

  ghost predicate AgreeRevisions(c: Core, d: Core, board: string) {
    forall p: string, n: nat :: PostOn(c, board, p) ==>
      ((p, n) in c.revisions <==> (p, n) in d.revisions)
      && ((p, n) in c.revisions ==> SameRevision(c.revisions[(p, n)], d.revisions[(p, n)]))
  }

  ghost predicate AgreeEvents(c: Core, d: Core, board: string) {
    forall e :: EventOn(c, board, e) <==> EventOn(d, board, e)
  }

  ghost predicate AgreeAcks(c: Core, d: Core, board: string) {
    forall p: string, w: Participant :: PostOn(c, board, p) ==>
      ((p, w) in c.acks <==> (p, w) in d.acks) && ((p, w) in c.acks ==> c.acks[(p, w)] == d.acks[(p, w)])
  }

  /** The two copies of the board, shared on the same network, hold the same. */
  ghost predicate Agree(c: Core, d: Core, board: string, network: string) {
    && network != "" && NetworkOf(c, board) == network && NetworkOf(d, board) == network
    && AgreeThreads(c, d, board) && AgreePosts(c, d, board) && AgreeRevisions(c, d, board)
    && AgreeEvents(c, d, board) && AgreeAcks(c, d, board)
  }

  lemma TrimmedIsSame(a: string)
    ensures SameText(a, Format.TrimNewline(a)) && SameText("", "")
  {
    if a != "" && a[|a| - 1] == '\n' { assert a == a[..|a| - 1] + "\n"; }
  }

  // ---- effects that are the same on both sides ----

  /** The pulled effect of a shared write, as the write's own but for trailing newline, activity time and purge note. */
  predicate Mirrors(e: Effect, e': Effect) {
    match e
    case AddTo(id, post, revision, _) =>
      e'.AddTo? && e'.postId == id && e'.post == post && SameRevision(revision, e'.revision)
    case Revise(id, revision, _, _) =>
      e'.Revise? && e'.postId == id && SameRevision(revision, e'.revision)
    case Withdraw(_, _, _, _, _) => e' == e
    case PurgePost(id, eventId, event) =>
      e'.PurgePost? && e'.postId == id && e'.eventId == eventId && e'.event.thread == event.thread
    case PurgeThread(id, eventId, event) =>
      e'.PurgeThread? && e'.id == id && e'.eventId == eventId && e'.event.thread == event.thread
    case Curate(_, _, _, _, _, _, _, _) => e' == e
    case Acknowledge(_, _, _, _, _) => e' == e
    case MakeThread(id, thread) => e'.MakeThread? && e'.id == id && SameThread(thread, e'.thread)
    case _ => false
  }

  /** The thread an effect is about is one of the board's. */
  predicate About(c: Core, board: string, e: Effect) {
    match e
    case AddTo(_, post, _, _) => ThreadOn(c, board, post.thread)
    case Revise(id, _, _, _) => PostOn(c, board, id)
    case Withdraw(id, _, _, _, event) => PostOn(c, board, id) && ThreadOn(c, board, event.thread)
    case PurgePost(id, _, event) => PostOn(c, board, id) && ThreadOn(c, board, event.thread)
    case PurgeThread(id, _, event) => ThreadOn(c, board, id) && ThreadOn(c, board, event.thread)
    case Curate(id, _, _, _, _, _, _, event) => ThreadOn(c, board, id) && ThreadOn(c, board, event.thread)
    case Acknowledge(id, _, _, _, event) => PostOn(c, board, id) && ThreadOn(c, board, event.thread)
    case MakeThread(_, thread) => thread.board == board
    case _ => false
  }

  ghost predicate Ready(c: Core, d: Core, board: string, network: string, e: Effect, e': Effect) {
    && CoreInv(c) && CoreInv(d) && Agree(c, d, board, network)
    && Mirrors(e, e') && About(c, board, e) && Fits(c, e) && Fits(d, e')
  }

  // ---- what is on the board afterwards ----

  predicate IsNewThread(e: Effect, t: string) { e.MakeThread? && e.id == t }

  predicate IsNewPost(e: Effect, p: string) { e.AddTo? && e.postId == p }

  predicate IsNewEvent(e: Effect, x: string) {
    (e.Withdraw? || e.PurgePost? || e.PurgeThread? || e.Curate? || e.Acknowledge?) && e.eventId == x
  }

  /** An effect about the board adds at most its own thread, post or event to it. */
  ghost predicate Adds(c: Core, board: string, e: Effect) {
    && (forall t :: ThreadOn(Result(c, e), board, t) <==> ThreadOn(c, board, t) || IsNewThread(e, t))
    && (forall p :: PostOn(Result(c, e), board, p) <==> PostOn(c, board, p) || IsNewPost(e, p))
    && (forall x :: EventOn(Result(c, e), board, x) <==> EventOn(c, board, x) || IsNewEvent(e, x))
  }

  lemma MakeThreadAdds(c: Core, board: string, e: Effect)
    requires CoreInv(c) && Fits(c, e) && About(c, board, e) && e.MakeThread?
    ensures Adds(c, board, e)
  {
    hide Numbered, Sited, ThreadsRooted;
  }

  lemma AddToAdds(c: Core, board: string, e: Effect)
    requires CoreInv(c) && Fits(c, e) && About(c, board, e) && e.AddTo?
    ensures Adds(c, board, e)
  {
    hide Numbered, Sited, ThreadsRooted;
  }

  /** Nothing came to the board or left it. */
  ghost predicate SamePlaces(c: Core, d: Core) {
    && (forall t :: t in d.threads <==> t in c.threads)
    && (forall t :: t in c.threads ==> d.threads[t].board == c.threads[t].board)
    && (forall p :: p in d.posts <==> p in c.posts)
    && (forall p :: p in c.posts ==> d.posts[p].thread == c.posts[p].thread)
    && d.events == c.events
  }

  lemma SamePlacesAdds(c: Core, d: Core, board: string)
    requires SamePlaces(c, d)
    ensures forall t :: ThreadOn(d, board, t) <==> ThreadOn(c, board, t)
    ensures forall p :: PostOn(d, board, p) <==> PostOn(c, board, p)
    ensures forall x :: EventOn(d, board, x) <==> EventOn(c, board, x)
  {
  }

  lemma ReviseAdds(c: Core, board: string, e: Effect)
    requires e.Revise?
    ensures Adds(c, board, e)
  {
    assert SamePlaces(c, Result(c, e));
    SamePlacesAdds(c, Result(c, e), board);
    hide Result, SamePlaces, ThreadOn, PostOn, EventOn;
  }

  lemma WithdrawAdds(c: Core, board: string, e: Effect)
    requires CoreInv(c) && Fits(c, e) && About(c, board, e) && e.Withdraw?
    ensures Adds(c, board, e)
  {
    hide Numbered, Sited, ThreadsRooted;
  }

  lemma PurgePostAdds(c: Core, board: string, e: Effect)
    requires CoreInv(c) && Fits(c, e) && About(c, board, e) && e.PurgePost?
    ensures Adds(c, board, e)
  {
    hide Numbered, Sited, ThreadsRooted;
  }

  lemma PurgeThreadAdds(c: Core, board: string, e: Effect)
    requires CoreInv(c) && Fits(c, e) && About(c, board, e) && e.PurgeThread?
    ensures Adds(c, board, e)
  {
    hide Numbered, Sited, ThreadsRooted;
  }

  lemma CurateAdds(c: Core, board: string, e: Effect)
    requires CoreInv(c) && Fits(c, e) && About(c, board, e) && e.Curate?
    ensures Adds(c, board, e)
  {
    hide Numbered, Sited, ThreadsRooted;
  }

  lemma AcknowledgeAdds(c: Core, board: string, e: Effect)
    requires CoreInv(c) && Fits(c, e) && About(c, board, e) && e.Acknowledge?
    ensures Adds(c, board, e)
  {
    hide Numbered, Sited, ThreadsRooted;
  }

  lemma EffectAdds(c: Core, board: string, e: Effect)
    requires CoreInv(c) && Fits(c, e) && About(c, board, e)
    ensures Adds(c, board, e)
  {
    hide CoreInv, Fits, Adds;
    match e
    case MakeThread(_, _) => MakeThreadAdds(c, board, e);
    case AddTo(_, _, _, _) => AddToAdds(c, board, e);
    case Revise(_, _, _, _) => ReviseAdds(c, board, e);
    case Withdraw(_, _, _, _, _) => WithdrawAdds(c, board, e);
    case PurgePost(_, _, _) => PurgePostAdds(c, board, e);
    case PurgeThread(_, _, _) => PurgeThreadAdds(c, board, e);
    case Curate(_, _, _, _, _, _, _, _) => CurateAdds(c, board, e);
    case Acknowledge(_, _, _, _, _) => AcknowledgeAdds(c, board, e);
    case _ =>
  }

  lemma AboutBoth(c: Core, d: Core, board: string, network: string, e: Effect, e': Effect)
    requires Ready(c, d, board, network, e, e')
    ensures About(d, board, e')
  {
    hide AgreeRevisions, AgreeEvents, AgreeAcks, CoreInv, Fits;
  }

  // ---- and it is the same on both sides ----

  ghost predicate Both(c: Core, d: Core, board: string, e: Effect, e': Effect) {
    && AgreeThreads(c, d, board) && AgreePosts(c, d, board) && AgreeRevisions(c, d, board) && AgreeAcks(c, d, board)
    && Mirrors(e, e') && About(c, board, e) && About(d, board, e') && Adds(c, board, e) && Adds(d, board, e')
    && Fits(c, e) && Fits(d, e') && CoreInv(c) && CoreInv(d)
  }

  /** What an effect makes of a thread that is there. */
  function ThreadAfter(e: Effect, t: string, row: ThreadRow): ThreadRow {
    if e.PurgeThread? && e.id == t then
      row.(purged := true, title := "", createdBy := NOBODY, links := [], aliases := [], redirect := "")
    else if e.Curate? && e.id == t then
      row.(state := e.state, title := e.title, links := e.links, aliases := e.aliases, redirect := e.redirect)
    else row
  }

  lemma ThreadIsAfter(c: Core, e: Effect, t: string)
    requires Fits(c, e) && t in c.threads
    ensures t in Result(c, e).threads && SameThread(ThreadAfter(e, t, c.threads[t]), Result(c, e).threads[t])
  {
    if e.PurgeThread? { assert t in ScrubWholeThread(c, e.id).threads; } else { PlainThread(c, e, t); }
  }

  lemma PlainThread(c: Core, e: Effect, t: string)
    requires Fits(c, e) && t in c.threads && !e.PurgeThread?
    ensures t in Result(c, e).threads && SameThread(ThreadAfter(e, t, c.threads[t]), Result(c, e).threads[t])
  {
    match e
    case AddTo(_, post, _, at) => assert Result(c, e).threads == Touched(c, post.thread, at).threads;
    case Revise(_, _, _, _) =>
    case Curate(_, _, _, _, _, _, _, _) =>
    case OpenWith(_, _, _, _, _) =>
    case MakeThread(_, _) =>
    case PurgeThread(_, _, _) =>
    case _ => assert Result(c, e).threads == c.threads;
  }

  lemma OneThreadRow(c: Core, d: Core, e: Effect, e': Effect, t: string)
    requires Mirrors(e, e') && Fits(c, e) && Fits(d, e')
    requires t in c.threads && t in d.threads && SameThread(c.threads[t], d.threads[t])
    ensures t in Result(c, e).threads && t in Result(d, e').threads
    ensures SameThread(Result(c, e).threads[t], Result(d, e').threads[t])
  {
    ThreadIsAfter(c, e, t);
    ThreadIsAfter(d, e', t);
    hide Result, Fits;
  }

  lemma OnePostRow(c: Core, d: Core, e: Effect, e': Effect, p: string)
    requires Mirrors(e, e') && Fits(c, e) && Fits(d, e')
    requires p in c.posts && p in d.posts && c.posts[p] == d.posts[p]
    ensures p in Result(c, e).posts && p in Result(d, e').posts && Result(c, e).posts[p] == Result(d, e').posts[p]
  {
  }

  lemma OneRevisionRow(c: Core, d: Core, e: Effect, e': Effect, p: string, n: nat)
    requires Mirrors(e, e') && Fits(c, e) && Fits(d, e')
    requires p in c.posts && p in d.posts && c.posts[p] == d.posts[p]
    requires (p, n) in c.revisions && (p, n) in d.revisions && SameRevision(c.revisions[(p, n)], d.revisions[(p, n)])
    ensures (p, n) in Result(c, e).revisions && (p, n) in Result(d, e').revisions
    ensures SameRevision(Result(c, e).revisions[(p, n)], Result(d, e').revisions[(p, n)])
  {
  }

  lemma ThreadsAgree(c: Core, d: Core, board: string, e: Effect, e': Effect)
    requires Both(c, d, board, e, e')
    ensures AgreeThreads(Result(c, e), Result(d, e'), board)
  {
    hide Result, Both;
    forall t
      ensures ThreadOn(Result(c, e), board, t) <==> ThreadOn(Result(d, e'), board, t)
      ensures ThreadOn(Result(c, e), board, t) ==> SameThread(Result(c, e).threads[t], Result(d, e').threads[t])
    {
      OneThread(c, d, board, e, e', t);
    }
  }

  lemma OneThread(c: Core, d: Core, board: string, e: Effect, e': Effect, t: string)
    requires Both(c, d, board, e, e')
    ensures ThreadOn(Result(c, e), board, t) <==> ThreadOn(Result(d, e'), board, t)
    ensures ThreadOn(Result(c, e), board, t) ==> SameThread(Result(c, e).threads[t], Result(d, e').threads[t])
  {
    hide AgreePosts, AgreeRevisions, AgreeAcks, CoreInv, About, Fits;
    if ThreadOn(c, board, t) {
      OneThreadRow(c, d, e, e', t);
      hide Result;
    } else if IsNewThread(e, t) {
      hide Adds;
      assert Result(c, e).threads[t] == e.thread && Result(d, e').threads[t] == e'.thread;
    } else {
      hide Result;
    }
  }

  lemma PostsAgree(c: Core, d: Core, board: string, e: Effect, e': Effect)
    requires Both(c, d, board, e, e')
    ensures AgreePosts(Result(c, e), Result(d, e'), board)
  {
    hide Result, Both;
    forall p
      ensures PostOn(Result(c, e), board, p) <==> PostOn(Result(d, e'), board, p)
      ensures PostOn(Result(c, e), board, p) ==> Result(c, e).posts[p] == Result(d, e').posts[p]
    {
      OnePost(c, d, board, e, e', p);
    }
  }

  lemma OnePost(c: Core, d: Core, board: string, e: Effect, e': Effect, p: string)
    requires Both(c, d, board, e, e')
    ensures PostOn(Result(c, e), board, p) <==> PostOn(Result(d, e'), board, p)
    ensures PostOn(Result(c, e), board, p) ==> Result(c, e).posts[p] == Result(d, e').posts[p]
  {
    hide AgreeThreads, AgreeRevisions, AgreeAcks, CoreInv, About, Fits;
    if PostOn(c, board, p) {
      OnePostRow(c, d, e, e', p);
      hide Result;
    } else if IsNewPost(e, p) {
      assert Result(c, e).posts[p] == e.post && Result(d, e').posts[p] == e'.post;
    } else {
      hide Result;
    }
  }

  lemma RevisionsAgree(c: Core, d: Core, board: string, e: Effect, e': Effect)
    requires Both(c, d, board, e, e')
    ensures AgreeRevisions(Result(c, e), Result(d, e'), board)
  {
    hide Result, Both;
    forall p: string, n: nat | PostOn(Result(c, e), board, p)
      ensures (p, n) in Result(c, e).revisions <==> (p, n) in Result(d, e').revisions
      ensures (p, n) in Result(c, e).revisions ==>
        SameRevision(Result(c, e).revisions[(p, n)], Result(d, e').revisions[(p, n)])
    {
      OneRevision(c, d, board, e, e', p, n);
    }
  }

  lemma OneRevision(c: Core, d: Core, board: string, e: Effect, e': Effect, p: string, n: nat)
    requires Both(c, d, board, e, e') && PostOn(Result(c, e), board, p)
    ensures (p, n) in Result(c, e).revisions <==> (p, n) in Result(d, e').revisions
    ensures (p, n) in Result(c, e).revisions ==>
      SameRevision(Result(c, e).revisions[(p, n)], Result(d, e').revisions[(p, n)])
  {
    hide AgreeThreads, AgreeAcks, About, Result, Fits, CoreInv;
    if PostOn(c, board, p) {
      assert PostOn(d, board, p) && c.posts[p] == d.posts[p];
      if (p, n) in c.revisions {
        OneRevisionRow(c, d, e, e', p, n);
      } else {
        OnlyReviseAdds(c, e, p, n);
        OnlyReviseAdds(d, e', p, n);
        if e.Revise? && e.postId == p { RevisedRow(c, d, e, e'); }
      }
    } else {
      FirstRow(c, e, n);
      FirstRow(d, e', n);
    }
  }

  lemma RevisedRow(c: Core, d: Core, e: Effect, e': Effect)
    requires Mirrors(e, e') && e.Revise? && Fits(c, e) && Fits(d, e') && c.posts[e.postId] == d.posts[e.postId]
    ensures var k := (e.postId, c.posts[e.postId].revision + 1);
      && k in Result(c, e).revisions && k in Result(d, e').revisions
      && SameRevision(Result(c, e).revisions[k], Result(d, e').revisions[k])
  {
  }

  lemma FirstRow(c: Core, e: Effect, n: nat)
    requires e.AddTo? && Fits(c, e) && CoreInv(c)
    ensures (e.postId, n) in Result(c, e).revisions <==> n == 1
    ensures n == 1 ==> Result(c, e).revisions[(e.postId, n)] == e.revision
  {
  }

  /** A revision of a post that was there is new only by revising it. */
  lemma OnlyReviseAdds(c: Core, e: Effect, p: string, n: nat)
    requires Fits(c, e) && p in c.posts && (p, n) !in c.revisions
    ensures (p, n) in Result(c, e).revisions ==> e.Revise? && e.postId == p && n == c.posts[p].revision + 1
  {
  }

  lemma AcksAgree(c: Core, d: Core, board: string, e: Effect, e': Effect)
    requires Both(c, d, board, e, e')
    ensures AgreeAcks(Result(c, e), Result(d, e'), board)
  {
    hide Result, Both;
    forall p: string, w: Participant | PostOn(Result(c, e), board, p)
      ensures (p, w) in Result(c, e).acks <==> (p, w) in Result(d, e').acks
      ensures (p, w) in Result(c, e).acks ==> Result(c, e).acks[(p, w)] == Result(d, e').acks[(p, w)]
    {
      OneAck(c, d, board, e, e', p, w);
    }
  }

  lemma OneAck(c: Core, d: Core, board: string, e: Effect, e': Effect, p: string, w: Participant)
    requires Both(c, d, board, e, e') && PostOn(Result(c, e), board, p)
    ensures (p, w) in Result(c, e).acks <==> (p, w) in Result(d, e').acks
    ensures (p, w) in Result(c, e).acks ==> Result(c, e).acks[(p, w)] == Result(d, e').acks[(p, w)]
  {
    AcksAfter(c, e);
    AcksAfter(d, e');
    hide AgreeThreads, AgreePosts, AgreeRevisions, PostsInOrder, About, Result;
  }

  /** Only an acknowledgement adds one, and only where there is none. */
  lemma AcksAfter(c: Core, e: Effect)
    ensures Result(c, e).acks ==
      if (e.Acknowledge? || e.AckHere?) && (e.postId, e.who) !in c.acks then c.acks[(e.postId, e.who) := e.ack]
      else c.acks
  {
  }

  /** An effect and its mirror, each on its own copy, leave the copies agreeing. */
  lemma EffectAgrees(c: Core, d: Core, board: string, network: string, e: Effect, e': Effect)
    requires Ready(c, d, board, network, e, e')
    ensures Agree(Result(c, e), Result(d, e'), board, network)
  {
    AboutBoth(c, d, board, network, e, e');
    EffectAdds(c, board, e);
    EffectAdds(d, board, e');
    assert Both(c, d, board, e, e');
    ThreadsAgree(c, d, board, e, e');
    PostsAgree(c, d, board, e, e');
    RevisionsAgree(c, d, board, e, e');
    AcksAgree(c, d, board, e, e');
    EventsAgree(c, d, board, e, e');
    NetworkStays(c, board, e);
    NetworkStays(d, board, e');
    hide *;
    Gather(Result(c, e), Result(d, e'), board, network);
  }

  lemma EventsAgree(c: Core, d: Core, board: string, e: Effect, e': Effect)
    requires Adds(c, board, e) && Adds(d, board, e') && Mirrors(e, e') && AgreeEvents(c, d, board)
    ensures AgreeEvents(Result(c, e), Result(d, e'), board)
  {
    hide Result;
  }

  lemma NetworkStays(c: Core, board: string, e: Effect)
    requires About(c, board, e)
    ensures NetworkOf(Result(c, e), board) == NetworkOf(c, board)
  {
  }

  lemma Gather(c: Core, d: Core, board: string, network: string)
    requires network != "" && NetworkOf(c, board) == network && NetworkOf(d, board) == network
    requires AgreeThreads(c, d, board) && AgreePosts(c, d, board) && AgreeRevisions(c, d, board)
    requires AgreeEvents(c, d, board) && AgreeAcks(c, d, board)
    ensures Agree(c, d, board, network)
  {
  }

  // ---- pulling a file ----

  /** The rows after pulling one file, or None when it is ignored or fails. */
  function Deliver(rules: Rules, json: Codec, d: Core, network: string, signer: string, file: File): Option<Core> {
    var v := Judge(rules, d, Pulled(network, signer, ReadDoc(json, file)));
    match v
    case Ignored => None
    case Nothing => Some(d)
    case Take(e) => if Fits(d, e) then Some(Result(d, e)) else None
  }

  function DeliverAll(rules: Rules, json: Codec, d: Core, network: string, signer: string,
                      files: seq<File>): Option<Core>
    decreases |files|
  {
    if files == [] then Some(d)
    else
      var next := Deliver(rules, json, d, network, signer, files[0]);
      if next.None? then None else DeliverAll(rules, json, next.value, network, signer, files[1..])
  }

  lemma DeliverSingle(rules: Rules, json: Codec, d: Core, network: string, signer: string, file: File)
    ensures DeliverAll(rules, json, d, network, signer, [file]) == Deliver(rules, json, d, network, signer, file)
  {
    assert [file][1..] == [];
  }

  lemma DeliverTwo(rules: Rules, json: Codec, d: Core, network: string, signer: string, a: File, b: File)
    ensures var next := Deliver(rules, json, d, network, signer, a);
      DeliverAll(rules, json, d, network, signer, [a, b]) ==
      if next.None? then None else Deliver(rules, json, next.value, network, signer, b)
  {
    assert [a, b][1..] == [b];
    var next := Deliver(rules, json, d, network, signer, a);
    if next.Some? { DeliverSingle(rules, json, next.value, network, signer, b); }
  }

  // ---- what makes a write sharable ----

  /** Trimming twice trims once, and cleaned names are clean. */
  ghost predicate Orderly(rules: Rules) {
    && (forall s: string :: rules.trim(rules.trim(s)) == rules.trim(s))
    && (forall s: string :: rules.model(rules.model(s)) == rules.model(s))
    && (forall s: string :: rules.display(rules.display(s)) == rules.display(s))
  }

  /** An ID this site made. */
  predicate Minted(site: string, id: string) { Ids.IsIdPart(id) && Own(id, site) }

  ghost predicate NamesOk(c: Core) {
    && (forall b :: b in c.boards ==> Format.IsBoardPart(b))
    && (forall t :: t in c.threads ==> Ids.IsIdPart(t))
    && (forall p :: p in c.posts ==> Ids.IsIdPart(p) && Own(p, c.posts[p].site))
  }

  function Trimmed(r: RevisionRow): RevisionRow { r.(body := Format.TrimNewline(r.body)) }

  lemma TrimmedRevision(r: RevisionRow)
    ensures SameRevision(r, Trimmed(r))
  {
    TrimmedIsSame(r.body);
  }

  /** A new post of the signer's: visible, its first revision, its names clean. */
  predicate NewFrom(rules: Rules, site: string, post: PostRow, r: RevisionRow) {
    && post == NewPost(post.thread, post.parent, post.author, site, post.urgent, post.kind, r.createdAt)
    && Resolved(rules, site, post.author) && rules.model(r.model) == r.model
  }

  /** The other site has the board on the network and the thread not purged. */
  predicate Hosts(d: Core, board: string, network: string, thread: string) {
    network != "" && NetworkOf(d, board) == network && GetThread(d, thread).Some? && d.threads[thread].board == board
  }

  lemma PostIsJudged(rules: Rules, d: Core, board: string, network: string, site: string,
                     id: string, post: PostRow, r: RevisionRow)
    requires Hosts(d, board, network, post.thread) && Own(id, site) && id !in d.posts && NewFrom(rules, site, post, r)
    ensures var doc := Doc(Format.PostFile(board, post.thread, id, 1), PostHeadOf(board, id, post, 1, r),
                           Format.TrimNewline(r.body));
      Judge(rules, d, Pulled(network, site, doc)) ==
      Take(AddTo(id, post, Trimmed(r), Max(d.threads[post.thread].lastActivity, r.createdAt)))
  {
  }

  /** The revision after a post's last is free, and so is the first of a post not there. */
  lemma NextIsFree(d: Core, id: string)
    requires CoreInv(d)
    ensures id !in d.posts ==> (id, 1) !in d.revisions
    ensures id in d.posts ==>
      (id, d.posts[id].revision) in d.revisions && (id, d.posts[id].revision + 1) !in d.revisions
  {
  }

  lemma PostIsTaken(rules: Rules, json: Codec, d: Core, board: string, network: string, site: string,
                    id: string, post: PostRow, r: RevisionRow)
    requires Lawful(json) && CoreInv(d) && Hosts(d, board, network, post.thread)
    requires Format.IsBoardPart(board) && Ids.IsIdPart(post.thread) && Minted(site, id) && id !in d.posts
    requires NewFrom(rules, site, post, r)
    ensures var e := AddTo(id, post, Trimmed(r), Max(d.threads[post.thread].lastActivity, r.createdAt));
      && Fits(d, e)
      && Deliver(rules, json, d, network, site, PostFile(json, board, id, post, 1, r)) == Some(Result(d, e))
  {
    hide ReadDoc, PostFile, Result, CoreInv, Judge, PostHeadOf, Lawful, NewFrom, Trimmed, Ids.IsIdPart,
      Format.IsBoardPart, Format.TrimNewline;
    PostReadsBack(json, board, id, post, 1, r);
    PostIsJudged(rules, d, board, network, site, id, post, r);
    NextIsFree(d, id);
  }

  lemma ThreadIsTaken(rules: Rules, json: Codec, d: Core, board: string, network: string, site: string,
                      id: string, t: ThreadRow)
    requires Lawful(json) && network != "" && NetworkOf(d, board) == network && t.board == board
    requires Format.IsBoardPart(board) && Minted(site, id) && id !in d.threads
    requires t == ThreadRow(board, t.title, Open, t.opening, t.createdBy, t.createdAt, t.createdAt, [], [], "", false)
    requires t.createdBy.site == site
    ensures Fits(d, MakeThread(id, t))
    ensures Deliver(rules, json, d, network, site, ThreadFile(json, id, t)) == Some(Result(d, MakeThread(id, t)))
  {
    ThreadReadsBack(json, id, t);
    var doc := Doc(Format.ThreadFile(board, id), ThreadHeadOf(id, t), "");
    hide ReadDoc, ThreadFile, Result;
    assert Judge(rules, d, Pulled(network, site, doc)) == Take(MakeThread(id, t));
  }

  lemma RevisionIsJudged(rules: Rules, d: Core, board: string, network: string, site: string,
                         id: string, post: PostRow, r: RevisionRow)
    requires Hosts(d, board, network, post.thread) && Own(id, site)
    requires id in d.posts && d.posts[id] == post && (id, post.revision) in d.revisions && post.revision >= 1
    requires post.state.Visible? && post.site == site && post.author.site == site && rules.model(r.model) == r.model
    ensures var n := post.revision + 1;
      var doc := Doc(Format.PostFile(board, post.thread, id, n), PostHeadOf(board, id, post, n, r),
                     Format.TrimNewline(r.body));
      Judge(rules, d, Pulled(network, site, doc)) ==
      Take(Revise(id, Trimmed(r), Max(d.threads[post.thread].lastActivity, r.createdAt), post.thread))
  {
  }

  lemma RevisionIsTaken(rules: Rules, json: Codec, d: Core, board: string, network: string, site: string,
                        id: string, post: PostRow, r: RevisionRow)
    requires Lawful(json) && CoreInv(d) && Hosts(d, board, network, post.thread)
    requires Format.IsBoardPart(board) && Ids.IsIdPart(post.thread) && Minted(site, id)
    requires id in d.posts && d.posts[id] == post && post.state.Visible? && post.site == site
    requires post.author.site == site
    requires 1 <= post.revision < Format.MAX_INT && rules.model(r.model) == r.model
    ensures var e := Revise(id, Trimmed(r), Max(d.threads[post.thread].lastActivity, r.createdAt), post.thread);
      && Fits(d, e)
      && Deliver(rules, json, d, network, site, PostFile(json, board, id, post, post.revision + 1, r)) ==
        Some(Result(d, e))
  {
    hide ReadDoc, PostFile, Result, CoreInv, Judge, PostHeadOf, Lawful, Trimmed, Ids.IsIdPart, Format.IsBoardPart,
      Format.TrimNewline;
    PostReadsBack(json, board, id, post, post.revision + 1, r);
    NextIsFree(d, id);
    RevisionIsJudged(rules, d, board, network, site, id, post, r);
  }

  /** A new event file of the signer's comes down to judging its event. */
  lemma EventIsJudged(rules: Rules, json: Codec, d: Core, board: string, network: string, site: string,
                      id: string, event: EventRow)
    requires Lawful(json) && Hosts(d, board, network, event.thread)
    requires Format.IsBoardPart(board) && Ids.IsIdPart(event.thread) && Minted(site, id) && id !in d.events
    ensures var h := EventHeadOf(board, id, event, site);
      var f := Pulled(network, site, Doc(Format.EventFile(board, event.thread, id), h, ""));
      ReadDoc(json, EventFile(json, board, id, event, site)) == f.doc
        && Judge(rules, d, f) == JudgeNewEvent(rules, d, f, h)
  {
    EventReadsBack(json, board, id, event, site);
    hide ReadDoc, EventFile, JudgeNewEvent;
  }

  // ---- the files of each write ----

  function Shared(json: Codec, c: Core, e: Effect, site: string): seq<File> {
    Share(json, c, ChangesOf(c, e, false), 0, site)
  }

  lemma ShareTwo(json: Codec, c: Core, changes: seq<Change>, site: string)
    requires |changes| == 2
    ensures Share(json, c, changes, 0, site) ==
      ShareOne(json, c, changes, changes[0], site) + ShareOne(json, c, changes, changes[1], site)
  {
    hide ShareOne;
    assert Share(json, c, changes, 2, site) == [];
    assert Share(json, c, changes, 1, site) == ShareOne(json, c, changes, changes[1], site) + [];
  }

  lemma ShareThree(json: Codec, c: Core, changes: seq<Change>, site: string)
    requires |changes| == 3
    ensures Share(json, c, changes, 0, site) ==
      ShareOne(json, c, changes, changes[0], site) +
      (ShareOne(json, c, changes, changes[1], site) + ShareOne(json, c, changes, changes[2], site))
  {
    hide ShareOne;
    assert Share(json, c, changes, 3, site) == [];
    assert Share(json, c, changes, 2, site) == ShareOne(json, c, changes, changes[2], site) + [];
  }

  lemma {:induction false} NoneAdded(changes: seq<Change>, id: string)
    ensures (forall i :: 0 <= i < |changes| ==> !changes[i].AddThread?) ==> AddedThread(changes, id).None?
    ensures (forall i :: 0 <= i < |changes| ==> !changes[i].AddPost?) ==> AddedPost(changes, id).None?
  {
    if changes != [] { NoneAdded(changes[..|changes| - 1], id); }
  }

  /** What a write of three changes adds first and second. */
  lemma AddedOfThree(a: Change, b: Change, d: Change)
    ensures a.AddThread? && !b.AddThread? && !d.AddThread? ==> AddedThread([a, b, d], a.id) == Some(a.thread)
    ensures a.AddPost? && !b.AddPost? && !d.AddPost? ==> AddedPost([a, b, d], a.id) == Some(a.post)
    ensures b.AddPost? && !d.AddPost? ==> AddedPost([a, b, d], b.id) == Some(b.post)
  {
    var all := [a, b, d];
    assert all[..2] == [a, b] && [a, b][..1] == [a];
    assert a.AddThread? && !b.AddThread? ==> AddedThread([a, b], a.id) == AddedThread([a], a.id);
    assert a.AddPost? && !b.AddPost? ==> AddedPost([a, b], a.id) == AddedPost([a], a.id);
  }

  /** A write that adds no board shares by the index's networks. */
  lemma {:induction false} NoBoardAdded(c: Core, changes: seq<Change>, board: string)
    requires forall i :: 0 <= i < |changes| ==> !changes[i].AddBoard?
    ensures NetworkIn(c, changes, board) == NetworkOf(c, board)
  {
    if changes != [] {
      assert forall i :: 0 <= i < |changes[1..]| ==> changes[1..][i] == changes[i + 1];
      NoBoardAdded(c, changes[1..], board);
    }
  }

  lemma AddIsShared(json: Codec, c: Core, board: string, e: Effect, site: string)
    requires e.AddTo? && GetThread(c, e.post.thread).Some? && c.threads[e.post.thread].board == board
    requires NetworkOf(c, board) != ""
    ensures Shared(json, c, e, site) == [PostFile(json, board, e.postId, e.post, 1, e.revision)]
  {
    var changes := ChangesOf(c, e, false);
    ShareThree(json, c, changes, site);
    NoneAdded(changes, e.post.thread);
    AddedOfThree(changes[0], changes[1], changes[2]);
    assert changes == [changes[0], changes[1], changes[2]];
    NoBoardAdded(c, changes, board);
    hide PostFile, Share;
  }

  lemma ReviseIsShared(json: Codec, c: Core, board: string, e: Effect, site: string)
    requires e.Revise? && GetPost(c, e.postId).Some? && PostOn(c, board, e.postId) && NetworkOf(c, board) != ""
    ensures var p := c.posts[e.postId];
      Shared(json, c, e, site) == [PostFile(json, board, e.postId, p, p.revision + 1, e.revision)]
  {
    var changes := ChangesOf(c, e, false);
    ShareThree(json, c, changes, site);
    NoneAdded(changes, c.posts[e.postId].thread);
    NoneAdded(changes, e.postId);
    NoBoardAdded(c, changes, board);
    hide PostFile, Share;
  }

  lemma OpenIsShared(json: Codec, c: Core, board: string, e: Effect, site: string)
    requires e.OpenWith? && e.post.thread == e.id && e.thread.board == board && NetworkOf(c, board) != ""
    ensures Shared(json, c, e, site) ==
      [ThreadFile(json, e.id, e.thread), PostFile(json, board, e.postId, e.post, 1, e.revision)]
  {
    var changes := ChangesOf(c, e, false);
    ShareThree(json, c, changes, site);
    NoBoardAdded(c, changes, board);
    AddedOfThree(changes[0], changes[1], changes[2]);
    assert changes == [changes[0], changes[1], changes[2]];
    hide PostFile, ThreadFile, Share;
  }

  lemma EventIsShared(json: Codec, c: Core, board: string, e: Effect, site: string)
    requires e.Withdraw? || e.PurgePost? || e.PurgeThread? || e.Curate? || e.Acknowledge?
    requires GetThread(c, e.event.thread).Some? && c.threads[e.event.thread].board == board && NetworkOf(c, board) != ""
    requires e.event.kind != "hide"
    ensures Shared(json, c, e, site) == [EventFile(json, board, e.eventId, e.event, site)]
  {
    var changes := ChangesOf(c, e, false);
    ShareTwo(json, c, changes, site);
    NoneAdded(changes, e.event.thread);
    NoBoardAdded(c, changes, board);
    hide EventFile, Share;
  }

  // ---- the diagram commutes ----

  /** Two copies of a board in agreement, and a caller of this site. */
  ghost predicate Partners(rules: Rules, json: Codec, c: Core, d: Core, board: string, network: string, site: string,
                           who: Author) {
    && Lawful(json) && Orderly(rules) && CoreInv(c) && CoreInv(d) && NamesOk(c) && Format.IsBoardPart(board)
    && Agree(c, d, board, network) && Resolved(rules, site, who)
  }

  /** Sharing e's files and pulling them at the other site takes every one and leaves the copies agreeing. */
  ghost predicate Commutes(rules: Rules, json: Codec, c: Core, d: Core, board: string, network: string, site: string,
                           e: Effect) {
    var pulled := DeliverAll(rules, json, d, network, site, Shared(json, c, e, site));
    pulled.Some? && Agree(Result(c, e), pulled.value, board, network)
  }

  /** A thread open to replies on one copy is hosted by the other. */
  lemma HostedToo(c: Core, d: Core, board: string, network: string, t: string)
    requires Agree(c, d, board, network) && ThreadOn(c, board, t) && GetThread(c, t).Some?
    ensures Hosts(d, board, network, t) && SameThread(c.threads[t], d.threads[t])
  {
    assert ThreadOn(d, board, t);
  }

  /** A write that comes down to one mirrored effect. */
  lemma OneFile(rules: Rules, json: Codec, c: Core, d: Core, board: string, network: string, site: string,
                e: Effect, e': Effect, file: File)
    requires Ready(c, d, board, network, e, e') && Shared(json, c, e, site) == [file]
    requires Deliver(rules, json, d, network, site, file) == Some(Result(d, e'))
    ensures Commutes(rules, json, c, d, board, network, site, e)
  {
    DeliverSingle(rules, json, d, network, site, file);
    EffectAgrees(c, d, board, network, e, e');
    hide Ready, Deliver, Shared, Result, Agree;
  }

  lemma ReplyCommutes(rules: Rules, json: Codec, c: Core, d: Core, board: string, network: string, site: string,
                      who: Author, e: Effect)
    requires Partners(rules, json, c, d, board, network, site, who)
    requires e.AddTo? && Fits(c, e) && ThreadOn(c, board, e.post.thread) && GetThread(c, e.post.thread).Some?
    requires NewFrom(rules, site, e.post, e.revision) && Minted(site, e.postId) && e.postId !in d.posts
    ensures Commutes(rules, json, c, d, board, network, site, e)
  {
    hide Lawful, Orderly, Agree, CoreInv, Commutes, Fits, NewFrom;
    HostedToo(c, d, board, network, e.post.thread);
    AgreeNetwork(c, d, board, network);
    AddIsShared(json, c, board, e, site);
    PostIsTaken(rules, json, d, board, network, site, e.postId, e.post, e.revision);
    TrimmedRevision(e.revision);
    var e' := AddTo(e.postId, e.post, Trimmed(e.revision),
                    Max(d.threads[e.post.thread].lastActivity, e.revision.createdAt));
    MakeReady(c, d, board, network, e, e');
    hide *;
    OneFile(rules, json, c, d, board, network, site, e, e', PostFile(json, board, e.postId, e.post, 1, e.revision));
  }

  lemma EditCommutes(rules: Rules, json: Codec, c: Core, d: Core, board: string, network: string, site: string,
                     who: Author, e: Effect)
    requires Partners(rules, json, c, d, board, network, site, who)
    requires e.Revise? && Fits(c, e) && PostOn(c, board, e.postId) && GetPost(c, e.postId).Some?
    requires var p := c.posts[e.postId]; p.state.Visible? && p.site == site && p.author.site == site
    requires c.posts[e.postId].revision < Format.MAX_INT
    requires rules.model(e.revision.model) == e.revision.model
    ensures Commutes(rules, json, c, d, board, network, site, e)
  {
    hide Lawful, Orderly, NamesOk, Agree, CoreInv, Commutes, Fits, Resolved;
    var p := c.posts[e.postId];
    var e' := Revise(e.postId, Trimmed(e.revision),
                     Max(if p.thread in d.threads then d.threads[p.thread].lastActivity else 0, e.revision.createdAt),
                     p.thread);
    PostThere(c, d, board, network, e.postId);
    AgreeNetwork(c, d, board, network);
    ReviseIsShared(json, c, board, e, site);
    PostNames(c, d, e.postId);
    RevisionIsTaken(rules, json, d, board, network, site, e.postId, p, e.revision);
    TrimmedRevision(e.revision);
    assert Mirrors(e, e') && About(c, board, e);
    MakeReady(c, d, board, network, e, e');
    hide *;
    OneFile(rules, json, c, d, board, network, site, e, e',
            PostFile(json, board, e.postId, p, p.revision + 1, e.revision));
  }

  lemma MakeReady(c: Core, d: Core, board: string, network: string, e: Effect, e': Effect)
    requires CoreInv(c) && CoreInv(d) && Agree(c, d, board, network)
    requires Mirrors(e, e') && About(c, board, e) && Fits(c, e) && Fits(d, e')
    ensures Ready(c, d, board, network, e, e')
  {
    hide CoreInv, Agree, Mirrors, About, Fits;
  }

  /** What the index says of a post's names, and of its revision. */
  lemma PostNames(c: Core, d: Core, p: string)
    requires NamesOk(c) && CoreInv(c) && p in c.posts
    ensures Minted(c.posts[p].site, p) && Ids.IsIdPart(c.posts[p].thread) && c.posts[p].revision >= 1
    ensures SitedPost(c.posts[p]) && p != ""
  {
  }

  /** An event at one site, and what judging its file at the other comes to. */
  predicate EventMirrored(rules: Rules, c: Core, d: Core, board: string, network: string, site: string, e: Effect,
                          e': Effect) {
    && (e.Withdraw? || e.PurgePost? || e.PurgeThread? || e.Curate? || e.Acknowledge?)
    && Fits(c, e) && About(c, board, e) && GetThread(c, e.event.thread).Some? && e.event.kind != "hide"
    && Minted(site, e.eventId) && e.eventId !in d.events && Mirrors(e, e') && Fits(d, e')
    && GetThread(d, e.event.thread).Some?
    && JudgesTo(rules, d, board, network, site, e.eventId, e.event, e')
  }

  predicate JudgesTo(rules: Rules, d: Core, board: string, network: string, site: string, id: string, event: EventRow,
                     e': Effect)
    requires GetThread(d, event.thread).Some?
  {
    var h := EventHeadOf(board, id, event, site);
    JudgeNewEvent(rules, d, Pulled(network, site, Doc(Format.EventFile(board, event.thread, id), h, "")), h) == Take(e')
  }

  lemma EventCommutes(rules: Rules, json: Codec, c: Core, d: Core, board: string, network: string, site: string,
                      who: Author, e: Effect, e': Effect)
    requires Partners(rules, json, c, d, board, network, site, who)
    requires EventMirrored(rules, c, d, board, network, site, e, e')
    ensures Commutes(rules, json, c, d, board, network, site, e)
  {
    hide Lawful, Orderly, Agree, CoreInv, Commutes, Fits, Resolved, JudgeNewEvent, Judge, Mirrors;
    AboutThread(c, board, e);
    HostedToo(c, d, board, network, e.event.thread);
    AgreeNetwork(c, d, board, network);
    EventIsShared(json, c, board, e, site);
    EventIsJudged(rules, json, d, board, network, site, e.eventId, e.event);
    MakeReady(c, d, board, network, e, e');
    EventDelivered(rules, json, d, board, network, site, e.eventId, e.event, e');
    hide *;
    OneFile(rules, json, c, d, board, network, site, e, e', EventFile(json, board, e.eventId, e.event, site));
  }

  lemma AboutThread(c: Core, board: string, e: Effect)
    requires e.Withdraw? || e.PurgePost? || e.PurgeThread? || e.Curate? || e.Acknowledge?
    requires About(c, board, e)
    ensures ThreadOn(c, board, e.event.thread)
  {
  }

  lemma EventDelivered(rules: Rules, json: Codec, d: Core, board: string, network: string, site: string,
                       id: string, event: EventRow, e': Effect)
    requires var f := Pulled(network, site, ReadDoc(json, EventFile(json, board, id, event, site)));
      Judge(rules, d, f) == Take(e') && Fits(d, e')
    ensures Deliver(rules, json, d, network, site, EventFile(json, board, id, event, site)) == Some(Result(d, e'))
  {
    hide Judge, ReadDoc, EventFile, Result, Fits;
  }

  /** Opening a thread is making it and adding its first post. */
  lemma OpenIsMakeThenAdd(c: Core, e: Effect)
    requires e.OpenWith? && Fits(c, e) && e.post.thread == e.id && e.thread.lastActivity == e.revision.createdAt
    ensures var make, add := MakeThread(e.id, e.thread), AddTo(e.postId, e.post, e.revision, e.revision.createdAt);
      Fits(c, make) && Fits(Result(c, make), add) && Result(Result(c, make), add) == Result(c, e)
  {
    var c1 := c.(threads := c.threads[e.id := e.thread]);
    assert c1.threads[e.id := e.thread] == c1.threads;
  }

  /** A thread as this site opens it. */
  predicate OpenedBy(site: string, board: string, e: Effect) {
    && e.OpenWith? && e.post.thread == e.id && e.thread.createdBy.site == site
    && e.thread == ThreadRow(board, e.thread.title, Open, e.postId, e.thread.createdBy, e.revision.createdAt,
                             e.revision.createdAt, [], [], "", false)
  }

  lemma OpenCommutes(rules: Rules, json: Codec, c: Core, d: Core, board: string, network: string, site: string,
                     who: Author, e: Effect)
    requires Partners(rules, json, c, d, board, network, site, who)
    requires Fits(c, e) && OpenedBy(site, board, e) && NewFrom(rules, site, e.post, e.revision)
    requires Minted(site, e.id) && Minted(site, e.postId) && e.id !in d.threads && e.postId !in d.posts
    ensures Commutes(rules, json, c, d, board, network, site, e)
  {
    var make, add := MakeThread(e.id, e.thread), AddTo(e.postId, e.post, e.revision, e.revision.createdAt);
    OpenIsMakeThenAdd(c, e);
    OpenIsShared(json, c, board, e, site);
    ThreadIsTaken(rules, json, d, board, network, site, e.id, e.thread);
    MakeAgrees(c, d, board, network, e.id, e.thread);
    var c1, d1 := Result(c, make), Result(d, make);
    assert Hosts(d1, board, network, e.id) && e.postId !in d1.posts;
    FirstPostAgrees(rules, json, c1, d1, board, network, site, add);
    DeliverTwo(rules, json, d, network, site, ThreadFile(json, e.id, e.thread),
               PostFile(json, board, e.postId, e.post, 1, e.revision));
    hide *;
    TwoFiles(rules, json, c, d, board, network, site, e, d1, ThreadFile(json, e.id, e.thread),
             PostFile(json, board, e.postId, e.post, 1, e.revision));
  }

  lemma TwoFiles(rules: Rules, json: Codec, c: Core, d: Core, board: string, network: string, site: string,
                 e: Effect, d1: Core, a: File, b: File)
    requires Shared(json, c, e, site) == [a, b] && Deliver(rules, json, d, network, site, a) == Some(d1)
    requires var d2 := Deliver(rules, json, d1, network, site, b);
      d2.Some? && Agree(Result(c, e), d2.value, board, network)
    ensures Commutes(rules, json, c, d, board, network, site, e)
  {
    DeliverTwo(rules, json, d, network, site, a, b);
    hide Deliver, Shared, Result, Agree;
  }

  lemma MakeAgrees(c: Core, d: Core, board: string, network: string, id: string, t: ThreadRow)
    requires CoreInv(c) && CoreInv(d) && Agree(c, d, board, network) && t.board == board
    requires Fits(c, MakeThread(id, t)) && Fits(d, MakeThread(id, t))
    ensures var make := MakeThread(id, t);
      && CoreInv(Result(c, make)) && CoreInv(Result(d, make)) && Agree(Result(c, make), Result(d, make), board, network)
      && NetworkOf(Result(d, make), board) == network
  {
    var make := MakeThread(id, t);
    EffectGrows(c, make);
    EffectGrows(d, make);
    assert Ready(c, d, board, network, make, make);
    EffectAgrees(c, d, board, network, make, make);
    hide CoreInv;
  }

  lemma FirstPostAgrees(rules: Rules, json: Codec, c: Core, d: Core, board: string, network: string, site: string,
                        add: Effect)
    requires Lawful(json) && CoreInv(c) && CoreInv(d) && Agree(c, d, board, network) && Format.IsBoardPart(board)
    requires add.AddTo? && Fits(c, add) && ThreadOn(c, board, add.post.thread)
    requires Hosts(d, board, network, add.post.thread)
    requires NewFrom(rules, site, add.post, add.revision) && Minted(site, add.postId) && add.postId !in d.posts
    requires Ids.IsIdPart(add.post.thread)
    ensures var pulled := Deliver(rules, json, d, network, site,
                                  PostFile(json, board, add.postId, add.post, 1, add.revision));
      pulled.Some? && Agree(Result(c, add), pulled.value, board, network)
  {
    PostIsTaken(rules, json, d, board, network, site, add.postId, add.post, add.revision);
    TrimmedRevision(add.revision);
    var add' := AddTo(add.postId, add.post, Trimmed(add.revision),
                      Max(d.threads[add.post.thread].lastActivity, add.revision.createdAt));
    assert Ready(c, d, board, network, add, add');
    EffectAgrees(c, d, board, network, add, add');
    hide *;
  }

  // ---- each operation ----

  /** The operation is on this board. */
  predicate OpOn(c: Core, board: string, op: Local) {
    match op
    case OpenThread(b, _, _, _, _, _, _, _) => b == board
    case Reply(thread, _, _, _, _, _, _) => ThreadOn(c, board, thread)
    case Edit(post, _, _, _) => PostOn(c, board, post)
    case Retract(post, _, _) => PostOn(c, board, post)
    case Purge(post, _, _) => PostOn(c, board, post)
    case Curating(_, thread, _, _, _, _, _) => ThreadOn(c, board, thread)
    case Ack(post, _) => PostOn(c, board, post)
    case CreateBoard(_, _, _) => false
    case Hide(_, _, _) => false
  }

  /** Its new IDs are this site's and free at the other, and an edit's model is clean. */
  predicate OpFresh(rules: Rules, c: Core, d: Core, site: string, op: Local) {
    match op
    case OpenThread(_, threadId, postId, _, _, _, _, _) =>
      Minted(site, threadId) && Minted(site, postId) && threadId !in d.threads && postId !in d.posts
    case Reply(_, _, postId, _, _, _, _) => Minted(site, postId) && postId !in d.posts
    case Edit(post, _, _, model) =>
      rules.model(model) == model && (post in c.posts ==> c.posts[post].revision < Format.MAX_INT)
    case Retract(_, _, eventId) => Minted(site, eventId) && eventId !in d.events
    case Purge(_, _, eventId) => Minted(site, eventId) && eventId !in d.events
    case Curating(_, _, _, _, _, _, eventId) => Minted(site, eventId) && eventId !in d.events
    case Ack(_, eventId) => Minted(site, eventId) && eventId !in d.events
    case _ => true
  }

  /**
   A settle's target means the same trimmed and as it was given: there is nothing
   to trim, or it is a link untrimmed too and the thread has both links already.
   */
  predicate SettlesSame(rules: Rules, c: Core, op: Local) {
    op.Curating? && op.op.Settle? ==>
      rules.trim(op.into) == op.into || (rules.isLink(op.into) && HasBoth(rules, c, op.thread, op.into))
  }

  predicate HasBoth(rules: Rules, c: Core, thread: string, into: string) {
    thread in c.threads && HasLink(c.threads[thread].links, into) && HasLink(c.threads[thread].links, rules.trim(into))
  }

  /** The effect of an operation, its write having gone through. */
  predicate Planned(rules: Rules, c: Core, op: Local, site: string, who: Author, now: Time, e: Effect) {
    Plan(rules, c, op, site, who, now) == Some(e) && Fits(c, e)
  }

  /** The copies agree, and the operation, asked for by someone of this site, went through here. */
  ghost predicate OpAsked(rules: Rules, json: Codec, c: Core, d: Core, board: string, network: string, site: string,
                          op: Local, who: Author, now: Time, e: Effect) {
    && Partners(rules, json, c, d, board, network, site, who) && OpOn(c, board, op) && OpFresh(rules, c, d, site, op)
    && Planned(rules, c, op, site, who, now, e)
  }

  ghost predicate OpSetting(rules: Rules, json: Codec, c: Core, d: Core, board: string, network: string, site: string,
                            op: Local, who: Author, now: Time, e: Effect) {
    OpAsked(rules, json, c, d, board, network, site, op, who, now, e) && SettlesSame(rules, c, op)
  }

  lemma OpenOpCommutes(rules: Rules, json: Codec, c: Core, d: Core, board: string, network: string, site: string,
                       op: Local, who: Author, now: Time, e: Effect)
    requires OpSetting(rules, json, c, d, board, network, site, op, who, now, e) && op.OpenThread?
    ensures Commutes(rules, json, c, d, board, network, site, e)
  {
    hide Lawful, Orderly, Agree, CoreInv, Commutes, NamesOk;
    assert OpenedBy(site, board, e) && NewFrom(rules, site, e.post, e.revision);
    assert Minted(site, e.id) && Minted(site, e.postId) && e.id !in d.threads && e.postId !in d.posts;
    hide *;
    OpenCommutes(rules, json, c, d, board, network, site, who, e);
  }

  lemma ReplyOpCommutes(rules: Rules, json: Codec, c: Core, d: Core, board: string, network: string, site: string,
                        op: Local, who: Author, now: Time, e: Effect)
    requires OpSetting(rules, json, c, d, board, network, site, op, who, now, e) && op.Reply?
    ensures Commutes(rules, json, c, d, board, network, site, e)
  {
    hide Lawful, Orderly, Agree, CoreInv, Commutes, NamesOk;
    assert NewFrom(rules, site, e.post, e.revision) && ThreadOn(c, board, e.post.thread)
      && GetThread(c, e.post.thread).Some?;
    assert Minted(site, e.postId) && e.postId !in d.posts;
    hide *;
    ReplyCommutes(rules, json, c, d, board, network, site, who, e);
  }

  lemma EditPlan(rules: Rules, c: Core, op: Local, site: string, who: Author, now: Time, e: Effect)
    requires op.Edit? && Planned(rules, c, op, site, who, now, e)
    ensures GetPost(c, op.post).Some? && c.posts[op.post].state.Visible? && Who(who) == Who(c.posts[op.post].author)
    ensures e.Revise? && e.postId == op.post && e.revision.model == op.model && Fits(c, e)
  {
  }

  lemma EditOpCommutes(rules: Rules, json: Codec, c: Core, d: Core, board: string, network: string, site: string,
                       op: Local, who: Author, now: Time, e: Effect)
    requires OpSetting(rules, json, c, d, board, network, site, op, who, now, e) && op.Edit?
    ensures Commutes(rules, json, c, d, board, network, site, e)
  {
    hide Plan, Lawful, Orderly, Agree, CoreInv, Commutes, NamesOk, Fits;
    EditPlan(rules, c, op, site, who, now, e);
    PostNames(c, d, op.post);
    EditCommutes(rules, json, c, d, board, network, site, who, e);
  }

  /** A post that can be acted on here is the same there, and can be read. */
  lemma PostThere(c: Core, d: Core, board: string, network: string, p: string)
    requires CoreInv(c) && CoreInv(d) && Agree(c, d, board, network) && PostOn(c, board, p) && GetPost(c, p).Some?
    ensures PostOn(d, board, p) && d.posts[p] == c.posts[p] && GetPost(d, p).Some?
    ensures Hosts(d, board, network, c.posts[p].thread)
    ensures SameThread(c.threads[c.posts[p].thread], d.threads[c.posts[p].thread])
  {
    HostedToo(c, d, board, network, c.posts[p].thread);
    assert PostOn(d, board, p);
    assert (p, d.posts[p].revision) in d.revisions;
  }

  // What the plan of each operation is, read off the plan alone.

  lemma RetractPlan(rules: Rules, c: Core, op: Local, site: string, who: Author, now: Time, e: Effect)
    requires op.Retract? && Planned(rules, c, op, site, who, now, e)
    ensures GetPost(c, op.post).Some? && c.posts[op.post].state.Visible? && Who(who) == Who(c.posts[op.post].author)
    ensures var note := rules.trim(op.note);
      e == Withdraw(op.post, Retracted, note, op.eventId,
                    EventRow(c.posts[op.post].thread, op.post, "retract", note, c.posts[op.post].author, NoData, now))
  {
  }

  lemma PurgePlan(rules: Rules, c: Core, op: Local, site: string, who: Author, now: Time, e: Effect)
    requires op.Purge? && Planned(rules, c, op, site, who, now, e)
    ensures GetPost(c, op.post).Some?
    ensures var t := c.posts[op.post].thread;
      var event := EventRow(t, op.post, "purge", rules.trim(op.note), who, NoData, now);
      e == if op.post == c.threads[t].opening then PurgeThread(t, op.eventId, event)
      else PurgePost(op.post, op.eventId, event)
  {
  }

  lemma AckPlan(rules: Rules, c: Core, op: Local, site: string, who: Author, now: Time, e: Effect)
    requires op.Ack? && Planned(rules, c, op, site, who, now, e)
    requires op.post in c.posts ==>
      c.posts[op.post].thread in c.threads && NetworkOf(c, c.threads[c.posts[op.post].thread].board) != ""
    ensures GetPost(c, op.post).Some?
    ensures e == Acknowledge(op.post, Who(who), AckRow(who, now), op.eventId,
                             EventRow(c.posts[op.post].thread, op.post, "ack", "", who, AckData(Who(who)), now))
  {
  }

  // What judging such an event's file comes to, on any copy.

  lemma RetractJudged(rules: Rules, d: Core, board: string, network: string, site: string, id: string, event: EventRow)
    requires event.kind == "retract" && GetThread(d, event.thread).Some? && GetPost(d, event.post).Some?
    requires d.posts[event.post].state.Visible? && d.posts[event.post].site == site
    ensures JudgesTo(rules, d, board, network, site, id, event, Withdraw(event.post, Retracted, event.note, id, event))
  {
  }

  lemma PurgeJudged(rules: Rules, d: Core, board: string, network: string, site: string, id: string, event: EventRow)
    requires event.kind == "purge" && GetThread(d, event.thread).Some? && event.post != ""
    ensures var quiet := event.(note := "");
      JudgesTo(rules, d, board, network, site, id, event,
               if event.post == d.threads[event.thread].opening then PurgeThread(event.thread, id, quiet)
               else PurgePost(event.post, id, quiet))
  {
  }

  lemma AckJudged(rules: Rules, d: Core, board: string, network: string, site: string, id: string, event: EventRow)
    requires event.kind == "ack" && GetThread(d, event.thread).Some? && event.data.AckData?
    requires event.data.who.site == site
    ensures JudgesTo(rules, d, board, network, site, id, event,
                     Acknowledge(event.post, event.data.who, AckRow(event.actor, event.createdAt), id, event))
  {
  }

  lemma RetractOpCommutes(rules: Rules, json: Codec, c: Core, d: Core, board: string, network: string, site: string,
                          op: Local, who: Author, now: Time, e: Effect)
    requires OpSetting(rules, json, c, d, board, network, site, op, who, now, e) && op.Retract?
    ensures Commutes(rules, json, c, d, board, network, site, e)
  {
    hide Plan, Lawful, Orderly, Agree, CoreInv, Commutes, NamesOk, JudgeNewEvent;
    RetractPlan(rules, c, op, site, who, now, e);
    PostThere(c, d, board, network, op.post);
    PostNames(c, d, op.post);
    RetractJudged(rules, d, board, network, site, op.eventId, e.event);
    assert EventMirrored(rules, c, d, board, network, site, e, e);
    hide *;
    EventCommutes(rules, json, c, d, board, network, site, who, e, e);
  }

  lemma PurgeOpCommutes(rules: Rules, json: Codec, c: Core, d: Core, board: string, network: string, site: string,
                        op: Local, who: Author, now: Time, e: Effect)
    requires OpSetting(rules, json, c, d, board, network, site, op, who, now, e) && op.Purge?
    ensures Commutes(rules, json, c, d, board, network, site, e)
  {
    hide Plan, Lawful, Orderly, Agree, CoreInv, Commutes, NamesOk, JudgeNewEvent;
    PurgePlan(rules, c, op, site, who, now, e);
    PostThere(c, d, board, network, op.post);
    PostNames(c, d, op.post);
    PurgeJudged(rules, d, board, network, site, op.eventId, e.event);
    var quiet := e.event.(note := "");
    var e' := if e.PurgeThread? then PurgeThread(e.id, e.eventId, quiet) else PurgePost(e.postId, e.eventId, quiet);
    assert EventMirrored(rules, c, d, board, network, site, e, e');
    hide *;
    EventCommutes(rules, json, c, d, board, network, site, who, e, e');
  }

  lemma AckOpCommutes(rules: Rules, json: Codec, c: Core, d: Core, board: string, network: string, site: string,
                      op: Local, who: Author, now: Time, e: Effect)
    requires OpSetting(rules, json, c, d, board, network, site, op, who, now, e) && op.Ack?
    ensures Commutes(rules, json, c, d, board, network, site, e)
  {
    hide Plan, Lawful, Orderly, Agree, CoreInv, Commutes, NamesOk, JudgeNewEvent;
    AgreeNetwork(c, d, board, network);
    AckPlan(rules, c, op, site, who, now, e);
    PostThere(c, d, board, network, op.post);
    AckJudged(rules, d, board, network, site, op.eventId, e.event);
    assert EventMirrored(rules, c, d, board, network, site, e, e);
    hide *;
    EventCommutes(rules, json, c, d, board, network, site, who, e, e);
  }

  lemma AgreeNetwork(c: Core, d: Core, board: string, network: string)
    requires Agree(c, d, board, network)
    ensures NetworkOf(c, board) == network == NetworkOf(d, board) && network != ""
  {
  }

  /** The thread fields a curation sets. */
  predicate Curates(e: Effect, t: ThreadRow, op: Local, rules: Rules, who: Author, now: Time)
    requires op.Curating?
  {
    var note := rules.trim(op.note);
    var event := EventRow(op.thread, "", CurationKind(op.op), note, who, ThreadData(op.into, op.title, op.redirect),
                          now);
    match op.op
    case Settle =>
      var into := rules.trim(op.into);
      rules.isLink(into)
        && e == Curate(op.thread, Settled, t.title, WithLink(t.links, Link(into, note, who, now)), t.aliases,
                       t.redirect, op.eventId, event)
    case Rename =>
      var title := rules.trim(op.title);
      TitleOk(title)
        && e == Curate(op.thread, t.state, title, t.links, WithAlias(t, title), t.redirect, op.eventId, event)
    case Close => e == Curate(op.thread, Closed, t.title, t.links, t.aliases, op.redirect, op.eventId, event)
  }

  lemma CuratePlan(rules: Rules, c: Core, op: Local, site: string, who: Author, now: Time, e: Effect)
    requires op.Curating? && Planned(rules, c, op, site, who, now, e)
    ensures GetThread(c, op.thread).Some? && Curates(e, c.threads[op.thread], op, rules, who, now)
    ensures e.Curate? && e.id == op.thread && e.event.thread == op.thread && e.eventId == op.eventId
    ensures e.event.kind != "hide"
  {
  }

  lemma CurateJudged(rules: Rules, d: Core, board: string, network: string, site: string, op: Local, who: Author,
                     now: Time, e: Effect)
    requires op.Curating? && GetThread(d, op.thread).Some? && Curates(e, d.threads[op.thread], op, rules, who, now)
    requires SettlesSame(rules, d, op)
    requires e.event.thread == op.thread && e.eventId == op.eventId
    ensures JudgesTo(rules, d, board, network, site, op.eventId, e.event, e)
  {
  }

  lemma CurateOpCommutes(rules: Rules, json: Codec, c: Core, d: Core, board: string, network: string, site: string,
                         op: Local, who: Author, now: Time, e: Effect)
    requires OpSetting(rules, json, c, d, board, network, site, op, who, now, e) && op.Curating?
    ensures Commutes(rules, json, c, d, board, network, site, e)
  {
    hide Plan, Lawful, Orderly, Agree, CoreInv, Commutes, NamesOk, JudgeNewEvent;
    CuratePlan(rules, c, op, site, who, now, e);
    HostedToo(c, d, board, network, op.thread);
    CuratesSame(rules, c.threads[op.thread], d.threads[op.thread], op, who, now, e);
    hide Curates;
    CurateJudged(rules, d, board, network, site, op, who, now, e);
    assert EventMirrored(rules, c, d, board, network, site, e, e);
    hide *;
    EventCommutes(rules, json, c, d, board, network, site, who, e, e);
  }

  lemma CuratesSame(rules: Rules, t: ThreadRow, t': ThreadRow, op: Local, who: Author, now: Time, e: Effect)
    requires op.Curating? && SameThread(t, t') && Curates(e, t, op, rules, who, now)
    ensures Curates(e, t', op, rules, who, now)
  {
  }

  lemma OpIsShared(c: Core, board: string, op: Local)
    requires OpOn(c, board, op)
    ensures !op.CreateBoard? && !op.Hide?
  {
  }

  lemma OpCommutes(rules: Rules, json: Codec, c: Core, d: Core, board: string, network: string, site: string,
                   op: Local, who: Author, now: Time, e: Effect)
    requires OpSetting(rules, json, c, d, board, network, site, op, who, now, e)
    ensures Commutes(rules, json, c, d, board, network, site, e)
  {
    hide Partners, Planned, OpOn, OpFresh, Commutes;
    OpIsShared(c, board, op);
    hide *;
    match op
    case OpenThread(_, _, _, _, _, _, _, _) => OpenOpCommutes(rules, json, c, d, board, network, site, op, who, now, e);
    case Reply(_, _, _, _, _, _, _) => ReplyOpCommutes(rules, json, c, d, board, network, site, op, who, now, e);
    case Edit(_, _, _, _) => EditOpCommutes(rules, json, c, d, board, network, site, op, who, now, e);
    case Retract(_, _, _) => RetractOpCommutes(rules, json, c, d, board, network, site, op, who, now, e);
    case Purge(_, _, _) => PurgeOpCommutes(rules, json, c, d, board, network, site, op, who, now, e);
    case Curating(_, _, _, _, _, _, _) => CurateOpCommutes(rules, json, c, d, board, network, site, op, who, now, e);
    case Ack(_, _) => AckOpCommutes(rules, json, c, d, board, network, site, op, who, now, e);
    case _ =>
  }

  /**
   The diagram commutes: if two sites' copies of a shared board agree, then an
   open, reply, edit, retract, purge, settle, rename, close or acknowledgement
   at one, shared as files and pulled at the other, has every file taken and
   leaves the copies agreeing, exactly unless it is a settle whose target does
   not mean the same as it was given.
   */
  lemma CopiesStayInAgreement(rules: Rules, json: Codec, c: Core, d: Core, board: string, network: string, site: string,
                              op: Local, who: Author, now: Time, e: Effect)
    requires OpAsked(rules, json, c, d, board, network, site, op, who, now, e)
    ensures Commutes(rules, json, c, d, board, network, site, e) <==> SettlesSame(rules, c, op)
  {
    hide OpAsked, Commutes;
    if SettlesSame(rules, c, op) {
      OpCommutes(rules, json, c, d, board, network, site, op, who, now, e);
    } else {
      SettleCommutesIff(rules, json, c, d, board, network, site, op, who, now, e);
    }
  }

  // ---- a settle with space around its target ----

  /**
   The writer trims a settle's target, the event carries it as given, and the
   reader does not trim. So the reader ignores the file exactly when the target
   untrimmed is no link, and takes it otherwise; the copies agree afterwards
   exactly when the target means the same either way.
   */
  lemma SettleCommutesIff(rules: Rules, json: Codec, c: Core, d: Core, board: string, network: string, site: string,
                          op: Local, who: Author, now: Time, e: Effect)
    requires OpAsked(rules, json, c, d, board, network, site, op, who, now, e) && op.Curating? && op.op.Settle?
    ensures Commutes(rules, json, c, d, board, network, site, e) <==> SettlesSame(rules, c, op)
    ensures DeliverAll(rules, json, d, network, site, Shared(json, c, e, site)).None? <==> !rules.isLink(op.into)
  {
    SettleIsTaken(rules, json, c, d, board, network, site, op, who, now, e);
    hide OpAsked, DeliverAll, Shared, Agree, Result;
    if SettlesSame(rules, c, op) {
      OpCommutes(rules, json, c, d, board, network, site, op, who, now, e);
    } else if rules.isLink(op.into) {
      SettlesApart(rules, json, c, d, board, network, site, op, who, now, e);
    }
  }

  /** The settle as the reader takes it: the link it adds is the target as it was given. */
  function SettleAsGiven(t: ThreadRow, op: Local, e: Effect): Effect
    requires op.Curating? && e.Curate?
  {
    e.(links := WithLink(t.links, Link(op.into, e.event.note, e.event.actor, e.event.createdAt)))
  }

  lemma SettleIsTaken(rules: Rules, json: Codec, c: Core, d: Core, board: string, network: string, site: string,
                      op: Local, who: Author, now: Time, e: Effect)
    requires OpAsked(rules, json, c, d, board, network, site, op, who, now, e) && op.Curating? && op.op.Settle?
    ensures e.Curate? && op.thread in d.threads
    ensures DeliverAll(rules, json, d, network, site, Shared(json, c, e, site)) ==
      if rules.isLink(op.into) then Some(Result(d, SettleAsGiven(d.threads[op.thread], op, e))) else None
    ensures rules.trim(op.into) == op.into ==> rules.isLink(op.into)
  {
    hide Plan, Lawful, Agree, CoreInv, JudgeNewEvent;
    CuratePlan(rules, c, op, site, who, now, e);
    HostedToo(c, d, board, network, op.thread);
    AgreeNetwork(c, d, board, network);
    EventIsShared(json, c, board, e, site);
    EventIsJudged(rules, json, d, board, network, site, op.eventId, e.event);
    CuratesSame(rules, c.threads[op.thread], d.threads[op.thread], op, who, now, e);
    SettleIsJudged(rules, d, board, network, site, op, who, now, e);
    var file := EventFile(json, board, op.eventId, e.event, site);
    var e' := SettleAsGiven(d.threads[op.thread], op, e);
    assert Fits(d, e');
    hide *;
    SettleFile(rules, json, d, network, site, file, rules.isLink(op.into), e');
  }

  lemma SettleIsJudged(rules: Rules, d: Core, board: string, network: string, site: string, op: Local, who: Author,
                       now: Time, e: Effect)
    requires op.Curating? && op.op.Settle? && GetThread(d, op.thread).Some?
    requires Curates(e, d.threads[op.thread], op, rules, who, now) && e.eventId == op.eventId
    ensures var h := EventHeadOf(board, op.eventId, e.event, site);
      JudgeNewEvent(rules, d, Pulled(network, site, Doc(Format.EventFile(board, op.thread, op.eventId), h, "")), h) ==
      if rules.isLink(op.into) then Take(SettleAsGiven(d.threads[op.thread], op, e)) else Ignored
  {
  }

  lemma SettleFile(rules: Rules, json: Codec, d: Core, network: string, site: string, file: File, link: bool,
                   e': Effect)
    requires Fits(d, e')
    requires Judge(rules, d, Pulled(network, site, ReadDoc(json, file))) == if link then Take(e') else Ignored
    ensures DeliverAll(rules, json, d, network, site, [file]) == if link then Some(Result(d, e')) else None
  {
    hide Judge, ReadDoc, Fits, Result;
    DeliverSingle(rules, json, d, network, site, file);
  }

  /** Taken as given, a settle that does not mean the same leaves the thread with other links. */
  lemma SettlesApart(rules: Rules, json: Codec, c: Core, d: Core, board: string, network: string, site: string,
                     op: Local, who: Author, now: Time, e: Effect)
    requires OpAsked(rules, json, c, d, board, network, site, op, who, now, e) && op.Curating? && op.op.Settle?
    requires rules.isLink(op.into) && !SettlesSame(rules, c, op) && e.Curate? && op.thread in d.threads
    ensures !Agree(Result(c, e), Result(d, SettleAsGiven(d.threads[op.thread], op, e)), board, network)
  {
    hide Plan, Lawful, CoreInv, NamesOk, AgreePosts, AgreeRevisions, AgreeEvents, AgreeAcks, Orderly;
    CuratePlan(rules, c, op, site, who, now, e);
    HostedToo(c, d, board, network, op.thread);
    var t, e' := d.threads[op.thread], SettleAsGiven(d.threads[op.thread], op, e);
    OtherLinks(t.links, Link(rules.trim(op.into), e.event.note, who, now), Link(op.into, e.event.note, who, now));
    assert ThreadOn(Result(c, e), board, op.thread);
    assert Result(c, e).threads[op.thread].links == e.links && Result(d, e').threads[op.thread].links == e'.links;
    assert e.links != e'.links;
    hide Result;
  }

  lemma OtherLinks(links: seq<Link>, a: Link, b: Link)
    ensures WithLink(links, a) == WithLink(links, b) <==> a == b || (HasLink(links, a.ref) && HasLink(links, b.ref))
  {
    assert |WithLink(links, a)| == if HasLink(links, a.ref) then |links| else |links| + 1;
    if !HasLink(links, a.ref) && !HasLink(links, b.ref) {
      assert WithLink(links, a)[|links|] == a && WithLink(links, b)[|links|] == b;
    }
  }

  // ---- where agreement starts, and the names it needs ----

  /** A board newly shared and pulled is empty on both sides, so the copies agree. */
  lemma NewBoardAgrees(rules: Rules, json: Codec, c: Core, d: Core, network: string, site: string, name: string,
                       row: BoardRow)
    requires Lawful(json) && CoreInv(c) && CoreInv(d) && Format.IsBoardPart(name) && name !in c.boards
    requires name !in d.boards
    requires row.site == site && row.network == network && network != ""
    ensures var e := MakeBoard(name, row);
      && Shared(json, c, e, site) == [BoardFile(json, name, row)]
      && Commutes(rules, json, c, d, name, network, site, e)
  {
    var e, e' := MakeBoard(name, row), MakeBoard(name, row.(description := Format.TrimNewline(row.description)));
    hide Deliver, ReadDoc, BoardFile, CoreInv, Judge, Lawful, Share, Shared, Format.IsBoardPart, Format.TrimNewline;
    BoardReadsBack(json, name, row);
    BoardIsJudged(rules, d, network, site, name, row);
    BoardIsShared(json, c, name, row, site);
    NothingOnNewBoard(c, name, row);
    NothingOnNewBoard(d, name, e'.board);
    BoardDelivered(rules, json, d, network, site, BoardFile(json, name, row), e');
    DeliverSingle(rules, json, d, network, site, BoardFile(json, name, row));
  }

  lemma BoardIsJudged(rules: Rules, d: Core, network: string, site: string, name: string, row: BoardRow)
    requires name !in d.boards && row.site == site && row.network == network
    ensures var body := Format.TrimNewline(row.description);
      var doc := Doc(Format.BoardFile(name), BoardHead(name, row.site, row.createdBy, row.createdAt), body);
      Judge(rules, d, Pulled(network, site, doc)) == Take(MakeBoard(name, row.(description := body)))
  {
  }

  lemma BoardIsShared(json: Codec, c: Core, name: string, row: BoardRow, site: string)
    requires row.network != ""
    ensures Shared(json, c, MakeBoard(name, row), site) == [BoardFile(json, name, row)]
  {
    var changes := [AddBoard(name, row)];
    hide BoardFile;
    assert Share(json, c, changes, 1, site) == [];
  }

  lemma BoardDelivered(rules: Rules, json: Codec, d: Core, network: string, site: string, file: File, e': Effect)
    requires Judge(rules, d, Pulled(network, site, ReadDoc(json, file))) == Take(e') && Fits(d, e')
    ensures Deliver(rules, json, d, network, site, file) == Some(Result(d, e'))
  {
    hide Judge, ReadDoc, Result, Fits;
  }

  lemma NothingOnNewBoard(c: Core, name: string, row: BoardRow)
    requires CoreInv(c) && name !in c.boards
    ensures var c' := Result(c, MakeBoard(name, row));
      && (forall t :: !ThreadOn(c', name, t)) && (forall p :: !PostOn(c', name, p))
      && (forall x :: !EventOn(c', name, x))
      && NetworkOf(c', name) == row.network
  {
  }

  /** What an effect adds is well named. */
  predicate WellNamed(e: Effect) {
    match e
    case MakeBoard(name, _) => Format.IsBoardPart(name)
    case MakeThread(id, _) => Ids.IsIdPart(id)
    case OpenWith(id, _, postId, post, _) => Ids.IsIdPart(id) && Minted(post.site, postId)
    case AddTo(postId, post, _, _) => Minted(post.site, postId)
    case _ => true
  }

  lemma NamesKept(c: Core, e: Effect)
    requires NamesOk(c) && Fits(c, e) && WellNamed(e)
    ensures NamesOk(Result(c, e))
  {
    hide Ids.IsIdPart, Format.IsBoardPart, Own;
  }

  /** The IDs a local operation brings are this site's own. */
  predicate OpMinted(op: Local, site: string) {
    match op
    case OpenThread(_, threadId, postId, _, _, _, _, _) => Minted(site, threadId) && Minted(site, postId)
    case Reply(_, _, postId, _, _, _, _) => Minted(site, postId)
    case _ => true
  }

  lemma PlanIsWellNamed(rules: Rules, c: Core, op: Local, site: string, who: Author, now: Time)
    requires OpMinted(op, site)
    ensures Plan(rules, c, op, site, who, now).Some? ==> WellNamed(Plan(rules, c, op, site, who, now).value)
  {
    hide Ids.IsIdPart, Own;
  }

  lemma EventAddsNoNames(rules: Rules, d: Core, f: Pulled, h: Head)
    requires h.EventHead? && GetThread(d, h.thread).Some?
    ensures var v := JudgeNewEvent(rules, d, f, h); v.Take? ==> WellNamed(v.effect)
  {
  }

  lemma JudgedNames(rules: Rules, d: Core, f: Pulled)
    requires !f.doc.Foreign? ==>
      && (f.doc.file.BoardFile? ==> Format.IsBoardPart(f.doc.file.board))
      && (f.doc.file.ThreadFile? ==> Ids.IsIdPart(f.doc.file.thread))
      && (f.doc.file.PostFile? ==> Ids.IsIdPart(f.doc.file.id))
    ensures Judge(rules, d, f).Take? ==> WellNamed(Judge(rules, d, f).effect)
  {
    hide Ids.IsIdPart, Format.IsBoardPart, Own, JudgeNewEvent;
    if !f.doc.Foreign? && f.doc.file.EventFile? && f.doc.Doc? && f.doc.head.EventHead?
      && GetThread(d, f.doc.head.thread).Some? {
      EventAddsNoNames(rules, d, f, f.doc.head);
    }
  }

  /** A pulled file's path has been classified, so what it adds is well named too. */
  lemma VerdictIsWellNamed(rules: Rules, json: Codec, d: Core, network: string, signer: string, file: File)
    ensures var v := Judge(rules, d, Pulled(network, signer, ReadDoc(json, file))); v.Take? ==> WellNamed(v.effect)
  {
    hide Judge, WellNamed, Ids.IsIdPart, Format.IsBoardPart, Format.ClassifyPath, Format.ParseFrontmatter;
    var doc := ReadDoc(json, file);
    if !doc.Foreign? { ClassifiedNames(file.path, doc.file); }
    JudgedNames(rules, d, Pulled(network, signer, doc));
  }

  lemma ClassifiedNames(p: string, f: Format.RepoFile)
    requires Format.ClassifyPath(p) == Some(f)
    ensures f.BoardFile? ==> Format.IsBoardPart(f.board)
    ensures f.ThreadFile? ==> Ids.IsIdPart(f.thread)
    ensures f.PostFile? ==> Ids.IsIdPart(f.id)
  {
    if f.BoardFile? { Format.BoardPathReadsBack(p, f.board); }
    else if f.ThreadFile? { Format.ThreadPathReadsBack(p, f.board, f.thread); }
    else if f.PostFile? { Format.PostPathsOnly(p, f.board, f.thread, f.id, f.revision); }
    hide Format.ClassifyPath;
  }
}
