/**
 What every write keeps, over any interleaving of local operations and pulled
 files at one site: a post's history only grows, what stopped being visible
 stays so, and a file once accepted in causal order has no effect ever after
 (internal/board/service.go, curation.go and shared.go).
 */
module BoardHistory {
  import opened BoardStore
  import opened BoardFiles
  import opened BoardWrites

  type Threads = map<string, ThreadRow>
  type Posts = map<string, PostRow>
  type Revisions = map<(string, nat), RevisionRow>

  // ---- the index as it always is ----

  /** A post's revisions are exactly 1 to its current one. */
  ghost predicate Numbered(posts: Posts, revisions: Revisions) {
    && (forall p :: p in posts ==> posts[p].revision >= 1)
    && forall p: string, n: nat :: (p, n) in revisions <==> p in posts && 1 <= n <= posts[p].revision
  }

  ghost predicate PostsRooted(posts: Posts, threads: Threads) {
    forall p :: p in posts ==> posts[p].thread in threads
  }

  ghost predicate ThreadsRooted(threads: Threads, boards: map<string, BoardRow>) {
    forall t :: t in threads ==> threads[t].board in boards
  }

  /** A post that still has its author is of its author's site. */
  ghost predicate Sited(posts: Posts) { forall p :: p in posts ==> SitedPost(posts[p]) }

  predicate SitedPost(p: PostRow) { p.state.Purged? || p.author.site == p.site }

  /** Every event is of a thread, and every acknowledgement of a post, that the index has. */
  ghost predicate Attached(c: Core) {
    && (forall e :: e in c.events ==> c.events[e].thread in c.threads)
    && (forall k :: k in c.acks ==> k.0 in c.posts)
  }

  ghost predicate PostsInOrder(c: Core) {
    Numbered(c.posts, c.revisions) && PostsRooted(c.posts, c.threads) && ThreadsRooted(c.threads, c.boards)
      && Sited(c.posts)
  }

  ghost predicate CoreInv(c: Core) { PostsInOrder(c) && Attached(c) }

  // ---- how the index grows ----

  /** A thread keeps its board and opening post, and once purged stays purged. */
  predicate ThreadGrows(t: ThreadRow, t': ThreadRow) {
    t'.board == t.board && t'.opening == t.opening && (t.purged ==> t'.purged)
  }

  /**
   A post keeps its thread, site and, until purged, its author; its revision
   never goes back; once not visible it is never visible again, and once purged
   it stays purged.
   */
  predicate PostGrows(p: PostRow, p': PostRow) {
    && p'.thread == p.thread && p'.site == p.site && p'.createdAt == p.createdAt && p'.revision >= p.revision
    && (p'.author == p.author || p'.state.Purged?)
    && (!p.state.Visible? ==> !p'.state.Visible? && p'.revision == p.revision)
    && (p.state.Purged? ==> p'.state.Purged?)
  }

  ghost predicate BoardsGrow(boards: map<string, BoardRow>, boards': map<string, BoardRow>) {
    forall b :: b in boards ==> b in boards' && boards'[b] == boards[b]
  }

  ghost predicate ThreadsGrow(threads: Threads, threads': Threads) {
    forall t :: t in threads ==> t in threads' && ThreadGrows(threads[t], threads'[t])
  }

  ghost predicate PostsGrow(posts: Posts, posts': Posts) {
    forall p :: p in posts ==> p in posts' && PostGrows(posts[p], posts'[p])
  }

  /** A revision is never overwritten, only emptied by a purge of its post. */
  ghost predicate RevisionsGrow(revisions: Revisions, revisions': Revisions, posts': Posts) {
    forall k :: k in revisions ==>
      k in revisions' && (revisions'[k] == revisions[k] || (k.0 in posts' && posts'[k.0].state.Purged?))
  }

  ghost predicate EventsGrow(events: map<string, EventRow>, events': map<string, EventRow>) {
    forall e :: e in events ==> e in events'
  }

  ghost predicate Grows(c: Core, c': Core) {
    && BoardsGrow(c.boards, c'.boards) && ThreadsGrow(c.threads, c'.threads) && PostsGrow(c.posts, c'.posts)
    && RevisionsGrow(c.revisions, c'.revisions, c'.posts) && EventsGrow(c.events, c'.events)
  }

  lemma GrowsReflexive(c: Core)
    ensures Grows(c, c)
  {
  }

  lemma RevisionsTransitive(a: Core, b: Core, c: Core)
    requires Grows(a, b) && Grows(b, c)
    ensures RevisionsGrow(a.revisions, c.revisions, c.posts)
  {
    forall k | k in a.revisions
      ensures k in c.revisions && (c.revisions[k] == a.revisions[k] || (k.0 in c.posts && c.posts[k.0].state.Purged?))
    {
      assert k in b.revisions;
      if b.revisions[k] != a.revisions[k] { assert k.0 in b.posts && PostGrows(b.posts[k.0], c.posts[k.0]); }
    }
  }

  lemma GrowsTransitive(a: Core, b: Core, c: Core)
    requires Grows(a, b) && Grows(b, c)
    ensures Grows(a, c)
  {
    RevisionsTransitive(a, b, c);
    hide RevisionsGrow;
  }

  // ---- one row at a time ----

  /** A thread row changed in a way that grows, or a new one. */
  lemma SetThread(threads: Threads, posts: Posts, boards: map<string, BoardRow>, id: string, row: ThreadRow)
    requires ThreadsRooted(threads, boards) && PostsRooted(posts, threads)
    requires row.board in boards && (id in threads ==> ThreadGrows(threads[id], row))
    ensures ThreadsGrow(threads, threads[id := row]) && ThreadsRooted(threads[id := row], boards)
    ensures PostsRooted(posts, threads[id := row])
  {
  }

  /** A post row changed in a way that grows and keeps its revision. */
  lemma SetRow(posts: Posts, revisions: Revisions, threads: Threads, id: string, row: PostRow)
    requires Numbered(posts, revisions) && PostsRooted(posts, threads) && Sited(posts)
    requires id in posts && PostGrows(posts[id], row) && row.revision == posts[id].revision && SitedPost(row)
    ensures var posts' := posts[id := row];
      && PostsGrow(posts, posts') && Numbered(posts', revisions) && PostsRooted(posts', threads) && Sited(posts')
      && RevisionsGrow(revisions, revisions, posts')
  {
  }

  lemma NewRow(posts: Posts, revisions: Revisions, threads: Threads, id: string, row: PostRow, r: RevisionRow)
    requires Numbered(posts, revisions) && PostsRooted(posts, threads) && Sited(posts)
    requires id !in posts && row.revision == 1 && row.thread in threads && SitedPost(row)
    ensures var posts', revisions' := posts[id := row], revisions[(id, 1) := r];
      && PostsGrow(posts, posts') && Numbered(posts', revisions') && PostsRooted(posts', threads) && Sited(posts')
      && RevisionsGrow(revisions, revisions', posts')
  {
  }

  lemma NextRevision(posts: Posts, revisions: Revisions, threads: Threads, id: string, row: PostRow, r: RevisionRow)
    requires Numbered(posts, revisions) && PostsRooted(posts, threads) && Sited(posts)
    requires id in posts && PostGrows(posts[id], row) && row.revision == posts[id].revision + 1 && SitedPost(row)
    ensures var posts', revisions' := posts[id := row], revisions[(id, row.revision) := r];
      && PostsGrow(posts, posts') && Numbered(posts', revisions') && PostsRooted(posts', threads) && Sited(posts')
      && RevisionsGrow(revisions, revisions', posts')
  {
    assert (id, row.revision) !in revisions;
  }

  /** Rows scrubbed in place: each post stays or is purged, each revision stays or is of a purged post. */
  lemma ScrubRows(posts: Posts, posts': Posts, revisions: Revisions, revisions': Revisions, threads: Threads)
    requires Numbered(posts, revisions) && PostsRooted(posts, threads) && Sited(posts)
    requires posts'.Keys == posts.Keys && revisions'.Keys == revisions.Keys
    requires forall p :: p in posts ==> posts'[p] == posts[p] || posts'[p] == ScrubbedPost(posts[p])
    requires forall k :: k in revisions ==> revisions'[k] == revisions[k] || (k.0 in posts && posts'[k.0].state.Purged?)
    ensures PostsGrow(posts, posts') && Numbered(posts', revisions') && PostsRooted(posts', threads) && Sited(posts')
    ensures RevisionsGrow(revisions, revisions', posts')
  {
    forall p | p in posts'
      ensures p in posts && posts'[p].revision == posts[p].revision && posts'[p].thread == posts[p].thread
    {
      assert p in posts'.Keys;
    }
    forall p: string, n: nat
      ensures (p, n) in revisions' <==> p in posts' && 1 <= n <= posts'[p].revision
    {
      assert (p, n) in revisions'.Keys <==> (p, n) in revisions.Keys;
      assert p in posts'.Keys <==> p in posts.Keys;
    }
  }

  // ---- effects that respect a post's state ----

  /** What a plan or a verdict guarantees of its effect besides fitting the tables. */
  predicate Sound(c: Core, e: Effect) {
    match e
    case OpenWith(id, thread, _, post, _) =>
      post.thread == id && post.revision == 1 && post.author.site == post.site
    case AddTo(_, post, _, _) => post.revision == 1 && post.author.site == post.site
    case Revise(id, _, _, _) => id in c.posts && c.posts[id].state.Visible?
    case Withdraw(id, to, _, _, _) => id in c.posts && c.posts[id].state.Visible? && (to.Retracted? || to.Hidden?)
    case _ => true
  }

  lemma PlanIsSound(rules: Rules, c: Core, op: Local, site: string, who: Author, now: Time)
    requires who.site == site
    ensures Plan(rules, c, op, site, who, now).Some? ==> Sound(c, Plan(rules, c, op, site, who, now).value)
  {
  }

  lemma VerdictIsSound(rules: Rules, c: Core, f: Pulled)
    ensures Judge(rules, c, f).Take? ==> Sound(c, Judge(rules, c, f).effect)
  {
  }

  // ---- each effect ----

  lemma SitedAt(posts: Posts, p: string)
    requires Sited(posts) && p in posts
    ensures SitedPost(posts[p])
  {
  }

  lemma BoardAt(threads: Threads, boards: map<string, BoardRow>, t: string)
    requires ThreadsRooted(threads, boards) && t in threads
    ensures threads[t].board in boards
  {
  }

  lemma MakeGrows(c: Core, e: Effect)
    requires PostsInOrder(c) && Fits(c, e) && (e.MakeBoard? || e.MakeThread?)
    ensures PostsInOrder(Result(c, e)) && Grows(c, Result(c, e))
  {
    GrowsReflexive(c);
    if e.MakeThread? { SetThread(c.threads, c.posts, c.boards, e.id, e.thread); }
    hide Numbered, Sited, PostsGrow, RevisionsGrow;
  }

  lemma OpenGrows(c: Core, e: Effect)
    requires PostsInOrder(c) && Fits(c, e) && Sound(c, e) && e.OpenWith?
    ensures PostsInOrder(Result(c, e)) && Grows(c, Result(c, e))
  {
    hide Numbered, PostsRooted, ThreadsRooted, Sited, ThreadsGrow, PostsGrow, RevisionsGrow;
    GrowsReflexive(c);
    SetThread(c.threads, c.posts, c.boards, e.id, e.thread);
    NewRow(c.posts, c.revisions, c.threads[e.id := e.thread], e.postId, e.post, e.revision);
  }

  lemma TouchGrows(c: Core, thread: string, at: Time)
    requires PostsInOrder(c)
    ensures var t := Touched(c, thread, at).threads;
      ThreadsGrow(c.threads, t) && ThreadsRooted(t, c.boards) && PostsRooted(c.posts, t)
  {
    GrowsReflexive(c);
    if thread in c.threads {
      SetThread(c.threads, c.posts, c.boards, thread, c.threads[thread].(lastActivity := at));
    }
  }

  lemma RevisionsHavePosts(c: Core)
    requires PostsInOrder(c)
    ensures forall k :: k in c.revisions ==> k.0 in c.posts
  {
    forall k | k in c.revisions
      ensures k.0 in c.posts
    {
      assert k == (k.0, k.1);
    }
  }

  lemma AddGrows(c: Core, e: Effect)
    requires PostsInOrder(c) && Fits(c, e) && Sound(c, e) && e.AddTo?
    ensures PostsInOrder(Result(c, e)) && Grows(c, Result(c, e))
  {
    hide Numbered, PostsRooted, ThreadsRooted, Sited, ThreadsGrow, PostsGrow, RevisionsGrow;
    GrowsReflexive(c);
    TouchGrows(c, e.post.thread, e.at);
    NewRow(c.posts, c.revisions, Touched(c, e.post.thread, e.at).threads, e.postId, e.post, e.revision);
  }

  lemma ReviseGrows(c: Core, e: Effect)
    requires PostsInOrder(c) && Fits(c, e) && Sound(c, e) && e.Revise?
    ensures PostsInOrder(Result(c, e)) && Grows(c, Result(c, e))
  {
    hide Numbered, PostsRooted, ThreadsRooted, Sited, ThreadsGrow, PostsGrow, RevisionsGrow;
    var p := c.posts[e.postId];
    var row := p.(state := Visible, revision := p.revision + 1, note := "", editedAt := e.revision.createdAt);
    SitedAt(c.posts, e.postId);
    GrowsReflexive(c);
    TouchGrows(c, e.touched, e.at);
    NextRevision(c.posts, c.revisions, Touched(c, e.touched, e.at).threads, e.postId, row, e.revision);
  }

  lemma WithdrawGrows(c: Core, e: Effect)
    requires PostsInOrder(c) && Fits(c, e) && Sound(c, e) && e.Withdraw?
    ensures PostsInOrder(Result(c, e)) && Grows(c, Result(c, e))
  {
    hide Numbered, PostsRooted, ThreadsRooted, Sited, ThreadsGrow, PostsGrow, RevisionsGrow;
    var p := c.posts[e.postId];
    SitedAt(c.posts, e.postId);
    GrowsReflexive(c);
    SetRow(c.posts, c.revisions, c.threads, e.postId, p.(state := e.to, note := e.note));
  }

  lemma PostScrubGrows(c: Core, id: string)
    requires PostsInOrder(c)
    ensures var s := ScrubOnePost(c, id);
      PostsInOrder(s) && PostsGrow(c.posts, s.posts) && RevisionsGrow(c.revisions, s.revisions, s.posts)
  {
    var s := ScrubOnePost(c, id);
    assert s.posts.Keys == c.posts.Keys && s.revisions.Keys == c.revisions.Keys;
    RevisionsHavePosts(c);
    ScrubRows(c.posts, s.posts, c.revisions, s.revisions, c.threads);
    hide Numbered, PostsRooted, ThreadsRooted, Sited, PostsGrow, RevisionsGrow;
  }

  lemma PurgePostGrows(c: Core, e: Effect)
    requires PostsInOrder(c) && Fits(c, e) && e.PurgePost?
    ensures PostsInOrder(Result(c, e)) && Grows(c, Result(c, e))
  {
    hide Numbered, PostsRooted, ThreadsRooted, Sited, ThreadsGrow, PostsGrow, RevisionsGrow;
    PostScrubGrows(c, e.postId);
    GrowsReflexive(c);
  }

  lemma ThreadScrubPosts(c: Core, id: string)
    requires PostsInOrder(c)
    ensures var s := ScrubWholeThread(c, id);
      && PostsGrow(c.posts, s.posts) && Numbered(s.posts, s.revisions) && PostsRooted(s.posts, c.threads)
      && Sited(s.posts)
      && RevisionsGrow(c.revisions, s.revisions, s.posts)
  {
    var s := ScrubWholeThread(c, id);
    assert s.posts.Keys == c.posts.Keys && s.revisions.Keys == c.revisions.Keys;
    ScrubRows(c.posts, s.posts, c.revisions, s.revisions, c.threads);
    hide Numbered, PostsRooted, ThreadsRooted, Sited, PostsGrow, RevisionsGrow;
  }

  lemma ThreadScrubThreads(c: Core, id: string)
    requires ThreadsRooted(c.threads, c.boards)
    ensures var s := ScrubWholeThread(c, id);
      ThreadsGrow(c.threads, s.threads) && ThreadsRooted(s.threads, c.boards) && s.threads.Keys == c.threads.Keys
  {
  }

  lemma SameKeysRooted(posts: Posts, threads: Threads, threads': Threads)
    requires PostsRooted(posts, threads) && threads'.Keys == threads.Keys
    ensures PostsRooted(posts, threads')
  {
    forall p | p in posts
      ensures posts[p].thread in threads'
    {
      assert posts[p].thread in threads.Keys;
    }
  }

  lemma PurgeThreadGrows(c: Core, e: Effect)
    requires PostsInOrder(c) && Fits(c, e) && e.PurgeThread?
    ensures PostsInOrder(Result(c, e)) && Grows(c, Result(c, e))
  {
    hide Numbered, PostsRooted, ThreadsRooted, Sited, ThreadsGrow, PostsGrow, RevisionsGrow;
    var s := ScrubWholeThread(c, e.id);
    ThreadScrubPosts(c, e.id);
    ThreadScrubThreads(c, e.id);
    SameKeysRooted(s.posts, c.threads, s.threads);
    GrowsReflexive(c);
  }

  lemma CurateGrows(c: Core, e: Effect)
    requires PostsInOrder(c) && Fits(c, e) && e.Curate?
    ensures PostsInOrder(Result(c, e)) && Grows(c, Result(c, e))
  {
    hide Numbered, PostsRooted, ThreadsRooted, Sited, ThreadsGrow, PostsGrow, RevisionsGrow;
    GrowsReflexive(c);
    if e.id in c.threads {
      var t := c.threads[e.id];
      BoardAt(c.threads, c.boards, e.id);
      SetThread(c.threads, c.posts, c.boards, e.id,
                t.(state := e.state, title := e.title, links := e.links, aliases := e.aliases, redirect := e.redirect));
    }
  }

  lemma AckGrows(c: Core, e: Effect)
    requires PostsInOrder(c) && Fits(c, e) && (e.Acknowledge? || e.AckHere?)
    ensures PostsInOrder(Result(c, e)) && Grows(c, Result(c, e))
  {
    hide Numbered, PostsRooted, ThreadsRooted, Sited, ThreadsGrow, PostsGrow, RevisionsGrow;
    GrowsReflexive(c);
  }

  /** Nothing an effect adds hangs loose. */
  lemma EffectAttached(c: Core, e: Effect)
    requires Attached(c) && Fits(c, e)
    ensures Attached(Result(c, e))
  {
    match e
    case PurgePost(_, _, _) => PurgeAttached(c, e);
    case PurgeThread(_, _, _) => PurgeAttached(c, e);
    case _ => PlainAttached(c, e);
  }

  lemma PurgeAttached(c: Core, e: Effect)
    requires Attached(c) && Fits(c, e) && (e.PurgePost? || e.PurgeThread?)
    ensures Attached(Result(c, e))
  {
  }

  lemma PlainAttached(c: Core, e: Effect)
    requires Attached(c) && Fits(c, e) && !e.PurgePost? && !e.PurgeThread?
    ensures Attached(Result(c, e))
  {
  }

  lemma EffectGrows(c: Core, e: Effect)
    requires CoreInv(c) && Fits(c, e) && Sound(c, e)
    ensures CoreInv(Result(c, e)) && Grows(c, Result(c, e))
  {
    EffectAttached(c, e);
    EffectInOrder(c, e);
    hide PostsInOrder, Attached, Result, Grows;
  }

  lemma EffectInOrder(c: Core, e: Effect)
    requires PostsInOrder(c) && Fits(c, e) && Sound(c, e)
    ensures PostsInOrder(Result(c, e)) && Grows(c, Result(c, e))
  {
    hide *;
    match e
    case MakeBoard(_, _) => MakeGrows(c, e);
    case MakeThread(_, _) => MakeGrows(c, e);
    case OpenWith(_, _, _, _, _) => OpenGrows(c, e);
    case AddTo(_, _, _, _) => AddGrows(c, e);
    case Revise(_, _, _, _) => ReviseGrows(c, e);
    case Withdraw(_, _, _, _, _) => WithdrawGrows(c, e);
    case PurgePost(_, _, _) => PurgePostGrows(c, e);
    case PurgeThread(_, _, _) => PurgeThreadGrows(c, e);
    case Curate(_, _, _, _, _, _, _, _) => CurateGrows(c, e);
    case Acknowledge(_, _, _, _, _) => AckGrows(c, e);
    case AckHere(_, _, _) => AckGrows(c, e);
  }

  // ---- whole runs at one site ----

  datatype Event = Here(op: Local, who: Author, now: Time) | From(f: Pulled)

  function After(rules: Rules, c: Core, site: string, e: Event): Core {
    match e
    case Here(op, who, now) => Write(rules, c, op, site, who, now)
    case From(f) => Pull(rules, c, f)
  }

  ghost predicate IsRun(rules: Rules, site: string, run: seq<Core>, events: seq<Event>) {
    && |run| == |events| + 1 && CoreInv(run[0])
    && (forall i :: 0 <= i < |events| && events[i].Here? ==> events[i].who.site == site)
    && forall i :: 0 <= i < |events| ==> run[i + 1] == After(rules, run[i], site, events[i])
  }

  lemma EmptyIndexIsInOrder()
    ensures CoreInv(NoRows())
  {
  }

  lemma StepGrows(rules: Rules, c: Core, site: string, e: Event)
    requires CoreInv(c) && (e.Here? ==> e.who.site == site)
    ensures CoreInv(After(rules, c, site, e)) && Grows(c, After(rules, c, site, e))
  {
    GrowsReflexive(c);
    match e
    case Here(op, who, now) =>
      PlanIsSound(rules, c, op, site, who, now);
      var plan := Plan(rules, c, op, site, who, now);
      hide Plan, Sound, Result, Fits, CoreInv, Grows;
      if plan.Some? && Fits(c, plan.value) { EffectGrows(c, plan.value); }
    case From(f) =>
      VerdictIsSound(rules, c, f);
      var v := Judge(rules, c, f);
      hide Judge, Sound, Result, Fits, CoreInv, Grows;
      if v.Take? && Fits(c, v.effect) { EffectGrows(c, v.effect); }
  }

  /** Over any interleaving of local writes and pulled files, the index stays in order and only grows. */
  lemma {:induction false} RunGrows(rules: Rules, site: string, run: seq<Core>, events: seq<Event>, i: nat, j: nat)
    requires IsRun(rules, site, run, events) && i <= j < |run|
    ensures CoreInv(run[i]) && CoreInv(run[j]) && Grows(run[i], run[j])
    decreases j
  {
    hide CoreInv, Grows, After;
    if i == j {
      GrowsReflexive(run[i]);
      if j > 0 {
        RunGrows(rules, site, run, events, j - 1, j - 1);
        StepGrows(rules, run[j - 1], site, events[j - 1]);
      }
    } else {
      RunGrows(rules, site, run, events, i, j - 1);
      StepGrows(rules, run[j - 1], site, events[j - 1]);
      GrowsTransitive(run[i], run[j - 1], run[j]);
    }
  }

  /**
   A post's history: its revisions are exactly 1 to n with the current text
   revision n's; its site never changes and its author only goes with a purge;
   once it is not visible it never is again.
   */
  lemma PostHistory(rules: Rules, site: string, run: seq<Core>, events: seq<Event>, i: nat, j: nat, p: string)
    requires IsRun(rules, site, run, events) && i <= j < |run| && p in run[i].posts
    ensures p in run[j].posts && run[j].posts[p].site == run[i].posts[p].site
    ensures forall n: nat :: (p, n) in run[j].revisions <==> 1 <= n <= run[j].posts[p].revision
    ensures run[j].posts[p].author == run[i].posts[p].author || run[j].posts[p].state.Purged?
    ensures !run[i].posts[p].state.Visible? ==> !run[j].posts[p].state.Visible?
    ensures !run[j].posts[p].state.Purged? ==> forall n: nat :: (p, n) in run[i].revisions ==>
      (p, n) in run[j].revisions && run[j].revisions[(p, n)] == run[i].revisions[(p, n)]
    ensures GetPost(run[j], p).Some? ==>
      GetPost(run[j], p).value.current == run[j].revisions[(p, run[j].posts[p].revision)]
  {
    RunGrows(rules, site, run, events, i, j);
    assert PostGrows(run[i].posts[p], run[j].posts[p]);
  }

  lemma EditOnly(rules: Rules, c: Core, op: Local, site: string, who: Author, now: Time, p: string)
    requires Plan(rules, c, op, site, who, now).Some?
    requires var e := Plan(rules, c, op, site, who, now).value; e.Revise? && e.postId == p
    ensures op.Edit? && op.post == p && p in c.posts && Who(who) == Who(c.posts[p].author) && c.posts[p].state.Visible?
  {
  }

  lemma OwnFileOnly(rules: Rules, c: Core, f: Pulled, p: string)
    requires Judge(rules, c, f).Take? && Judge(rules, c, f).effect.Revise? && Judge(rules, c, f).effect.postId == p
    ensures p in c.posts && f.signer == c.posts[p].site && c.posts[p].state.Visible?
  {
  }

  /** A later revision of a post comes only from its author's edit here, or from a file its own site signed. */
  lemma OnlyItsAuthorRevises(rules: Rules, c: Core, site: string, e: Event, p: string)
    requires CoreInv(c) && (e.Here? ==> e.who.site == site) && p in c.posts
    requires p in After(rules, c, site, e).posts && After(rules, c, site, e).posts[p].revision > c.posts[p].revision
    ensures e.Here? ==> e.op.Edit? && e.op.post == p && Who(e.who) == Who(c.posts[p].author) && c.posts[p].site == site
    ensures e.From? ==> e.f.signer == c.posts[p].site
    ensures c.posts[p].state.Visible? && After(rules, c, site, e).posts[p].revision == c.posts[p].revision + 1
  {
    assert SitedPost(c.posts[p]);
    hide Plan, Judge, Result, Fits, CoreInv;
    match e
    case Here(op, who, now) =>
      RevisionsOnlyByRevise(c, Plan(rules, c, op, site, who, now).value, p);
      EditOnly(rules, c, op, site, who, now, p);
    case From(f) =>
      RevisionsOnlyByRevise(c, Judge(rules, c, f).effect, p);
      OwnFileOnly(rules, c, f, p);
  }

  /** Only one kind of effect adds to a post that is there. */
  lemma RevisionsOnlyByRevise(c: Core, e: Effect, p: string)
    requires Fits(c, e) && p in c.posts && p in Result(c, e).posts
    requires Result(c, e).posts[p].revision > c.posts[p].revision
    ensures e.Revise? && e.postId == p && Result(c, e).posts[p].revision == c.posts[p].revision + 1
  {
  }

  // ---- a file once accepted is inert ----

  /** The file was taken and its changes went in, or the index already had what it adds. */
  predicate Accepted(rules: Rules, c: Core, f: Pulled) {
    var v := Judge(rules, c, f);
    v.Nothing? || (v.Take? && Fits(c, v.effect))
  }

  /** It comes after what it refers to: its thread, and a retraction after its post. */
  predicate Causal(c: Core, f: Pulled) {
    f.doc.Doc? && f.doc.file.EventFile? && f.doc.head.EventHead? ==>
      f.doc.file.thread in c.threads
        && (f.doc.head.kind == "retract" ==> InThread(c, f.doc.head.post, f.doc.file.thread))
  }

  /** The index holds what the file adds, or a purge or withdrawal has overtaken it. */
  predicate Absorbed(c: Core, f: Pulled) {
    if f.doc.Foreign? then true
    else
      match f.doc.file
      case BoardFile(board) => board in c.boards
      case ThreadFile(_, thread) => thread in c.threads
      case PostFile(_, thread, id, revision) =>
        ThreadPurged(c, thread) || (id in c.posts && c.posts[id].revision >= revision)
      case EventFile(_, thread, id) =>
        id in c.events || ThreadPurged(c, thread) || (f.doc.Doc? && OvertakenRetraction(c, f.doc.head))
      case BlobFile(_, _) => true
  }

  predicate OvertakenRetraction(c: Core, h: Head) {
    h.EventHead? && h.kind == "retract" && h.post in c.posts && !c.posts[h.post].state.Visible?
  }

  lemma AbsorbedStays(c: Core, c': Core, f: Pulled)
    requires Absorbed(c, f) && Grows(c, c')
    ensures Absorbed(c', f)
  {
    hide RevisionsGrow;
    if !f.doc.Foreign? && f.doc.file.PostFile? && f.doc.file.id in c.posts {
      assert PostGrows(c.posts[f.doc.file.id], c'.posts[f.doc.file.id]);
    }
    if f.doc.Doc? && OvertakenRetraction(c, f.doc.head) {
      assert PostGrows(c.posts[f.doc.head.post], c'.posts[f.doc.head.post]);
    }
  }

  /** Applying the file commits a write; only then are the notices that go with it made. */
  predicate Commits(rules: Rules, c: Core, f: Pulled) {
    var v := Judge(rules, c, f);
    v.Take? && Fits(c, v.effect)
  }

  lemma AbsorbedIsInert(rules: Rules, c: Core, f: Pulled)
    requires Absorbed(c, f)
    ensures !Commits(rules, c, f) && Pull(rules, c, f) == c
  {
    hide Result;
    if !f.doc.Foreign? {
      match f.doc.file
      case BoardFile(board) => BoardInert(rules, c, f, board);
      case ThreadFile(board, thread) => ThreadInert(rules, c, f, board, thread);
      case PostFile(board, thread, id, revision) => PostInert(rules, c, f, board, thread, id, revision);
      case EventFile(board, thread, id) => EventInert(rules, c, f, board, thread, id);
      case BlobFile(_, _) =>
    }
  }

  lemma BoardInert(rules: Rules, c: Core, f: Pulled, board: string)
    requires !f.doc.Foreign? && board in c.boards
    ensures !JudgeBoard(c, f, board).Take?
  {
  }

  lemma ThreadInert(rules: Rules, c: Core, f: Pulled, board: string, thread: string)
    requires !f.doc.Foreign? && thread in c.threads
    ensures !JudgeThread(c, f, board, thread).Take?
  {
  }

  lemma PostInert(rules: Rules, c: Core, f: Pulled, board: string, thread: string, id: string, revision: nat)
    requires !f.doc.Foreign? && (ThreadPurged(c, thread) || (id in c.posts && c.posts[id].revision >= revision))
    ensures var v := JudgePost(rules, c, f, board, thread, id, revision); v.Take? ==> !Fits(c, v.effect)
  {
  }

  lemma EventInert(rules: Rules, c: Core, f: Pulled, board: string, thread: string, id: string)
    requires !f.doc.Foreign?
    requires id in c.events || ThreadPurged(c, thread) || (f.doc.Doc? && OvertakenRetraction(c, f.doc.head))
    ensures !JudgeEvent(rules, c, f, board, thread, id).Take?
  {
  }

  lemma AcceptedPost(rules: Rules, c: Core, f: Pulled)
    requires CoreInv(c) && !f.doc.Foreign? && f.doc.file.PostFile? && Accepted(rules, c, f)
    ensures Absorbed(Pull(rules, c, f), f)
  {
    var id := f.doc.file.id;
    var v := Judge(rules, c, f);
    assert id in c.posts ==> c.posts[id].revision >= 1;
    hide Numbered, PostsRooted, ThreadsRooted, Sited;
  }

  lemma AcceptedEvent(rules: Rules, c: Core, f: Pulled)
    requires CoreInv(c) && !f.doc.Foreign? && f.doc.file.EventFile? && Accepted(rules, c, f) && Causal(c, f)
    ensures Absorbed(Pull(rules, c, f), f)
  {
    var v := JudgeEvent(rules, c, f, f.doc.file.board, f.doc.file.thread, f.doc.file.id);
    if v.Take? {
      EventAdded(rules, c, f);
    } else if f.doc.Doc? && f.doc.head.EventHead? && f.doc.head.kind == "retract" {
      var post := f.doc.head.post;
      assert post in c.posts ==> (post, c.posts[post].revision) in c.revisions;
    }
    hide Numbered, PostsRooted, ThreadsRooted, Sited, Result;
  }

  /** A taken event file's event is in the index afterwards. */
  lemma EventAdded(rules: Rules, c: Core, f: Pulled)
    requires !f.doc.Foreign? && f.doc.file.EventFile? && Judge(rules, c, f).Take? && Fits(c, Judge(rules, c, f).effect)
    ensures f.doc.file.id in Pull(rules, c, f).events
  {
    var v := Judge(rules, c, f);
    assert HasEvent(v.effect, f.doc.file.id);
    hide Judge;
    ResultHasEvent(c, v.effect, f.doc.file.id);
  }

  predicate HasEvent(e: Effect, id: string) {
    (e.Withdraw? || e.PurgePost? || e.PurgeThread? || e.Curate? || e.Acknowledge?) && e.eventId == id
  }

  lemma ResultHasEvent(c: Core, e: Effect, id: string)
    requires Fits(c, e) && HasEvent(e, id)
    ensures id in Result(c, e).events
  {
  }

  lemma AcceptedIsAbsorbed(rules: Rules, c: Core, f: Pulled)
    requires CoreInv(c) && Accepted(rules, c, f) && Causal(c, f)
    ensures Absorbed(Pull(rules, c, f), f)
  {
    if !f.doc.Foreign? {
      if f.doc.file.PostFile? { AcceptedPost(rules, c, f); }
      else if f.doc.file.EventFile? { AcceptedEvent(rules, c, f); }
    }
    hide JudgePost, JudgeEvent, CoreInv;
  }

  // ---- and when replaying it fails ----

  /** Applying the file is an error of the store, which ends the whole pull. */
  predicate Fails(rules: Rules, c: Core, f: Pulled) {
    var v := Judge(rules, c, f);
    v.Take? && !Fits(c, v.effect)
  }

  /** A first revision's file, made out to its signer and to its path. */
  predicate MadeOut(f: Pulled) {
    && f.doc.Doc? && f.doc.file.PostFile? && f.doc.file.revision == 1 && f.doc.head.PostHead?
    && f.doc.head.site == f.signer && f.doc.head.author.site == f.signer && Own(f.doc.file.id, f.signer)
    && f.doc.head.id == f.doc.file.id && f.doc.head.thread == f.doc.file.thread && f.doc.head.revision == 1
  }

  /** It is for a thread the index has, and its post is in another thread, one that was purged. */
  predicate Stray(c: Core, f: Pulled) {
    && MadeOut(f) && SharedBoard(c, f, f.doc.file.board) && GetThread(c, f.doc.file.thread).Some?
    && f.doc.file.id in c.posts && ThreadPurged(c, c.posts[f.doc.file.id].thread)
  }

  /** Replaying an absorbed file fails exactly when the file is stray: its post cannot be read, and cannot be added. */
  lemma FailsIffStray(rules: Rules, c: Core, f: Pulled)
    requires CoreInv(c) && Absorbed(c, f)
    ensures Fails(rules, c, f) <==> Stray(c, f)
  {
    hide Result;
    if !f.doc.Foreign? {
      match f.doc.file
      case BoardFile(board) => BoardInert(rules, c, f, board);
      case ThreadFile(board, thread) => ThreadInert(rules, c, f, board, thread);
      case PostFile(_, _, id, _) => if id in c.posts { PostReads(c, id); }
      case EventFile(board, thread, id) => EventInert(rules, c, f, board, thread, id);
      case BlobFile(_, _) =>
    }
    hide CoreInv, JudgeNewEvent, JudgeEvent, JudgeThread, JudgeBoard;
  }

  lemma PostReads(c: Core, id: string)
    requires CoreInv(c) && id in c.posts
    ensures GetPost(c, id).None? <==> ThreadPurged(c, c.posts[id].thread)
  {
  }

  /** How it comes about: the file names a post of another thread, is passed over, and that thread is purged. */
  lemma StrayReplayFails(rules: Rules, c: Core, f: Pulled, purge: Effect)
    requires CoreInv(c) && MadeOut(f) && SharedBoard(c, f, f.doc.file.board) && GetThread(c, f.doc.file.thread).Some?
    requires f.doc.file.id in c.posts && purge.PurgeThread? && Fits(c, purge)
    requires purge.id == c.posts[f.doc.file.id].thread != f.doc.file.thread && GetThread(c, purge.id).Some?
    ensures Accepted(rules, c, f) && Causal(c, f) && Pull(rules, c, f) == c
    ensures Fails(rules, Result(c, purge), f)
  {
    PostReads(c, f.doc.file.id);
    PurgeLeaves(c, purge, f.doc.file.id, f.doc.file.thread);
    FirstFileJudged(rules, c, f);
    FirstFileJudged(rules, Result(c, purge), f);
    hide CoreInv, Result, Judge, MadeOut, Fails;
  }

  /** A first revision's file for a post the index has is passed over if the post can be read, and fails if not. */
  lemma FirstFileJudged(rules: Rules, c: Core, f: Pulled)
    requires MadeOut(f) && SharedBoard(c, f, f.doc.file.board) && GetThread(c, f.doc.file.thread).Some?
    requires f.doc.file.id in c.posts
    ensures if GetPost(c, f.doc.file.id).Some? then Judge(rules, c, f) == Nothing else Fails(rules, c, f)
  {
    hide GetPost;
  }

  /** A purged thread keeps its posts' rows, and leaves other threads and the boards as they are. */
  lemma PurgeLeaves(c: Core, purge: Effect, id: string, other: string)
    requires purge.PurgeThread? && Fits(c, purge) && id in c.posts && c.posts[id].thread == purge.id != other
    requires GetThread(c, purge.id).Some? && GetThread(c, other).Some?
    ensures var after := Result(c, purge);
      && after.boards == c.boards && id in after.posts && after.posts[id].thread == purge.id
      && ThreadPurged(after, purge.id) && GetThread(after, other).Some?
  {
  }

  function PullAll(rules: Rules, c: Core, files: seq<Pulled>): Core
    decreases |files|
  {
    if files == [] then c else PullAll(rules, Pull(rules, c, files[0]), files[1..])
  }

  /** The file was accepted, in causal order, at some step of the run before j. */
  ghost predicate AcceptedBy(rules: Rules, run: seq<Core>, events: seq<Event>, j: nat, f: Pulled) {
    exists i :: 0 <= i < j && i < |events| && i < |run| && events[i] == From(f) && Accepted(rules, run[i], f)
      && Causal(run[i], f)
  }

  lemma AcceptedStaysAbsorbed(rules: Rules, site: string, run: seq<Core>, events: seq<Event>, j: nat, f: Pulled)
    requires IsRun(rules, site, run, events) && j < |run| && AcceptedBy(rules, run, events, j, f)
    ensures Absorbed(run[j], f)
  {
    var i :| 0 <= i < j && i < |events| && events[i] == From(f) && Accepted(rules, run[i], f) && Causal(run[i], f);
    RunGrows(rules, site, run, events, i, i);
    RunGrows(rules, site, run, events, i + 1, j);
    hide CoreInv, Grows, Accepted, Causal, Absorbed, Pull;
    AcceptedIsAbsorbed(rules, run[i], f);
    assert run[i + 1] == After(rules, run[i], site, events[i]);
    AbsorbedStays(run[i + 1], run[j], f);
  }

  /**
   A reindex is absorbed: at any point of any run, re-applying any files
   accepted so far, all of them or some, in any order, commits no write and
   changes no row; so nothing purged or withdrawn comes back, and nobody is told
   again. A file's replay fails exactly when the file is stray.
   */
  lemma {:induction false} ReindexChangesNothing(rules: Rules, site: string, run: seq<Core>, events: seq<Event>, j: nat,
                                                 files: seq<Pulled>)
    requires IsRun(rules, site, run, events) && j < |run|
    requires forall i :: 0 <= i < |files| ==> AcceptedBy(rules, run, events, j, files[i])
    ensures PullAll(rules, run[j], files) == run[j]
    ensures forall i :: 0 <= i < |files| ==> !Commits(rules, run[j], files[i])
    ensures forall i :: 0 <= i < |files| ==> (Fails(rules, run[j], files[i]) <==> Stray(run[j], files[i]))
    decreases |files|
  {
    if files != [] {
      AcceptedStaysAbsorbed(rules, site, run, events, j, files[0]);
      AbsorbedIsInert(rules, run[j], files[0]);
      RunGrows(rules, site, run, events, j, j);
      FailsIffStray(rules, run[j], files[0]);
      hide IsRun, AcceptedBy, Pull, Absorbed, Commits, Fails, Stray, CoreInv, Grows;
      assert forall i :: 0 <= i < |files[1..]| ==> files[1..][i] == files[i + 1];
      assert forall i :: 0 < i < |files| ==> files[i] == files[1..][i - 1];
      ReindexChangesNothing(rules, site, run, events, j, files[1..]);
    }
  }
}
