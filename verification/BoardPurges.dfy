/**
 What a purge removes: the text, every revision of it, the author and the notes,
 for good (internal/board/service.go purge; internal/board/boardsqlite/store.go
 ScrubPost and ScrubThread).
 */
module BoardPurges {
  import opened BoardStore
  import opened BoardWrites
  import opened BoardHistory

  // ---- rows with nothing left in them ----

  predicate IsEmptied(p: PostRow) {
    p.state.Purged? && p.author == Author("", "", "", "", "", "", "", "") && p.note == ""
  }

  predicate IsEmptiedRevision(r: RevisionRow) { r.body == "" && r.mentions == [] }

  predicate IsEmptiedThread(t: ThreadRow) {
    && t.purged && t.title == "" && t.createdBy == Author("", "", "", "", "", "", "", "")
    && t.links == [] && t.aliases == [] && t.redirect == ""
  }

  /** The event keeps its kind, time and places; who did it only if it is itself a purge. */
  predicate IsEmptiedEvent(e: EventRow, e': EventRow) {
    && e' == EventRow(e.thread, e.post, e.kind, "", e'.actor, NoData, e.createdAt)
    && e'.actor == if e.kind == "purge" then e.actor else Author("", "", "", "", "", "", "", "")
  }

  // ---- one purge ----

  /** A post keeps its place, its times and its revision's number, and nothing else. */
  predicate EmptiedFrom(p: PostRow, p': PostRow) {
    IsEmptied(p') && p' == p.(state := p'.state, author := p'.author, note := p'.note)
  }

  predicate RevisionEmptiedFrom(r: RevisionRow, r': RevisionRow) {
    IsEmptiedRevision(r') && r' == r.(body := "", mentions := [])
  }

  /** The posts of gone are emptied with every revision of theirs, and the other posts stay as they were. */
  ghost predicate PostsEmptied(c: Core, d: Core, gone: set<string>) {
    && d.posts.Keys == c.posts.Keys && d.revisions.Keys == c.revisions.Keys
    && (forall p :: p in c.posts ==>
          if p in gone then EmptiedFrom(c.posts[p], d.posts[p]) else d.posts[p] == c.posts[p])
    && (forall k :: k in c.revisions ==>
          if k.0 in gone then RevisionEmptiedFrom(c.revisions[k], d.revisions[k]) else d.revisions[k] == c.revisions[k])
  }

  /** The events of gone are emptied, the others stay, and the purge's own event is there. */
  ghost predicate EventsEmptied(c: Core, d: Core, gone: set<string>, eventId: string, event: EventRow) {
    && d.events.Keys == c.events.Keys + {eventId} && d.events[eventId] == event
    && forall x :: x in c.events && x != eventId ==>
      if x in gone then IsEmptiedEvent(c.events[x], d.events[x]) else d.events[x] == c.events[x]
  }

  /** The post's own events, but for purges. */
  function EventsOf(c: Core, post: string): set<string> {
    set x | x in c.events && c.events[x].post == post && c.events[x].kind != "purge"
  }

  function PostsOf(c: Core, thread: string): set<string> { set p | p in c.posts && c.posts[p].thread == thread }

  /** The thread's events, and those of its posts but for purges. */
  function EventsOfThread(c: Core, thread: string): set<string> {
    set x | x in c.events && (c.events[x].thread == thread
                              || (c.events[x].post in PostsOf(c, thread) && c.events[x].kind != "purge"))
  }

  /** d is c with one post purged. */
  ghost predicate PostPurgedFrom(c: Core, d: Core, post: string, eventId: string, event: EventRow) {
    && PostsEmptied(c, d, {post}) && EventsEmptied(c, d, EventsOf(c, post), eventId, event)
    && d.threads == c.threads && d.boards == c.boards && d.acks == c.acks
  }

  /** With its opening post the whole thread goes. */
  ghost predicate ThreadPurgedFrom(c: Core, d: Core, thread: string, eventId: string, event: EventRow) {
    && PostsEmptied(c, d, PostsOf(c, thread)) && EventsEmptied(c, d, EventsOfThread(c, thread), eventId, event)
    && ThreadEmptied(c, d, thread) && d.boards == c.boards && d.acks == c.acks
  }

  ghost predicate ThreadEmptied(c: Core, d: Core, thread: string) {
    && d.threads.Keys == c.threads.Keys
    && forall t :: t in c.threads ==>
      if t != thread then d.threads[t] == c.threads[t]
      else IsEmptiedThread(d.threads[t]) && SamePlace(c.threads[t], d.threads[t])
  }

  predicate SamePlace(t: ThreadRow, t': ThreadRow) {
    && t'.board == t.board && t'.state == t.state && t'.opening == t.opening
    && t'.createdAt == t.createdAt && t'.lastActivity == t.lastActivity
  }

  lemma PostIsPurged(c: Core, e: Effect)
    requires e.PurgePost? && Fits(c, e)
    ensures PostPurgedFrom(c, Result(c, e), e.postId, e.eventId, e.event)
  {
    OnePostEmptied(c, e);
    OnePostEvents(c, e);
    hide PostsEmptied, EventsEmptied;
  }

  lemma OnePostEmptied(c: Core, e: Effect)
    requires e.PurgePost?
    ensures PostsEmptied(c, Result(c, e), {e.postId})
  {
  }

  lemma OnePostEvents(c: Core, e: Effect)
    requires e.PurgePost? && e.eventId !in c.events
    ensures EventsEmptied(c, Result(c, e), EventsOf(c, e.postId), e.eventId, e.event)
  {
  }

  lemma ThreadIsPurged(c: Core, e: Effect)
    requires e.PurgeThread? && Fits(c, e)
    ensures ThreadPurgedFrom(c, Result(c, e), e.id, e.eventId, e.event)
  {
    AllPostsEmptied(c, e);
    AllPostsEvents(c, e);
    assert ThreadEmptied(c, Result(c, e), e.id);
    hide PostsEmptied, EventsEmptied, ThreadEmptied;
  }

  lemma AllPostsEmptied(c: Core, e: Effect)
    requires e.PurgeThread?
    ensures PostsEmptied(c, Result(c, e), PostsOf(c, e.id))
  {
  }

  lemma AllPostsEvents(c: Core, e: Effect)
    requires e.PurgeThread? && e.eventId !in c.events
    ensures EventsEmptied(c, Result(c, e), EventsOfThread(c, e.id), e.eventId, e.event)
  {
    assert forall p :: p in PostsOf(c, e.id) <==> InThread(c, p, e.id);
  }

  // ---- nothing purged keeps or regains its text ----

  ghost predicate LeftInPosts(c: Core) {
    && (forall p :: p in c.posts && c.posts[p].state.Purged? ==> IsEmptied(c.posts[p]))
    && (forall k :: k in c.revisions && k.0 in c.posts && c.posts[k.0].state.Purged? ==>
          IsEmptiedRevision(c.revisions[k]))
  }

  ghost predicate NothingLeft(c: Core) {
    && LeftInPosts(c)
    && (forall t :: t in c.threads && c.threads[t].purged ==> IsEmptiedThread(c.threads[t]))
    && (forall p :: p in c.posts && c.posts[p].thread in c.threads && c.threads[c.posts[p].thread].purged ==>
          c.posts[p].state.Purged?)
  }

  /** The write puts nothing into a purged thread or post. */
  predicate Spares(c: Core, e: Effect) {
    match e
    case MakeThread(_, t) => !t.purged
    case OpenWith(id, t, _, post, _) => !t.purged && post.thread == id && post.state.Visible?
    case AddTo(_, post, _, _) => post.state.Visible? && post.thread in c.threads && !c.threads[post.thread].purged
    case Revise(id, _, _, _) => id in c.posts && c.posts[id].state.Visible?
    case Withdraw(id, to, _, _, _) => id in c.posts && c.posts[id].state.Visible? && !to.Purged?
    case Curate(id, _, _, _, _, _, _, _) => id in c.threads && !c.threads[id].purged
    case _ => true
  }

  lemma PlanSpares(rules: Rules, c: Core, op: Local, site: string, who: Author, now: Time)
    ensures Plan(rules, c, op, site, who, now).Some? ==> Spares(c, Plan(rules, c, op, site, who, now).value)
  {
  }

  lemma VerdictSpares(rules: Rules, c: Core, f: Pulled)
    ensures Judge(rules, c, f).Take? ==> Spares(c, Judge(rules, c, f).effect)
  {
  }

  lemma NewKeepsNothing(c: Core, e: Effect)
    requires CoreInv(c) && NothingLeft(c) && Fits(c, e) && Spares(c, e)
    requires e.MakeBoard? || e.MakeThread? || e.OpenWith? || e.AddTo?
    ensures NothingLeft(Result(c, e))
  {
    hide Numbered, Sited, Attached, IsEmptied, IsEmptiedRevision;
  }

  lemma ReviseKeepsNothing(c: Core, e: Effect)
    requires CoreInv(c) && NothingLeft(c) && Fits(c, e) && Spares(c, e) && e.Revise?
    ensures NothingLeft(Result(c, e))
  {
    hide Numbered, Sited, Attached, IsEmptied, IsEmptiedRevision;
  }

  lemma ChangeKeepsNothing(c: Core, e: Effect)
    requires CoreInv(c) && NothingLeft(c) && Fits(c, e) && Spares(c, e)
    requires e.Withdraw? || e.Curate? || e.Acknowledge? || e.AckHere?
    ensures NothingLeft(Result(c, e))
  {
    hide Numbered, Sited, Attached, IsEmptied, IsEmptiedRevision;
  }

  lemma PurgeKeepsNothing(c: Core, e: Effect)
    requires CoreInv(c) && NothingLeft(c) && Fits(c, e) && (e.PurgePost? || e.PurgeThread?)
    ensures NothingLeft(Result(c, e))
  {
    hide NothingLeft, Result, PostPurgedFrom, ThreadPurgedFrom;
    if e.PurgePost? {
      PostIsPurged(c, e);
      PostPurgeLeaves(c, Result(c, e), e.postId, e.eventId, e.event);
    } else {
      ThreadIsPurged(c, e);
      ThreadPurgeLeaves(c, Result(c, e), e.id, e.eventId, e.event);
    }
  }

  lemma PostPurgeLeaves(c: Core, d: Core, post: string, eventId: string, event: EventRow)
    requires NothingLeft(c) && PostPurgedFrom(c, d, post, eventId, event)
    ensures NothingLeft(d)
  {
    EmptiedLeaves(c, d, {post});
    hide PostsEmptied, EventsEmptied, LeftInPosts;
  }

  lemma ThreadPurgeLeaves(c: Core, d: Core, thread: string, eventId: string, event: EventRow)
    requires NothingLeft(c) && ThreadPurgedFrom(c, d, thread, eventId, event)
    ensures NothingLeft(d)
  {
    EmptiedLeaves(c, d, PostsOf(c, thread));
    KeptPlace(c, d, PostsOf(c, thread));
    hide PostsEmptied, EventsEmptied, LeftInPosts, IsEmptiedThread, SamePlace;
  }

  lemma EmptiedLeaves(c: Core, d: Core, gone: set<string>)
    requires LeftInPosts(c) && PostsEmptied(c, d, gone)
    ensures LeftInPosts(d) && d.posts.Keys == c.posts.Keys
    ensures forall p :: p in d.posts ==>
      d.posts[p].thread == c.posts[p].thread && (c.posts[p].state.Purged? ==> d.posts[p].state.Purged?)
  {
    hide IsEmptiedRevision;
  }

  lemma KeptPlace(c: Core, d: Core, gone: set<string>)
    requires PostsEmptied(c, d, gone)
    ensures forall p :: p in gone && p in c.posts ==> d.posts[p].state.Purged?
  {
  }

  lemma EffectKeepsNothing(c: Core, e: Effect)
    requires CoreInv(c) && NothingLeft(c) && Fits(c, e) && Spares(c, e)
    ensures NothingLeft(Result(c, e))
  {
    hide *;
    match e
    case PurgePost(_, _, _) => PurgeKeepsNothing(c, e);
    case PurgeThread(_, _, _) => PurgeKeepsNothing(c, e);
    case MakeBoard(_, _) => NewKeepsNothing(c, e);
    case MakeThread(_, _) => NewKeepsNothing(c, e);
    case OpenWith(_, _, _, _, _) => NewKeepsNothing(c, e);
    case AddTo(_, _, _, _) => NewKeepsNothing(c, e);
    case Revise(_, _, _, _) => ReviseKeepsNothing(c, e);
    case _ => ChangeKeepsNothing(c, e);
  }

  lemma StepKeepsNothing(rules: Rules, c: Core, site: string, e: Event)
    requires CoreInv(c) && NothingLeft(c)
    ensures NothingLeft(After(rules, c, site, e))
  {
    match e
    case Here(op, who, now) =>
      PlanSpares(rules, c, op, site, who, now);
      var plan := Plan(rules, c, op, site, who, now);
      hide Plan, Spares, Result, Fits, CoreInv, NothingLeft;
      if plan.Some? && Fits(c, plan.value) { EffectKeepsNothing(c, plan.value); }
    case From(f) =>
      VerdictSpares(rules, c, f);
      var v := Judge(rules, c, f);
      hide Judge, Spares, Result, Fits, CoreInv, NothingLeft;
      if v.Take? && Fits(c, v.effect) { EffectKeepsNothing(c, v.effect); }
  }

  lemma {:induction false} RunKeepsNothing(rules: Rules, site: string, run: seq<Core>, events: seq<Event>, j: nat)
    requires IsRun(rules, site, run, events) && NothingLeft(run[0]) && j < |run|
    ensures NothingLeft(run[j])
  {
    hide NothingLeft, CoreInv, Grows, After;
    if j > 0 {
      RunKeepsNothing(rules, site, run, events, j - 1);
      RunGrows(rules, site, run, events, j - 1, j - 1);
      StepKeepsNothing(rules, run[j - 1], site, events[j - 1]);
    }
  }

  /**
   In every run, from the moment a post is purged, at whatever site, no revision
   of it holds text or mentions, and its author and note are gone; from the moment
   a thread is, nor do any of its posts, and its title, links and aliases are gone.
   */
  lemma PurgedIsGone(rules: Rules, site: string, run: seq<Core>, events: seq<Event>, i: nat, j: nat, p: string)
    requires IsRun(rules, site, run, events) && NothingLeft(run[0]) && i <= j < |run| && p in run[i].posts
    requires var t := run[i].posts[p].thread;
      run[i].posts[p].state.Purged? || (t in run[i].threads && run[i].threads[t].purged)
    ensures p in run[j].posts && IsEmptied(run[j].posts[p])
    ensures forall n: nat :: (p, n) in run[j].revisions ==> IsEmptiedRevision(run[j].revisions[(p, n)])
    ensures var t := run[i].posts[p].thread;
      t in run[i].threads && run[i].threads[t].purged ==> t in run[j].threads && IsEmptiedThread(run[j].threads[t])
  {
    RunKeepsNothing(rules, site, run, events, i);
    RunKeepsNothing(rules, site, run, events, j);
    RunGrows(rules, site, run, events, i, j);
    assert PostGrows(run[i].posts[p], run[j].posts[p]);
    hide CoreInv, IsRun, IsEmptied, IsEmptiedRevision, IsEmptiedThread;
  }

  lemma EmptyIndexHasNothingLeft()
    ensures NothingLeft(NoRows())
  {
  }
}
