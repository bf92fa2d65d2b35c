/**
 Writes that cross: two sites open threads, reply, edit, retract and acknowledge on
 a shared board at the same time, each pulling the other's files when it comes to
 them (internal/board/shared.go share and ApplyRemote). The files of each site are
 pulled in the order they were written; everything else may come in any order.
 */
module BoardCrossing {
  import opened Wrappers
  import opened BoardStore
  import opened BoardFiles
  import opened BoardWrites
  import opened BoardHistory
  import opened BoardSync
  import opened BoardSites
  import opened BoardDeltas
  import Format
  import Ids

  // ---- one write under way ----

  /** A write as the reader takes it, but for the thread's activity time. */
  function Read(e: Effect): Effect {
    if e.AddTo? || e.Revise? then e.(revision := Trimmed(e.revision)) else e
  }

  /** The file of a write, the writer's rows being y. */
  function FileOf(s: Setting, y: Core, site: string, e: Effect): File {
    match e
    case MakeThread(id, thread) => ThreadFile(s.json, id, thread)
    case AddTo(id, post, revision, _) => PostFile(s.json, s.board, id, post, 1, revision)
    case Revise(id, revision, _, _) =>
      if id in y.posts then PostFile(s.json, s.board, id, y.posts[id], y.posts[id].revision + 1, revision)
      else File("", "")
    case Withdraw(_, _, _, id, event) => EventFile(s.json, s.board, id, event, site)
    case Acknowledge(_, _, _, id, event) => EventFile(s.json, s.board, id, event, site)
    case _ => File("", "")
  }

  /** The board has the post, in a thread that is not purged. */
  predicate Readable(s: Setting, y: Core, id: string) {
    && id in y.posts && Hosts(y, s.board, s.network, y.posts[id].thread) && Ids.IsIdPart(y.posts[id].thread)
    && (id, y.posts[id].revision) in y.revisions
  }

  /** And it is the site's own and visible. */
  predicate OwnVisible(s: Setting, y: Core, site: string, id: string) {
    && Readable(s, y, id) && Minted(site, id)
    && y.posts[id].state.Visible? && y.posts[id].site == site && y.posts[id].author.site == site
  }

  predicate NewThreadOf(s: Setting, y: Core, site: string, id: string, t: ThreadRow) {
    && Minted(site, id) && id !in y.threads && t.createdBy.site == site
    && t == ThreadRow(s.board, t.title, Open, t.opening, t.createdBy, t.createdAt, t.createdAt, [], [], "", false)
  }

  predicate NewPostOf(s: Setting, y: Core, site: string, id: string, post: PostRow, r: RevisionRow) {
    && Minted(site, id) && id !in y.posts && (id, 1) !in y.revisions && NewFrom(s.rules, site, post, r)
    && Hosts(y, s.board, s.network, post.thread) && Ids.IsIdPart(post.thread)
  }

  predicate NewRevisionOf(s: Setting, y: Core, site: string, id: string, r: RevisionRow) {
    && OwnVisible(s, y, site, id) && 1 <= y.posts[id].revision < Format.MAX_INT
    && (id, y.posts[id].revision + 1) !in y.revisions && s.rules.model(r.model) == r.model
  }

  predicate RetractionOf(s: Setting, y: Core, site: string, e: Effect)
    requires e.Withdraw?
  {
    && OwnVisible(s, y, site, e.postId) && Minted(site, e.eventId) && e.eventId !in y.events
    && e.to.Retracted? && e.event.kind == "retract" && e.event.post == e.postId && e.event.note == e.note
    && e.event.thread == y.posts[e.postId].thread
  }

  predicate AckOf(s: Setting, y: Core, site: string, e: Effect)
    requires e.Acknowledge?
  {
    && Readable(s, y, e.postId) && Minted(site, e.eventId) && e.eventId !in y.events && e.who.site == site
    && e.event.kind == "ack" && e.event.post == e.postId && e.event.data == AckData(e.who)
    && e.event.thread == y.posts[e.postId].thread && e.ack == AckRow(e.event.actor, e.event.createdAt)
  }

  /** A write of the site's that fits rows y and whose file can be taken there. */
  predicate Sendable(s: Setting, y: Core, site: string, e: Effect) {
    && s.network != "" && NetworkOf(y, s.board) == s.network
    && match e
       case MakeThread(id, t) => NewThreadOf(s, y, site, id, t)
       case AddTo(id, post, r, _) => NewPostOf(s, y, site, id, post, r)
       case Revise(id, r, _, _) => NewRevisionOf(s, y, site, id, r)
       case Withdraw(_, _, _, _, _) => RetractionOf(s, y, site, e)
       case Acknowledge(_, _, _, _, _) => AckOf(s, y, site, e)
       case _ => false
  }

  lemma SendableFits(s: Setting, y: Core, site: string, e: Effect)
    requires Sendable(s, y, site, e)
    ensures Crosses(e) && Crosses(Read(e)) && Fits(y, e) && Fits(y, Read(e)) && About(y, s.board, e)
    ensures Mirrors(e, Read(e))
    ensures Sound(y, e) && Sound(y, Read(e)) && WellNamed(e) && WellNamed(Read(e))
  {
    hide Ids.IsIdPart, Own;
    if e.AddTo? || e.Revise? { TrimmedRevision(e.revision); }
    hide SameRevision, Trimmed;
  }

  /** What can be sent does not depend on activity times. */
  lemma SendableStill(s: Setting, c: Core, site: string, e: Effect)
    ensures Sendable(s, Still(c), site, e) <==> Sendable(s, c, site, e)
    ensures FileOf(s, Still(c), site, e) == FileOf(s, c, site, e)
  {
    StillHosts(s, c);
    hide Still, Hosts, NetworkOf, Minted, NewFrom, Ids.IsIdPart, ThreadFile, PostFile, EventFile;
    match e
    case MakeThread(_, _) =>
    case AddTo(_, _, _, _) =>
    case Revise(id, _, _, _) =>
    case Withdraw(id, _, _, _, _) =>
    case Acknowledge(id, _, _, _, _) =>
    case _ =>
  }

  lemma StillHosts(s: Setting, c: Core)
    ensures forall t :: Hosts(Still(c), s.board, s.network, t) <==> Hosts(c, s.board, s.network, t)
    ensures Still(c).posts == c.posts && Still(c).revisions == c.revisions && Still(c).events == c.events
    ensures Still(c).threads.Keys == c.threads.Keys && NetworkOf(Still(c), s.board) == NetworkOf(c, s.board)
  {
  }

  /** A write's file is taken wherever it can be sent, and adds what the write does. */
  lemma Delivered(s: Setting, d: Core, site: string, e: Effect)
    requires Apt(s) && Kept(d) && Sendable(s, Still(d), site, e)
    ensures var next := Deliver(s.rules, s.json, d, s.network, site, FileOf(s, Still(d), site, e));
      next.Some? && Kept(next.value) && Still(next.value) == With(Still(d), Read(e))
  {
    SendableStill(s, d, site, e);
    var file := FileOf(s, d, site, e);
    hide *;
    var e' := Taken(s, d, site, e);
    DeliverKeeps(s, d, site, file);
    StillResult(d, e');
    SameDelta(Still(d), e, e');
  }

  /** Writes that differ only in the thread's activity time. */
  predicate ButForTime(e: Effect, e': Effect) {
    match e
    case AddTo(id, post, r, _) => e'.AddTo? && e' == AddTo(id, post, r, e'.at)
    case Revise(id, r, _, _) => e'.Revise? && e' == Revise(id, r, e'.at, e'.touched)
    case _ => e' == e
  }

  lemma SameDelta(y: Core, e: Effect, e': Effect)
    requires ButForTime(Read(e), e')
    ensures With(y, e') == With(y, Read(e))
  {
  }

  lemma Taken(s: Setting, d: Core, site: string, e: Effect) returns (e': Effect)
    requires Apt(s) && Kept(d) && Sendable(s, d, site, e)
    ensures ButForTime(Read(e), e') && Crosses(e') && Fits(d, e')
    ensures Deliver(s.rules, s.json, d, s.network, site, FileOf(s, d, site, e)) == Some(Result(d, e'))
  {
    hide Lawful, Orderly, CoreInv, NamesOk, Deliver, Result, ReadDoc, Judge, JudgeNewEvent, Ids.IsIdPart,
      Format.IsBoardPart, EventFile, PostFile, ThreadFile, NewFrom, Own;
    match e
    case MakeThread(id, t) =>
      ThreadIsTaken(s.rules, s.json, d, s.board, s.network, site, id, t);
      e' := e;
    case AddTo(id, post, r, _) =>
      PostIsTaken(s.rules, s.json, d, s.board, s.network, site, id, post, r);
      e' := AddTo(id, post, Trimmed(r), Max(d.threads[post.thread].lastActivity, r.createdAt));
    case Revise(id, r, _, _) =>
      var p := d.posts[id];
      RevisionIsTaken(s.rules, s.json, d, s.board, s.network, site, id, p, r);
      e' := Revise(id, Trimmed(r), Max(d.threads[p.thread].lastActivity, r.createdAt), p.thread);
    case Withdraw(id, _, _, eventId, event) =>
      EventIsJudged(s.rules, s.json, d, s.board, s.network, site, eventId, event);
      RetractJudged(s.rules, d, s.board, s.network, site, eventId, event);
      EventDelivered(s.rules, s.json, d, s.board, s.network, site, eventId, event, e);
      e' := e;
    case Acknowledge(id, who, _, eventId, event) =>
      EventIsJudged(s.rules, s.json, d, s.board, s.network, site, eventId, event);
      AckJudged(s.rules, d, s.board, s.network, site, eventId, event);
      EventDelivered(s.rules, s.json, d, s.board, s.network, site, eventId, event, e);
      e' := e;
    case _ =>
  }

  // ---- two writes of two sites ----

  predicate BringsThread(e: Effect, t: string) { e.MakeThread? && e.id == t }

  predicate BringsPost(e: Effect, p: string) { e.AddTo? && e.postId == p }

  predicate BringsEvent(e: Effect, x: string) { (e.Withdraw? || e.Acknowledge?) && e.eventId == x }

  /** The two writes bring different IDs. */
  predicate KeysDiffer(e: Effect, f: Effect) {
    && !(e.MakeThread? && BringsThread(f, e.id)) && !(e.AddTo? && BringsPost(f, e.postId))
    && !((e.Withdraw? || e.Acknowledge?) && BringsEvent(f, e.eventId))
  }

  /** The rows have what the write brings. */
  predicate OnHand(y: Core, e: Effect) {
    && (e.MakeThread? ==> e.id in y.threads) && (e.AddTo? ==> e.postId in y.posts)
    && (e.Withdraw? || e.Acknowledge? ==> e.eventId in y.events)
  }

  /** The rows have nothing under the IDs the write brings. */
  predicate Unused(y: Core, e: Effect) {
    && (e.MakeThread? ==> e.id !in y.threads) && (e.AddTo? ==> e.postId !in y.posts)
    && (e.Withdraw? || e.Acknowledge? ==> e.eventId !in y.events)
  }

  /** What a write of a site touches: what it brings, the site's own posts, and its acknowledgements. */
  ghost predicate Touches(y: Core, site: string, e: Effect, delta: Delta) {
    && (forall t :: t in delta.threads ==> BringsThread(e, t) && t !in y.threads)
    && (forall p :: p in delta.posts ==>
          if p in y.posts then y.posts[p].site == site && delta.posts[p].thread == y.posts[p].thread
          else BringsPost(e, p))
    && (forall p :: p in delta.posts ==>
          (p, delta.posts[p].revision) in y.revisions || (p, delta.posts[p].revision) in delta.revisions)
    && (forall k :: k in delta.revisions ==> k.0 in delta.posts && k !in y.revisions)
    && (forall x :: x in delta.events ==> BringsEvent(e, x) && x !in y.events)
    && (forall k :: k in delta.acks ==> k.1.site == site)
  }

  /** g is the write as the writer has it or as the reader takes it. */
  predicate IsForm(e: Effect, g: Effect) { g == e || g == Read(e) }

  lemma FormTouches(s: Setting, y: Core, site: string, e: Effect, g: Effect)
    requires Sendable(s, y, site, e) && IsForm(e, g)
    ensures Touches(y, site, e, DeltaOf(y, g))
  {
    match e
    case MakeThread(_, _) => NewTouches(s, y, site, e, g);
    case AddTo(_, _, _, _) => NewTouches(s, y, site, e, g);
    case _ => PostTouches(s, y, site, e, g);
  }

  lemma NewTouches(s: Setting, y: Core, site: string, e: Effect, g: Effect)
    requires Sendable(s, y, site, e) && IsForm(e, g) && (e.MakeThread? || e.AddTo?)
    ensures Touches(y, site, e, DeltaOf(y, g))
  {
    hide Minted, Resolved, Hosts, Trimmed, Ids.IsIdPart;
  }

  lemma PostTouches(s: Setting, y: Core, site: string, e: Effect, g: Effect)
    requires Sendable(s, y, site, e) && IsForm(e, g) && !e.MakeThread? && !e.AddTo?
    ensures Touches(y, site, e, DeltaOf(y, g))
  {
    hide Minted, Hosts, Trimmed, Ids.IsIdPart;
  }

  lemma FormsApart(s: Setting, y: Core, site: string, e: Effect, site': string, f: Effect, a: Delta, b: Delta)
    requires site != site' && KeysDiffer(e, f) && Touches(y, site, e, a) && Touches(y, site', f, b)
    ensures Apart(a, b)
  {
  }

  // What one site's write, touching delta, leaves to the other site.

  ghost predicate LeavesHosts(s: Setting, y: Core, z: Core) {
    && NetworkOf(z, s.board) == NetworkOf(y, s.board)
    && forall t :: Hosts(y, s.board, s.network, t) ==> Hosts(z, s.board, s.network, t)
  }

  /** The site's own posts, with their revisions. */
  ghost predicate LeavesOwn(y: Core, z: Core, site: string) {
    forall p :: p in y.posts && y.posts[p].site == site ==>
      && p in z.posts && z.posts[p] == y.posts[p]
      && forall n: nat :: (p, n) in z.revisions <==> (p, n) in y.revisions
  }

  /** What can be read. */
  ghost predicate LeavesReadable(s: Setting, y: Core, z: Core) {
    forall p :: Readable(s, y, p) ==> Readable(s, z, p) && z.posts[p].thread == y.posts[p].thread
  }

  ghost predicate LeavesAcks(y: Core, z: Core, site: string) {
    forall k: (string, Participant) :: k.1.site == site ==> (k in z.acks <==> k in y.acks)
  }

  /** The IDs the write e would bring. */
  predicate LeavesFree(y: Core, z: Core, e: Effect) {
    && (Unused(y, e) ==> Unused(z, e))
    && (e.AddTo? && (e.postId, 1) !in y.revisions ==> (e.postId, 1) !in z.revisions)
  }

  ghost predicate Leaves(s: Setting, y: Core, z: Core, site: string, e: Effect) {
    LeavesHosts(s, y, z) && LeavesOwn(y, z, site) && LeavesReadable(s, y, z) && LeavesAcks(y, z, site)
      && LeavesFree(y, z, e)
  }

  lemma PutLeaves(s: Setting, y: Core, site: string, e: Effect, site': string, f: Effect, delta: Delta)
    requires site != site' && KeysDiffer(e, f) && Touches(y, site', f, delta) && Unused(y, e)
    ensures Leaves(s, y, Put(y, delta), site, e)
  {
    HostsStay(s, y, site', f, delta);
    PutLeavesOwn(y, site, site', f, delta);
    PutLeavesReadable(s, y, site', f, delta);
    PutLeavesFree(y, e, site', f, delta);
    assert LeavesAcks(y, Put(y, delta), site);
    hide *;
    AllLeft(s, y, Put(y, delta), site, e);
  }

  lemma AllLeft(s: Setting, y: Core, z: Core, site: string, e: Effect)
    requires LeavesHosts(s, y, z) && LeavesOwn(y, z, site) && LeavesReadable(s, y, z) && LeavesAcks(y, z, site)
    requires LeavesFree(y, z, e)
    ensures Leaves(s, y, z, site, e)
  {
  }

  lemma PutLeavesOwn(y: Core, site: string, site': string, f: Effect, delta: Delta)
    requires site != site' && Touches(y, site', f, delta)
    ensures LeavesOwn(y, Put(y, delta), site)
  {
    hide BringsThread, BringsPost, BringsEvent;
  }

  lemma PutLeavesReadable(s: Setting, y: Core, site: string, f: Effect, delta: Delta)
    requires Touches(y, site, f, delta)
    ensures LeavesReadable(s, y, Put(y, delta))
  {
    HostsStay(s, y, site, f, delta);
    hide Hosts, BringsThread, BringsPost, BringsEvent, Ids.IsIdPart;
    forall p | Readable(s, y, p)
      ensures Readable(s, Put(y, delta), p) && Put(y, delta).posts[p].thread == y.posts[p].thread
    {
      OneReadable(s, y, site, f, delta, p);
    }
    hide Readable, Touches;
  }

  lemma OneReadable(s: Setting, y: Core, site: string, f: Effect, delta: Delta, p: string)
    requires Touches(y, site, f, delta) && Readable(s, y, p)
    ensures Readable(s, Put(y, delta), p) && Put(y, delta).posts[p].thread == y.posts[p].thread
  {
    HostsStay(s, y, site, f, delta);
    hide Hosts, BringsThread, BringsPost, BringsEvent, Ids.IsIdPart;
    assert p in delta.posts || p !in delta.posts;
  }

  lemma PutLeavesFree(y: Core, e: Effect, site: string, f: Effect, delta: Delta)
    requires KeysDiffer(e, f) && Touches(y, site, f, delta) && Unused(y, e)
    ensures LeavesFree(y, Put(y, delta), e)
  {
  }

  lemma SendableUnused(s: Setting, y: Core, site: string, e: Effect)
    requires Sendable(s, y, site, e)
    ensures Unused(y, e)
  {
    hide Minted, NewFrom, Ids.IsIdPart, Hosts;
  }

  /** A write of the one site can still be sent after a write of the other's, and is the same. */
  lemma StaysSendable(s: Setting, y: Core, z: Core, site: string, e: Effect)
    requires Sendable(s, y, site, e) && Leaves(s, y, z, site, e)
    ensures Sendable(s, z, site, e)
  {
    SendableUnused(s, y, site, e);
    hide NewThreadOf, NewPostOf, NewRevisionOf, RetractionOf, AckOf, Hosts;
    match e
    case MakeThread(_, _) => NewStays(s, y, z, site, e);
    case AddTo(_, _, _, _) => NewStays(s, y, z, site, e);
    case Revise(id, _, _, _) => OwnStays(s, y, z, site, e);
    case Withdraw(id, _, _, _, _) => OwnStays(s, y, z, site, e);
    case Acknowledge(id, _, _, _, _) => AckStays(s, y, z, site, e);
    case _ =>
  }

  lemma NewStays(s: Setting, y: Core, z: Core, site: string, e: Effect)
    requires Sendable(s, y, site, e) && LeavesHosts(s, y, z) && LeavesFree(y, z, e) && Unused(y, e)
    requires e.MakeThread? || e.AddTo?
    ensures Sendable(s, z, site, e)
  {
    hide Hosts, NetworkOf, Minted, NewFrom, Ids.IsIdPart;
  }

  lemma OwnStays(s: Setting, y: Core, z: Core, site: string, e: Effect)
    requires Sendable(s, y, site, e) && LeavesHosts(s, y, z) && LeavesOwn(y, z, site) && LeavesFree(y, z, e)
    requires Unused(y, e)
    requires e.Revise? || e.Withdraw?
    ensures Sendable(s, z, site, e)
  {
    assert z.posts[e.postId] == y.posts[e.postId];
    hide Hosts, NetworkOf, Minted, NewFrom, Ids.IsIdPart;
  }

  lemma AckStays(s: Setting, y: Core, z: Core, site: string, e: Effect)
    requires Sendable(s, y, site, e) && LeavesHosts(s, y, z) && LeavesReadable(s, y, z) && LeavesFree(y, z, e)
    requires Unused(y, e)
    requires e.Acknowledge?
    ensures Sendable(s, z, site, e)
  {
    hide Hosts, NetworkOf, Minted, NewFrom, Readable;
  }

  lemma StaysTheSame(s: Setting, y: Core, z: Core, site: string, e: Effect)
    requires Sendable(s, y, site, e) && Leaves(s, y, z, site, e)
    ensures FileOf(s, z, site, e) == FileOf(s, y, site, e)
    ensures DeltaOf(z, e) == DeltaOf(y, e) && DeltaOf(z, Read(e)) == DeltaOf(y, Read(e))
  {
    hide LeavesHosts, LeavesReadable, LeavesFree, Hosts, NetworkOf, Minted, NewFrom, Ids.IsIdPart, ThreadFile, PostFile,
      EventFile, Trimmed;
    match e
    case MakeThread(_, _) =>
    case AddTo(_, _, _, _) =>
    case Revise(id, _, _, _) => assert z.posts[id] == y.posts[id];
    case Withdraw(id, _, _, _, _) => assert z.posts[id] == y.posts[id];
    case Acknowledge(id, who, _, _, _) => assert (id, who) in z.acks <==> (id, who) in y.acks;
    case _ =>
  }

  lemma HostsStay(s: Setting, y: Core, site: string, f: Effect, delta: Delta)
    requires Touches(y, site, f, delta)
    ensures LeavesHosts(s, y, Put(y, delta))
  {
  }

  /** So after the other site's write, in whichever form, a write is what it was. */
  lemma AfterOther(s: Setting, y: Core, site: string, e: Effect, g: Effect, site': string, f: Effect, h: Effect)
    requires site != site' && KeysDiffer(e, f) && Sendable(s, y, site, e) && Sendable(s, y, site', f)
    requires IsForm(e, g) && IsForm(f, h)
    ensures Sendable(s, With(y, h), site, e) && FileOf(s, With(y, h), site, e) == FileOf(s, y, site, e)
    ensures DeltaOf(With(y, h), g) == DeltaOf(y, g)
  {
    hide Sendable, Touches, Put, DeltaOf, FileOf, Leaves, Unused, KeysDiffer;
    SendableUnused(s, y, site, e);
    FormTouches(s, y, site', f, h);
    PutLeaves(s, y, site, e, site', f, DeltaOf(y, h));
    StaysSendable(s, y, With(y, h), site, e);
    StaysTheSame(s, y, With(y, h), site, e);
  }

  lemma KeysDifferBack(e: Effect, f: Effect)
    requires KeysDiffer(e, f)
    ensures KeysDiffer(f, e)
  {
  }

  /** The order of two writes of two sites, in whichever form, does not matter. */
  lemma WritesCross(s: Setting, y: Core, site: string, e: Effect, g: Effect, site': string, f: Effect, h: Effect)
    requires site != site' && KeysDiffer(e, f) && Sendable(s, y, site, e) && Sendable(s, y, site', f)
    requires IsForm(e, g) && IsForm(f, h)
    ensures With(With(y, g), h) == With(With(y, h), g)
  {
    hide Sendable, Touches, Apart, Put, DeltaOf, FileOf, KeysDiffer, IsForm;
    KeysDifferBack(e, f);
    AfterOther(s, y, site, e, g, site', f, h);
    AfterOther(s, y, site', f, h, site, e, g);
    FormTouches(s, y, site, e, g);
    FormTouches(s, y, site', f, h);
    FormsApart(s, y, site, e, site', f, DeltaOf(y, g), DeltaOf(y, h));
    PutsCommute(y, DeltaOf(y, g), DeltaOf(y, h));
  }
}
