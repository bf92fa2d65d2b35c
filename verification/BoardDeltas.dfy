/**
 What the writes that may cross add to the index: opens, replies, edits,
 retractions and acknowledgements, with the times threads were last active left
 out. Such writes of two sites touch different keys, so their order does not
 matter.
 */
module BoardDeltas {
  import opened BoardStore
  import opened BoardWrites
  import opened BoardSync

  datatype Delta = Delta(
    threads: map<string, ThreadRow>, posts: map<string, PostRow>, revisions: map<(string, nat), RevisionRow>,
    events: map<string, EventRow>, acks: map<(string, Participant), AckRow>)

  const NOTHING := Delta(map[], map[], map[], map[], map[])

  function Put(y: Core, delta: Delta): Core {
    Core(y.boards, y.threads + delta.threads, y.posts + delta.posts, y.revisions + delta.revisions,
         y.events + delta.events, y.acks + delta.acks)
  }

  ghost predicate Apart(a: Delta, b: Delta) {
    && (forall k :: k in a.threads ==> k !in b.threads) && (forall k :: k in a.posts ==> k !in b.posts)
    && (forall k :: k in a.revisions ==> k !in b.revisions) && (forall k :: k in a.events ==> k !in b.events)
    && (forall k :: k in a.acks ==> k !in b.acks)
  }

  lemma UnionsCommute<K, V>(m: map<K, V>, a: map<K, V>, b: map<K, V>)
    requires forall k :: k in a ==> k !in b
    ensures m + a + b == m + b + a
  {
  }

  lemma PutsCommute(y: Core, a: Delta, b: Delta)
    requires Apart(a, b)
    ensures Put(Put(y, a), b) == Put(Put(y, b), a)
  {
    UnionsCommute(y.threads, a.threads, b.threads);
    UnionsCommute(y.posts, a.posts, b.posts);
    UnionsCommute(y.revisions, a.revisions, b.revisions);
    UnionsCommute(y.events, a.events, b.events);
    UnionsCommute(y.acks, a.acks, b.acks);
  }

  // ---- the index without activity times ----

  function AtRest(t: ThreadRow): ThreadRow { t.(lastActivity := 0) }

  function Still(c: Core): Core { c.(threads := map t | t in c.threads :: AtRest(c.threads[t])) }

  lemma StillIsStill(c: Core)
    ensures Still(Still(c)) == Still(c)
  {
  }

  lemma StillOn(c: Core, board: string)
    ensures forall t :: ThreadOn(Still(c), board, t) <==> ThreadOn(c, board, t)
    ensures forall p :: PostOn(Still(c), board, p) <==> PostOn(c, board, p)
    ensures forall e :: EventOn(Still(c), board, e) <==> EventOn(c, board, e)
  {
  }

  lemma StillSameThread(c: Core, d: Core, t: string)
    requires t in c.threads && t in d.threads
    ensures SameThread(Still(c).threads[t], Still(d).threads[t]) <==> SameThread(c.threads[t], d.threads[t])
  {
  }

  lemma StillThreadsAgree(c: Core, d: Core, board: string)
    ensures AgreeThreads(Still(c), Still(d), board) <==> AgreeThreads(c, d, board)
  {
    StillOn(c, board);
    StillOn(d, board);
    forall t | ThreadOn(c, board, t) && ThreadOn(d, board, t)
      ensures SameThread(Still(c).threads[t], Still(d).threads[t]) <==> SameThread(c.threads[t], d.threads[t])
    {
      StillSameThread(c, d, t);
    }
    hide SameThread, Still;
  }

  /** Agreement does not look at activity times. */
  lemma StillAgree(c: Core, d: Core, board: string, network: string)
    ensures Agree(Still(c), Still(d), board, network) <==> Agree(c, d, board, network)
  {
    StillOn(c, board);
    StillOn(d, board);
    StillThreadsAgree(c, d, board);
    hide ThreadOn, PostOn, EventOn, SameRevision, AgreeThreads;
  }

  // ---- what each write adds ----

  predicate Crosses(e: Effect) { e.MakeThread? || e.AddTo? || e.Revise? || e.Withdraw? || e.Acknowledge? }

  /** The rows e puts, where it fits. */
  function DeltaOf(y: Core, e: Effect): Delta {
    match e
    case MakeThread(id, thread) => NOTHING.(threads := map[id := AtRest(thread)])
    case AddTo(id, post, revision, _) => NOTHING.(posts := map[id := post], revisions := map[(id, 1) := revision])
    case Revise(id, revision, _, _) =>
      if id !in y.posts then NOTHING
      else
        var p, n := y.posts[id], y.posts[id].revision + 1;
        var edited := p.(state := Visible, revision := n, note := "", editedAt := revision.createdAt);
        NOTHING.(posts := map[id := edited], revisions := map[(id, n) := revision])
    case Withdraw(id, state, note, eventId, event) =>
      if id !in y.posts then NOTHING
      else NOTHING.(posts := map[id := y.posts[id].(state := state, note := note)], events := map[eventId := event])
    case Acknowledge(id, who, ack, eventId, event) =>
      NOTHING.(acks := if (id, who) in y.acks then map[] else map[(id, who) := ack], events := map[eventId := event])
    case _ => NOTHING
  }

  function With(y: Core, e: Effect): Core { Put(y, DeltaOf(y, e)) }

  /** Activity times aside, a write adds just that. */
  lemma StillResult(c: Core, e: Effect)
    requires Crosses(e) && Fits(c, e)
    ensures Still(Result(c, e)) == With(Still(c), e)
  {
    ThreadsAdded(c, e);
    RestAdded(c, e);
    hide Result, Fits, DeltaOf;
    assert PutsTables(c, Result(c, e), DeltaOf(c, e));
  }

  lemma ThreadsAdded(c: Core, e: Effect)
    requires Crosses(e) && Fits(c, e)
    ensures Still(Result(c, e)).threads == Still(c).threads + DeltaOf(c, e).threads
  {
    hide Still;
    match e
    case MakeThread(id, thread) => StillThread(c, id, thread);
    case AddTo(id, post, _, at) =>
      StillThreads(Touched(c, post.thread, at), Result(c, e));
      StillTouched(c, post.thread, at);
    case Revise(_, _, at, thread) =>
      StillThreads(Touched(c, thread, at), Result(c, e));
      StillTouched(c, thread, at);
    case Withdraw(_, _, _, _, _) => StillThreads(c, Result(c, e));
    case Acknowledge(_, _, _, _, _) => StillThreads(c, Result(c, e));
    case _ =>
  }

  ghost predicate PutsTables(c: Core, r: Core, delta: Delta) {
    && r.boards == c.boards && r.posts == c.posts + delta.posts && r.revisions == c.revisions + delta.revisions
    && r.events == c.events + delta.events && r.acks == c.acks + delta.acks
  }

  lemma RestAdded(c: Core, e: Effect)
    requires Crosses(e) && Fits(c, e)
    ensures PutsTables(c, Result(c, e), DeltaOf(c, e)) && DeltaOf(Still(c), e) == DeltaOf(c, e)
  {
    NoMore(c);
    hide PutsTables, Still;
    match e
    case MakeThread(_, _) => MakePuts(c, e);
    case AddTo(_, _, _, _) => AddToPuts(c, e);
    case Revise(_, _, _, _) => RevisePuts(c, e);
    case Withdraw(_, _, _, _, _) => WithdrawPuts(c, e);
    case Acknowledge(_, _, _, _, _) => AckPuts(c, e);
    case _ =>
  }

  lemma MakePuts(c: Core, e: Effect)
    requires e.MakeThread?
    ensures PutsTables(c, Result(c, e), DeltaOf(c, e)) && DeltaOf(Still(c), e) == DeltaOf(c, e)
  {
    NoMore(c);
  }

  lemma AddToPuts(c: Core, e: Effect)
    requires e.AddTo?
    ensures PutsTables(c, Result(c, e), DeltaOf(c, e)) && DeltaOf(Still(c), e) == DeltaOf(c, e)
  {
    NoMore(c);
    OneMore(c.posts, e.postId, e.post);
    OneMore(c.revisions, (e.postId, 1), e.revision);
  }

  lemma RevisePuts(c: Core, e: Effect)
    requires e.Revise? && e.postId in c.posts
    ensures PutsTables(c, Result(c, e), DeltaOf(c, e)) && DeltaOf(Still(c), e) == DeltaOf(c, e)
  {
    NoMore(c);
    var p, n := c.posts[e.postId], c.posts[e.postId].revision + 1;
    OneMore(c.posts, e.postId, p.(state := Visible, revision := n, note := "", editedAt := e.revision.createdAt));
    OneMore(c.revisions, (e.postId, n), e.revision);
  }

  lemma WithdrawPuts(c: Core, e: Effect)
    requires e.Withdraw? && e.postId in c.posts
    ensures PutsTables(c, Result(c, e), DeltaOf(c, e)) && DeltaOf(Still(c), e) == DeltaOf(c, e)
  {
    NoMore(c);
    OneMore(c.posts, e.postId, c.posts[e.postId].(state := e.to, note := e.note));
    OneMore(c.events, e.eventId, e.event);
  }

  lemma AckPuts(c: Core, e: Effect)
    requires e.Acknowledge?
    ensures PutsTables(c, Result(c, e), DeltaOf(c, e)) && DeltaOf(Still(c), e) == DeltaOf(c, e)
  {
    NoMore(c);
    OneMore(c.acks, (e.postId, e.who), e.ack);
    OneMore(c.events, e.eventId, e.event);
  }

  lemma OneMore<K, V>(m: map<K, V>, k: K, v: V)
    ensures m + map[k := v] == m[k := v]
  {
  }

  lemma NoMore(c: Core)
    ensures c.posts + map[] == c.posts && c.revisions + map[] == c.revisions && c.events + map[] == c.events
    ensures c.acks + map[] == c.acks
  {
  }

  lemma StillThreads(c: Core, d: Core)
    requires d.threads == c.threads
    ensures Still(d).threads == Still(c).threads
  {
  }

  lemma StillTouched(c: Core, thread: string, at: Time)
    ensures Still(Touched(c, thread, at)) == Still(c)
  {
  }

  lemma StillThread(c: Core, id: string, thread: ThreadRow)
    ensures Still(c.(threads := c.threads[id := thread])).threads == Still(c).threads + map[id := AtRest(thread)]
  {
  }
}
