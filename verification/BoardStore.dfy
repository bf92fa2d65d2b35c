/**
 The board index: its tables, the changes a write is made of, and the
 transaction that applies them (internal/board/board.go,
 internal/board/boardsqlite/store.go and its migrations). Tables are maps keyed
 by primary key; a change fails on a taken key or a missing parent row, and a
 failed change rolls the whole write back.
 */
module BoardStore {
  import opened Wrappers

  type Time = int

  datatype Author = Author(kind: string, address: string, session: string, adapter: string, model: string,
                           display: string, workingFor: string, site: string)

  datatype Participant = Participant(kind: string, address: string, site: string)

  function Who(a: Author): Participant { Participant(a.kind, a.address, a.site) }

  datatype Mention = Mention(text: string, who: Participant)

  datatype Link = Link(ref: string, note: string, who: Author, at: Time)

  datatype PostState = Visible | Retracted | Hidden | Purged

  datatype ThreadState = Open | Settled | Closed

  datatype BoardRow = BoardRow(site: string, description: string, createdBy: Author, createdAt: Time, network: string)

  datatype ThreadRow = ThreadRow(board: string, title: string, state: ThreadState, opening: string, createdBy: Author,
                                 createdAt: Time, lastActivity: Time, links: seq<Link>, aliases: seq<string>,
                                 redirect: string, purged: bool)

  datatype PostRow = PostRow(thread: string, parent: string, author: Author, site: string, state: PostState,
                             revision: nat, note: string, urgent: bool, kind: string, createdAt: Time, editedAt: Time)

  datatype RevisionRow = RevisionRow(body: string, mentions: seq<Mention>, model: string, createdAt: Time)

  /** What an event carries besides its note: nothing, a thread change's fields, or who acknowledged. */
  datatype Data = NoData | ThreadData(into: string, title: string, redirect: string) | AckData(who: Participant)

  datatype EventRow = EventRow(thread: string, post: string, kind: string, note: string, actor: Author, data: Data,
                               createdAt: Time)

  datatype AckRow = AckRow(who: Author, at: Time)

  /** The tables that are the board itself. */
  datatype Core = Core(
    boards: map<string, BoardRow>, threads: map<string, ThreadRow>, posts: map<string, PostRow>,
    revisions: map<(string, nat), RevisionRow>, events: map<string, EventRow>, acks: map<(string, Participant), AckRow>)

  function NoRows(): Core { Core(map[], map[], map[], map[], map[], map[]) }

  // ---- reads ----

  function GetThread(c: Core, id: string): Option<ThreadRow> {
    if id in c.threads && !c.threads[id].purged then Some(c.threads[id]) else None
  }

  /** A post with its current revision; the posts of a purged thread are gone. */
  datatype Post = Post(row: PostRow, current: RevisionRow)

  function GetPost(c: Core, id: string): Option<Post> {
    if id in c.posts && GetThread(c, c.posts[id].thread).Some? && (id, c.posts[id].revision) in c.revisions
    then Some(Post(c.posts[id], c.revisions[(id, c.posts[id].revision)]))
    else None
  }

  // ---- changes ----

  datatype Change =
    | AddBoard(name: string, board: BoardRow)
    | AddThread(id: string, thread: ThreadRow)
    | AddPost(id: string, post: PostRow)
    | AddRevision(id: string, n: nat, revision: RevisionRow)
    | AddEvent(id: string, event: EventRow)
    | UpdateThread(id: string, state: ThreadState, title: string, links: seq<Link>, aliases: seq<string>,
                   redirect: string)
    | Touch(id: string, at: Time)
    | SetPost(id: string, postState: PostState, rev: nat, note: string, editedAt: Time)
    | AddAck(id: string, who: Participant, ack: AckRow)
    | ScrubPost(id: string)
    | ScrubThread(id: string)

  const NOBODY := Author("", "", "", "", "", "", "", "")

  function ScrubbedPost(p: PostRow): PostRow { p.(state := Purged, author := NOBODY, note := "") }

  function ScrubbedRevision(r: RevisionRow): RevisionRow { r.(body := "", mentions := []) }

  function ScrubbedEvent(e: EventRow): EventRow {
    e.(note := "", data := NoData, actor := if e.kind == "purge" then e.actor else NOBODY)
  }

  function ScrubOnePost(c: Core, id: string): Core {
    c.(posts := map p | p in c.posts :: if p == id then ScrubbedPost(c.posts[p]) else c.posts[p],
       revisions := map k | k in c.revisions :: if k.0 == id then ScrubbedRevision(c.revisions[k]) else c.revisions[k],
       events := map e | e in c.events ::
         if c.events[e].post == id && c.events[e].kind != "purge" then ScrubbedEvent(c.events[e]) else c.events[e])
  }

  predicate InThread(c: Core, post: string, thread: string) { post in c.posts && c.posts[post].thread == thread }

  function ScrubWholeThread(c: Core, id: string): Core {
    c.(posts := map p | p in c.posts :: if c.posts[p].thread == id then ScrubbedPost(c.posts[p]) else c.posts[p],
       revisions := map k | k in c.revisions ::
         if InThread(c, k.0, id) then ScrubbedRevision(c.revisions[k]) else c.revisions[k],
       events := map e | e in c.events ::
         if c.events[e].thread == id || (InThread(c, c.events[e].post, id) && c.events[e].kind != "purge")
         then ScrubbedEvent(c.events[e]) else c.events[e],
       threads := map t | t in c.threads ::
         if t == id then c.threads[t].(purged := true, title := "", createdBy := NOBODY, links := [], aliases := [],
                                       redirect := "")
         else c.threads[t])
  }

  /** One change on the core tables: None when a key is taken or a parent row is missing. */
  function ApplyOne(c: Core, change: Change): Option<Core> {
    match change
    case AddBoard(name, board) =>
      if name in c.boards then None else Some(c.(boards := c.boards[name := board]))
    case AddThread(id, thread) =>
      if id in c.threads || thread.board !in c.boards then None else Some(c.(threads := c.threads[id := thread]))
    case AddPost(id, post) =>
      if id in c.posts || post.thread !in c.threads then None else Some(c.(posts := c.posts[id := post]))
    case AddRevision(id, n, revision) =>
      if (id, n) in c.revisions || id !in c.posts then None else Some(c.(revisions := c.revisions[(id, n) := revision]))
    case AddEvent(id, event) =>
      if id in c.events || event.thread !in c.threads then None else Some(c.(events := c.events[id := event]))
    case UpdateThread(id, state, title, links, aliases, redirect) =>
      if id !in c.threads then Some(c)
      else
        var row := c.threads[id].(state := state, title := title, links := links, aliases := aliases,
                                  redirect := redirect);
        Some(c.(threads := c.threads[id := row]))
    case Touch(id, at) =>
      if id !in c.threads then Some(c) else Some(c.(threads := c.threads[id := c.threads[id].(lastActivity := at)]))
    case SetPost(id, state, rev, note, editedAt) =>
      if id !in c.posts then Some(c)
      else
        var row := c.posts[id].(state := state, revision := rev, note := note, editedAt := editedAt);
        Some(c.(posts := c.posts[id := row]))
    case AddAck(id, who, ack) =>
      if id !in c.posts then None
      else if (id, who) in c.acks then Some(c)
      else Some(c.(acks := c.acks[(id, who) := ack]))
    case ScrubPost(id) => Some(ScrubOnePost(c, id))
    case ScrubThread(id) => Some(ScrubWholeThread(c, id))
  }

  function ApplyAll(c: Core, changes: seq<Change>): Option<Core>
    decreases |changes|
  {
    if changes == [] then Some(c)
    else
      var next := ApplyOne(c, changes[0]);
      if next.None? then None else ApplyAll(next.value, changes[1..])
  }

  lemma ApplyTwo(c: Core, a: Change, b: Change)
    ensures ApplyAll(c, [a, b]) == if ApplyOne(c, a).None? then None else ApplyOne(ApplyOne(c, a).value, b)
  {
    assert [a, b][1..] == [b];
    if ApplyOne(c, a).Some? { ApplySingle(ApplyOne(c, a).value, b); }
  }

  lemma ApplySingle(c: Core, a: Change)
    ensures ApplyAll(c, [a]) == ApplyOne(c, a)
  {
    assert [a][1..] == [];
  }

  lemma ApplyThree(c: Core, x: Change, y: Change, z: Change)
    ensures ApplyAll(c, [x, y, z]) == if ApplyOne(c, x).None? then None else ApplyAll(ApplyOne(c, x).value, [y, z])
  {
    assert [x, y, z][1..] == [y, z];
  }

  lemma {:induction false} ApplyAppend(c: Core, a: seq<Change>, b: seq<Change>)
    ensures ApplyAll(c, a + b) == if ApplyAll(c, a).None? then None else ApplyAll(ApplyAll(c, a).value, b)
    decreases |a|
  {
    if a == [] {
      assert a + b == b;
    } else {
      assert (a + b)[1..] == a[1..] + b;
      if ApplyOne(c, a[0]).Some? { ApplyAppend(ApplyOne(c, a[0]).value, a[1..], b); }
    }
  }

  /** The store object: a write is one transaction, all of it or none. */
  class Store {
    var rows: Core

    method Apply(changes: seq<Change>) returns (ok: bool)
      modifies this
      ensures ok == ApplyAll(old(rows), changes).Some?
      ensures rows == if ok then ApplyAll(old(rows), changes).value else old(rows)
    {
      var begun, i := rows, 0;
      while i < |changes|
        invariant i <= |changes| && begun == old(rows)
        invariant ApplyAll(rows, changes[i..]) == ApplyAll(begun, changes)
      {
        var next := ApplyOne(rows, changes[i]);
        assert changes[i..][1..] == changes[i + 1..];
        if next.None? {
          rows := begun;
          return false;
        }
        rows := next.value;
        i := i + 1;
      }
      assert changes[i..] == [];
      return true;
    }
  }
}
