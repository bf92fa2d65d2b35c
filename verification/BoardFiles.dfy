/**
 The files a shared board's writes become, and reading one back
 (internal/board/format.go EncodeBoard, EncodeThread, EncodePost, EncodeEvent;
 the decoding in internal/board/shared.go). JSON is any codec that reads back
 what it prints; the paths and the frontmatter are the Format module's.
 */
module BoardFiles {
  import opened Wrappers
  import opened BoardStore
  import Format
  import Ids

  datatype Head =
    | BoardHead(name: string, site: string, createdBy: Author, createdAt: Time)
    | ThreadHead(id: string, board: string, title: string, opening: string, site: string, createdBy: Author,
                 createdAt: Time)
    | PostHead(id: string, thread: string, board: string, parent: string, site: string, author: Author, kind: string,
               urgent: bool, revision: nat, mentions: seq<Mention>, model: string, createdAt: Time)
    | EventHead(id: string, board: string, thread: string, post: string, kind: string, note: string, actor: Author,
                data: Data, site: string, createdAt: Time)

  datatype Codec = Codec(encode: Head -> string, decode: string -> Option<Head>)

  /** encoding/json: reads back what it printed, also with the newline an event file ends in. */
  ghost predicate Lawful(json: Codec) {
    && Format.Lawful(json.encode, json.decode)
    && forall h: Head :: json.decode(json.encode(h) + "\n") == Some(h)
  }

  /** A repo file as it is pushed and pulled. */
  datatype File = File(path: string, data: string)

  function BoardFile(json: Codec, name: string, b: BoardRow): File {
    File(Format.BoardFilePath(name),
         Format.Frontmatter(json.encode, BoardHead(name, b.site, b.createdBy, b.createdAt), b.description))
  }

  function ThreadFile(json: Codec, id: string, t: ThreadRow): File {
    File(Format.ThreadFilePath(t.board, id),
         Format.Frontmatter(json.encode, ThreadHeadOf(id, t), ""))
  }

  function ThreadHeadOf(id: string, t: ThreadRow): Head {
    ThreadHead(id, t.board, t.title, t.opening, t.createdBy.site, t.createdBy, t.createdAt)
  }

  function PostFile(json: Codec, board: string, id: string, p: PostRow, n: nat, r: RevisionRow): File {
    File(Format.PostFilePath(board, p.thread, id, n),
         Format.Frontmatter(json.encode, PostHeadOf(board, id, p, n, r), r.body))
  }

  function PostHeadOf(board: string, id: string, p: PostRow, n: nat, r: RevisionRow): Head {
    PostHead(id, p.thread, board, p.parent, p.site, p.author, p.kind, p.urgent, n, r.mentions, r.model, r.createdAt)
  }

  function EventFile(json: Codec, board: string, id: string, e: EventRow, site: string): File {
    File(Format.EventFilePath(board, e.thread, id), json.encode(EventHeadOf(board, id, e, site)) + "\n")
  }

  function EventHeadOf(board: string, id: string, e: EventRow, site: string): Head {
    EventHead(id, board, e.thread, e.post, e.kind, e.note, e.actor, e.data, site, e.createdAt)
  }

  /** A pulled file, classified by its path and decoded. */
  datatype Doc =
    | Doc(file: Format.RepoFile, head: Head, body: string)
    | Unreadable(file: Format.RepoFile)
    | Foreign

  function ReadDoc(json: Codec, f: File): Doc {
    match Format.ClassifyPath(f.path)
    case None => Foreign
    case Some(file) =>
      if file.EventFile? then
        match json.decode(f.data)
        case None => Unreadable(file)
        case Some(head) => Doc(file, head, "")
      else
        match Format.ParseFrontmatter(json.decode, f.data)
        case Parsed(head, body) => Doc(file, head, body)
        case _ => Unreadable(file)
  }

  lemma BoardReadsBack(json: Codec, name: string, b: BoardRow)
    requires Lawful(json) && Format.IsBoardPart(name)
    ensures ReadDoc(json, BoardFile(json, name, b)) ==
      Doc(Format.BoardFile(name), BoardHead(name, b.site, b.createdBy, b.createdAt), Format.TrimNewline(b.description))
  {
    Format.BoardPathReadsBack(Format.BoardFilePath(name), name);
    Format.ParsePrinted(json.encode, json.decode, BoardHead(name, b.site, b.createdBy, b.createdAt), b.description);
  }

  lemma ThreadReadsBack(json: Codec, id: string, t: ThreadRow)
    requires Lawful(json) && Format.IsBoardPart(t.board) && Ids.IsIdPart(id)
    ensures ReadDoc(json, ThreadFile(json, id, t)) == Doc(Format.ThreadFile(t.board, id), ThreadHeadOf(id, t), "")
  {
    Format.ThreadPathReadsBack(Format.ThreadFilePath(t.board, id), t.board, id);
    Format.ParsePrinted(json.encode, json.decode, ThreadHeadOf(id, t), "");
  }

  lemma PostReadsBack(json: Codec, board: string, id: string, p: PostRow, n: nat, r: RevisionRow)
    requires Lawful(json) && Format.IsBoardPart(board) && Ids.IsIdPart(p.thread) && Ids.IsIdPart(id)
    requires 1 <= n <= Format.MAX_INT
    ensures ReadDoc(json, PostFile(json, board, id, p, n, r)) ==
      Doc(Format.PostFile(board, p.thread, id, n), PostHeadOf(board, id, p, n, r), Format.TrimNewline(r.body))
  {
    Format.PostPathReadsBack(board, p.thread, id, n);
    Format.ParsePrinted(json.encode, json.decode, PostHeadOf(board, id, p, n, r), r.body);
  }

  lemma EventReadsBack(json: Codec, board: string, id: string, e: EventRow, site: string)
    requires Lawful(json) && Format.IsBoardPart(board) && Ids.IsIdPart(e.thread) && Ids.IsIdPart(id)
    ensures ReadDoc(json, EventFile(json, board, id, e, site)) ==
      Doc(Format.EventFile(board, e.thread, id), EventHeadOf(board, id, e, site), "")
  {
    Format.EventPathReadsBack(Format.EventFilePath(board, e.thread, id), board, e.thread, id);
    assert json.decode(json.encode(EventHeadOf(board, id, e, site)) + "\n") == Some(EventHeadOf(board, id, e, site));
  }
}
