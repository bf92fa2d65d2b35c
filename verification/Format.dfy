/**
 The shared-board repo layout: building a file's path and reading it back, and
 printing a file's frontmatter and body and parsing them back
 (internal/board/format.go).
 */
module Format {
  import opened Wrappers
  import opened Ids

  // ---- path elements ----

  /** path.Join on elements that need no cleaning. */
  function Join(parts: seq<string>): string
    requires parts != []
  {
    if |parts| == 1 then parts[0] else parts[0] + "/" + Join(parts[1..])
  }

  function Split(p: string): (parts: seq<string>)
    ensures |parts| >= 1
  {
    if p == [] then [[]]
    else
      var rest := Split(p[1..]);
      if p[0] == '/' then [[]] + rest else [[p[0]] + rest[0]] + rest[1..]
  }

  predicate NoSlashes(parts: seq<string>) {
    parts != [] && forall i :: 0 <= i < |parts| ==> '/' !in parts[i]
  }

  lemma {:induction false} SplitPart(part: string, p: string)
    requires '/' !in part
    ensures Split(part + "/" + p) == [part] + Split(p)
    ensures Split(part) == [part]
  {
    var s := part + "/" + p;
    if part == [] {
      assert s[1..] == p;
    } else {
      SplitPart(part[1..], p);
      assert s[1..] == part[1..] + "/" + p;
      assert [part[0]] + part[1..] == part;
    }
  }

  lemma {:induction false} SplitJoin(parts: seq<string>)
    requires NoSlashes(parts)
    ensures Split(Join(parts)) == parts
  {
    if |parts| == 1 {
      SplitPart(parts[0], "");
    } else {
      SplitJoin(parts[1..]);
      SplitPart(parts[0], Join(parts[1..]));
    }
  }

  lemma JoinEmpty(rest: seq<string>)
    requires rest != []
    ensures Join([[]] + rest) == "/" + Join(rest)
  {
    assert ([[]] + rest)[1..] == rest;
  }

  lemma JoinFirst(c: char, rest: seq<string>)
    requires rest != []
    ensures Join([[c] + rest[0]] + rest[1..]) == [c] + Join(rest)
  {
    var parts := [[c] + rest[0]] + rest[1..];
    assert parts[1..] == rest[1..];
  }

  lemma {:induction false} JoinSplit(p: string)
    ensures Join(Split(p)) == p
  {
    if p != [] {
      var rest := Split(p[1..]);
      JoinSplit(p[1..]);
      if p[0] == '/' { JoinEmpty(rest); } else { JoinFirst(p[0], rest); }
      hide Join;
      assert [p[0]] + p[1..] == p;
    }
  }

  // ---- names ----

  /** ^[a-z0-9][a-z0-9.-]{0,63}$ */
  predicate IsBoardPart(s: string) {
    && 1 <= |s| <= 64
    && LowerOrDigit(s[0])
    && forall i :: 0 < i < |s| ==> LowerOrDigit(s[i]) || s[i] == '-' || s[i] == '.'
  }

  predicate IsHex(s: string) {
    forall i :: 0 <= i < |s| ==> 'a' <= s[i] <= 'f' || '0' <= s[i] <= '9'
  }

  /** ^[0-9a-f]{64}$ */
  predicate IsRef(s: string) { |s| == 64 && IsHex(s) }

  lemma IdPartIsPlain(s: string)
    requires IsIdPart(s)
    ensures '/' !in s && '.' !in s
  {
    forall i | 0 <= i < |s|
      ensures s[i] != '/' && s[i] != '.'
    {
      if i < |s| - 27 { assert s[i] == s[..|s| - 27][i]; }
    }
  }

  // ---- revision numbers ----

  const MAX_INT: nat := 0x7FFF_FFFF_FFFF_FFFF

  predicate IsDigits(s: string) {
    forall i :: 0 <= i < |s| ==> '0' <= s[i] <= '9'
  }

  function Decimal(n: nat): (s: string)
    ensures s != [] && IsDigits(s)
  {
    if n < 10 then [('0' as int + n) as char]
    else Decimal(n / 10) + [('0' as int + n % 10) as char]
  }

  function DecimalValue(s: string): nat
    requires IsDigits(s)
  {
    if s == [] then 0
    else DecimalValue(s[..|s| - 1]) * 10 + (s[|s| - 1] as int - '0' as int)
  }

  /** strconv.Atoi on digits, its error ignored: an overflow gives the largest int. */
  function Atoi(s: string): nat
    requires IsDigits(s)
  {
    var n := DecimalValue(s);
    if n > MAX_INT then MAX_INT else n
  }

  lemma {:induction false} DecimalReadsBack(n: nat)
    ensures DecimalValue(Decimal(n)) == n
  {
    var s := Decimal(n);
    if n >= 10 {
      DecimalReadsBack(n / 10);
      assert s[..|s| - 1] == Decimal(n / 10);
    } else {
      assert s[..|s| - 1] == [];
    }
  }

  // ---- paths ----

  function BoardFilePath(board: string): string { Join(["boards", board, "board.md"]) }

  function ThreadFilePath(board: string, thread: string): string {
    Join(["boards", board, "threads", thread, "thread.md"])
  }

  function PostFileName(post: string, revision: nat): string {
    if revision > 1 then post + ".r" + Decimal(revision) + ".md" else post + ".md"
  }

  function PostFilePath(board: string, thread: string, post: string, revision: nat): string {
    Join(["boards", board, "threads", thread, "posts", PostFileName(post, revision)])
  }

  function EventFilePath(board: string, thread: string, event: string): string {
    Join(["boards", board, "threads", thread, "events", event + ".yml"])
  }

  function BlobFilePath(ref: string, ext: string): string
    requires |ref| >= 2
  {
    Join(["blobs", "sha256", ref[..2], ref + ext])
  }

  datatype RepoFile =
    | BoardFile(board: string)
    | ThreadFile(board: string, thread: string)
    | PostFile(board: string, thread: string, id: string, revision: nat)
    | EventFile(board: string, thread: string, id: string)
    | BlobFile(ref: string, ext: string)

  function Stem(name: string, suffix: string): Option<string> {
    if |name| >= |suffix| && name[|name| - |suffix|..] == suffix then Some(name[..|name| - |suffix|]) else None
  }

  /** Where the first dot is, or the length. */
  function Dot(s: string): (i: nat)
    ensures i <= |s| && '.' !in s[..i] && (i < |s| ==> s[i] == '.')
  {
    if s == [] || s[0] == '.' then 0 else 1 + Dot(s[1..])
  }

  /** A post file's name: an ID, then perhaps .r and digits, then .md. */
  function ReadPostName(name: string): Option<(string, nat)> {
    var stem := Stem(name, ".md");
    if stem.None? then None
    else
      var s := stem.value;
      var i := Dot(s);
      if !IsIdPart(s[..i]) then None
      else if i == |s| then Some((s, 1))
      else if |s| > i + 2 && s[i + 1] == 'r' && IsDigits(s[i + 2..]) then Some((s[..i], Atoi(s[i + 2..])))
      else None
  }

  function ClassifyPath(p: string): Option<RepoFile> {
    var e := Split(p);
    var n := |e|;
    if n == 3 && e[0] == "boards" && IsBoardPart(e[1]) && e[2] == "board.md" then
      Some(BoardFile(e[1]))
    else if InThread(e) && n == 5 && e[4] == "thread.md" then
      Some(ThreadFile(e[1], e[3]))
    else if InThread(e) && n == 6 && e[4] == "posts" && ReadPostName(e[5]).Some? then
      var post := ReadPostName(e[5]).value;
      Some(PostFile(e[1], e[3], post.0, post.1))
    else if InThread(e) && n == 6 && e[4] == "events" && IsEventName(e[5]) then
      Some(EventFile(e[1], e[3], e[5][..|e[5]| - 4]))
    else if n == 4 && e[0] == "blobs" && e[1] == "sha256" && IsBlobName(e[3]) && e[3][..2] == e[2] then
      Some(BlobFile(e[3][..64], e[3][64..]))
    else None
  }

  predicate InThread(e: seq<string>) {
    |e| >= 5 && e[0] == "boards" && IsBoardPart(e[1]) && e[2] == "threads" && IsIdPart(e[3])
  }

  predicate IsEventName(name: string) {
    var stem := Stem(name, ".yml");
    stem.Some? && IsIdPart(stem.value)
  }

  predicate IsBlobName(name: string) {
    |name| >= 64 && IsRef(name[..64]) && (name[64..] == ".webp" || name[64..] == ".mp4")
  }

  /** The name of a post's file: bare for its first revision, or with any digits that Atoi reads as the revision. */
  ghost predicate SpellsPost(name: string, post: string, revision: nat) {
    && IsIdPart(post)
    && ((revision == 1 && name == post + ".md") || exists digits :: SpellsRevision(name, post, digits, revision))
  }

  predicate SpellsRevision(name: string, post: string, digits: string, revision: nat) {
    digits != "" && IsDigits(digits) && Atoi(digits) == revision && name == post + ".r" + digits + ".md"
  }

  lemma BareNameIsRead(post: string)
    requires IsIdPart(post)
    ensures ReadPostName(post + ".md") == Some((post, 1))
  {
    IdPartIsPlain(post);
    var name := post + ".md";
    assert name[|name| - 3..] == ".md" && name[..|name| - 3] == post;
    DotAfter(post, "");
    assert post + "" == post && post[..|post|] == post;
  }

  lemma NumberedNameIsRead(post: string, digits: string)
    requires IsIdPart(post) && digits != "" && IsDigits(digits)
    ensures ReadPostName(post + ".r" + digits + ".md") == Some((post, Atoi(digits)))
  {
    IdPartIsPlain(post);
    var name, s := post + ".r" + digits + ".md", post + ".r" + digits;
    assert name[|name| - 3..] == ".md" && name[..|name| - 3] == s;
    DotAfter(post, ".r" + digits);
    assert s == post + (".r" + digits);
    assert s[|post| + 2..] == digits && s[..|post|] == post;
  }

  lemma PostNameReadsBack(post: string, revision: nat)
    requires IsIdPart(post) && 1 <= revision <= MAX_INT
    ensures ReadPostName(PostFileName(post, revision)) == Some((post, revision))
  {
    DecimalReadsBack(revision);
    if revision > 1 { NumberedNameIsRead(post, Decimal(revision)); } else { BareNameIsRead(post); }
  }

  /** A name is read as a revision exactly when it spells it. */
  lemma ReadNameSpells(name: string, post: string, revision: nat)
    ensures ReadPostName(name) == Some((post, revision)) <==> SpellsPost(name, post, revision)
  {
    if ReadPostName(name) == Some((post, revision)) {
      var s := name[..|name| - 3];
      assert name == s + ".md";
      if Dot(s) < |s| {
        var digits := s[Dot(s) + 2..];
        assert s == post + ".r" + digits;
        assert SpellsRevision(name, post, digits, revision);
      } else {
        assert s[..|s|] == s;
      }
    }
    if SpellsPost(name, post, revision) {
      if revision == 1 && name == post + ".md" {
        BareNameIsRead(post);
      } else {
        var digits :| SpellsRevision(name, post, digits, revision);
        NumberedNameIsRead(post, digits);
      }
    }
  }

  lemma {:induction false} DotAfter(a: string, b: string)
    requires '.' !in a && (b == [] || b[0] == '.')
    ensures Dot(a + b) == |a|
  {
    if a != [] {
      assert (a + b)[1..] == a[1..] + b;
      DotAfter(a[1..], b);
    } else {
      assert a + b == b;
    }
  }

  // ---- every built path is read back, and nothing else is read as it ----

  lemma BoardPathReadsBack(p: string, board: string)
    ensures ClassifyPath(p) == Some(BoardFile(board)) <==> IsBoardPart(board) && p == BoardFilePath(board)
  {
    JoinSplit(p);
    if IsBoardPart(board) { SplitJoin(["boards", board, "board.md"]); }
    if ClassifyPath(p) == Some(BoardFile(board)) { assert Split(p) == ["boards", board, "board.md"]; }
  }

  lemma ThreadPathReadsBack(p: string, board: string, thread: string)
    ensures ClassifyPath(p) == Some(ThreadFile(board, thread)) <==>
      IsBoardPart(board) && IsIdPart(thread) && p == ThreadFilePath(board, thread)
  {
    JoinSplit(p);
    var e := ["boards", board, "threads", thread, "thread.md"];
    if IsBoardPart(board) && IsIdPart(thread) { IdPartIsPlain(thread); SplitJoin(e); }
    if ClassifyPath(p) == Some(ThreadFile(board, thread)) { assert Split(p) == e; }
  }

  lemma EventPathIsRead(board: string, thread: string, event: string)
    requires IsBoardPart(board) && IsIdPart(thread) && IsIdPart(event)
    ensures ClassifyPath(EventFilePath(board, thread, event)) == Some(EventFile(board, thread, event))
  {
    IdPartIsPlain(thread);
    IdPartIsPlain(event);
    EventNameReadsBack(event);
    SplitJoin(["boards", board, "threads", thread, "events", event + ".yml"]);
  }

  lemma EventPathsOnly(p: string, board: string, thread: string, event: string)
    requires ClassifyPath(p) == Some(EventFile(board, thread, event))
    ensures IsBoardPart(board) && IsIdPart(thread) && IsIdPart(event) && p == EventFilePath(board, thread, event)
  {
    JoinSplit(p);
    var name := Split(p)[5];
    assert name == name[..|name| - 4] + name[|name| - 4..];
    assert Split(p) == ["boards", board, "threads", thread, "events", event + ".yml"];
  }

  lemma EventPathReadsBack(p: string, board: string, thread: string, event: string)
    ensures ClassifyPath(p) == Some(EventFile(board, thread, event)) <==>
      IsBoardPart(board) && IsIdPart(thread) && IsIdPart(event) && p == EventFilePath(board, thread, event)
  {
    hide *;
    if IsBoardPart(board) && IsIdPart(thread) && IsIdPart(event) { EventPathIsRead(board, thread, event); }
    if ClassifyPath(p) == Some(EventFile(board, thread, event)) { EventPathsOnly(p, board, thread, event); }
  }

  lemma EventNameReadsBack(event: string)
    ensures Stem(event + ".yml", ".yml") == Some(event)
    ensures (event + ".yml")[..|event + ".yml"| - 4] == event
  {
    assert (event + ".yml")[..|event|] == event && (event + ".yml")[|event|..] == ".yml";
  }

  lemma BlobPathIsRead(ref: string, ext: string)
    requires IsRef(ref) && (ext == ".webp" || ext == ".mp4")
    ensures ClassifyPath(BlobFilePath(ref, ext)) == Some(BlobFile(ref, ext))
  {
    var e := ["blobs", "sha256", ref[..2], ref + ext];
    assert e[3][..64] == ref && e[3][64..] == ext && e[3][..2] == ref[..2];
    SplitJoin(e);
    hide Join, Split, InThread;
  }

  lemma BlobPathsOnly(p: string, ref: string, ext: string)
    requires ClassifyPath(p) == Some(BlobFile(ref, ext))
    ensures IsRef(ref) && (ext == ".webp" || ext == ".mp4") && p == BlobFilePath(ref, ext)
  {
    JoinSplit(p);
    var name := Split(p)[3];
    assert name == ref + ext && name[..2] == ref[..2];
    assert Split(p) == ["blobs", "sha256", ref[..2], ref + ext];
  }

  lemma BlobPathReadsBack(p: string, ref: string, ext: string)
    ensures ClassifyPath(p) == Some(BlobFile(ref, ext)) <==>
      IsRef(ref) && (ext == ".webp" || ext == ".mp4") && p == BlobFilePath(ref, ext)
  {
    hide ClassifyPath, Join, IsHex;
    if IsRef(ref) && (ext == ".webp" || ext == ".mp4") { BlobPathIsRead(ref, ext); }
    if ClassifyPath(p) == Some(BlobFile(ref, ext)) { BlobPathsOnly(p, ref, ext); }
  }

  lemma PostPathReadsBack(board: string, thread: string, post: string, revision: nat)
    requires IsBoardPart(board) && IsIdPart(thread) && IsIdPart(post) && 1 <= revision <= MAX_INT
    ensures ClassifyPath(PostFilePath(board, thread, post, revision)) == Some(PostFile(board, thread, post, revision))
  {
    IdPartIsPlain(thread);
    IdPartIsPlain(post);
    PostNameReadsBack(post, revision);
    SplitJoin(["boards", board, "threads", thread, "posts", PostFileName(post, revision)]);
  }

  /**
   A path is read as a post's revision exactly when it is of that board and
   thread and its name spells the revision.
   */
  lemma PostPathsOnly(p: string, board: string, thread: string, post: string, revision: nat)
    ensures ClassifyPath(p) == Some(PostFile(board, thread, post, revision)) <==>
      IsBoardPart(board) && IsIdPart(thread) && exists name :: IsPostPath(p, board, thread, name, post, revision)
  {
    hide SpellsPost;
    if ClassifyPath(p) == Some(PostFile(board, thread, post, revision)) {
      JoinSplit(p);
      var name := Split(p)[5];
      ReadNameSpells(name, post, revision);
      hide ReadPostName, Join, Split, IsIdPart, IsBoardPart;
      assert Split(p) == ["boards", board, "threads", thread, "posts", name];
      assert IsPostPath(p, board, thread, name, post, revision);
    }
    if IsBoardPart(board) && IsIdPart(thread) && exists name :: IsPostPath(p, board, thread, name, post, revision) {
      var name :| IsPostPath(p, board, thread, name, post, revision);
      PostPathIsRead(p, board, thread, name, post, revision);
    }
  }

  ghost predicate IsPostPath(p: string, board: string, thread: string, name: string, post: string, revision: nat) {
    SpellsPost(name, post, revision) && p == Join(["boards", board, "threads", thread, "posts", name])
  }

  lemma PostPathIsRead(p: string, board: string, thread: string, name: string, post: string, revision: nat)
    requires IsBoardPart(board) && IsIdPart(thread) && IsPostPath(p, board, thread, name, post, revision)
    ensures ClassifyPath(p) == Some(PostFile(board, thread, post, revision))
  {
    IdPartIsPlain(thread);
    SpelledNameIsPlain(name, post, revision);
    ReadNameSpells(name, post, revision);
    SplitJoin(["boards", board, "threads", thread, "posts", name]);
    hide SpellsPost, ReadPostName, Join, Split, IsIdPart, IsBoardPart;
  }

  lemma SpelledNameIsPlain(name: string, post: string, revision: nat)
    requires SpellsPost(name, post, revision)
    ensures '/' !in name
  {
    IdPartIsPlain(post);
    if !(revision == 1 && name == post + ".md") {
      var digits :| SpellsRevision(name, post, digits, revision);
    }
  }

  // ---- frontmatter ----

  const OPEN := "---\n"
  const CLOSE := "\n---\n"

  /** CLOSE starts at i. */
  predicate CloseAt(s: string, i: nat) {
    i + 5 <= |s| && s[i] == s[i + 4] == '\n' && s[i + 1] == s[i + 2] == s[i + 3] == '-'
  }

  /**
   encoding/json for one kind of file: what Marshal prints is read back, holds
   no line of three dashes and ends in a brace.
   */
  ghost predicate Lawful<H(!new)>(encode: H -> string, decode: string -> Option<H>) {
    forall h: H ::
      && decode(encode(h)) == Some(h)
      && encode(h) != [] && encode(h)[|encode(h)| - 1] == '}'
      && forall i :: 0 <= i ==> !CloseAt(encode(h), i)
  }

  function Frontmatter<H>(encode: H -> string, head: H, body: string): string {
    OPEN + encode(head) + CLOSE + body + Ending(body)
  }

  /** strings.TrimSuffix on one newline. */
  function TrimNewline(s: string): string {
    if s != "" && s[|s| - 1] == '\n' then s[..|s| - 1] else s
  }

  /** strings.Cut at CLOSE: where it first is, or the length. */
  function Find(s: string): (i: nat)
    ensures i <= |s|
  {
    if s == [] || CloseAt(s, 0) then 0 else 1 + Find(s[1..])
  }

  datatype Parsed<H> = Parsed(head: H, body: string) | NoFrontmatter | Unterminated | BadHead

  function ParseFrontmatter<H>(decode: string -> Option<H>, text: string): Parsed<H> {
    if !(OPEN <= text) then NoFrontmatter
    else
      var rest := text[|OPEN|..];
      var i := Find(rest);
      if !CloseAt(rest, i) then Unterminated
      else
        match decode(rest[..i])
        case None => BadHead
        case Some(head) => Parsed(head, TrimNewline(rest[i + |CLOSE|..]))
  }

  lemma {:induction false} FindFirst(front: string, tail: string)
    requires front != [] && front[|front| - 1] == '}'
    requires forall i :: 0 <= i ==> !CloseAt(front, i)
    ensures Find(front + CLOSE + tail) == |front|
  {
    var s := front + CLOSE + tail;
    assert s[|front| - 1] == '}';
    assert !CloseAt(front, 0);
    if |front| > 1 {
      forall i: nat
        ensures !CloseAt(front[1..], i)
      {
        assert !CloseAt(front, i + 1);
      }
      assert s[1..] == front[1..] + CLOSE + tail;
      FindFirst(front[1..], tail);
    } else {
      assert s[1..] == CLOSE + tail;
      assert CloseAt(s[1..], 0);
    }
  }

  lemma Cut(front: string, tail: string)
    requires front != [] && front[|front| - 1] == '}'
    requires forall i :: 0 <= i ==> !CloseAt(front, i)
    ensures var rest := front + CLOSE + tail;
      && Find(rest) == |front| && CloseAt(rest, |front|)
      && rest[..|front|] == front && rest[|front| + |CLOSE|..] == tail
  {
    FindFirst(front, tail);
  }

  lemma ParseParts<H>(decode: string -> Option<H>, front: string, tail: string)
    requires front != [] && front[|front| - 1] == '}' && decode(front).Some?
    requires forall i :: 0 <= i ==> !CloseAt(front, i)
    ensures ParseFrontmatter(decode, OPEN + (front + CLOSE + tail)) == Parsed(decode(front).value, TrimNewline(tail))
  {
    Cut(front, tail);
    hide Find, CloseAt, TrimNewline;
    assert (OPEN + (front + CLOSE + tail))[|OPEN|..] == front + CLOSE + tail;
  }

  function Ending(body: string): string {
    if body != "" && body[|body| - 1] != '\n' then "\n" else ""
  }

  lemma TrimEnding(body: string)
    ensures TrimNewline(body + Ending(body)) == TrimNewline(body)
  {
    assert body + "" == body;
  }

  lemma RegroupFive(a: string, b: string, c: string, d: string, e: string)
    ensures a + b + c + d + e == a + (b + c + (d + e))
  {
  }

  /** Parsing a printed file gives back the head, and the body less one trailing newline. */
  lemma ParsePrinted<H(!new)>(encode: H -> string, decode: string -> Option<H>, head: H, body: string)
    requires Lawful(encode, decode)
    ensures ParseFrontmatter(decode, Frontmatter(encode, head, body)) == Parsed(head, TrimNewline(body))
  {
    var front := encode(head);
    assert decode(front) == Some(head) && forall i :: 0 <= i ==> !CloseAt(front, i);
    ParseParts(decode, front, body + Ending(body));
    TrimEnding(body);
    RegroupFive(OPEN, front, CLOSE, body, Ending(body));
    hide ParseFrontmatter, TrimNewline, Ending, CloseAt;
  }
}
