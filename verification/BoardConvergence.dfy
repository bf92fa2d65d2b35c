/**
 Two sites that write on a shared board at the same time converge: whatever was
 written and pulled so far, pulling what is still under way leaves the copies in
 agreement (internal/board/shared.go share and ApplyRemote).
 */
module BoardConvergence {
  import opened Wrappers
  import opened BoardStore
  import opened BoardFiles
  import opened BoardWrites
  import opened BoardHistory
  import opened BoardSync
  import opened BoardSites
  import opened BoardDeltas
  import opened BoardCrossing

  // ---- writes under way ----

  /** The reader's rows once it has taken the writes. */
  function Flush(y: Core, es: seq<Effect>): Core
    decreases |es|
  {
    if es == [] then y else Flush(With(y, Read(es[0])), es[1..])
  }

  /** files are those of a site's writes es, each of which can be taken when the ones before it have been. */
  predicate Way(s: Setting, y: Core, site: string, files: seq<File>, es: seq<Effect>)
    decreases |es|
  {
    && |files| == |es|
    && (es != [] ==>
          && Sendable(s, y, site, es[0]) && files[0] == FileOf(s, y, site, es[0])
          && Way(s, With(y, Read(es[0])), site, files[1..], es[1..]))
  }

  ghost predicate AllOnHand(y: Core, es: seq<Effect>) { forall i :: 0 <= i < |es| ==> OnHand(y, es[i]) }

  /** A write of the reader's own passes one under way to it. */
  lemma PassesOne(s: Setting, y: Core, site: string, e: Effect, site': string, f: Effect)
    requires site != site' && KeysDiffer(e, f) && Sendable(s, y, site, e) && Sendable(s, y, site', f)
    ensures With(With(y, e), Read(f)) == With(With(y, Read(f)), e)
    ensures Sendable(s, With(y, Read(f)), site, e) && FileOf(s, With(y, Read(f)), site, e) == FileOf(s, y, site, e)
    ensures Sendable(s, With(y, e), site', f) && FileOf(s, With(y, e), site', f) == FileOf(s, y, site', f)
  {
    hide Sendable, FileOf, KeysDiffer, With, Read;
    KeysDifferBack(e, f);
    WritesCross(s, y, site, e, e, site', f, Read(f));
    AfterOther(s, y, site, e, e, site', f, Read(f));
    AfterOther(s, y, site', f, Read(f), site, e, e);
  }

  /** And all of them. */
  lemma {:induction false} OwnWritePasses(s: Setting, y: Core, site: string, e: Effect, site': string,
                                          files: seq<File>, fs: seq<Effect>)
    requires site != site' && Sendable(s, y, site, e) && Way(s, y, site', files, fs)
    requires forall i :: 0 <= i < |fs| ==> KeysDiffer(e, fs[i])
    ensures Way(s, With(y, e), site', files, fs) && Flush(With(y, e), fs) == With(Flush(y, fs), e)
    ensures Sendable(s, Flush(y, fs), site, e) && FileOf(s, Flush(y, fs), site, e) == FileOf(s, y, site, e)
    decreases |fs|
  {
    hide Sendable, FileOf, KeysDiffer, With, Read;
    if fs != [] {
      PassesOne(s, y, site, e, site', fs[0]);
      OwnWritePasses(s, With(y, Read(fs[0])), site, e, site', files[1..], fs[1..]);
    }
  }

  lemma {:induction false} OneMoreUnderWay(s: Setting, y: Core, site: string, files: seq<File>, es: seq<Effect>,
                                           e: Effect)
    requires Way(s, y, site, files, es) && Sendable(s, Flush(y, es), site, e)
    ensures Way(s, y, site, files + [FileOf(s, Flush(y, es), site, e)], es + [e])
    ensures Flush(y, es + [e]) == With(Flush(y, es), Read(e))
    decreases |es|
  {
    hide Sendable, FileOf, With, Read;
    var file := FileOf(s, Flush(y, es), site, e);
    if es == [] {
      assert [e][1..] == [] && [file][1..] == [] && es + [e] == [e] && files + [file] == [file];
    } else {
      OneMoreUnderWay(s, With(y, Read(es[0])), site, files[1..], es[1..], e);
      assert (es + [e])[1..] == es[1..] + [e] && (files + [file])[1..] == files[1..] + [file];
    }
  }

  lemma StillKept(c: Core)
    requires Kept(c)
    ensures Kept(Still(c))
  {
  }

  /** Rows kept in order, without activity times. */
  ghost predicate KeptStill(y: Core) { Kept(y) && Still(y) == y }

  lemma TakenIsKept(s: Setting, y: Core, site: string, e: Effect)
    requires KeptStill(y) && Sendable(s, y, site, e)
    ensures With(y, Read(e)) == Still(Result(y, Read(e))) && KeptStill(With(y, Read(e)))
  {
    SendableFits(s, y, site, e);
    hide Kept, Still, Sendable, With, Read, Fits, Sound, WellNamed, Crosses, Result;
    StillResult(y, Read(e));
    EffectKeeps(y, Read(e));
    StillKept(Result(y, Read(e)));
    StillIsStill(Result(y, Read(e)));
  }

  lemma {:induction false} FlushIsKept(s: Setting, y: Core, site: string, files: seq<File>, es: seq<Effect>)
    requires KeptStill(y) && Way(s, y, site, files, es)
    ensures KeptStill(Flush(y, es))
    decreases |es|
  {
    hide KeptStill, Sendable, FileOf;
    if es != [] {
      TakenIsKept(s, y, site, es[0]);
      FlushIsKept(s, With(y, Read(es[0])), site, files[1..], es[1..]);
    }
  }

  lemma WithUnused(s: Setting, y: Core, site: string, f: Effect, e: Effect)
    requires Sendable(s, y, site, f) && Unused(y, e) && KeysDiffer(e, f)
    ensures Unused(With(y, Read(f)), e)
  {
    FormTouches(s, y, site, f, Read(f));
    hide Sendable, DeltaOf;
  }

  lemma {:induction false} FlushUnused(s: Setting, y: Core, site: string, files: seq<File>, fs: seq<Effect>, e: Effect)
    requires Way(s, y, site, files, fs) && Unused(y, e) && forall i :: 0 <= i < |fs| ==> KeysDiffer(e, fs[i])
    ensures Unused(Flush(y, fs), e)
    decreases |fs|
  {
    hide Sendable, FileOf, Unused, KeysDiffer, With, Read;
    if fs != [] {
      WithUnused(s, y, site, fs[0], e);
      FlushUnused(s, With(y, Read(fs[0])), site, files[1..], fs[1..], e);
    }
  }

  lemma OnHandDiffers(y: Core, e: Effect, f: Effect)
    requires Unused(y, e) && OnHand(y, f)
    ensures KeysDiffer(e, f)
  {
  }

  /** Two copies that agree can take the same of a site's writes. */
  lemma SendableThere(s: Setting, c: Core, d: Core, site: string, e: Effect)
    requires CoreInv(c) && CoreInv(d) && Agree(c, d, s.board, s.network) && Sendable(s, c, site, e) && Unused(d, e)
    ensures Sendable(s, d, site, e) && FileOf(s, d, site, e) == FileOf(s, c, site, e)
  {
    AgreeNetwork(c, d, s.board, s.network);
    hide CoreInv, Agree, Hosts, NetworkOf, Minted, NewFrom, NewThreadOf, NewPostOf, NewRevisionOf, RetractionOf, AckOf;
    match e
    case MakeThread(_, _) => NewThere(s, c, d, site, e);
    case AddTo(_, _, _, _) => NewThere(s, c, d, site, e);
    case _ => OldThere(s, c, d, site, e);
  }

  lemma NewThere(s: Setting, c: Core, d: Core, site: string, e: Effect)
    requires CoreInv(d) && Agree(c, d, s.board, s.network) && Sendable(s, c, site, e) && Unused(d, e)
    requires e.MakeThread? || e.AddTo?
    ensures Sendable(s, d, site, e)
  {
    AgreeNetwork(c, d, s.board, s.network);
    if e.AddTo? {
      HostsThere(s, c, d, e.post.thread);
      NextIsFree(d, e.postId);
    }
    hide CoreInv, Agree, Hosts, NetworkOf, Minted, NewFrom;
  }

  lemma OldThere(s: Setting, c: Core, d: Core, site: string, e: Effect)
    requires Agree(c, d, s.board, s.network) && Sendable(s, c, site, e) && Unused(d, e)
    requires e.Revise? || e.Withdraw? || e.Acknowledge?
    ensures Sendable(s, d, site, e) && FileOf(s, d, site, e) == FileOf(s, c, site, e)
  {
    AgreeNetwork(c, d, s.board, s.network);
    hide Agree, NetworkOf, EventFile, PostFile, NewRevisionOf, RetractionOf, AckOf;
    match e
    case Revise(id, r, _, _) => RevisionThere(s, c, d, site, id, r);
    case Withdraw(_, _, _, _, _) => RetractionThere(s, c, d, site, e);
    case Acknowledge(_, _, _, _, _) => AckThere(s, c, d, site, e);
  }

  lemma RevisionThere(s: Setting, c: Core, d: Core, site: string, id: string, r: RevisionRow)
    requires Agree(c, d, s.board, s.network) && NewRevisionOf(s, c, site, id, r)
    ensures NewRevisionOf(s, d, site, id, r) && d.posts[id] == c.posts[id]
  {
    ReadableThere(s, c, d, id);
    hide Agree, Minted, Readable;
  }

  lemma RetractionThere(s: Setting, c: Core, d: Core, site: string, e: Effect)
    requires Agree(c, d, s.board, s.network) && e.Withdraw? && RetractionOf(s, c, site, e) && e.eventId !in d.events
    ensures RetractionOf(s, d, site, e)
  {
    ReadableThere(s, c, d, e.postId);
    hide Agree, Minted, Readable;
  }

  lemma AckThere(s: Setting, c: Core, d: Core, site: string, e: Effect)
    requires Agree(c, d, s.board, s.network) && e.Acknowledge? && AckOf(s, c, site, e) && e.eventId !in d.events
    ensures AckOf(s, d, site, e)
  {
    ReadableThere(s, c, d, e.postId);
    hide Agree, Minted, Readable;
  }

  lemma HostsThere(s: Setting, c: Core, d: Core, t: string)
    requires Agree(c, d, s.board, s.network) && Hosts(c, s.board, s.network, t)
    ensures Hosts(d, s.board, s.network, t)
  {
    HostedToo(c, d, s.board, s.network, t);
  }

  lemma ReadableThere(s: Setting, c: Core, d: Core, id: string)
    requires Agree(c, d, s.board, s.network) && Readable(s, c, id)
    ensures Readable(s, d, id) && d.posts[id] == c.posts[id]
    ensures forall n: nat :: (id, n) in d.revisions <==> (id, n) in c.revisions
  {
    HostsThere(s, c, d, c.posts[id].thread);
    assert PostOn(c, s.board, id) && PostOn(d, s.board, id);
    hide AgreeThreads, AgreeEvents, AgreeAcks, Hosts;
  }

  // ---- the two sites ----

  /** The rows of the two sites, and the files of each that the other has yet to pull. */
  datatype Crossing = Crossing(one: Core, other: Core, toOther: seq<File>, toOne: seq<File>)

  /** Everything under way can be taken, is of rows its writer has, and once taken leaves the copies agreeing. */
  ghost predicate Inv(s: Setting, x: Crossing, es: seq<Effect>, fs: seq<Effect>) {
    && Kept(x.one) && Kept(x.other)
    && Way(s, Still(x.other), s.one, x.toOther, es) && AllOnHand(x.one, es)
    && Way(s, Still(x.one), s.other, x.toOne, fs) && AllOnHand(x.other, fs)
    && Agree(Flush(Still(x.one), fs), Flush(Still(x.other), es), s.board, s.network)
  }

  function FlipSetting(s: Setting): Setting { s.(one := s.other, other := s.one) }

  function FlipCrossing(x: Crossing): Crossing { Crossing(x.other, x.one, x.toOne, x.toOther) }

  lemma {:induction false} FlipWay(s: Setting, y: Core, site: string, files: seq<File>, es: seq<Effect>)
    ensures Way(FlipSetting(s), y, site, files, es) <==> Way(s, y, site, files, es)
    decreases |es|
  {
    if |files| == |es| && es != [] { FlipWay(s, With(y, Read(es[0])), site, files[1..], es[1..]); }
    SameSending(s, y, site);
    hide Sendable, FileOf, With, Read;
  }

  lemma SameSending(s: Setting, y: Core, site: string)
    ensures forall e :: Sendable(FlipSetting(s), y, site, e) <==> Sendable(s, y, site, e)
    ensures forall e :: FileOf(FlipSetting(s), y, site, e) == FileOf(s, y, site, e)
  {
  }

  lemma FlipInv(s: Setting, x: Crossing, es: seq<Effect>, fs: seq<Effect>)
    requires Inv(s, x, es, fs)
    ensures Inv(FlipSetting(s), FlipCrossing(x), fs, es)
  {
    FlipWay(s, Still(x.other), s.one, x.toOther, es);
    FlipWay(s, Still(x.one), s.other, x.toOne, fs);
    AgreeSymmetric(Flush(Still(x.one), fs), Flush(Still(x.other), es), s.board, s.network);
    hide Way, Kept, AllOnHand, Agree, Flush, Still;
  }

  // ---- a write at one site ----

  lemma StillOnHand(y: Core, z: Core, es: seq<Effect>)
    requires y.threads.Keys <= z.threads.Keys && y.posts.Keys <= z.posts.Keys && y.events.Keys <= z.events.Keys
    requires AllOnHand(y, es)
    ensures AllOnHand(z, es)
  {
  }

  lemma StillKeys(c: Core)
    ensures Still(c).threads.Keys == c.threads.Keys && Still(c).posts == c.posts && Still(c).events == c.events
    ensures forall e :: Unused(Still(c), e) <==> Unused(c, e)
  {
  }

  /** A write adds to the keys, and what it brings is then on hand. */
  lemma WithKeys(y: Core, e: Effect, g: Effect)
    requires Crosses(e) && Fits(y, e) && IsForm(e, g)
    ensures var z := With(y, g);
      y.threads.Keys <= z.threads.Keys && y.posts.Keys <= z.posts.Keys && y.events.Keys <= z.events.Keys && OnHand(z, e)
  {
  }

  /** After a write the copies agree as before, once what was under way, and its own file, have been taken. */
  lemma WrittenAgrees(s: Setting, c: Core, d: Core, site: string, e: Effect)
    requires KeptStill(c) && KeptStill(d) && Agree(c, d, s.board, s.network)
    requires Sendable(s, c, site, e) && Sendable(s, d, site, e)
    ensures Agree(With(c, e), With(d, Read(e)), s.board, s.network)
  {
    SendableFits(s, c, site, e);
    SendableFits(s, d, site, e);
    hide Sendable, Agree, CoreInv, NamesOk, With, Result, Still, Mirrors, About, Fits, Crosses, Sound, WellNamed, Read;
    MakeReady(c, d, s.board, s.network, e, Read(e));
    EffectAgrees(c, d, s.board, s.network, e, Read(e));
    StillAgree(Result(c, e), Result(d, Read(e)), s.board, s.network);
    StillResult(c, e);
    StillResult(d, Read(e));
  }

  lemma StillIsKept(c: Core)
    requires Kept(c)
    ensures KeptStill(Still(c))
  {
    StillKept(c);
    StillIsStill(c);
    hide Kept, Still;
  }

  /** What flushing both ways needs to know of a write: it goes where the copies agree, and they agree after it. */
  lemma WriteFlushes(s: Setting, y: Core, z: Core, files: seq<File>, es: seq<Effect>, files': seq<File>,
                     fs: seq<Effect>, e: Effect)
    requires s.one != s.other && KeptStill(y) && KeptStill(z) && Sendable(s, y, s.one, e) && Unused(z, e)
    requires Way(s, z, s.one, files, es) && Way(s, y, s.other, files', fs)
    requires Agree(Flush(y, fs), Flush(z, es), s.board, s.network)
    requires forall i :: 0 <= i < |es| ==> KeysDiffer(e, es[i])
    requires forall i :: 0 <= i < |fs| ==> KeysDiffer(e, fs[i])
    ensures Way(s, z, s.one, files + [FileOf(s, y, s.one, e)], es + [e]) && Way(s, With(y, e), s.other, files', fs)
    ensures Agree(Flush(With(y, e), fs), Flush(z, es + [e]), s.board, s.network)
  {
    var c, d := Flush(y, fs), Flush(z, es);
    OwnWritePasses(s, y, s.one, e, s.other, files', fs);
    FlushIsKept(s, y, s.other, files', fs);
    FlushIsKept(s, z, s.one, files, es);
    FlushUnused(s, z, s.one, files, es, e);
    KeptIsInOrder(c);
    KeptIsInOrder(d);
    hide *;
    SendableThere(s, c, d, s.one, e);
    WrittenAgrees(s, c, d, s.one, e);
    OneMoreUnderWay(s, z, s.one, files, es, e);
  }

  lemma KeptIsInOrder(c: Core)
    requires KeptStill(c)
    ensures CoreInv(c)
  {
    hide CoreInv;
  }

  /** A write at one site keeps the invariant. */
  lemma OneWrites(s: Setting, x: Crossing, es: seq<Effect>, fs: seq<Effect>, e: Effect)
    requires s.one != s.other && Inv(s, x, es, fs) && Sendable(s, x.one, s.one, e) && Unused(x.other, e)
    ensures Inv(s, x.(one := Result(x.one, e), toOther := x.toOther + [FileOf(s, x.one, s.one, e)]), es + [e], fs)
  {
    hide Sendable, Kept, Still, Way, Flush, Agree, FileOf, Result, With, Unused, OnHand, KeysDiffer, Crosses, Fits,
      Sound, WellNamed;
    SendableFits(s, x.one, s.one, e);
    SendableUnused(s, x.one, s.one, e);
    EffectKeeps(x.one, e);
    SendableStill(s, x.one, s.one, e);
    StillResult(x.one, e);
    StillIsKept(x.one);
    StillIsKept(x.other);
    StillKeys(x.other);
    forall i | 0 <= i < |fs|
      ensures KeysDiffer(e, fs[i])
    {
      OnHandDiffers(x.other, e, fs[i]);
    }
    forall i | 0 <= i < |es|
      ensures KeysDiffer(e, es[i])
    {
      OnHandDiffers(x.one, e, es[i]);
    }
    WriteFlushes(s, Still(x.one), Still(x.other), x.toOther, es, x.toOne, fs, e);
    WrittenOnHand(s, x.one, s.one, es, e);
  }

  lemma WrittenOnHand(s: Setting, c: Core, site: string, es: seq<Effect>, e: Effect)
    requires Sendable(s, c, site, e) && AllOnHand(c, es)
    ensures AllOnHand(Result(c, e), es + [e])
  {
    SendableFits(s, c, site, e);
    SendableStill(s, c, site, e);
    SendableFits(s, Still(c), site, e);
    StillResult(c, e);
    WithKeys(Still(c), e, e);
    StillKeys(c);
    StillKeys(Result(c, e));
    hide Sendable, Still, With, Result, Fits, Crosses, Sound, WellNamed, Mirrors, About;
    StillOnHand(c, Result(c, e), es);
  }

  /** Pulling the next file succeeds and keeps it. */
  lemma OtherPulls(s: Setting, x: Crossing, es: seq<Effect>, fs: seq<Effect>)
    requires Apt(s) && Inv(s, x, es, fs) && x.toOther != []
    ensures var next := Deliver(s.rules, s.json, x.other, s.network, s.one, x.toOther[0]);
      next.Some? && Inv(s, x.(other := next.value, toOther := x.toOther[1..]), es[1..], fs)
  {
    hide Sendable, Apt, Kept, Still, Agree, FileOf, Result, With, Read, OnHand, Deliver;
    Delivered(s, x.other, s.one, es[0]);
    var d := Deliver(s.rules, s.json, x.other, s.network, s.one, x.toOther[0]).value;
    PulledOnHand(s, x.other, d, s.one, es[0], fs);
  }

  lemma PulledOnHand(s: Setting, c: Core, d: Core, site: string, e: Effect, fs: seq<Effect>)
    requires Sendable(s, Still(c), site, e) && Still(d) == With(Still(c), Read(e)) && AllOnHand(c, fs)
    ensures AllOnHand(d, fs)
  {
    SendableFits(s, Still(c), site, e);
    WithKeys(Still(c), e, Read(e));
    StillKeys(c);
    StillKeys(d);
    hide Sendable, Still, With, Fits, Crosses, Sound, WellNamed, Mirrors, About, Read;
    StillOnHand(c, d, fs);
  }

  // ---- what an operation sends ----

  predicate MayCross(op: Local) { op.OpenThread? || op.Reply? || op.Edit? || op.Retract? || op.Ack? }

  /** Asked for by someone of the site, on the board, with IDs that neither site has yet. */
  predicate Asked(s: Setting, c: Core, d: Core, site: string, op: Local, who: Author) {
    && MayCross(op) && OpOn(c, s.board, op) && OpFresh(s.rules, c, d, site, op) && Resolved(s.rules, site, who)
    && s.network != "" && NetworkOf(c, s.board) == s.network
  }

  lemma PlanIsSendable(s: Setting, c: Core, d: Core, site: string, op: Local, who: Author, now: Time, e: Effect)
    requires Kept(c) && Asked(s, c, d, site, op, who) && Planned(s.rules, c, op, site, who, now, e) && !op.OpenThread?
    ensures Sendable(s, c, site, e) && Unused(d, e) && Shared(s.json, c, e, site) == [FileOf(s, c, site, e)]
  {
    match op
    case Reply(_, _, _, _, _, _, _) => ReplyIsSendable(s, c, d, site, op, who, now, e);
    case Edit(_, _, _, _) => EditIsSendable(s, c, d, site, op, who, now, e);
    case Retract(_, _, _) => EventIsSendable(s, c, d, site, op, who, now, e);
    case Ack(_, _) => EventIsSendable(s, c, d, site, op, who, now, e);
    case _ =>
  }

  lemma ReplyIsSendable(s: Setting, c: Core, d: Core, site: string, op: Local, who: Author, now: Time, e: Effect)
    requires Kept(c) && Asked(s, c, d, site, op, who) && Planned(s.rules, c, op, site, who, now, e) && op.Reply?
    ensures Sendable(s, c, site, e) && Unused(d, e) && Shared(s.json, c, e, site) == [FileOf(s, c, site, e)]
  {
    hide CoreInv, Ids.IsIdPart, PostFile, Shared;
    assert NewFrom(s.rules, site, e.post, e.revision) && Hosts(c, s.board, s.network, e.post.thread);
    AddIsShared(s.json, c, s.board, e, site);
  }

  lemma EditIsSendable(s: Setting, c: Core, d: Core, site: string, op: Local, who: Author, now: Time, e: Effect)
    requires Kept(c) && Asked(s, c, d, site, op, who) && Planned(s.rules, c, op, site, who, now, e) && op.Edit?
    ensures Sendable(s, c, site, e) && Unused(d, e) && Shared(s.json, c, e, site) == [FileOf(s, c, site, e)]
  {
    hide Plan, CoreInv, NamesOk, Ids.IsIdPart, PostFile, Shared;
    EditPlan(s.rules, c, op, site, who, now, e);
    PostNames(c, c, op.post);
    ReviseIsShared(s.json, c, s.board, e, site);
  }

  lemma EventIsSendable(s: Setting, c: Core, d: Core, site: string, op: Local, who: Author, now: Time, e: Effect)
    requires Kept(c) && Asked(s, c, d, site, op, who) && Planned(s.rules, c, op, site, who, now, e)
      && (op.Retract? || op.Ack?)
    ensures Sendable(s, c, site, e) && Unused(d, e) && Shared(s.json, c, e, site) == [FileOf(s, c, site, e)]
  {
    hide Plan, CoreInv, NamesOk, Ids.IsIdPart, EventFile, Shared;
    if op.Retract? {
      RetractPlan(s.rules, c, op, site, who, now, e);
    } else {
      AckPlan(s.rules, c, op, site, who, now, e);
    }
    PostNames(c, c, op.post);
    EventIsShared(s.json, c, s.board, e, site);
  }

  /** Opening a thread sends two files, as two writes would. */
  lemma OpenIsSendable(s: Setting, c: Core, d: Core, site: string, op: Local, who: Author, now: Time, e: Effect)
    returns (make: Effect, add: Effect)
    requires Kept(c) && Asked(s, c, d, site, op, who) && Planned(s.rules, c, op, site, who, now, e) && op.OpenThread?
    ensures Sendable(s, c, site, make) && Unused(d, make) && Sendable(s, Result(c, make), site, add) && Unused(d, add)
    ensures Result(Result(c, make), add) == Result(c, e)
    ensures Shared(s.json, c, e, site) == [FileOf(s, c, site, make), FileOf(s, Result(c, make), site, add)]
  {
    hide CoreInv, Ids.IsIdPart, PostFile, ThreadFile, Shared;
    assert OpenedBy(site, s.board, e) && NewFrom(s.rules, site, e.post, e.revision);
    make, add := MakeThread(e.id, e.thread), AddTo(e.postId, e.post, e.revision, e.revision.createdAt);
    OpenIsMakeThenAdd(c, e);
    OpenIsShared(s.json, c, s.board, e, site);
    assert Hosts(Result(c, make), s.board, s.network, e.id);
  }

  // ---- runs ----

  /**
   One site writes, or pulls the next file of the other's; or, when nothing is
   under way, the sites take a turn with any shared operation.
   */
  datatype Move = Write(atOne: bool, op: Local, who: Author, now: Time) | Pull(atOne: bool) | Meet(turn: Turn)

  function WriteHere(s: Setting, x: Crossing, op: Local, who: Author, now: Time): Crossing {
    var plan := Plan(s.rules, x.one, op, s.one, who, now);
    if plan.None? || !Fits(x.one, plan.value) then x
    else
      x.(one := Result(x.one, plan.value), toOther := x.toOther + Shared(s.json, x.one, plan.value, s.one))
  }

  /** None when the file is not taken. */
  function PullThere(s: Setting, x: Crossing): Option<Crossing> {
    if x.toOther == [] then Some(x)
    else
      var next := Deliver(s.rules, s.json, x.other, s.network, s.one, x.toOther[0]);
      if next.None? then None else Some(x.(other := next.value, toOther := x.toOther[1..]))
  }

  function Do(s: Setting, x: Crossing, m: Move): Option<Crossing> {
    match m
    case Write(atOne, op, who, now) =>
      Some(if atOne then WriteHere(s, x, op, who, now)
           else FlipCrossing(WriteHere(FlipSetting(s), FlipCrossing(x), op, who, now)))
    case Pull(atOne) =>
      if !atOne then PullThere(s, x)
      else
        var y := PullThere(FlipSetting(s), FlipCrossing(x));
        if y.None? then None else Some(FlipCrossing(y.value))
    case Meet(turn) =>
      var p := TakeTurn(s, Copies(x.one, x.other), turn);
      if p.None? then None else Some(Crossing(p.value.one, p.value.other, x.toOther, x.toOne))
  }

  predicate MayDo(s: Setting, x: Crossing, m: Move) {
    match m
    case Write(atOne, op, who, _) =>
      if atOne then Asked(s, x.one, x.other, s.one, op, who) else Asked(s, x.other, x.one, s.other, op, who)
    case Pull(_) => true
    case Meet(turn) => x.toOther == [] && x.toOne == [] && MayTake(s, Copies(x.one, x.other), turn)
  }

  function DoAll(s: Setting, x: Crossing, moves: seq<Move>): Option<Crossing>
    decreases |moves|
  {
    if moves == [] then Some(x)
    else
      var next := Do(s, x, moves[0]);
      if next.None? then None else DoAll(s, next.value, moves[1..])
  }

  predicate MayDoAll(s: Setting, x: Crossing, moves: seq<Move>)
    decreases |moves|
  {
    moves == [] || (MayDo(s, x, moves[0])
      && (Do(s, x, moves[0]).Some? ==> MayDoAll(s, Do(s, x, moves[0]).value, moves[1..])))
  }

  lemma WriteKeepsInv(s: Setting, x: Crossing, es: seq<Effect>, fs: seq<Effect>, op: Local, who: Author, now: Time)
    returns (es': seq<Effect>)
    requires s.one != s.other && Inv(s, x, es, fs) && Asked(s, x.one, x.other, s.one, op, who)
    ensures Inv(s, WriteHere(s, x, op, who, now), es', fs)
  {
    es' := es;
    var plan := Plan(s.rules, x.one, op, s.one, who, now);
    hide Plan, Fits, Result, Inv, Sendable, Unused, FileOf, Asked, Shared;
    if plan.Some? && Fits(x.one, plan.value) {
      InvKept(s, x, es, fs);
      if op.OpenThread? {
        var make, add := OpenIsSendable(s, x.one, x.other, s.one, op, who, now, plan.value);
        var first := FileOf(s, x.one, s.one, make);
        var x1 := x.(one := Result(x.one, make), toOther := x.toOther + [first]);
        var second := FileOf(s, x1.one, s.one, add);
        OneWrites(s, x, es, fs, make);
        OneWrites(s, x1, es + [make], fs, add);
        assert x.toOther + [first, second] == x.toOther + [first] + [second];
        assert WriteHere(s, x, op, who, now) == x1.(one := Result(x1.one, add), toOther := x1.toOther + [second]);
        es' := es + [make] + [add];
      } else {
        PlanIsSendable(s, x.one, x.other, s.one, op, who, now, plan.value);
        OneWrites(s, x, es, fs, plan.value);
        es' := es + [plan.value];
      }
    }
  }

  lemma InvKept(s: Setting, x: Crossing, es: seq<Effect>, fs: seq<Effect>)
    requires Inv(s, x, es, fs)
    ensures Kept(x.one) && Kept(x.other)
  {
    hide Kept, Way;
  }

  lemma PullKeepsInv(s: Setting, x: Crossing, es: seq<Effect>, fs: seq<Effect>) returns (es': seq<Effect>)
    requires Apt(s) && Inv(s, x, es, fs)
    ensures PullThere(s, x).Some? && Inv(s, PullThere(s, x).value, es', fs)
  {
    hide Inv, Apt, Deliver;
    es' := es;
    if x.toOther != [] {
      OtherPulls(s, x, es, fs);
      es' := if es == [] then [] else es[1..];
      SameLength(s, x, es, fs);
    }
  }

  lemma SameLength(s: Setting, x: Crossing, es: seq<Effect>, fs: seq<Effect>)
    requires Inv(s, x, es, fs)
    ensures |es| == |x.toOther| && |fs| == |x.toOne|
  {
    hide Kept, Sendable, Agree;
  }

  /** With nothing under way the invariant is agreement. */
  lemma NothingUnderWay(s: Setting, p: Copies)
    ensures Inv(s, Crossing(p.one, p.other, [], []), [], []) <==> InStep(s, p)
  {
    StillAgree(p.one, p.other, s.board, s.network);
    hide Kept, Agree, Still;
  }

  lemma DoKeepsInv(s: Setting, x: Crossing, es: seq<Effect>, fs: seq<Effect>, m: Move)
    returns (es': seq<Effect>, fs': seq<Effect>)
    requires Apt(s) && s.one != s.other && Inv(s, x, es, fs) && MayDo(s, x, m)
    ensures Do(s, x, m).Some? && Inv(s, Do(s, x, m).value, es', fs')
  {
    hide Inv, Asked, WriteHere, PullThere, TakeTurn, MayTake, InStep;
    es', fs' := es, fs;
    match m
    case Write(atOne, op, who, now) =>
      if atOne {
        es' := WriteKeepsInv(s, x, es, fs, op, who, now);
      } else {
        FlipInv(s, x, es, fs);
        SameAsked(s, x.other, x.one, s.other, op, who);
        fs' := WriteKeepsInv(FlipSetting(s), FlipCrossing(x), fs, es, op, who, now);
        FlipInv(FlipSetting(s), WriteHere(FlipSetting(s), FlipCrossing(x), op, who, now), fs', es);
      }
    case Pull(atOne) =>
      if !atOne {
        es' := PullKeepsInv(s, x, es, fs);
      } else {
        FlipInv(s, x, es, fs);
        FlipApt(s);
        fs' := PullKeepsInv(FlipSetting(s), FlipCrossing(x), fs, es);
        FlipInv(FlipSetting(s), PullThere(FlipSetting(s), FlipCrossing(x)).value, fs', es);
      }
    case Meet(turn) =>
      SameLength(s, x, es, fs);
      NothingUnderWay(s, Copies(x.one, x.other));
      TurnKeeps(s, Copies(x.one, x.other), turn);
      NothingUnderWay(s, TakeTurn(s, Copies(x.one, x.other), turn).value);
  }

  lemma SameAsked(s: Setting, c: Core, d: Core, site: string, op: Local, who: Author)
    requires Asked(s, c, d, site, op, who)
    ensures Asked(FlipSetting(s), c, d, site, op, who)
  {
  }

  lemma FlipApt(s: Setting)
    requires Apt(s)
    ensures Apt(FlipSetting(s))
  {
  }

  lemma {:induction false} RunKeepsInv(s: Setting, x: Crossing, es: seq<Effect>, fs: seq<Effect>, moves: seq<Move>)
    returns (es': seq<Effect>, fs': seq<Effect>)
    requires Apt(s) && s.one != s.other && Inv(s, x, es, fs) && MayDoAll(s, x, moves)
    ensures DoAll(s, x, moves).Some? && Inv(s, DoAll(s, x, moves).value, es', fs')
    decreases |moves|
  {
    hide Inv, Apt, Do, MayDo;
    es', fs' := es, fs;
    if moves != [] {
      es', fs' := DoKeepsInv(s, x, es, fs, moves[0]);
      es', fs' := RunKeepsInv(s, Do(s, x, moves[0]).value, es', fs', moves[1..]);
    }
  }

  lemma {:induction false} FlushDelivers(s: Setting, d: Core, site: string, files: seq<File>, es: seq<Effect>)
    requires Apt(s) && Kept(d) && Way(s, Still(d), site, files, es)
    ensures var last := DeliverAll(s.rules, s.json, d, s.network, site, files);
      last.Some? && Kept(last.value) && Still(last.value) == Flush(Still(d), es)
    decreases |es|
  {
    hide Apt, Kept, Still, Sendable, FileOf, With, Read, Deliver;
    if es != [] {
      Delivered(s, d, site, es[0]);
      FlushDelivers(s, Deliver(s.rules, s.json, d, s.network, site, files[0]).value, site, files[1..], es[1..]);
    }
  }

  /** What both sites have once each has pulled all that is under way to it. */
  function Caught(s: Setting, x: Crossing): Option<Copies> {
    var one := DeliverAll(s.rules, s.json, x.one, s.network, s.other, x.toOne);
    var other := DeliverAll(s.rules, s.json, x.other, s.network, s.one, x.toOther);
    if one.None? || other.None? then None else Some(Copies(one.value, other.value))
  }

  lemma InvCatchesUp(s: Setting, x: Crossing, es: seq<Effect>, fs: seq<Effect>)
    requires Apt(s) && Inv(s, x, es, fs)
    ensures Caught(s, x).Some? && InStep(s, Caught(s, x).value)
  {
    hide Apt, Kept, Still, Way, Flush, DeliverAll, Agree, AllOnHand;
    FlushDelivers(s, x.one, s.other, x.toOne, fs);
    FlushDelivers(s, x.other, s.one, x.toOther, es);
    var p := Caught(s, x).value;
    StillAgree(p.one, p.other, s.board, s.network);
  }

  /**
   Two sites whose copies agree, and that open threads, reply, edit, retract and
   acknowledge as they like, pulling each other's files whenever they come to
   it: no file is ever refused, and at every moment pulling what is still under
   way leaves the copies in agreement.
   */
  lemma SitesConverge(s: Setting, p: Copies, moves: seq<Move>)
    requires Apt(s) && s.one != s.other && InStep(s, p)
    requires MayDoAll(s, Crossing(p.one, p.other, [], []), moves)
    ensures var x := DoAll(s, Crossing(p.one, p.other, [], []), moves);
      x.Some? && Caught(s, x.value).Some? && InStep(s, Caught(s, x.value).value)
  {
    hide Apt, Inv, InStep, DoAll, MayDoAll, Caught;
    NothingUnderWay(s, p);
    var es, fs := RunKeepsInv(s, Crossing(p.one, p.other, [], []), [], [], moves);
    InvCatchesUp(s, DoAll(s, Crossing(p.one, p.other, [], []), moves).value, es, fs);
  }

  // ---- and what does not converge ----

  /** A rename's file lands on any rows that have the thread: the thread gets its title. */
  lemma RenameLands(s: Setting, c: Core, d: Core, site: string, op: Local, who: Author, now: Time, e: Effect)
    requires Apt(s) && Kept(c) && op.Curating? && op.op.Rename? && Planned(s.rules, c, op, site, who, now, e)
    requires Hosts(c, s.board, s.network, op.thread) && Hosts(d, s.board, s.network, op.thread)
    requires Minted(site, op.eventId) && op.eventId !in d.events
    ensures var last := DeliverAll(s.rules, s.json, d, s.network, site, Shared(s.json, c, e, site));
      last.Some? && op.thread in last.value.threads && last.value.threads[op.thread].title == s.rules.trim(op.title)
  {
    hide Plan, Lawful, CoreInv, JudgeNewEvent, Ids.IsIdPart, Own;
    CuratePlan(s.rules, c, op, site, who, now, e);
    EventIsShared(s.json, c, s.board, e, site);
    EventIsJudged(s.rules, s.json, d, s.board, s.network, site, op.eventId, e.event);
    var r := RenameIsJudged(s, d, site, op, who, now, e);
    EventDelivered(s.rules, s.json, d, s.board, s.network, site, op.eventId, e.event, r);
    hide *;
    DeliverSingle(s.rules, s.json, d, s.network, site, EventFile(s.json, s.board, op.eventId, e.event, site));
    TitleSet(d, r);
  }

  lemma TitleSet(d: Core, r: Effect)
    requires r.Curate? && Fits(d, r)
    ensures r.id in Result(d, r).threads && Result(d, r).threads[r.id].title == r.title
  {
  }

  lemma RenameIsJudged(s: Setting, d: Core, site: string, op: Local, who: Author, now: Time,
                       e: Effect) returns (r: Effect)
    requires op.Curating? && op.op.Rename? && Hosts(d, s.board, s.network, op.thread) && op.eventId !in d.events
    requires e.Curate? && TitleOk(s.rules.trim(op.title)) && Orderly(s.rules)
    requires e.event.kind == "rename" && e.event.thread == op.thread && Title(e.event.data) == op.title
    ensures JudgesTo(s.rules, d, s.board, s.network, site, op.eventId, e.event, r)
    ensures r.Curate? && Fits(d, r) && r.id == op.thread && r.title == s.rules.trim(op.title)
  {
    var t, title := d.threads[op.thread], s.rules.trim(op.title);
    r := Curate(op.thread, t.state, title, t.links, WithAlias(t, title), t.redirect, op.eventId, e.event);
  }

  /**
   Two renames of one thread that cross: each site ends with the other's title, so
   the copies agree on the title exactly when both asked for the same.
   */
  lemma RenamesCross(s: Setting, c: Core, d: Core, op: Local, who: Author, now: Time, e: Effect,
                     op': Local, who': Author, now': Time, e': Effect)
    requires Apt(s) && Kept(c) && Kept(d) && op.Curating? && op.op.Rename? && op'.Curating? && op'.op.Rename?
    requires Planned(s.rules, c, op, s.one, who, now, e) && Planned(s.rules, d, op', s.other, who', now', e')
    requires op.thread == op'.thread && Hosts(c, s.board, s.network, op.thread)
    requires Hosts(d, s.board, s.network, op.thread)
    requires Minted(s.one, op.eventId) && Minted(s.other, op'.eventId) && op.eventId != op'.eventId
    requires op.eventId !in d.events && op'.eventId !in c.events
    ensures var x :=
        Caught(s, Crossing(Result(c, e), Result(d, e'), Shared(s.json, c, e, s.one), Shared(s.json, d, e', s.other)));
      && x.Some? && op.thread in x.value.one.threads && op.thread in x.value.other.threads
      && (x.value.one.threads[op.thread].title == x.value.other.threads[op.thread].title <==>
            s.rules.trim(op.title) == s.rules.trim(op'.title))
  {
    hide *;
    StaysHosted(s, c, op, s.one, who, now, e, op'.eventId);
    StaysHosted(s, d, op', s.other, who', now', e', op.eventId);
    RenameLands(s, c, Result(d, e'), s.one, op, who, now, e);
    RenameLands(s, d, Result(c, e), s.other, op', who', now', e');
    BothCaught(s, Crossing(Result(c, e), Result(d, e'), Shared(s.json, c, e, s.one), Shared(s.json, d, e', s.other)));
  }

  lemma BothCaught(s: Setting, x: Crossing)
    ensures var one := DeliverAll(s.rules, s.json, x.one, s.network, s.other, x.toOne);
      var other := DeliverAll(s.rules, s.json, x.other, s.network, s.one, x.toOther);
      Caught(s, x) == if one.None? || other.None? then None else Some(Copies(one.value, other.value))
  {
  }

  lemma StaysHosted(s: Setting, c: Core, op: Local, site: string, who: Author, now: Time, e: Effect, x: string)
    requires op.Curating? && op.op.Rename? && Planned(s.rules, c, op, site, who, now, e)
    requires Hosts(c, s.board, s.network, op.thread) && x !in c.events && x != op.eventId
    ensures Hosts(Result(c, e), s.board, s.network, op.thread)
    ensures x !in Result(c, e).events
  {
    CuratePlan(s.rules, c, op, site, who, now, e);
    hide Plan;
  }
}
