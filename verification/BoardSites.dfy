/**
 Two sites taking turns on a shared board: from the board's first file on, each
 write at either site is shared and pulled by the other before the next
 (internal/board/shared.go share and ApplyRemote).
 */
module BoardSites {
  import opened Wrappers
  import opened BoardStore
  import opened BoardFiles
  import opened BoardWrites
  import opened BoardHistory
  import opened BoardSync
  import Format

  /** The board, its network, the two sites' names and what they compute with. */
  datatype Setting = Setting(rules: Rules, json: Codec, board: string, network: string, one: string, other: string)

  /** The rows of the two sites. */
  datatype Copies = Copies(one: Core, other: Core)

  /** An operation asked for at one of the sites. */
  datatype Turn = Turn(atOne: bool, op: Local, who: Author, now: Time)

  // ---- turns ----

  /** The rows of writer and reader after the write, refused or shared and pulled; None when a file is not taken. */
  function Exchange(s: Setting, c: Core, d: Core, site: string, t: Turn): Option<Copies> {
    var plan := Plan(s.rules, c, t.op, site, t.who, t.now);
    if plan.None? || !Fits(c, plan.value) then Some(Copies(c, d))
    else
      var pulled := DeliverAll(s.rules, s.json, d, s.network, site, Shared(s.json, c, plan.value, site));
      if pulled.None? then None else Some(Copies(Result(c, plan.value), pulled.value))
  }

  function Flip(p: Option<Copies>): Option<Copies> {
    match p
    case None => None
    case Some(q) => Some(Copies(q.other, q.one))
  }

  function TakeTurn(s: Setting, p: Copies, t: Turn): Option<Copies> {
    if t.atOne then Exchange(s, p.one, p.other, s.one, t) else Flip(Exchange(s, p.other, p.one, s.other, t))
  }

  function TakeTurns(s: Setting, p: Copies, turns: seq<Turn>): Option<Copies>
    decreases |turns|
  {
    if turns == [] then Some(p)
    else
      var next := TakeTurn(s, p, turns[0]);
      if next.None? then None else TakeTurns(s, next.value, turns[1..])
  }

  /** A shared operation on the board by someone of the writer's site, bringing IDs the reader does not have. */
  predicate IsTurn(s: Setting, c: Core, d: Core, site: string, t: Turn) {
    && OpOn(c, s.board, t.op) && OpFresh(s.rules, c, d, site, t.op) && SettlesSame(s.rules, c, t.op)
    && Resolved(s.rules, site, t.who)
  }

  predicate MayTake(s: Setting, p: Copies, t: Turn) {
    if t.atOne then IsTurn(s, p.one, p.other, s.one, t) else IsTurn(s, p.other, p.one, s.other, t)
  }

  /** Each turn may be taken when it comes. */
  predicate MayTakeAll(s: Setting, p: Copies, turns: seq<Turn>)
    decreases |turns|
  {
    turns == [] || (MayTake(s, p, turns[0])
      && (TakeTurn(s, p, turns[0]).Some? ==> MayTakeAll(s, TakeTurn(s, p, turns[0]).value, turns[1..])))
  }

  // ---- what every turn keeps ----

  ghost predicate Kept(c: Core) { CoreInv(c) && NamesOk(c) }

  ghost predicate Apt(s: Setting) { Lawful(s.json) && Orderly(s.rules) && Format.IsBoardPart(s.board) }

  ghost predicate InStep(s: Setting, p: Copies) {
    Kept(p.one) && Kept(p.other) && Agree(p.one, p.other, s.board, s.network)
  }

  lemma AgreeSymmetric(c: Core, d: Core, board: string, network: string)
    requires Agree(c, d, board, network)
    ensures Agree(d, c, board, network)
  {
  }

  lemma EffectKeeps(c: Core, e: Effect)
    requires Kept(c) && Fits(c, e) && Sound(c, e) && WellNamed(e)
    ensures Kept(Result(c, e))
  {
    hide CoreInv, NamesOk, Fits, Sound, WellNamed, Result;
    EffectGrows(c, e);
    NamesKept(c, e);
  }

  lemma DeliverKeeps(s: Setting, d: Core, signer: string, file: File)
    requires Kept(d)
    ensures var next := Deliver(s.rules, s.json, d, s.network, signer, file); next.Some? ==> Kept(next.value)
  {
    hide Kept, Judge, ReadDoc, Fits, Sound, WellNamed, Result;
    var f := Pulled(s.network, signer, ReadDoc(s.json, file));
    VerdictIsSound(s.rules, d, f);
    VerdictIsWellNamed(s.rules, s.json, d, s.network, signer, file);
    var v := Judge(s.rules, d, f);
    if v.Take? && Fits(d, v.effect) { EffectKeeps(d, v.effect); }
  }

  lemma {:induction false} DeliverAllKeeps(s: Setting, d: Core, signer: string, files: seq<File>)
    requires Kept(d)
    ensures var next := DeliverAll(s.rules, s.json, d, s.network, signer, files); next.Some? ==> Kept(next.value)
    decreases |files|
  {
    hide Kept, Deliver;
    if files != [] {
      DeliverKeeps(s, d, signer, files[0]);
      var next := Deliver(s.rules, s.json, d, s.network, signer, files[0]);
      if next.Some? { DeliverAllKeeps(s, next.value, signer, files[1..]); }
    }
  }

  lemma FreshIsMinted(rules: Rules, c: Core, d: Core, site: string, op: Local)
    requires OpFresh(rules, c, d, site, op)
    ensures OpMinted(op, site)
  {
    hide Minted;
  }

  lemma WriteKeeps(s: Setting, c: Core, d: Core, site: string, t: Turn, e: Effect)
    requires Kept(c) && IsTurn(s, c, d, site, t) && Planned(s.rules, c, t.op, site, t.who, t.now, e)
    ensures Kept(Result(c, e))
  {
    hide Kept, OpOn, OpFresh, OpMinted, Plan, Fits, Sound, WellNamed, Result;
    FreshIsMinted(s.rules, c, d, site, t.op);
    PlanIsSound(s.rules, c, t.op, site, t.who, t.now);
    PlanIsWellNamed(s.rules, c, t.op, site, t.who, t.now);
    EffectKeeps(c, e);
  }

  /** A turn has every file taken, and the copies are in step again after it. */
  lemma ExchangeKeeps(s: Setting, c: Core, d: Core, site: string, t: Turn)
    requires Apt(s) && InStep(s, Copies(c, d)) && IsTurn(s, c, d, site, t)
    ensures var next := Exchange(s, c, d, site, t); next.Some? && InStep(s, next.value)
  {
    var plan := Plan(s.rules, c, t.op, site, t.who, t.now);
    hide Plan, Fits, Result, Agree, CoreInv, NamesOk, OpOn, OpFresh, Lawful, Orderly, Resolved, Format.IsBoardPart,
      DeliverAll, Shared;
    if plan.Some? && Fits(c, plan.value) {
      CopiesStayInAgreement(s.rules, s.json, c, d, s.board, s.network, site, t.op, t.who, t.now, plan.value);
      WriteKeeps(s, c, d, site, t, plan.value);
      DeliverAllKeeps(s, d, site, Shared(s.json, c, plan.value, site));
    }
  }

  lemma TurnKeeps(s: Setting, p: Copies, t: Turn)
    requires Apt(s) && InStep(s, p) && MayTake(s, p, t)
    ensures var next := TakeTurn(s, p, t); next.Some? && InStep(s, next.value)
  {
    hide Apt, IsTurn, Exchange, Agree, Kept;
    if t.atOne {
      ExchangeKeeps(s, p.one, p.other, s.one, t);
    } else {
      AgreeSymmetric(p.one, p.other, s.board, s.network);
      ExchangeKeeps(s, p.other, p.one, s.other, t);
      var next := Exchange(s, p.other, p.one, s.other, t).value;
      AgreeSymmetric(next.one, next.other, s.board, s.network);
    }
  }

  /**
   Two sites that take turns on a board never part: however long they go on and
   in whatever order they write, each site takes every file of the other's, and
   the copies agree after every turn.
   */
  lemma {:induction false} SitesStayInStep(s: Setting, p: Copies, turns: seq<Turn>)
    requires Apt(s) && InStep(s, p) && MayTakeAll(s, p, turns)
    ensures var last := TakeTurns(s, p, turns); last.Some? && InStep(s, last.value)
    decreases |turns|
  {
    hide Apt, InStep, MayTake, TakeTurn;
    if turns != [] {
      TurnKeeps(s, p, turns[0]);
      SitesStayInStep(s, TakeTurn(s, p, turns[0]).value, turns[1..]);
    }
  }

  // ---- from the board's first file ----

  /** The two sites once one of them has made the board and the other has pulled its file. */
  function Founded(s: Setting, p: Copies, row: BoardRow): Option<Copies> {
    var e := MakeBoard(s.board, row);
    var pulled := DeliverAll(s.rules, s.json, p.other, s.network, s.one, Shared(s.json, p.one, e, s.one));
    if pulled.None? then None else Some(Copies(Result(p.one, e), pulled.value))
  }

  lemma FoundedInStep(s: Setting, p: Copies, row: BoardRow)
    requires Apt(s) && Kept(p.one) && Kept(p.other) && s.board !in p.one.boards && s.board !in p.other.boards
    requires row.site == s.one && row.network == s.network && s.network != ""
    ensures var next := Founded(s, p, row); next.Some? && InStep(s, next.value)
  {
    var e := MakeBoard(s.board, row);
    assert Fits(p.one, e) && Sound(p.one, e) && WellNamed(e);
    hide Fits, Sound, WellNamed, Result, CoreInv, NamesOk, Lawful, Orderly, Agree, DeliverAll, Shared,
      Format.IsBoardPart;
    NewBoardAgrees(s.rules, s.json, p.one, p.other, s.network, s.one, s.board, row);
    EffectKeeps(p.one, e);
    DeliverAllKeeps(s, p.other, s.one, Shared(s.json, p.one, e, s.one));
  }

  /** So a board is the same at both sites from its making on, whatever rows the sites had before. */
  lemma BoardIsOneFromItsMaking(s: Setting, p: Copies, row: BoardRow, turns: seq<Turn>)
    requires Apt(s) && Kept(p.one) && Kept(p.other) && s.board !in p.one.boards && s.board !in p.other.boards
    requires row.site == s.one && row.network == s.network && s.network != ""
    requires Founded(s, p, row).Some? ==> MayTakeAll(s, Founded(s, p, row).value, turns)
    ensures Founded(s, p, row).Some?
    ensures var last := TakeTurns(s, Founded(s, p, row).value, turns);
      last.Some? && InStep(s, last.value)
  {
    FoundedInStep(s, p, row);
    hide Apt, Kept, InStep, Founded, MayTakeAll, TakeTurns;
    SitesStayInStep(s, Founded(s, p, row).value, turns);
  }

  /** And two sites that start with nothing can do so. */
  lemma FromNothing(s: Setting, row: BoardRow, turns: seq<Turn>)
    requires Apt(s) && row.site == s.one && row.network == s.network && s.network != ""
    requires var made := Founded(s, Copies(NoRows(), NoRows()), row); made.Some? ==> MayTakeAll(s, made.value, turns)
    ensures var made := Founded(s, Copies(NoRows(), NoRows()), row);
      made.Some? && TakeTurns(s, made.value, turns).Some? && InStep(s, TakeTurns(s, made.value, turns).value)
  {
    EmptyIndexIsInOrder();
    assert NamesOk(NoRows());
    hide Apt, InStep, Founded, MayTakeAll, TakeTurns;
    BoardIsOneFromItsMaking(s, Copies(NoRows(), NoRows()), row, turns);
  }
}
