/**
 Settles whose target has space around it, with rules like the code's: a link ends
 before the first space of its pattern, while trimming takes other spaces too
 (internal/board/curation.go linkRef and Settle; internal/board/shared.go
 applyEvent). One is ignored by the reader, one is taken as another link, and one
 does no harm because the thread has both links.
 */
module SettleExample {
  import opened BoardStore
  import opened BoardFiles
  import opened BoardWrites
  import opened BoardHistory
  import opened BoardSync
  import Format
  import Ids

  const TAB := '\U{0B}'  // the vertical tab: a space to trim, and not one to the link pattern

  predicate IsTrimmed(c: char) { c == ' ' || c == TAB }

  function TrimSpaces(s: string): (r: string)
    ensures r == "" || (!IsTrimmed(r[0]) && !IsTrimmed(r[|r| - 1]))
    decreases |s|
  {
    if s == "" then ""
    else if IsTrimmed(s[0]) then TrimSpaces(s[1..])
    else if IsTrimmed(s[|s| - 1]) then TrimSpaces(s[..|s| - 1])
    else s
  }

  /** ^url:https://\S+$ */
  predicate IsUrl(s: string) {
    PREFIX < s && forall i :: |PREFIX| <= i < |s| ==> s[i] !in {' ', '\t', '\n', '\r', '\U{0C}'}
  }

  const PREFIX := "url:https://"
  const LINK := "url:https://x"
  const TABBED := LINK + [TAB]
  const SPACED := " " + LINK
  const SITE := "s"
  const THREAD := "s-00000000000000000000000000"
  const EVENT := "s-00000000000000000000000001"

  function ExampleRules(): Rules { Rules(TrimSpaces, s => s, IsUrl, s => s, s => s, s => true) }

  function Someone(): Author { Author("person", "ann", "", "", "", "", "", SITE) }

  /** One board, shared on one network, with one open thread. */
  function ExampleRows(links: seq<Link>): Core {
    NoRows().(
      boards := map["b" := BoardRow(SITE, "", Someone(), 0, "net")],
      threads := map[THREAD := ThreadRow("b", "t", Open, "", Someone(), 0, 0, links, [], "", false)])
  }

  function BothLinks(): seq<Link> { [Link(LINK, "", Someone(), 0), Link(TABBED, "", Someone(), 0)] }

  function ExampleSettle(into: string): Local { Curating(Settle, THREAD, into, "", "", "", EVENT) }

  lemma ExampleIsOrderly()
    ensures Orderly(ExampleRules())
  {
  }

  lemma ExampleTargets()
    ensures TrimSpaces(SPACED) == LINK == TrimSpaces(TABBED) && IsUrl(LINK) && !IsUrl(SPACED) && IsUrl(TABBED)
    ensures SPACED != LINK && LINK != TABBED
  {
    assert SPACED[1..] == LINK && TABBED[..|LINK|] == LINK;
    assert TrimSpaces(LINK) == LINK;
    assert SPACED[0] == ' ' && PREFIX[0] == 'u' && |TABBED| == |LINK| + 1;
    assert LINK[..|PREFIX|] == PREFIX && TABBED[..|PREFIX|] == PREFIX;
  }

  lemma ExampleNames()
    ensures Minted(SITE, THREAD) && Minted(SITE, EVENT) && Format.IsBoardPart("b")
  {
    assert THREAD[..1] == SITE && EVENT[..1] == SITE;
    assert THREAD[..2] == SITE + "-" && EVENT[..2] == SITE + "-";
  }

  lemma ExampleIsInOrder(links: seq<Link>)
    ensures var c := ExampleRows(links); CoreInv(c) && NamesOk(c) && Agree(c, c, "b", "net")
  {
    ExampleNames();
    hide Format.IsBoardPart, Ids.IsIdPart;
  }

  /** Everything is as it should be, and the settle goes through. */
  lemma SettleIsAsked(json: Codec, links: seq<Link>, into: string)
    requires Lawful(json) && TrimSpaces(into) == LINK
    ensures var rules, c, op := ExampleRules(), ExampleRows(links), ExampleSettle(into);
      var plan := Plan(rules, c, op, SITE, Someone(), 1);
      plan.Some? && OpAsked(rules, json, c, c, "b", "net", SITE, op, Someone(), 1, plan.value)
  {
    var rules, c, op := ExampleRules(), ExampleRows(links), ExampleSettle(into);
    ExampleIsOrderly();
    ExampleTargets();
    ExampleNames();
    ExampleIsInOrder(links);
    hide Orderly, CoreInv, NamesOk, Agree, Minted, Lawful, Format.IsBoardPart, TrimSpaces, IsUrl;
    var plan := Plan(rules, c, op, SITE, Someone(), 1);
    assert plan.Some? && Fits(c, plan.value);
  }

  /** The three settles: ignored and parting the copies, taken and parting them, taken and harmless. */
  lemma SettlesPart(json: Codec)
    requires Lawful(json)
    ensures !Carried(json, [], SPACED).0 && !Carried(json, [], SPACED).1
    ensures Carried(json, [], TABBED).0 && !Carried(json, [], TABBED).1
    ensures Carried(json, BothLinks(), TABBED).0 && Carried(json, BothLinks(), TABBED).1
  {
    ExampleTargets();
    OneSettle(json, [], SPACED);
    OneSettle(json, [], TABBED);
    OneSettle(json, BothLinks(), TABBED);
    hide Carried, TrimSpaces, IsUrl;
    assert BothLinks()[0].ref == LINK && BothLinks()[1].ref == TABBED;
  }

  /** Whether the settle's file is taken by the other site, and whether the copies agree afterwards. */
  ghost function Carried(json: Codec, links: seq<Link>, into: string): (bool, bool) {
    var rules, c := ExampleRules(), ExampleRows(links);
    var plan := Plan(rules, c, ExampleSettle(into), SITE, Someone(), 1);
    if plan.None? then (false, true)
    else
      (DeliverAll(rules, json, c, "net", SITE, Shared(json, c, plan.value, SITE)).Some?,
       Commutes(rules, json, c, c, "b", "net", SITE, plan.value))
  }

  lemma OneSettle(json: Codec, links: seq<Link>, into: string)
    requires Lawful(json) && TrimSpaces(into) == LINK
    ensures Carried(json, links, into).0 <==> IsUrl(into)
    ensures Carried(json, links, into).1 <==>
      into == LINK || (IsUrl(into) && HasLink(links, into) && HasLink(links, LINK))
  {
    var rules, c, op := ExampleRules(), ExampleRows(links), ExampleSettle(into);
    SettleIsAsked(json, links, into);
    hide OpAsked, Commutes, TrimSpaces, IsUrl, Lawful, DeliverAll, Shared, Plan;
    var plan := Plan(rules, c, op, SITE, Someone(), 1);
    SettleCommutesIff(rules, json, c, c, "b", "net", SITE, op, Someone(), 1, plan.value);
  }
}
