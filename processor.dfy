/** The exemption-aware stale processor: it walks the open items page by page,
    closes unlabeled items past the close threshold, re-marks stale-labeled
    items past the stale threshold, and charges every action to the field
    `operationsLeft`, which it tests only before fetching a page. */
module Processor {
  import opened Issues

  /** The run's configuration. The credential is not part of the model. */
  datatype Options = Options(
    staleIssueMessage: string,
    stalePrMessage: string,
    daysBeforeStale: int,
    daysBeforeClose: int,
    staleIssueLabel: string,
    exemptIssueLabel: string,
    stalePrLabel: string,
    exemptPrLabel: string,
    onlyLabels: string,
    operationsPerRun: int,
    debugOnly: bool)

  function StaleMessage(o: Options, isPr: bool): string
  {
    if isPr then o.stalePrMessage else o.staleIssueMessage
  }

  function StaleLabel(o: Options, isPr: bool): string
  {
    if isPr then o.stalePrLabel else o.staleIssueLabel
  }

  function ExemptLabel(o: Options, isPr: bool): string
  {
    if isPr then o.exemptPrLabel else o.exemptIssueLabel
  }

  /** The item's kind has a non-empty exempt label and the item carries it. */
  predicate IsExempt(o: Options, it: Item)
  {
    ExemptLabel(o, it.isPr) != "" && IsLabeled(it.labels, ExemptLabel(o, it.isPr))
  }

  // ---------------------------------------------------------------------
  // One item

  /** What the processor does with one item. */
  datatype Action = Skip | CloseIt | MarkIt(message: string, labelName: string)

  /** What an action costs the budget: one per close, two per mark. */
  function Cost(a: Action): (c: nat)
    ensures a.Skip? <==> c == 0
  {
    match a
    case Skip => 0
    case CloseIt => 1
    case MarkIt(_, _) => 2
  }

  /** The decision procedure for one item, in the order the processor tests. */
  function Decide(o: Options, it: Item, now: int): (a: Action)
    // an empty message disables the kind; an exempt item is never touched
    ensures StaleMessage(o, it.isPr) == "" ==> a == Skip
    ensures IsExempt(o, it) ==> a == Skip
    // close: enabled kind, not exempt, no stale label, and at least daysBeforeClose days idle
    ensures a == CloseIt <==>
      && StaleMessage(o, it.isPr) != ""
      && !IsExempt(o, it)
      && !IsLabeled(it.labels, StaleLabel(o, it.isPr))
      && o.daysBeforeClose >= 0
      && now - it.updatedAt >= 86400000 * o.daysBeforeClose
    // re-mark: enabled kind, not exempt, stale label present, at least daysBeforeStale days idle
    ensures a.MarkIt? <==>
      && StaleMessage(o, it.isPr) != ""
      && !IsExempt(o, it)
      && IsLabeled(it.labels, StaleLabel(o, it.isPr))
      && now - it.updatedAt >= 86400000 * o.daysBeforeStale
    ensures a.MarkIt? ==> a == MarkIt(StaleMessage(o, it.isPr), StaleLabel(o, it.isPr))
  {
    var staleMessage := StaleMessage(o, it.isPr);
    var staleLabel := StaleLabel(o, it.isPr);
    if staleMessage == "" then Skip
    else if IsExempt(o, it) then Skip
    else if !IsLabeled(it.labels, staleLabel) then
      if o.daysBeforeClose >= 0 && WasLastUpdatedBefore(it.updatedAt, now, o.daysBeforeClose)
      then CloseIt
      else Skip
    else if WasLastUpdatedBefore(it.updatedAt, now, o.daysBeforeStale) then MarkIt(staleMessage, staleLabel)
    else Skip
  }

  /** The requests an action sends: none in debug mode. */
  function Effects(o: Options, it: Item, a: Action): seq<Request>
  {
    if o.debugOnly then []
    else match a
      case Skip => []
      case CloseIt => [Update(it.number, "closed")]
      case MarkIt(message, labelName) => [CreateComment(it.number, message), AddLabels(it.number, [labelName])]
  }

  // ---------------------------------------------------------------------
  // One page. Acting on a page does not depend on the budget: the budget is
  // tested only before a page is fetched.

  /** What acting on every item of `items` costs. */
  function PageCost(o: Options, items: seq<Item>, now: int): int
  {
    if items == [] then 0
    else PageCost(o, items[..|items| - 1], now) + Cost(Decide(o, items[|items| - 1], now))
  }

  /** The requests sent while acting on every item of `items`, in order. */
  function PageEvents(o: Options, items: seq<Item>, now: int): seq<Request>
  {
    if items == [] then []
    else PageEvents(o, items[..|items| - 1], now) + Effects(o, items[|items| - 1], Decide(o, items[|items| - 1], now))
  }

  /** A page's part in the walk: whether it ends the walk, what it costs, what it sends. */
  datatype PageResult = PageResult(empty: bool, cost: int, requests: seq<Request>)

  function ActOnPage(o: Options, items: seq<Item>, now: int): (p: PageResult)
    ensures p.empty <==> items == []
  {
    PageResult(items == [], PageCost(o, items, now), PageEvents(o, items, now))
  }

  /** The results of the pages of `pages`, in page order. */
  function Results(o: Options, pages: seq<seq<Item>>, now: int): (rs: seq<PageResult>)
    ensures |rs| == |pages|
  {
    if pages == [] then [] else [ActOnPage(o, pages[0], now)] + Results(o, pages[1..], now)
  }

  /** The result of page `page`; the pages past the end are empty. */
  function ResultAt(rs: seq<PageResult>, page: int): PageResult
  {
    if 1 <= page <= |rs| then rs[page - 1] else PageResult(true, 0, [])
  }

  // ---------------------------------------------------------------------
  // The page walk

  /** The value returned, the budget field afterwards, and the requests sent. */
  datatype WalkOutcome = WalkOutcome(result: int, left: int, requests: seq<Request>)

  /** The walk over page results from page `page` with `left` operations left. */
  function WalkFrom(filter: string, left: int, rs: seq<PageResult>, page: PageNumber): WalkOutcome
    decreases PagesLeft(|rs|, page)
  {
    if left <= 0 then WalkOutcome(0, left, [])
    else
      var p := ResultAt(rs, page);
      if p.empty then WalkOutcome(left, left, [ListOpen(page, Some(filter))])
      else
        var rest := WalkFrom(filter, left - p.cost, rs, page + 1);
        WalkOutcome(rest.result, rest.left, [ListOpen(page, Some(filter))] + p.requests + rest.requests)
  }

  /** The processor's walk over `pages` from page `page` with `left` operations left. */
  function Walk(o: Options, left: int, pages: seq<seq<Item>>, now: int, page: PageNumber): WalkOutcome
  {
    WalkFrom(o.onlyLabels, left, Results(o, pages, now), page)
  }

  class IssueProcessor {
    const options: Options
    /** The remaining budget. */
    var operationsLeft: int
    /** Every request this processor has sent to the tracker, in order. */
    var requests: seq<Request>

    /** As written: the budget starts at 0 whatever `operationsPerRun` says. */
    constructor (options: Options)
      ensures this.options == options
      ensures operationsLeft == 0 && requests == []
    {
      this.options := options;
      operationsLeft := 0;
      requests := [];
    }

    /** As evidently intended: the budget starts at `operationsPerRun`. */
    constructor WithBudget(options: Options)
      ensures this.options == options
      ensures operationsLeft == options.operationsPerRun && requests == []
    {
      this.options := options;
      operationsLeft := options.operationsPerRun;
      requests := [];
    }

    /** Fetch one page of open items, filtered by `onlyLabels`. */
    method GetIssues(pages: seq<seq<Item>>, page: PageNumber) returns (items: seq<Item>)
      modifies this`requests
      ensures items == PageAt(pages, page)
      ensures requests == old(requests) + [ListOpen(page, Some(options.onlyLabels))]
    {
      requests := requests + [ListOpen(page, Some(options.onlyLabels))];
      items := PageAt(pages, page);
    }

    /** Comment with `staleMessage`, then add `staleLabel`; nothing in debug mode. */
    method MarkStale(issue: Item, staleMessage: string, staleLabel: string)
      modifies this`requests
      ensures requests == old(requests) + Effects(options, issue, MarkIt(staleMessage, staleLabel))
    {
      if options.debugOnly {
        return;
      }
      requests := requests + [CreateComment(issue.number, staleMessage)];
      requests := requests + [AddLabels(issue.number, [staleLabel])];
    }

    /** Set the item's state to closed; nothing in debug mode. */
    method CloseIssue(issue: Item)
      modifies this`requests
      ensures requests == old(requests) + Effects(options, issue, CloseIt)
    {
      if options.debugOnly {
        return;
      }
      requests := requests + [Update(issue.number, "closed")];
    }

    /** The body of the page loop: act on one item and charge the budget for it. */
    method ProcessIssue(issue: Item, now: int)
      modifies this`operationsLeft, this`requests
      ensures operationsLeft == old(operationsLeft) - Cost(Decide(options, issue, now))
      ensures requests == old(requests) + Effects(options, issue, Decide(options, issue, now))
    {
      var isPr := issue.isPr;
      var staleMessage := StaleMessage(options, isPr);
      var staleLabel := StaleLabel(options, isPr);
      var exemptLabel := ExemptLabel(options, isPr);
      if staleMessage == "" {
        return;
      }
      if exemptLabel != "" && IsLabeled(issue.labels, exemptLabel) {
        return;
      }
      if !IsLabeled(issue.labels, staleLabel) {
        if options.daysBeforeClose >= 0 && WasLastUpdatedBefore(issue.updatedAt, now, options.daysBeforeClose) {
          CloseIssue(issue);
          operationsLeft := operationsLeft - 1;
        }
      } else if WasLastUpdatedBefore(issue.updatedAt, now, options.daysBeforeStale) {
        MarkStale(issue, staleMessage, staleLabel);
        operationsLeft := operationsLeft - 2;
      }
    }

    /** The loop over one fetched page: every item is acted on, whatever the budget becomes. */
    method ProcessPage(issues: seq<Item>, now: int)
      modifies this`operationsLeft, this`requests
      ensures operationsLeft == old(operationsLeft) - PageCost(options, issues, now)
      ensures requests == old(requests) + PageEvents(options, issues, now)
    {
      for i := 0 to |issues|
        invariant operationsLeft == old(operationsLeft) - PageCost(options, issues[..i], now)
        invariant requests == old(requests) + PageEvents(options, issues[..i], now)
      {
        PageExtend(options, issues, i, now);
        ProcessIssue(issues[i], now);
      }
      assert issues[..|issues|] == issues;
    }

    /** Process page `page` and every later one while budget remains at a page start. */
    method ProcessIssues(pages: seq<seq<Item>>, now: int, page: PageNumber) returns (r: int)
      modifies this
      ensures var w := Walk(options, old(operationsLeft), pages, now, page);
        r == w.result && operationsLeft == w.left && requests == old(requests) + w.requests
      decreases PagesLeft(|pages|, page)
    {
      if operationsLeft <= 0 {
        WalkWithoutBudget(options, operationsLeft, pages, now, page);
        return 0;
      }
      var issues := GetIssues(pages, page);
      if |issues| <= 0 {
        WalkStopsOnEmptyPage(options, operationsLeft, pages, now, page);
        return operationsLeft;
      }
      ProcessPage(issues, now);
      WalkUnfold(options, old(operationsLeft), pages, now, page);
      ghost var rest := Walk(options, operationsLeft, pages, now, page + 1);
      ghost var events := PageEvents(options, issues, now);
      assert Walk(options, old(operationsLeft), pages, now, page).requests
        == [ListOpen(page, Some(options.onlyLabels))] + events + rest.requests;
      SplitTrace(old(requests), ListOpen(page, Some(options.onlyLabels)), events, rest.requests);
      r := ProcessIssues(pages, now, page + 1);
    }
  }

  /** A processor built as written, run from page 1. */
  method RunFresh(options: Options, pages: seq<seq<Item>>, now: int) returns (r: int, requests: seq<Request>)
    ensures r == 0 && requests == []
  {
    var processor := new IssueProcessor(options);
    r := processor.ProcessIssues(pages, now, 1);
    requests := processor.requests;
  }

  /** A processor whose budget starts at `operationsPerRun`, run from page 1. */
  method RunBudgeted(options: Options, pages: seq<seq<Item>>, now: int) returns (r: int, requests: seq<Request>)
    ensures options.operationsPerRun > 0 ==> |requests| > 0 && requests[0] == ListOpen(1, Some(options.onlyLabels))
    ensures options.operationsPerRun <= 0 ==> r == 0 && requests == []
    ensures var w := Walk(options, options.operationsPerRun, pages, now, 1);
      r == w.result && requests == w.requests
  {
    var processor := new IssueProcessor.WithBudget(options);
    r := processor.ProcessIssues(pages, now, 1);
    requests := processor.requests;
  }

  // ---------------------------------------------------------------------
  // Pages

  /** Regrouping a trace: what was sent before, the fetch, the page's requests, the rest. */
  lemma SplitTrace(before: seq<Request>, fetch: Request, pe: seq<Request>, rest: seq<Request>)
    ensures before + [fetch] + pe + rest == before + ([fetch] + pe + rest)
  {
  }

  /** The result the walk sees for page `page` is that of acting on the fetched page. */
  lemma {:induction false} ResultsIndex(o: Options, pages: seq<seq<Item>>, now: int, i: int)
    requires 0 <= i < |pages|
    ensures Results(o, pages, now)[i] == ActOnPage(o, pages[i], now)
  {
    if i > 0 {
      ResultsIndex(o, pages[1..], now, i - 1);
    }
  }

  lemma ResultAtPage(o: Options, pages: seq<seq<Item>>, now: int, page: int)
    ensures ResultAt(Results(o, pages, now), page) == ActOnPage(o, PageAt(pages, page), now)
  {
    if 1 <= page <= |pages| {
      ResultsIndex(o, pages, now, page - 1);
    }
  }

  /** Acting on one more item of a page adds that item's cost and requests. */
  lemma PageExtend(o: Options, items: seq<Item>, i: int, now: int)
    requires 0 <= i < |items|
    ensures PageCost(o, items[..i + 1], now) == PageCost(o, items[..i], now) + Cost(Decide(o, items[i], now))
    ensures PageEvents(o, items[..i + 1], now)
      == PageEvents(o, items[..i], now) + Effects(o, items[i], Decide(o, items[i], now))
  {
    assert items[..i + 1][..i] == items[..i];
  }

  /** Acting on a page splits along any split of the page: every item is acted on. */
  lemma {:induction false} PageAppend(o: Options, a: seq<Item>, b: seq<Item>, now: int)
    ensures PageCost(o, a + b, now) == PageCost(o, a, now) + PageCost(o, b, now)
    ensures PageEvents(o, a + b, now) == PageEvents(o, a, now) + PageEvents(o, b, now)
    decreases |b|
  {
    if b == [] {
      assert a + b == a;
    } else {
      var b' := b[..|b| - 1];
      assert (a + b)[..|a + b| - 1] == a + b';
      assert (a + b)[|a + b| - 1] == b[|b| - 1];
      PageAppend(o, a, b', now);
    }
  }

  /** One action's cost, read off its requests in live mode. */
  lemma EffectsAccounting(o: Options, it: Item, a: Action)
    ensures Fetches(Effects(o, it, a)) == []
    ensures !o.debugOnly ==> Cost(a) == Closes(Effects(o, it, a)) + 2 * Comments(Effects(o, it, a))
    ensures !o.debugOnly ==> Comments(Effects(o, it, a)) == LabelRequests(Effects(o, it, a))
    ensures o.debugOnly ==> Effects(o, it, a) == []
  {
    var es := Effects(o, it, a);
    if !o.debugOnly && a.MarkIt? {
      assert es == [es[0]] + [es[1]];
      SingleRequest(es[0]);
      SingleRequest(es[1]);
      TraceAppend([es[0]], [es[1]]);
    } else if es != [] {
      SingleRequest(es[0]);
    }
  }

  /** A page's cost, read off its requests in live mode; a dry run sends nothing. */
  lemma {:induction false} PageAccounting(o: Options, items: seq<Item>, now: int)
    ensures Fetches(PageEvents(o, items, now)) == []
    ensures !o.debugOnly ==>
      PageCost(o, items, now) == Closes(PageEvents(o, items, now)) + 2 * Comments(PageEvents(o, items, now))
    ensures !o.debugOnly ==> Comments(PageEvents(o, items, now)) == LabelRequests(PageEvents(o, items, now))
    ensures o.debugOnly ==> PageEvents(o, items, now) == []
  {
    if items != [] {
      var init, last := items[..|items| - 1], items[|items| - 1];
      PageAccounting(o, init, now);
      EffectsAccounting(o, last, Decide(o, last, now));
      TraceAppend(PageEvents(o, init, now), Effects(o, last, Decide(o, last, now)));
    }
  }

  /** Acting on an item costs at most two operations, and in live mode every
      operation charged for a page is one request sent. */
  lemma {:induction false} PageOperations(o: Options, items: seq<Item>, now: int)
    ensures 0 <= PageCost(o, items, now) <= 2 * |items|
    ensures !o.debugOnly ==> |PageEvents(o, items, now)| == PageCost(o, items, now)
  {
    if items != [] {
      PageOperations(o, items[..|items| - 1], now);
    }
  }

  /** The budget charged for a page does not depend on debug mode. */
  lemma {:induction false} PageCostIgnoresDebug(o: Options, items: seq<Item>, now: int)
    ensures PageCost(o.(debugOnly := true), items, now) == PageCost(o.(debugOnly := false), items, now)
  {
    if items != [] {
      PageCostIgnoresDebug(o, items[..|items| - 1], now);
    }
  }

  // ---------------------------------------------------------------------
  // The walk over page results

  /** Every page's requests hold no page request. */
  ghost predicate NoFetches(rs: seq<PageResult>)
  {
    forall i :: 0 <= i < |rs| ==> Fetches(rs[i].requests) == []
  }

  /** Every page's cost is read off its requests: one per close, two per comment. */
  ghost predicate Accounted(rs: seq<PageResult>)
  {
    forall i :: 0 <= i < |rs| ==>
      && rs[i].cost == Closes(rs[i].requests) + 2 * Comments(rs[i].requests)
      && Comments(rs[i].requests) == LabelRequests(rs[i].requests)
  }

  /** The counts of one walk step: its fetch, the page's requests, then the rest's. */
  lemma StepCounts(fetch: Request, pe: seq<Request>, rest: seq<Request>)
    requires fetch.ListForRepo? && Fetches(pe) == []
    ensures Fetches([fetch] + pe + rest) == [fetch] + Fetches(rest)
    ensures Closes([fetch] + pe + rest) == Closes(pe) + Closes(rest)
    ensures Comments([fetch] + pe + rest) == Comments(pe) + Comments(rest)
    ensures LabelRequests([fetch] + pe + rest) == LabelRequests(pe) + LabelRequests(rest)
  {
    TraceAppend([fetch], pe);
    TraceAppend([fetch] + pe, rest);
    SingleRequest(fetch);
  }

  lemma {:induction false} AccountingFrom(filter: string, left: int, rs: seq<PageResult>, page: PageNumber)
    requires NoFetches(rs) && Accounted(rs)
    ensures var w := WalkFrom(filter, left, rs, page);
      && left - w.left == Closes(w.requests) + 2 * Comments(w.requests)
      && Comments(w.requests) == LabelRequests(w.requests)
    decreases PagesLeft(|rs|, page)
  {
    var p := ResultAt(rs, page);
    if left > 0 {
      SingleRequest(ListOpen(page, Some(filter)));
      if !p.empty {
        var rest := WalkFrom(filter, left - p.cost, rs, page + 1);
        AccountingFrom(filter, left - p.cost, rs, page + 1);
        StepCounts(ListOpen(page, Some(filter)), p.requests, rest.requests);
      }
    }
  }

  lemma {:induction false} FetchOrderFrom(filter: string, left: int, rs: seq<PageResult>, page: PageNumber)
    requires NoFetches(rs)
    ensures PagesFrom(Fetches(WalkFrom(filter, left, rs, page).requests), page, Some(filter))
    decreases PagesLeft(|rs|, page)
  {
    var p := ResultAt(rs, page);
    if left > 0 {
      SingleRequest(ListOpen(page, Some(filter)));
      if !p.empty {
        var rest := WalkFrom(filter, left - p.cost, rs, page + 1);
        FetchOrderFrom(filter, left - p.cost, rs, page + 1);
        StepCounts(ListOpen(page, Some(filter)), p.requests, rest.requests);
        ConsecutivePages(page, Some(filter), Fetches(rest.requests));
      }
    }
  }

  lemma {:induction false} FetchesOnlyPastNonEmpty(filter: string, left: int, rs: seq<PageResult>, page: PageNumber)
    requires NoFetches(rs)
    ensures var fs := Fetches(WalkFrom(filter, left, rs, page).requests);
      forall q :: page <= q < page + |fs| - 1 ==> !ResultAt(rs, q).empty
    decreases PagesLeft(|rs|, page)
  {
    var p := ResultAt(rs, page);
    if left > 0 {
      SingleRequest(ListOpen(page, Some(filter)));
      if !p.empty {
        var rest := WalkFrom(filter, left - p.cost, rs, page + 1);
        FetchesOnlyPastNonEmpty(filter, left - p.cost, rs, page + 1);
        StepCounts(ListOpen(page, Some(filter)), p.requests, rest.requests);
      }
    }
  }

  /** Two result sequences that agree on emptiness and cost, where `dry` sends
      nothing, walk alike; the dry walk sends only the live walk's fetches. */
  lemma {:induction false} MirrorFrom(filter: string, left: int, dry: seq<PageResult>, live: seq<PageResult>, page: PageNumber)
    requires |dry| == |live| && NoFetches(live)
    requires forall i :: 0 <= i < |dry| ==>
      dry[i].empty == live[i].empty && dry[i].cost == live[i].cost && dry[i].requests == []
    ensures var d := WalkFrom(filter, left, dry, page);
      var l := WalkFrom(filter, left, live, page);
      d.result == l.result && d.left == l.left && d.requests == Fetches(l.requests)
    decreases PagesLeft(|dry|, page)
  {
    var p := ResultAt(live, page);
    if left > 0 {
      SingleRequest(ListOpen(page, Some(filter)));
      if !p.empty {
        var rest := WalkFrom(filter, left - p.cost, live, page + 1);
        MirrorFrom(filter, left - p.cost, dry, live, page + 1);
        StepCounts(ListOpen(page, Some(filter)), p.requests, rest.requests);
        assert [ListOpen(page, Some(filter))] + ResultAt(dry, page).requests == [ListOpen(page, Some(filter))];
      }
    }
  }

  // ---------------------------------------------------------------------
  // Properties of the processor's walk

  /** With no budget at entry nothing is fetched and nothing is done. */
  lemma WalkWithoutBudget(o: Options, left: int, pages: seq<seq<Item>>, now: int, page: PageNumber)
    requires left <= 0
    ensures Walk(o, left, pages, now, page) == WalkOutcome(0, left, [])
  {
  }

  /** An empty page ends the walk: one fetch, the budget returned unchanged. */
  lemma WalkStopsOnEmptyPage(o: Options, left: int, pages: seq<seq<Item>>, now: int, page: PageNumber)
    requires left > 0 && PageAt(pages, page) == []
    ensures Walk(o, left, pages, now, page) == WalkOutcome(left, left, [ListOpen(page, Some(o.onlyLabels))])
  {
    ResultAtPage(o, pages, now, page);
  }

  /** Past a non-empty page, every item of it is acted on whatever the budget
      becomes, and the walk goes on to the next page. */
  lemma WalkUnfold(o: Options, left: int, pages: seq<seq<Item>>, now: int, page: PageNumber)
    requires left > 0 && PageAt(pages, page) != []
    ensures var items := PageAt(pages, page);
      var rest := Walk(o, left - PageCost(o, items, now), pages, now, page + 1);
      Walk(o, left, pages, now, page)
        == WalkOutcome(rest.result, rest.left, [ListOpen(page, Some(o.onlyLabels))] + PageEvents(o, items, now) + rest.requests)
  {
    ResultAtPage(o, pages, now, page);
  }

  lemma AllPagesAccounted(o: Options, pages: seq<seq<Item>>, now: int)
    ensures NoFetches(Results(o, pages, now))
    ensures !o.debugOnly ==> Accounted(Results(o, pages, now))
  {
    var rs := Results(o, pages, now);
    forall i | 0 <= i < |rs|
      ensures Fetches(rs[i].requests) == []
      ensures !o.debugOnly ==>
        && rs[i].cost == Closes(rs[i].requests) + 2 * Comments(rs[i].requests)
        && Comments(rs[i].requests) == LabelRequests(rs[i].requests)
    {
      ResultsIndex(o, pages, now, i);
      PageAccounting(o, pages[i], now);
    }
  }

  /** In live mode the budget spent equals the closes plus twice the comments sent,
      and every comment is paired with a label request. */
  lemma WalkAccounting(o: Options, left: int, pages: seq<seq<Item>>, now: int, page: PageNumber)
    requires !o.debugOnly
    ensures var w := Walk(o, left, pages, now, page);
      && left - w.left == Closes(w.requests) + 2 * Comments(w.requests)
      && Comments(w.requests) == LabelRequests(w.requests)
  {
    AllPagesAccounted(o, pages, now);
    AccountingFrom(o.onlyLabels, left, Results(o, pages, now), page);
  }

  /** Pages are requested as page, page + 1, ... with the fixed query, and no page
      is requested after an empty one. */
  lemma WalkFetchOrder(o: Options, left: int, pages: seq<seq<Item>>, now: int, page: PageNumber)
    ensures var fs := Fetches(Walk(o, left, pages, now, page).requests);
      && (forall j :: 0 <= j < |fs| ==> fs[j] == ListOpen(page + j, Some(o.onlyLabels)))
      && (forall q :: page <= q < page + |fs| - 1 ==> PageAt(pages, q) != [])
  {
    var rs := Results(o, pages, now);
    AllPagesAccounted(o, pages, now);
    FetchOrderFrom(o.onlyLabels, left, rs, page);
    FetchesOnlyPastNonEmpty(o.onlyLabels, left, rs, page);
    var fs := Fetches(Walk(o, left, pages, now, page).requests);
    assert fs == Fetches(WalkFrom(o.onlyLabels, left, rs, page).requests);
    forall q | page <= q < page + |fs| - 1
      ensures PageAt(pages, q) != []
    {
      ResultAtPage(o, pages, now, q);
    }
  }

  /** A dry run decides and charges exactly as a live run; of its requests only
      the page fetches remain. */
  lemma DryRunMirrorsLiveRun(o: Options, left: int, pages: seq<seq<Item>>, now: int, page: PageNumber)
    ensures var dry := Walk(o.(debugOnly := true), left, pages, now, page);
      var live := Walk(o.(debugOnly := false), left, pages, now, page);
      && dry.result == live.result
      && dry.left == live.left
      && dry.requests == Fetches(live.requests)
  {
    var d, l := o.(debugOnly := true), o.(debugOnly := false);
    var dryRs, liveRs := Results(d, pages, now), Results(l, pages, now);
    AllPagesAccounted(l, pages, now);
    forall i | 0 <= i < |pages|
      ensures dryRs[i].empty == liveRs[i].empty && dryRs[i].cost == liveRs[i].cost && dryRs[i].requests == []
    {
      ResultsIndex(d, pages, now, i);
      ResultsIndex(l, pages, now, i);
      PageCostIgnoresDebug(o, pages[i], now);
      PageAccounting(d, pages[i], now);
    }
    MirrorFrom(o.onlyLabels, left, dryRs, liveRs, page);
  }

  /** The walk returns the budget left at its end, or 0 when that is not positive. */
  lemma {:induction false} WalkReturnsFrom(filter: string, left: int, rs: seq<PageResult>, page: PageNumber)
    ensures var w := WalkFrom(filter, left, rs, page);
      w.result == if w.left > 0 then w.left else 0
    decreases PagesLeft(|rs|, page)
  {
    var p := ResultAt(rs, page);
    if left > 0 && !p.empty {
      WalkReturnsFrom(filter, left - p.cost, rs, page + 1);
    }
  }

  /** What `processIssues` returns is the budget left when it ends, or 0 when
      the budget ran out; the field keeps the exact value, which may be negative. */
  lemma WalkReturns(o: Options, left: int, pages: seq<seq<Item>>, now: int, page: PageNumber)
    ensures var w := Walk(o, left, pages, now, page);
      && w.result == (if w.left > 0 then w.left else 0)
      && w.result >= 0
  {
    WalkReturnsFrom(o.onlyLabels, left, Results(o, pages, now), page);
  }

  /** The budget is tested only between pages: with one operation left, both
      closable items of the first page are closed and the budget ends at -1. */
  lemma OverrunWithinPage(o: Options, now: int, a: Item, b: Item)
    requires !o.debugOnly && o.staleIssueMessage != "" && o.daysBeforeClose == 0
    requires !a.isPr && !b.isPr && a.labels == [] && b.labels == []
    requires a.updatedAt <= now && b.updatedAt <= now
    ensures Walk(o, 1, [[a, b]], now, 1)
      == WalkOutcome(0, -1, [ListOpen(1, Some(o.onlyLabels)), Update(a.number, "closed"), Update(b.number, "closed")])
  {
    assert Decide(o, a, now) == CloseIt;
    assert Decide(o, b, now) == CloseIt;
    PageExtend(o, [a, b], 0, now);
    PageExtend(o, [a, b], 1, now);
    assert [a, b][..0] == [] && [a, b][..2] == [a, b];
    WalkUnfold(o, 1, [[a, b]], now, 1);
    WalkWithoutBudget(o, -1, [[a, b]], now, 2);
  }

  /** The same input to a processor built as written and to one whose budget
      was set from `operationsPerRun`: the first fetches nothing and leaves a
      due item open, the second closes it and finds the next page empty. */
  lemma UnsetBudgetSkipsDueClose(o: Options, now: int, a: Item)
    requires !o.debugOnly && o.operationsPerRun >= 2
    requires o.staleIssueMessage != "" && o.daysBeforeClose == 0
    requires !a.isPr && a.labels == [] && a.updatedAt <= now
    ensures Walk(o, 0, [[a]], now, 1) == WalkOutcome(0, 0, [])
    ensures Walk(o, o.operationsPerRun, [[a]], now, 1)
      == WalkOutcome(o.operationsPerRun - 1, o.operationsPerRun - 1,
           [ListOpen(1, Some(o.onlyLabels)), Update(a.number, "closed"), ListOpen(2, Some(o.onlyLabels))])
  {
    assert Decide(o, a, now) == CloseIt;
    PageExtend(o, [a], 0, now);
    assert [a][..0] == [] && [a][..1] == [a];
    WalkUnfold(o, o.operationsPerRun, [[a]], now, 1);
    WalkStopsOnEmptyPage(o, o.operationsPerRun - 1, [[a]], now, 2);
  }

  /** The close threshold is inclusive: an item idle exactly daysBeforeClose days is closed. */
  lemma CloseBoundaryInclusive(o: Options, it: Item, now: int)
    requires StaleMessage(o, it.isPr) != "" && !IsExempt(o, it)
    requires !IsLabeled(it.labels, StaleLabel(o, it.isPr))
    requires o.daysBeforeClose == 5 && now == it.updatedAt + 5 * DAY_MILLIS
    ensures Decide(o, it, now) == CloseIt && Cost(Decide(o, it, now)) == 1
  {
  }
}
