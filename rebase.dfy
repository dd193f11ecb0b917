/** The pull-request-only variant: it walks the open items page by page and
    marks every unlabeled pull request whose last activity predates a given
    commit, charging one operation per page request and two per mark, and
    testing the budget after every pull request it does not skip. */
module Rebase {
  import opened Issues

  /** The run's inputs. The credential is not part of the model, and the commit
      record arrives already reduced to its author date. */
  datatype Args = Args(stalePrMessage: string, stalePrLabel: string)

  /** The budget `run` starts with. */
  const RUN_BUDGET: int := 100

  /** The last activity lies strictly before the commit date. An unparseable
      commit date compares false with every time, so it asks for nothing. */
  predicate RebaseDue(updatedAt: int, commitDate: Option<int>)
  {
    match commitDate
    case None => false
    case Some(date) => updatedAt < date
  }

  /** The comparison is strict, an unparseable date asks for nothing, and an
      item due for one commit date is due for every later one. */
  lemma RebaseDueStrict(updatedAt: int, commitDate: Option<int>, later: int)
    ensures commitDate.None? ==> !RebaseDue(updatedAt, commitDate)
    ensures !RebaseDue(updatedAt, Some(updatedAt))
    ensures RebaseDue(updatedAt, commitDate) && commitDate.value <= later ==> RebaseDue(updatedAt, Some(later))
  {
  }

  /** What the loop does with one listed item: skip it at no cost and without
      testing the budget, test the budget having done nothing, or mark it. */
  datatype Step = Skipped | Idle | Marked

  function Classify(args: Args, commitDate: Option<int>, it: Item): (s: Step)
    ensures s == Skipped <==>
      !it.isPr || args.stalePrMessage == "" || IsLabeled(it.labels, args.stalePrLabel)
    ensures s == Marked <==>
      && it.isPr && args.stalePrMessage != ""
      && !IsLabeled(it.labels, args.stalePrLabel)
      && RebaseDue(it.updatedAt, commitDate)
  {
    if !it.isPr then Skipped
    else if args.stalePrMessage == "" then Skipped
    else if IsLabeled(it.labels, args.stalePrLabel) then Skipped
    else if RebaseDue(it.updatedAt, commitDate) then Marked
    else Idle
  }

  /** The two requests of one mark: the comment, then the label. */
  function MarkRequests(number: int, staleMessage: string, staleLabel: string): seq<Request>
  {
    [CreateComment(number, staleMessage), AddLabels(number, [staleLabel])]
  }

  // ---------------------------------------------------------------------
  // One page

  /** Whether the page loop returned early, the budget afterwards, and the
      requests it sent. */
  datatype Scan = Scan(stopped: bool, left: int, requests: seq<Request>)

  /** The page loop over `items` with `left` operations left. */
  function ScanPage(args: Args, commitDate: Option<int>, items: seq<Item>, left: int): (s: Scan)
    decreases |items|
  {
    if items == [] then Scan(false, left, [])
    else
      var it := items[0];
      match Classify(args, commitDate, it)
      case Skipped => ScanPage(args, commitDate, items[1..], left)
      case Idle =>
        if left <= 0 then Scan(true, left, []) else ScanPage(args, commitDate, items[1..], left)
      case Marked =>
        var mark := MarkRequests(it.number, args.stalePrMessage, args.stalePrLabel);
        if left - 2 <= 0 then Scan(true, left - 2, mark)
        else
          var rest := ScanPage(args, commitDate, items[1..], left - 2);
          Scan(rest.stopped, rest.left, mark + rest.requests)
  }

  // ---------------------------------------------------------------------
  // The page walk

  /** The value returned, the counter at the return, and the requests sent. */
  datatype PrOutcome = PrOutcome(result: int, left: int, requests: seq<Request>)

  /** The walk from page `page` with `left` operations left. */
  function PrWalk(args: Args, commitDate: Option<int>, pages: seq<seq<Item>>, left: int, page: PageNumber): (w: PrOutcome)
    decreases PagesLeft(|pages|, page)
  {
    var fetch := ListOpen(page, None);
    var items := PageAt(pages, page);
    if items == [] || left - 1 == 0 then PrOutcome(left - 1, left - 1, [fetch])
    else
      var s := ScanPage(args, commitDate, items, left - 1);
      if s.stopped then PrOutcome(0, s.left, [fetch] + s.requests)
      else
        var rest := PrWalk(args, commitDate, pages, s.left, page + 1);
        PrOutcome(rest.result, rest.left, [fetch] + s.requests + rest.requests)
  }

  /** Comment with `staleMessage`, then add `staleLabel`; two operations. */
  method MarkStale(issue: Item, staleMessage: string, staleLabel: string) returns (ops: int, sent: seq<Request>)
    ensures ops == 2
    ensures sent == MarkRequests(issue.number, staleMessage, staleLabel)
  {
    sent := [CreateComment(issue.number, staleMessage)];
    sent := sent + [AddLabels(issue.number, [staleLabel])];
    ops := 2;
  }

  /** Process page `page` and, unless the budget ran out, every later page. */
  method ProcessIssues(args: Args, commitDate: Option<int>, pages: seq<seq<Item>>, operationsLeft: int, page: PageNumber)
    returns (r: int, sent: seq<Request>)
    ensures var w := PrWalk(args, commitDate, pages, operationsLeft, page);
      r == w.result && sent == w.requests
    decreases PagesLeft(|pages|, page)
  {
    var issues := PageAt(pages, page);
    sent := [ListOpen(page, None)];
    var left := operationsLeft - 1;
    if |issues| == 0 || left == 0 {
      return left, sent;
    }
    ghost var start := left;
    ghost var pageSent: seq<Request> := [];
    for i := 0 to |issues|
      invariant sent == [ListOpen(page, None)] + pageSent
      invariant var s := ScanPage(args, commitDate, issues[i..], left);
        ScanPage(args, commitDate, issues, start) == Scan(s.stopped, s.left, pageSent + s.requests)
    {
      var issue := issues[i];
      ScanStep(args, commitDate, issues, i, left);
      if !issue.isPr {
        assert Classify(args, commitDate, issue) == Skipped;
        continue;
      }
      var staleMessage := args.stalePrMessage;
      if staleMessage == "" {
        assert Classify(args, commitDate, issue) == Skipped;
        continue;
      }
      var staleLabel := args.stalePrLabel;
      if IsLabeled(issue.labels, staleLabel) {
        assert Classify(args, commitDate, issue) == Skipped;
        continue;
      } else if RebaseDue(issue.updatedAt, commitDate) {
        assert Classify(args, commitDate, issue) == Marked;
        var ops, marked := MarkStale(issue, staleMessage, staleLabel);
        ScanMarkedStep(args, commitDate, issues, i, left, pageSent);
        left := left - ops;
        sent := sent + marked;
        pageSent := pageSent + marked;
      } else {
        assert Classify(args, commitDate, issue) == Idle;
      }
      if left <= 0 {
        assert ScanPage(args, commitDate, issues, start) == Scan(true, left, pageSent);
        return 0, sent;
      }
    }
    assert issues[|issues|..] == [];
    assert ScanPage(args, commitDate, issues, start) == Scan(false, left, pageSent);
    var later;
    r, later := ProcessIssues(args, commitDate, pages, left, page + 1);
    sent := sent + later;
  }

  /** The entry point: the walk from page 1 with a budget of 100. */
  method Run(args: Args, commitDate: Option<int>, pages: seq<seq<Item>>) returns (r: int, sent: seq<Request>)
    ensures 0 <= r < RUN_BUDGET
    ensures |sent| > 0 && sent[0] == ListOpen(1, None)
    ensures var w := PrWalk(args, commitDate, pages, RUN_BUDGET, 1);
      r == w.result && sent == w.requests
  {
    r, sent := ProcessIssues(args, commitDate, pages, RUN_BUDGET, 1);
    PrWalkBounds(args, commitDate, pages, RUN_BUDGET, 1);
  }

  // ---------------------------------------------------------------------
  // Properties of the page loop

  /** One step of the loop: item `i` decides how the rest of the page is scanned. */
  lemma ScanStep(args: Args, commitDate: Option<int>, items: seq<Item>, i: int, left: int)
    requires 0 <= i < |items|
    ensures var it := items[i];
      var rest := items[i + 1..];
      ScanPage(args, commitDate, items[i..], left) ==
        match Classify(args, commitDate, it)
        case Skipped => ScanPage(args, commitDate, rest, left)
        case Idle =>
          if left <= 0 then Scan(true, left, []) else ScanPage(args, commitDate, rest, left)
        case Marked =>
          var mark := MarkRequests(it.number, args.stalePrMessage, args.stalePrLabel);
          if left - 2 <= 0 then Scan(true, left - 2, mark)
          else
            var s := ScanPage(args, commitDate, rest, left - 2);
            Scan(s.stopped, s.left, mark + s.requests)
  {
    assert items[i..][1..] == items[i + 1..];
  }

  /** A mark that leaves budget moves the marked requests from the rest of the
      page's scan to what has been sent. */
  lemma ScanMarkedStep(args: Args, commitDate: Option<int>, items: seq<Item>, i: int, left: int, before: seq<Request>)
    requires 0 <= i < |items| && Classify(args, commitDate, items[i]) == Marked
    ensures left - 2 > 0 ==>
      var it := items[i];
      var mark := MarkRequests(it.number, args.stalePrMessage, args.stalePrLabel);
      var s := ScanPage(args, commitDate, items[i..], left);
      var r := ScanPage(args, commitDate, items[i + 1..], left - 2);
      Scan(s.stopped, s.left, before + s.requests) == Scan(r.stopped, r.left, (before + mark) + r.requests)
  {
    ScanStep(args, commitDate, items, i, left);
  }

  /** The loop spends two operations per comment, pairs every comment with a
      label request, and sends no page request and no close. */
  lemma {:induction false} ScanAccounting(args: Args, commitDate: Option<int>, items: seq<Item>, left: int)
    ensures var s := ScanPage(args, commitDate, items, left);
      && left - s.left == 2 * Comments(s.requests)
      && Comments(s.requests) == LabelRequests(s.requests)
      && Fetches(s.requests) == [] && Closes(s.requests) == 0
    decreases |items|
  {
    if items != [] {
      var it := items[0];
      ScanAccounting(args, commitDate, items[1..], left);
      ScanAccounting(args, commitDate, items[1..], left - 2);
      var mark := MarkRequests(it.number, args.stalePrMessage, args.stalePrLabel);
      assert mark == [mark[0]] + [mark[1]];
      SingleRequest(mark[0]);
      SingleRequest(mark[1]);
      TraceAppend([mark[0]], [mark[1]]);
      TraceAppend(mark, ScanPage(args, commitDate, items[1..], left - 2).requests);
    }
  }

  /** From a positive budget the loop overshoots by at most one operation; it
      returns early exactly when the budget is spent, and otherwise keeps a
      positive budget. */
  lemma {:induction false} ScanFromPositive(args: Args, commitDate: Option<int>, items: seq<Item>, left: int)
    requires left >= 1
    ensures var s := ScanPage(args, commitDate, items, left);
      && -1 <= s.left <= left
      && (s.stopped <==> s.left <= 0)
    decreases |items|
  {
    if items != [] {
      ScanFromPositive(args, commitDate, items[1..], left);
      if left - 2 >= 1 {
        ScanFromPositive(args, commitDate, items[1..], left - 2);
      }
    }
  }

  /** Every operation the loop spends is one request it sends. */
  lemma {:induction false} ScanSpendsPerRequest(args: Args, commitDate: Option<int>, items: seq<Item>, left: int)
    ensures var s := ScanPage(args, commitDate, items, left);
      left - s.left == |s.requests|
    decreases |items|
  {
    if items != [] {
      ScanSpendsPerRequest(args, commitDate, items[1..], left);
      ScanSpendsPerRequest(args, commitDate, items[1..], left - 2);
    }
  }

  /** Once the loop returns early, the rest of the page is never looked at. */
  lemma {:induction false} ScanStopIgnoresRest(args: Args, commitDate: Option<int>, items: seq<Item>, more: seq<Item>, left: int)
    requires ScanPage(args, commitDate, items, left).stopped
    ensures ScanPage(args, commitDate, items + more, left) == ScanPage(args, commitDate, items, left)
    decreases |items|
  {
    var it := items[0];
    assert (items + more)[0] == it && (items + more)[1..] == items[1..] + more;
    match Classify(args, commitDate, it)
    case Skipped =>
      ScanStopIgnoresRest(args, commitDate, items[1..], more, left);
    case Idle =>
      if left > 0 {
        ScanStopIgnoresRest(args, commitDate, items[1..], more, left);
      }
    case Marked =>
      if left - 2 > 0 {
        ScanStopIgnoresRest(args, commitDate, items[1..], more, left - 2);
      }
  }

  /** The pull requests of `items` that the loop does not skip, in order. */
  function Considered(args: Args, commitDate: Option<int>, items: seq<Item>): (cs: seq<Item>)
    ensures |cs| <= |items|
  {
    if items == [] then []
    else
      var head := if Classify(args, commitDate, items[0]) == Skipped then [] else [items[0]];
      head + Considered(args, commitDate, items[1..])
  }

  /** Skipped items (issues, labeled pull requests, every item when the message
      is empty) neither cost anything nor end the loop. */
  lemma {:induction false} ScanIgnoresSkipped(args: Args, commitDate: Option<int>, items: seq<Item>, left: int)
    ensures ScanPage(args, commitDate, items, left) == ScanPage(args, commitDate, Considered(args, commitDate, items), left)
    decreases |items|
  {
    if items != [] {
      var it := items[0];
      var cs := Considered(args, commitDate, items[1..]);
      ScanIgnoresSkipped(args, commitDate, items[1..], left);
      ScanIgnoresSkipped(args, commitDate, items[1..], left - 2);
      if Classify(args, commitDate, it) != Skipped {
        assert Considered(args, commitDate, items) == [it] + cs;
        assert ([it] + cs)[0] == it && ([it] + cs)[1..] == cs;
      } else {
        assert Considered(args, commitDate, items) == cs;
      }
    }
  }

  // ---------------------------------------------------------------------
  // Properties of the walk

  /** The walk charges one operation per page request and two per comment, pairs
      every comment with a label request, and closes nothing. */
  lemma {:induction false} PrWalkAccounting(args: Args, commitDate: Option<int>, pages: seq<seq<Item>>, left: int, page: PageNumber)
    ensures var w := PrWalk(args, commitDate, pages, left, page);
      && left - w.left == |Fetches(w.requests)| + 2 * Comments(w.requests)
      && Comments(w.requests) == LabelRequests(w.requests)
      && Closes(w.requests) == 0
    decreases PagesLeft(|pages|, page)
  {
    var fetch := ListOpen(page, None);
    var items := PageAt(pages, page);
    SingleRequest(fetch);
    if !(items == [] || left - 1 == 0) {
      var s := ScanPage(args, commitDate, items, left - 1);
      ScanAccounting(args, commitDate, items, left - 1);
      TraceAppend([fetch], s.requests);
      if !s.stopped {
        var rest := PrWalk(args, commitDate, pages, s.left, page + 1);
        PrWalkAccounting(args, commitDate, pages, s.left, page + 1);
        TraceAppend([fetch] + s.requests, rest.requests);
      }
    }
  }

  /** Every call sends its page request first, and every operation the walk
      spends is one request it sends: a fetch, a comment or a label. */
  lemma {:induction false} PrWalkSpendsPerRequest(args: Args, commitDate: Option<int>, pages: seq<seq<Item>>, left: int, page: PageNumber)
    ensures var w := PrWalk(args, commitDate, pages, left, page);
      && |w.requests| >= 1 && w.requests[0] == ListOpen(page, None)
      && left - w.left == |w.requests|
    decreases PagesLeft(|pages|, page)
  {
    var items := PageAt(pages, page);
    if !(items == [] || left - 1 == 0) {
      var s := ScanPage(args, commitDate, items, left - 1);
      ScanSpendsPerRequest(args, commitDate, items, left - 1);
      if !s.stopped {
        PrWalkSpendsPerRequest(args, commitDate, pages, s.left, page + 1);
      }
    }
  }

  /** The walk returns its counter, or 0 once the counter is spent. */
  lemma {:induction false} PrWalkReturns(args: Args, commitDate: Option<int>, pages: seq<seq<Item>>, left: int, page: PageNumber)
    requires left >= 1
    ensures var w := PrWalk(args, commitDate, pages, left, page);
      w.result == w.left || (w.result == 0 && w.left <= 0)
    decreases PagesLeft(|pages|, page)
  {
    var items := PageAt(pages, page);
    if !(items == [] || left - 1 == 0) {
      var s := ScanPage(args, commitDate, items, left - 1);
      ScanFromPositive(args, commitDate, items, left - 1);
      if !s.stopped {
        PrWalkReturns(args, commitDate, pages, s.left, page + 1);
      }
    }
  }

  /** From a positive budget the value returned lies between 0 and one less than
      the budget, and the counter never falls below -1. */
  lemma {:induction false} PrWalkBounds(args: Args, commitDate: Option<int>, pages: seq<seq<Item>>, left: int, page: PageNumber)
    requires left >= 1
    ensures var w := PrWalk(args, commitDate, pages, left, page);
      && 0 <= w.result <= left - 1
      && -1 <= w.left <= left - 1
    decreases PagesLeft(|pages|, page)
  {
    var items := PageAt(pages, page);
    if !(items == [] || left - 1 == 0) {
      var s := ScanPage(args, commitDate, items, left - 1);
      ScanFromPositive(args, commitDate, items, left - 1);
      if !s.stopped {
        PrWalkBounds(args, commitDate, pages, s.left, page + 1);
      }
    }
  }

  /** The page requests of one call: its own fetch, then those of the call on the
      next page when the loop ran through the page. */
  lemma PrFetchesUnfold(args: Args, commitDate: Option<int>, pages: seq<seq<Item>>, left: int, page: PageNumber)
    ensures var items := PageAt(pages, page);
      var fetch := ListOpen(page, None);
      var fs := Fetches(PrWalk(args, commitDate, pages, left, page).requests);
      if items == [] || left - 1 == 0 then fs == [fetch]
      else
        var s := ScanPage(args, commitDate, items, left - 1);
        if s.stopped then fs == [fetch]
        else fs == [fetch] + Fetches(PrWalk(args, commitDate, pages, s.left, page + 1).requests)
  {
    var fetch := ListOpen(page, None);
    var items := PageAt(pages, page);
    SingleRequest(fetch);
    if !(items == [] || left - 1 == 0) {
      var s := ScanPage(args, commitDate, items, left - 1);
      ScanAccounting(args, commitDate, items, left - 1);
      TraceAppend([fetch], s.requests);
      if !s.stopped {
        TraceAppend([fetch] + s.requests, PrWalk(args, commitDate, pages, s.left, page + 1).requests);
      }
    }
  }

  /** Pages are requested as page, page + 1, ... without a label filter, and no
      page is requested after an empty one. */
  lemma {:induction false} PrFetchOrder(args: Args, commitDate: Option<int>, pages: seq<seq<Item>>, left: int, page: PageNumber)
    ensures var fs := Fetches(PrWalk(args, commitDate, pages, left, page).requests);
      && |fs| >= 1
      && PagesFrom(fs, page, None)
      && (forall q :: page <= q < page + |fs| - 1 ==> PageAt(pages, q) != [])
    decreases PagesLeft(|pages|, page)
  {
    var items := PageAt(pages, page);
    PrFetchesUnfold(args, commitDate, pages, left, page);
    if !(items == [] || left - 1 == 0) {
      var s := ScanPage(args, commitDate, items, left - 1);
      if !s.stopped {
        var later := Fetches(PrWalk(args, commitDate, pages, s.left, page + 1).requests);
        PrFetchOrder(args, commitDate, pages, s.left, page + 1);
        ConsecutivePages(page, None, later);
      }
    }
  }

  /** An empty page, or a budget that the page request spends exactly, ends the
      walk: the counter is returned and no item is looked at. */
  lemma PrWalkEarlyExit(args: Args, commitDate: Option<int>, pages: seq<seq<Item>>, left: int, page: PageNumber)
    requires PageAt(pages, page) == [] || left == 1
    ensures PrWalk(args, commitDate, pages, left, page) == PrOutcome(left - 1, left - 1, [ListOpen(page, None)])
  {
  }

  /** From a positive budget, the walk goes on to the next page only with a
      positive budget, so every call is entered with at least one operation. */
  lemma RecursionKeepsBudget(args: Args, commitDate: Option<int>, pages: seq<seq<Item>>, left: int, page: PageNumber)
    requires left >= 1 && PageAt(pages, page) != [] && left != 1
    requires !ScanPage(args, commitDate, PageAt(pages, page), left - 1).stopped
    ensures var s := ScanPage(args, commitDate, PageAt(pages, page), left - 1);
      && s.left >= 1
      && PrWalk(args, commitDate, pages, left, page).result == PrWalk(args, commitDate, pages, s.left, page + 1).result
  {
    ScanFromPositive(args, commitDate, PageAt(pages, page), left - 1);
  }

  /** Once the page loop returns early, the walk ends: the page it was on is the
      last page requested, and the counter is not restored. */
  lemma StopEndsWalk(args: Args, commitDate: Option<int>, pages: seq<seq<Item>>, left: int, page: PageNumber)
    requires PageAt(pages, page) != [] && left != 1
    requires ScanPage(args, commitDate, PageAt(pages, page), left - 1).stopped
    ensures var w := PrWalk(args, commitDate, pages, left, page);
      && w.result == 0
      && Fetches(w.requests) == [ListOpen(page, None)]
  {
    var s := ScanPage(args, commitDate, PageAt(pages, page), left - 1);
    ScanAccounting(args, commitDate, PageAt(pages, page), left - 1);
    SingleRequest(ListOpen(page, None));
    TraceAppend([ListOpen(page, None)], s.requests);
  }

  /** With a single operation left the page request uses it up: nothing is
      processed, whatever the page holds. */
  lemma OneOperationOnlyFetches(args: Args, commitDate: Option<int>, pages: seq<seq<Item>>, page: PageNumber)
    ensures PrWalk(args, commitDate, pages, 1, page) == PrOutcome(0, 0, [ListOpen(page, None)])
  {
  }

  /** A budget of 3 allows one mark: the first page's pull request due for a
      rebase is marked and the walk returns 0 before looking at the next one. */
  lemma StopsAfterMarkSpendsBudget(args: Args, commitDate: int, a: Item, b: Item)
    requires args.stalePrMessage != "" && a.isPr && b.isPr
    requires a.labels == [] && b.labels == []
    requires a.updatedAt < commitDate && b.updatedAt < commitDate
    ensures PrWalk(args, Some(commitDate), [[a, b]], 3, 1)
      == PrOutcome(0, 0, [ListOpen(1, None)] + MarkRequests(a.number, args.stalePrMessage, args.stalePrLabel))
  {
    assert Classify(args, Some(commitDate), a) == Marked;
    assert [a, b][1..] == [b];
  }
}
