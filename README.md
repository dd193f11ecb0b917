# Stale: the staleness decision and operation budget, in Dafny

This project models the core of the `stale` GitHub Action (tyrion70/stale). The
action walks a repository's open issues and pull requests page by page. It
classifies each item, comments on and labels stale items, and closes items
that have gone quiet. It charges its actions to an operation budget.
The repository holds two variants, and both are modelled:

- `src/IssueProcessor.ts`, class `IssueProcessor` (module `Processor`,
  `processor.dfy`).
  - Each kind (issue or pull request) has its own message, stale label and
    exempt label.
  - An exempt item is skipped.
  - An unlabeled item is closed after `daysBeforeClose` days.
  - An item that already carries the stale label is marked again after
    `daysBeforeStale` days.
  - A debug mode performs the same decisions, page fetches and budget
    arithmetic, without sending comments, labels or closes.
  - The budget is the field `operationsLeft`. It is tested only before a page
    is fetched.
- `src/main.ts`, function `processIssues` (module `Rebase`, `rebase.dfy`).
  - It handles pull requests only.
  - A pull request without the stale label is marked when its last update is
    older than a given commit date.
  - Each page request costs one operation.
  - The walk returns 0 as soon as a processed pull request leaves the budget
    at 0 or below, even in the middle of a page.

Module `Issues` (`issues.dfy`) holds what both variants share:

- the listed item;
- the requests sent to the tracker (list a page, comment, add labels, close),
  kept as a trace in the order they are sent;
- label matching;
- the two age tests;
- the page source.

The page source is a finite sequence of pages: page `p` is element `p - 1`,
and every page past the end is empty. Times are integer milliseconds. The
current time and the commit date are parameters.

Each imperative routine is a method specified by a function, and the
properties are lemmas about that function:

| method | specified by |
|---|---|
| `IssueProcessor.ProcessIssues` | `Walk` |
| `IssueProcessor.ProcessPage` | `PageCost` / `PageEvents` |
| `IssueProcessor.ProcessIssue` | `Decide` / `Cost` / `Effects` |
| `Rebase.ProcessIssues` | `PrWalk` |

`Rebase.ProcessIssues` keeps the `for` loop with its `continue`s and its
early return; `PrWalk` is built on `ScanPage`, which specifies that loop.

Three behaviours of the code are easy to miss, and the model follows the code
in each:

- The `operations-per-run` option is never read by `IssueProcessor`, so its
  budget starts at 0 (see Findings).
- `IssueProcessor` tests the budget only before a page fetch. It finishes a
  page even when the budget falls below zero (`OverrunWithinPage`). The
  `main.ts` variant does stop mid-page, and it then returns 0 rather than
  the remaining budget (`PrWalkReturns`).
- `main.ts` charges one operation per page request as well as two per mark
  (`PrWalkAccounting`); `IssueProcessor` charges nothing for a fetch.

## Model

| member | source | states |
|---|---|---|
| `Issues.IsLabeledIffSome` | src/IssueProcessor.ts:159-163 | An item carries a label exactly when at least one of its label names matches the given name. |
| `Issues.SameLabelCharwise` | src/IssueProcessor.ts:160-161 | Two names match exactly when they have the same length and agree character by character once ASCII upper-case letters are folded. |
| `Issues.SameLabelEquivalence` | src/IssueProcessor.ts:160-161 | `SameLabel`, the label comparison, is reflexive and symmetric, and matches only names of equal length. |
| `Issues.IsLabeledExact` | src/IssueProcessor.ts:159-163 | `IsLabeled` finds a label spelled exactly as asked for, and finds nothing on an item without labels. |
| `Issues.WholeDaysElapsed` | src/IssueProcessor.ts:165-170 | `WasLastUpdatedBefore` holds exactly when the whole days elapsed since the last update reach the threshold; it stays true later and for any smaller threshold. |
| `Issues.MixedCaseMatches` | src/main.ts:98-102 | "STALE" and "Stale" match "stale"/"sTaLe"; an accented "stalé" does not match "stale". |
| `Processor.Decide` | src/IssueProcessor.ts:56-95 | The action for one item. An empty message for the item's kind, or a non-empty exempt label it carries, means no action. An item without the stale label is closed exactly when `daysBeforeClose >= 0` and at least that many days (inclusive) have passed. An item with the stale label is marked exactly when at least `daysBeforeStale` days have passed, with that kind's message and label. |
| `Processor.PageOperations` | src/IssueProcessor.ts:55-96 | `PageCost` charges at most two operations per item, and in live mode `PageEvents` sends exactly one request per operation charged (`Effects` of each decided action). |
| `Processor.WalkReturnsFrom` | src/IssueProcessor.ts:37-100 | `WalkFrom`, the page walk, returns the budget left at its end when that is positive, and 0 otherwise. |
| `Processor.WalkReturns` | src/IssueProcessor.ts:37-100 | The same for `Walk` over the fetched pages: the value returned is never negative, while the field may end below zero. |
| `Processor.CloseBoundaryInclusive` | src/IssueProcessor.ts:165-170 | An unlabeled item idle exactly 5 × 86400000 ms with `daysBeforeClose = 5` is closed, at cost 1. |
| `Processor.IssueProcessor.constructor` | src/IssueProcessor.ts:30-35 | As written, a new processor starts with `operationsLeft = 0` and has sent nothing. |
| `Processor.IssueProcessor.WithBudget` | src/IssueProcessor.ts:30-35 | The corrected constructor: `operationsLeft` starts at `operationsPerRun`. |
| `Processor.IssueProcessor.GetIssues` | src/IssueProcessor.ts:103-111 | Fetching page `p` returns that page and appends one request for open items, 100 per page, filtered by `onlyLabels`. |
| `Processor.IssueProcessor.MarkStale` | src/IssueProcessor.ts:115-139 | Appends a comment with the message and then a label request with the stale label; appends nothing in debug mode. |
| `Processor.IssueProcessor.CloseIssue` | src/IssueProcessor.ts:142-157 | Appends one close request; appends nothing in debug mode. |
| `Processor.IssueProcessor.ProcessIssue` | src/IssueProcessor.ts:56-95 | One loop iteration: the budget drops by exactly the decided action's cost (0 skip, 1 close, 2 mark), and exactly that action's requests are appended. |
| `Processor.IssueProcessor.ProcessPage` | src/IssueProcessor.ts:55-96 | Every item of a fetched page is acted on in order, whatever the budget becomes. |
| `Processor.IssueProcessor.ProcessIssues` | src/IssueProcessor.ts:37-100 | The value returned, the final budget field and the requests appended are those of `Walk` from the budget found at entry. |
| `Processor.RunFresh` | src/IssueProcessor.ts:30-45 | As written, processing with a newly constructed processor returns 0 and sends no request, whatever the options and pages. |
| `Processor.RunBudgeted` | src/IssueProcessor.ts:37-53 | With the corrected constructor, a positive `operationsPerRun` makes the first request a fetch of page 1, and a non-positive one returns 0 with no request. |
| `Processor.UnsetBudgetSkipsDueClose` | src/IssueProcessor.ts:30-53 | For `operationsPerRun >= 2`, on one page holding one due issue, the processor as written fetches nothing and closes nothing. The corrected one closes the issue, fetches page 2 and returns `operationsPerRun - 1`. |
| `Processor.WalkWithoutBudget` | src/IssueProcessor.ts:42-45 | With `operationsLeft <= 0` at entry the walk returns 0, fetches no page and performs no action. |
| `Processor.WalkStopsOnEmptyPage` | src/IssueProcessor.ts:48-53 | An empty page ends the walk after its one fetch, returning the budget unchanged. |
| `Processor.WalkUnfold` | src/IssueProcessor.ts:48-99 | Past a non-empty page the walk charges the whole page's cost, sends the page's requests, and continues at `page + 1`. |
| `Processor.PageAppend` | src/IssueProcessor.ts:55-96 | A page's cost and requests split over any split of the page: each item is acted on independently of the budget. |
| `Processor.EffectsAccounting` | src/IssueProcessor.ts:83-94 | In live mode an action's cost equals its closes plus twice its comments, and each comment comes with a label request; in debug mode it sends nothing. |
| `Processor.PageAccounting` | src/IssueProcessor.ts:55-96 | The same accounting for a whole page; a page's requests never include a fetch. |
| `Processor.PageCostIgnoresDebug` | src/IssueProcessor.ts:122-124 | What a page costs the budget does not depend on debug mode. |
| `Processor.WalkAccounting` | src/IssueProcessor.ts:37-100 | In live mode the budget spent by a walk equals its closes plus twice its comments, and comments and label requests are equal in number. |
| `Processor.WalkFetchOrder` | src/IssueProcessor.ts:48-111 | Pages are requested as `page`, `page + 1`, … with state open, 100 per page and the `onlyLabels` filter, and no page is requested after an empty one. |
| `Processor.DryRunMirrorsLiveRun` | src/IssueProcessor.ts:115-157 | A debug run returns the same value and leaves the same budget as a live run; its requests are exactly the live run's page fetches. |
| `Processor.OverrunWithinPage` | src/IssueProcessor.ts:42-99 | With one operation left, both due items of the first page are closed and the budget ends at -1: the budget is tested only between pages. |
| `Rebase.Classify` | src/main.ts:52-87 | Issues, every item when the message is empty, and pull requests already carrying the stale label are skipped. A pull request is marked exactly when it is unlabeled and its last update lies strictly before a valid commit date. |
| `Rebase.RebaseDueStrict` | src/main.ts:111-119 | `RebaseDue` is strict (an update at the commit time is not due), is false for an unparseable commit date, and an item due for one commit date is due for every later one. |
| `Rebase.MarkStale` | src/main.ts:120-143 | Sends the comment and then the label request, and reports 2 operations. |
| `Rebase.ProcessIssues` | src/main.ts:27-96 | The value returned and the requests sent are those of `PrWalk` from the given budget and page. |
| `Rebase.Run` | src/main.ts:15-25 | Starting from 100, the result lies in 0..99, and the first request is a fetch of page 1 without a label filter. |
| `Rebase.ScanAccounting` | src/main.ts:82-93 | Within a page the budget drops by exactly two per comment, every comment is paired with a label request, and nothing is fetched or closed. |
| `Rebase.ScanSpendsPerRequest` | src/main.ts:52-94 | `ScanPage`, the page loop, spends exactly one operation per request it sends. |
| `Rebase.ScanFromPositive` | src/main.ts:84-93 | From a positive budget the page loop ends between -1 and the budget it started with, and it returns early exactly when the budget is spent. |
| `Rebase.ScanStopIgnoresRest` | src/main.ts:88-93 | Once the loop returns early, the items after it on the page change nothing. |
| `Rebase.ScanIgnoresSkipped` | src/main.ts:58-81 | Removing the skipped items from a page changes nothing: they cost nothing and never end the loop. |
| `Rebase.PrWalkAccounting` | src/main.ts:41-95 | The budget spent equals the pages fetched plus twice the comments posted; comments and label requests are equal in number; nothing is closed. |
| `Rebase.PrWalkSpendsPerRequest` | src/main.ts:27-96 | `PrWalk`, the page walk, sends its page request first, and spends exactly one operation per request it sends. |
| `Rebase.StopEndsWalk` | src/main.ts:88-95 | Once the page loop returns early, the walk returns 0 and the current page is the last one requested. |
| `Rebase.PrWalkReturns` | src/main.ts:43-95 | From a positive budget the walk returns its counter, or 0 when the counter was spent. |
| `Rebase.PrWalkBounds` | src/main.ts:41-95 | From a budget b ≥ 1 the result lies in 0..b-1 and the counter never goes below -1. |
| `Rebase.RecursionKeepsBudget` | src/main.ts:88-95 | From a positive budget the walk moves on to the next page only with a positive budget. |
| `Rebase.PrFetchOrder` | src/main.ts:33-95 | Each call fetches one page, and pages are requested as `page`, `page + 1`, … (open, 100 per page, no filter), and no page after an empty one. |
| `Rebase.PrWalkEarlyExit` | src/main.ts:41-45 | An empty page, or a budget left at exactly 0 by the fetch, returns the counter after one fetch and no item processed. |
| `Rebase.OneOperationOnlyFetches` | src/main.ts:41-45 | With one operation left only the page is fetched, whatever it holds, and 0 is returned. |
| `Rebase.StopsAfterMarkSpendsBudget` | src/main.ts:82-93 | With a budget of 3 the first due pull request is marked and the walk returns 0 without looking at the second. |

## Left out

- The GitHub client, repository context and authentication. Page fetches
  are read from the page sequence. Comments, label requests and closes are
  appended to the request trace.
- Failures of the client. A failed call aborts the run with an error in the
  source; the model's client never fails.
- Logging (`core.debug`, `core.warning`, `core.error`), `core.setFailed`, the
  `try`/`catch` in `run`, and input reading (`getAndValidateArgs`).
- Promise sequencing. Each call is awaited in turn, so the model runs the
  steps sequentially.
- Label comparison uses `localeCompare` with accent sensitivity. The model
  folds ASCII upper-case letters only. Locale collation rules and non-ASCII
  case folding are not modelled.
- `daysBeforeStale`, `daysBeforeClose` and `operationsPerRun` are TypeScript
  `number`s (src/IssueProcessor.ts:13-14, 20). They may be fractional or
  `NaN`, and `NaN` makes both `daysBeforeClose >= 0` and the age test false.
  The model takes them as integers, so fractional and `NaN` settings are not
  modelled.
- Date parsing. `updated_at`, the current time and the commit date are
  integer milliseconds.
  - An unparseable commit date is `None`. It compares false, as `NaN` does
    in the source.
  - `JSON.parse` of the commit record and the read of `author.date` are not
    modelled. The model takes the parsed date.
- IssueProcessor.ts reads the clock afresh for each item. The model uses one
  `now` for the whole walk.
- Item titles and the `issueType` text appear only in log messages, so they
  are not modelled.
- `closeIssue` and `wasLastUpdatedBefore` in `src/main.ts` are never called
  there, so they are not modelled.
- lib/main.js is compiled output of an earlier `main.ts`, and it is not part
  of this model.
- The page loop of `processIssues` in IssueProcessor.ts is its own method,
  `ProcessPage`, and the loop body is `ProcessIssue`. In the source both sit
  inline in `processIssues`.

## Findings

| source | as written | input that shows it | evidently intended | confidence | as-written member | corrected member |
|---|---|---|---|---|---|---|
| src/IssueProcessor.ts:30-35 | `operationsLeft` is initialised to 0 and the constructor never copies `options.operationsPerRun` into it, so `processIssues` returns 0 at once (line 42) | any options, e.g. `operationsPerRun = 100` with one page holding an issue due for closing: nothing is fetched or closed | the budget starts at `operationsPerRun`, as the option's name and the `operations-per-run` input describe | high (not executed) | `Processor.RunFresh` | `Processor.RunBudgeted` |
