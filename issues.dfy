/** Shared vocabulary of the stale bot: the items the tracker returns, the
    requests the bot sends to it, label matching, the age tests and the
    paginated page source. Both processing variants import this module. */
module Issues {

  datatype Option<T> = None | Some(value: T)

  /** Milliseconds in one day: the unit of every staleness threshold. */
  const DAY_MILLIS: int := 86400000  // 1000 * 60 * 60 * 24

  /** Every page request asks for this many items. */
  const PER_PAGE: int := 100

  /** Pages are numbered from 1. */
  type PageNumber = p: int | 1 <= p witness 1

  /** An open issue or pull request as the tracker lists it. `isPr` stands for
      the presence of the pull-request back-reference, `updatedAt` for the
      last-activity time in milliseconds, `labels` for the label names. */
  datatype Item = Item(number: int, isPr: bool, updatedAt: int, labels: seq<string>)

  /** One request sent to the issue tracker, in the order it is sent. */
  datatype Request =
    | ListForRepo(page: int, state: string, perPage: int, filter: Option<string>)
    | CreateComment(issue: int, body: string)
    | AddLabels(issue: int, names: seq<string>)
    | Update(issue: int, newState: string)

  /** The page source: page `page` of `pages`, and nothing past the end. */
  function PageAt(pages: seq<seq<Item>>, page: int): (items: seq<Item>)
    ensures 1 <= page <= |pages| ==> items == pages[page - 1]
    ensures page < 1 || |pages| < page ==> items == []
  {
    if 1 <= page <= |pages| then pages[page - 1] else []
  }

  /** How many of `count` pages remain from `page` on: the measure that makes
      every page walk terminate. */
  function PagesLeft(count: int, page: int): nat
  {
    if page <= count then count + 1 - page else 0
  }

  /** The request for page `page` of the open items, 100 per page, with an
      optional label filter. */
  function ListOpen(page: int, filter: Option<string>): Request
  {
    ListForRepo(page, "open", PER_PAGE, filter)
  }

  /** `fs` requests the pages `page`, `page + 1`, ... in order, all with `filter`. */
  ghost predicate PagesFrom(fs: seq<Request>, page: int, filter: Option<string>)
  {
    forall j :: 0 <= j < |fs| ==> fs[j] == ListOpen(page + j, filter)
  }

  /** Requests for consecutive pages stay consecutive with one more in front. */
  lemma ConsecutivePages(page: int, filter: Option<string>, rest: seq<Request>)
    requires PagesFrom(rest, page + 1, filter)
    ensures PagesFrom([ListOpen(page, filter)] + rest, page, filter)
  {
    var fs := [ListOpen(page, filter)] + rest;
    forall j | 0 <= j < |fs| ensures fs[j] == ListOpen(page + j, filter) {
      if j > 0 {
        assert fs[j] == rest[j - 1];
      }
    }
  }

  // ---------------------------------------------------------------------
  // Label matching

  /** ASCII upper case letters folded to lower case; every other character unchanged. */
  function Lower(c: char): (d: char)
    ensures 'A' <= c <= 'Z' ==> d as int == c as int + 32
    ensures !('A' <= c <= 'Z') ==> d == c
  {
    if 'A' <= c <= 'Z' then (c as int + 32) as char else c
  }

  /** Two label names are the same label when they agree up to letter case. */
  predicate SameLabel(a: string, b: string)
  {
    |a| == |b| && (a == [] || (Lower(a[0]) == Lower(b[0]) && SameLabel(a[1..], b[1..])))
  }

  /** Two names are the same label exactly when they have the same length and
      agree character by character once upper-case letters are folded. */
  lemma {:induction false} SameLabelCharwise(a: string, b: string)
    ensures SameLabel(a, b) <==> |a| == |b| && forall i :: 0 <= i < |a| ==> Lower(a[i]) == Lower(b[i])
  {
    if |a| == |b| && a != [] {
      SameLabelCharwise(a[1..], b[1..]);
      if forall i :: 0 <= i < |a| ==> Lower(a[i]) == Lower(b[i]) {
        forall i | 0 <= i < |a| - 1 ensures Lower(a[1..][i]) == Lower(b[1..][i]) {
          assert a[1..][i] == a[i + 1] && b[1..][i] == b[i + 1];
        }
      }
      if SameLabel(a, b) {
        forall i | 0 <= i < |a| ensures Lower(a[i]) == Lower(b[i]) {
          if i > 0 {
            assert a[1..][i - 1] == a[i] && b[1..][i - 1] == b[i];
          }
        }
      }
    }
  }

  /** Matching is an equivalence on names: reflexive, symmetric, and only
      between names of the same length. */
  lemma {:induction false} SameLabelEquivalence(a: string, b: string)
    ensures SameLabel(a, a)
    ensures SameLabel(a, b) ==> SameLabel(b, a)
    ensures SameLabel(a, b) ==> |a| == |b|
  {
    if a != [] {
      SameLabelEquivalence(a[1..], if b == [] then [] else b[1..]);
    }
  }

  /** The label names of `labels` that match `name`, in order. */
  function Matching(labels: seq<string>, name: string): (m: seq<string>)
    ensures |m| <= |labels|
  {
    if labels == [] then []
    else (if SameLabel(name, labels[0]) then [labels[0]] else []) + Matching(labels[1..], name)
  }

  /** An item carries label `name` when at least one of its labels matches it. */
  predicate IsLabeled(labels: seq<string>, name: string)
  {
    |Matching(labels, name)| > 0
  }

  lemma {:induction false} IsLabeledIffSome(labels: seq<string>, name: string)
    ensures IsLabeled(labels, name) <==> exists i :: 0 <= i < |labels| && SameLabel(name, labels[i])
  {
    if labels != [] {
      IsLabeledIffSome(labels[1..], name);
      if !SameLabel(name, labels[0]) && exists i :: 0 <= i < |labels| && SameLabel(name, labels[i]) {
        var i :| 0 <= i < |labels| && SameLabel(name, labels[i]);
        assert labels[1..][i - 1] == labels[i];
      }
    }
  }

  /** A label spelled exactly as asked for is found; an item without labels
      carries none. */
  lemma IsLabeledExact(labels: seq<string>, name: string)
    ensures name in labels ==> IsLabeled(labels, name)
    ensures labels == [] ==> !IsLabeled(labels, name)
  {
    IsLabeledIffSome(labels, name);
    SameLabelEquivalence(name, name);
    if name in labels {
      var i :| 0 <= i < |labels| && labels[i] == name;
      assert SameLabel(name, labels[i]);
    }
  }

  lemma MixedCaseMatches()
    ensures IsLabeled(["bug", "STALE"], "stale")
    ensures IsLabeled(["Stale"], "sTaLe")
    ensures !IsLabeled(["stalé"], "stale")
  {

  }

  // ---------------------------------------------------------------------
  // Age tests

  /** At least `days` whole days have passed between `updatedAt` and `now`
      (inclusive at the boundary). */
  predicate WasLastUpdatedBefore(updatedAt: int, now: int, days: int)
  {
    now - updatedAt >= DAY_MILLIS * days
  }

  /** The test counts whole days: it holds exactly when the whole days elapsed
      reach `days`; it stays true as time goes on and for any smaller threshold. */
  lemma WholeDaysElapsed(updatedAt: int, now: int, days: int, later: int, fewer: int)
    ensures WasLastUpdatedBefore(updatedAt, now, days) <==> days <= (now - updatedAt) / DAY_MILLIS
    ensures WasLastUpdatedBefore(updatedAt, now, days) && now <= later && fewer <= days ==>
      WasLastUpdatedBefore(updatedAt, later, fewer)
  {
  }

  // ---------------------------------------------------------------------
  // Reading a request trace

  /** The page requests of a trace, in order. */
  function Fetches(rs: seq<Request>): (fs: seq<Request>)
    ensures |fs| <= |rs|
  {
    if rs == [] then []
    else (if rs[0].ListForRepo? then [rs[0]] else []) + Fetches(rs[1..])
  }

  /** The number of comments posted in a trace. */
  function Comments(rs: seq<Request>): nat
  {
    if rs == [] then 0 else (if rs[0].CreateComment? then 1 else 0) + Comments(rs[1..])
  }

  /** The number of label requests in a trace. */
  function LabelRequests(rs: seq<Request>): nat
  {
    if rs == [] then 0 else (if rs[0].AddLabels? then 1 else 0) + LabelRequests(rs[1..])
  }

  /** The number of state updates (closes) in a trace. */
  function Closes(rs: seq<Request>): nat
  {
    if rs == [] then 0 else (if rs[0].Update? then 1 else 0) + Closes(rs[1..])
  }

  /** A trace of one request counts that request alone. */
  lemma SingleRequest(r: Request)
    ensures Fetches([r]) == if r.ListForRepo? then [r] else []
    ensures Comments([r]) == (if r.CreateComment? then 1 else 0)
    ensures LabelRequests([r]) == (if r.AddLabels? then 1 else 0)
    ensures Closes([r]) == (if r.Update? then 1 else 0)
  {
    assert [r][1..] == [];
  }

  lemma {:induction false} TraceAppend(a: seq<Request>, b: seq<Request>)
    ensures Fetches(a + b) == Fetches(a) + Fetches(b)
    ensures Comments(a + b) == Comments(a) + Comments(b)
    ensures LabelRequests(a + b) == LabelRequests(a) + LabelRequests(b)
    ensures Closes(a + b) == Closes(a) + Closes(b)
  {
    if a == [] {
      assert a + b == b;
    } else {
      assert (a + b)[0] == a[0];
      assert (a + b)[1..] == a[1..] + b;
      TraceAppend(a[1..], b);
    }
  }
}
