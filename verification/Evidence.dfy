/** Reading the index by cursor while it grows: `agent/src/query/activity.ts`. */
module Evidence {
  import opened Prelude
  import opened Radix
  import opened Subgraph

  const MAX_SEQUENCE: nat := 340282366920938463463374607431768211455
  const ACTIVITY_PAGE_MAX: nat := 50
  const ANSWER_RECORD_MAX: nat := 100

  datatype AccountScope = AccountScope(account: string, mandateId: Option<string>, agent: Option<string>)

  datatype ActivityFilter = ActivityFilter(outcome: Option<Outcome>, rule: Option<string>, mandateId: Option<string>,
                                           fromTimestamp: Option<nat>, toTimestamp: Option<nat>)

  /** The variables of one query document. */
  datatype Query = Query(
    account: string, first: nat, before: nat, outcome: Option<Outcome>, rule: Option<string>, mandate: Option<string>,
    agent: Option<string>, fromTimestamp: Option<nat>, toTimestamp: Option<nat>)

  function PageSize(first: int): (n: nat)
    ensures 1 <= n <= 50 && (1 <= first <= 50 ==> n == first) && (first < 1 ==> n == 1) && (first > 50 ==> n == 50)
  {
    if first < 1 then 1 else Min(first, ACTIVITY_PAGE_MAX)
  }

  function BuildActivityQuery(scope: AccountScope, filter: ActivityFilter, first: int, cursor: Option<nat>): Query {
    var mandateId := if filter.mandateId.Some? then filter.mandateId else scope.mandateId;
    Query(Lower(scope.account), PageSize(first), if cursor.Some? then cursor.value else MAX_SEQUENCE,
          filter.outcome, filter.rule, if mandateId.Some? then Some(Lower(scope.account) + ":" + mandateId.value)
                                       else None,
          if scope.agent.Some? then Some(Lower(scope.agent.value)) else None, filter.fromTimestamp, filter.toTimestamp)
  }

  // -- The indexing service ----------------------------------------------------------------------

  /** The `where` clause, apart from the cursor. */
  predicate Matches(q: Query, a: Action) {
    && Lower(a.account) == q.account
    && (q.outcome.Some? ==> a.outcome == q.outcome.value)
    && (q.rule.Some? ==> a.rule == q.rule.value)
    && (q.mandate.Some? ==> a.mandate == q.mandate.value)
    && (q.agent.Some? ==> Lower(a.agent) == q.agent.value)
    && (q.fromTimestamp.Some? ==> a.meta.timestamp >= q.fromTimestamp.value)
    && (q.toTimestamp.Some? ==> a.meta.timestamp <= q.toTimestamp.value)
  }

  function Selected(index: seq<Action>, q: Query): seq<Action> {
    Filter(index, (a: Action) => Matches(q, a) && a.sequence < q.before)
  }

  function Reverse(s: seq<Action>): (r: seq<Action>)
    ensures |r| == |s|
    ensures forall i :: 0 <= i < |s| ==> r[i] == s[|s| - 1 - i]
  {
    seq(|s|, i requires 0 <= i < |s| => s[|s| - 1 - i])
  }

  /** The first records of the selection in descending sequence; the index is in ascending order. */
  function Serve(index: seq<Action>, q: Query): seq<Action> {
    var all := Reverse(Selected(index, q));
    all[..Min(|all|, q.first)]
  }

  // -- The reader --------------------------------------------------------------------------------

  datatype Response = TransportFailed | Malformed | ReportsErrors | Answered(actions: seq<Action>)

  /** What comes back for the k-th request. */
  type Graph = (nat, Query) -> Response

  datatype FetchError = Integrity | Unavailable

  predicate Acceptable(scope: AccountScope, a: Action) {
    SameText(a.account, scope.account) && TransferConsistent(a)
  }

  function CheckPage(scope: AccountScope, response: Response): Result<seq<Action>, FetchError> {
    match response
    case TransportFailed => Err(Unavailable)
    case Malformed => Err(Integrity)
    case ReportsErrors => Err(Unavailable)
    case Answered(actions) =>
      if forall i :: 0 <= i < |actions| ==> Acceptable(scope, actions[i]) then Ok(actions) else Err(Integrity)
  }

  /** A record of another account, or one that moved a wrong amount. */
  predicate IsCorrupt(scope: AccountScope, a: Action) {
    || Lower(a.account) != Lower(scope.account)
    || (a.outcome == EXECUTED && a.transferred != a.attempted)
    || (a.outcome == REFUSED && a.transferred != 0)
  }

  /** A page is refused as corrupt exactly when it does not parse or holds a corrupt record; else it is taken whole. */
  lemma CorruptPagesAreRefused(scope: AccountScope, response: Response)
    ensures CheckPage(scope, response) == Err(Integrity) <==>
            response.Malformed? || (response.Answered? && exists a :: a in response.actions && IsCorrupt(scope, a))
    ensures CheckPage(scope, response).Ok? ==>
              response.Answered? && CheckPage(scope, response).value == response.actions
  {
    hide Lower;
    if response.Answered? {
      assert forall i :: 0 <= i < |response.actions| ==> response.actions[i] in response.actions;
      assert forall a :: IsCorrupt(scope, a) <==> !Acceptable(scope, a);
    }
  }

  method FetchPage(scope: AccountScope, filter: ActivityFilter, first: int, cursor: Option<nat>, graph: Graph,
                   request: nat)
    returns (records: Result<seq<Action>, FetchError>)
    ensures records == CheckPage(scope, graph(request, BuildActivityQuery(scope, filter, first, cursor)))
  {
    var response := graph(request, BuildActivityQuery(scope, filter, first, cursor));
    if response.TransportFailed? || response.ReportsErrors? {
      return Err(Unavailable);
    }
    if response.Malformed? {
      return Err(Integrity);
    }
    for i := 0 to |response.actions|
      invariant forall j :: 0 <= j < i ==> Acceptable(scope, response.actions[j])
    {
      if !Acceptable(scope, response.actions[i]) {
        return Err(Integrity);
      }
    }
    return Ok(response.actions);
  }

  datatype ActivityPage =
    | Page(records: seq<Action>, cursor: Option<nat>, partial: bool)
    | UnavailablePage(integrityMismatch: bool)

  function Failed(error: FetchError): ActivityPage {
    UnavailablePage(error.Integrity?)
  }

  function Cursor(records: seq<Action>): Option<nat> {
    if records == [] then None else Some(records[|records| - 1].sequence)
  }

  function GetActivity(scope: AccountScope, filter: ActivityFilter, first: int, cursor: Option<nat>, graph: Graph,
                       request: nat): ActivityPage {
    match CheckPage(scope, graph(request, BuildActivityQuery(scope, filter, PageSize(first), cursor)))
    case Err(e) => Failed(e)
    case Ok(records) =>
      var full := |records| == PageSize(first);
      Page(records, if full then Cursor(records) else None, full)
  }

  /** The loop of `getAnswerEvidence` from its `request`-th turn. */
  function Collect(scope: AccountScope, filter: ActivityFilter, graph: Graph, request: nat, collected: seq<Action>,
                   cursor: Option<nat>): ActivityPage
    decreases 4 - request
  {
    var remaining := ANSWER_RECORD_MAX - |collected|;
    if request >= 4 || remaining <= 0 then Page(collected[..Min(|collected|, ANSWER_RECORD_MAX)], None, false)
    else
      var size := Min(remaining, ACTIVITY_PAGE_MAX);
      match CheckPage(scope, graph(request, BuildActivityQuery(scope, filter, size, cursor)))
      case Err(e) => Failed(e)
      case Ok(records) =>
        var all := collected + records;
        var shown := all[..Min(|all|, ANSWER_RECORD_MAX)];
        if |records| < size || Cursor(records).None? then Page(shown, None, false)
        else if |all| >= ANSWER_RECORD_MAX then Page(shown, Cursor(records), true)
        else Collect(scope, filter, graph, request + 1, all, Cursor(records))
  }

  method GetAnswerEvidence(scope: AccountScope, filter: ActivityFilter, graph: Graph) returns (page: ActivityPage)
    ensures page == Collect(scope, filter, graph, 0, [], None)
  {
    var collected: seq<Action> := [];
    var cursor: Option<nat> := None;
    var truncated := false;
    var request := 0;
    while request < 4
      invariant 0 <= request <= 4 && !truncated
      invariant Collect(scope, filter, graph, 0, [], None) == Collect(scope, filter, graph, request, collected, cursor)
    {
      var remaining := ANSWER_RECORD_MAX - |collected|;
      if remaining <= 0 {
        break;
      }
      var size := Min(remaining, ACTIVITY_PAGE_MAX);
      var records := FetchPage(scope, filter, size, cursor, graph, request);
      if records.Err? {
        return Failed(records.error);
      }
      collected := collected + records.value;
      var shown := collected[..Min(|collected|, ANSWER_RECORD_MAX)];
      if |records.value| < size {
        return Page(shown, None, false);
      }
      cursor := Cursor(records.value);
      if cursor.None? {
        return Page(shown, None, false);
      }
      if |collected| >= ANSWER_RECORD_MAX {
        truncated := true;
        break;
      }
      request := request + 1;
    }
    return Page(collected[..Min(|collected|, ANSWER_RECORD_MAX)], if truncated then cursor else None, truncated);
  }

  /** The response fails its page, as a corrupt one or as an unavailable one. */
  predicate FailsPage(scope: AccountScope, response: Response, corrupt: bool) {
    if corrupt then
      response.Malformed? || (response.Answered? && exists a :: a in response.actions && IsCorrupt(scope, a))
    else response.TransportFailed? || response.ReportsErrors?
  }

  lemma PagesFail(scope: AccountScope, response: Response)
    ensures CheckPage(scope, response).Err? <==> FailsPage(scope, response, true) || FailsPage(scope, response, false)
    ensures CheckPage(scope, response).Err? ==> FailsPage(scope, response, Failed(CheckPage(scope, response).error)
                                                                           .integrityMismatch)
  {
    CorruptPagesAreRefused(scope, response);
    hide IsCorrupt, Acceptable;
  }

  /**
   * Whatever the service answers, from any turn of the loop on: evidence is withheld only when one of its
   * pages fails, with the reason of that page, and it is not given when the page of this turn fails.
   */
  lemma {:induction false} EvidenceFailsWithAPage(scope: AccountScope, filter: ActivityFilter, graph: Graph,
                                                  request: nat, collected: seq<Action>, cursor: Option<nat>)
    ensures var page := Collect(scope, filter, graph, request, collected, cursor);
            && (page.UnavailablePage? ==> exists k: nat, q ::
                  request <= k < 4 && FailsPage(scope, graph(k, q), page.integrityMismatch))
            && (page.Page? && request < 4 && |collected| < 100 ==>
                  var q := BuildActivityQuery(scope, filter, Min(100 - |collected|, 50), cursor);
                  !FailsPage(scope, graph(request, q), true) && !FailsPage(scope, graph(request, q), false))
    decreases 4 - request
  {
    hide CheckPage, FailsPage, BuildActivityQuery;
    var remaining := ANSWER_RECORD_MAX - |collected|;
    if request < 4 && remaining > 0 {
      var size := Min(remaining, ACTIVITY_PAGE_MAX);
      var q := BuildActivityQuery(scope, filter, size, cursor);
      PagesFail(scope, graph(request, q));
      if CheckPage(scope, graph(request, q)).Ok? {
        var records := CheckPage(scope, graph(request, q)).value;
        EvidenceFailsWithAPage(scope, filter, graph, request + 1, collected + records, Cursor(records));
      }
    }
  }

  // -- A service that answers from a growing index -----------------------------------------------

  /** What a reader wants: the scope's account, and whatever else the filter and the scope ask for. */
  predicate IsWanted(scope: AccountScope, filter: ActivityFilter, a: Action) {
    && SameText(a.account, scope.account)
    && (filter.outcome.Some? ==> a.outcome == filter.outcome.value)
    && (filter.rule.Some? ==> a.rule == filter.rule.value)
    && (filter.mandateId.Some? ==> a.mandate == Lower(scope.account) + ":" + filter.mandateId.value)
    && (filter.mandateId.None? && scope.mandateId.Some? ==>
          a.mandate == Lower(scope.account) + ":" + scope.mandateId.value)
    && (scope.agent.Some? ==> SameText(a.agent, scope.agent.value))
    && (filter.fromTimestamp.Some? ==> filter.fromTimestamp.value <= a.meta.timestamp)
    && (filter.toTimestamp.Some? ==> a.meta.timestamp <= filter.toTimestamp.value)
  }

  /** The query asks the service for exactly that, below the cursor, and for at most the clamped page. */
  lemma QueryAsksForTheWanted(scope: AccountScope, filter: ActivityFilter, first: int, cursor: Option<nat>, a: Action)
    ensures var q := BuildActivityQuery(scope, filter, first, cursor);
            && (Matches(q, a) <==> IsWanted(scope, filter, a))
            && (cursor.Some? ==> q.before == cursor.value)
            && (cursor.None? ==> q.before == 0xffff_ffff_ffff_ffff_ffff_ffff_ffff_ffff)
            && (first < 1 ==> q.first == 1) && (1 <= first <= 50 ==> q.first == first) && (first > 50 ==> q.first == 50)
  {
    hide Lower;
  }

  /** The records a reader asks for, whatever the cursor. */
  function Wanted(index: seq<Action>, scope: AccountScope, filter: ActivityFilter): seq<Action> {
    Filter(index, (a: Action) => IsWanted(scope, filter, a))
  }

  predicate Ascending(s: seq<Action>) {
    forall i, j :: 0 <= i < j < |s| ==> s[i].sequence < s[j].sequence
  }

  /** The index at each request: it only gains records, of larger sequences for this reader, that pass the checks. */
  ghost predicate GrowingIndex(indices: nat -> seq<Action>, scope: AccountScope, filter: ActivityFilter) {
    && (forall k: nat :: indices(k) <= indices(k + 1))
    && (forall k: nat :: Ascending(Wanted(indices(k), scope, filter)))
    && (forall k: nat, a :: a in indices(k) ==> TransferConsistent(a))
  }

  ghost predicate AnswersFrom(graph: Graph, indices: nat -> seq<Action>) {
    forall k: nat, q :: graph(k, q) == Answered(Serve(indices(k), q))
  }

  function Below(s: seq<Action>, before: nat): seq<Action> {
    Filter(s, (a: Action) => a.sequence < before)
  }

  lemma BelowAppend(s: seq<Action>, last: Action, before: nat)
    ensures Below(s + [last], before) == if last.sequence < before then Below(s, before) + [last] else Below(s, before)
  {
    FilterAppend(s, [last], (a: Action) => a.sequence < before);
    FilterOne(last, (a: Action) => a.sequence < before);
  }

  /** The wanted records below a bound, newest first. */
  function Newest(index: seq<Action>, scope: AccountScope, filter: ActivityFilter, before: nat): seq<Action> {
    Reverse(Below(Wanted(index, scope, filter), before))
  }

  /** One honest page: the first of the wanted records below the cursor, all passing the checks. */
  lemma HonestPage(graph: Graph, indices: nat -> seq<Action>, scope: AccountScope, filter: ActivityFilter, k: nat,
                   first: int, cursor: Option<nat>)
    requires GrowingIndex(indices, scope, filter) && AnswersFrom(graph, indices)
    ensures var newest := Newest(indices(k), scope, filter, if cursor.Some? then cursor.value else MAX_SEQUENCE);
            CheckPage(scope, graph(k, BuildActivityQuery(scope, filter, first, cursor))) ==
              Ok(newest[..Min(|newest|, PageSize(first))])
  {
    var q := BuildActivityQuery(scope, filter, first, cursor);
    forall a ensures Matches(q, a) <==> IsWanted(scope, filter, a) {
      QueryAsksForTheWanted(scope, filter, first, cursor, a);
    }
    hide BuildActivityQuery, IsWanted;
    FilterTwice(indices(k), (a: Action) => IsWanted(scope, filter, a), (a: Action) => a.sequence < q.before,
                (a: Action) => Matches(q, a) && a.sequence < q.before);
    var page := Serve(indices(k), q);
    forall i | 0 <= i < |page| ensures Acceptable(scope, page[i]) {
      assert page[i] == Reverse(Selected(indices(k), q))[i];
      assert page[i] in Selected(indices(k), q);
      assert page[i] in indices(k) && Matches(q, page[i]);
    }
    assert graph(k, q) == Answered(page);
  }

  lemma {:induction false} IndexGrows(indices: nat -> seq<Action>, scope: AccountScope, filter: ActivityFilter, i: nat,
                                      k: nat)
    requires GrowingIndex(indices, scope, filter) && i <= k
    ensures indices(i) <= indices(k)
    decreases k
  {
    if i < k {
      IndexGrows(indices, scope, filter, i, k - 1);
      assert indices(k - 1) <= indices(k - 1 + 1);
    }
  }

  /** In ascending order, the records below one of them are those in front of it. */
  lemma {:induction false} BelowIsPrefix(s: seq<Action>, p: nat, before: nat)
    requires Ascending(s) && p <= |s|
    requires forall i :: 0 <= i < p ==> s[i].sequence < before
    requires forall i :: p <= i < |s| ==> s[i].sequence >= before
    ensures Below(s, before) == s[..p]
    decreases |s|
  {
    if s != [] {
      hide Below;
      var last := |s| - 1;
      assert s == s[..last] + [s[last]];
      BelowAppend(s[..last], s[last], before);
      if p == |s| {
        BelowIsPrefix(s[..last], last, before);
        assert s[..last][..last] == s[..last];
      } else {
        BelowIsPrefix(s[..last], p, before);
        assert s[..last][..p] == s[..p];
      }
    }
  }

  /** Below a wanted record of the first index nothing is added later. */
  lemma NothingAddedBelow(indices: nat -> seq<Action>, scope: AccountScope, filter: ActivityFilter, i: nat, k: nat,
                          p: nat)
    requires GrowingIndex(indices, scope, filter) && i <= k
    requires p < |Wanted(indices(i), scope, filter)|
    ensures var w := Wanted(indices(i), scope, filter);
            Newest(indices(k), scope, filter, w[p].sequence) == Reverse(w[..p]) ==
              Newest(indices(i), scope, filter, w[p].sequence)
  {
    WantedGrows(indices, scope, filter, i, k);
    var w, w' := Wanted(indices(i), scope, filter), Wanted(indices(k), scope, filter);
    assert Ascending(w) && Ascending(w');
    hide Wanted, GrowingIndex, Reverse, Ascending;
    PrefixIsBelow(w, w', p);
    PrefixIsBelow(w, w, p);
  }

  lemma WantedGrows(indices: nat -> seq<Action>, scope: AccountScope, filter: ActivityFilter, i: nat, k: nat)
    requires GrowingIndex(indices, scope, filter) && i <= k
    ensures Wanted(indices(i), scope, filter) <= Wanted(indices(k), scope, filter)
  {
    IndexGrows(indices, scope, filter, i, k);
    hide GrowingIndex, IsWanted;
    var rest := indices(k)[|indices(i)|..];
    assert indices(k) == indices(i) + rest;
    FilterAppend(indices(i), rest, (a: Action) => IsWanted(scope, filter, a));
  }

  lemma PrefixIsBelow(w: seq<Action>, more: seq<Action>, p: nat)
    requires w <= more && Ascending(more) && p < |w|
    ensures Below(more, w[p].sequence) == w[..p]
  {
    hide Below;
    assert more[p] == w[p] && more[..p] == w[..p];
    BelowIsPrefix(more, p, w[p].sequence);
  }

  lemma NewestIsPrefix(indices: nat -> seq<Action>, scope: AccountScope, filter: ActivityFilter, k: nat, before: nat)
    returns (p: nat)
    requires GrowingIndex(indices, scope, filter)
    ensures p <= |Wanted(indices(k), scope, filter)|
    ensures Newest(indices(k), scope, filter, before) == Reverse(Wanted(indices(k), scope, filter)[..p])
    ensures forall i :: 0 <= i < p ==> Wanted(indices(k), scope, filter)[i].sequence < before
  {
    var w := Wanted(indices(k), scope, filter);
    assert Ascending(w);
    hide Wanted, GrowingIndex, Reverse;
    p := 0;
    while p < |w| && w[p].sequence < before
      invariant p <= |w| && forall i :: 0 <= i < p ==> w[i].sequence < before
    {
      p := p + 1;
    }
    BelowIsPrefix(w, p, before);
  }

  // -- Main results ------------------------------------------------------------------------------

  /** What follows a full page of a prefix, read backwards from its last record. */
  lemma SecondPage(w: seq<Action>, p: nat, size: nat)
    requires 0 < size <= p <= |w|
    ensures Reverse(w[..p])[size..] == Reverse(w[..p - size])
    ensures Cursor(Reverse(w[..p])[..size]) == Some(w[p - size].sequence)
  {
  }

  /**
   * Evidence over an index that grows between requests is exactly the newest hundred wanted records of
   * the index as it was at the first request, newest first; it is marked partial exactly when there were
   * a hundred or more, and the bound of four requests never cuts it short.
   */
  lemma EvidenceIsTheNewestHundred(graph: Graph, indices: nat -> seq<Action>, scope: AccountScope,
                                   filter: ActivityFilter)
    requires GrowingIndex(indices, scope, filter) && AnswersFrom(graph, indices)
    ensures var newest := Newest(indices(0), scope, filter, MAX_SEQUENCE);
            var page := Collect(scope, filter, graph, 0, [], None);
            && page.Page? && page.records == newest[..Min(|newest|, 100)]
            && (page.partial <==> |newest| >= 100)
            && page.cursor == (if page.partial then Cursor(page.records) else None)
  {
    hide GrowingIndex, AnswersFrom, Wanted, Newest, CheckPage, BuildActivityQuery, Collect, Reverse;
    var w := Wanted(indices(0), scope, filter);
    var p := NewestIsPrefix(indices, scope, filter, 0, MAX_SEQUENCE);
    var newest := Newest(indices(0), scope, filter, MAX_SEQUENCE);
    HonestPage(graph, indices, scope, filter, 0, 50, None);
    if p >= 50 {
      MoreThanOnePage(graph, indices, scope, filter, p);
    } else {
      assert newest[..p] == newest;
      OneTurn(graph, scope, filter, newest);
    }
  }

  lemma MoreThanOnePage(graph: Graph, indices: nat -> seq<Action>, scope: AccountScope, filter: ActivityFilter, p: nat)
    requires GrowingIndex(indices, scope, filter) && AnswersFrom(graph, indices)
    requires 50 <= p <= |Wanted(indices(0), scope, filter)|
    requires Newest(indices(0), scope, filter, MAX_SEQUENCE) == Reverse(Wanted(indices(0), scope, filter)[..p])
    ensures var newest := Newest(indices(0), scope, filter, MAX_SEQUENCE);
            var page := Collect(scope, filter, graph, 0, [], None);
            && page.Page? && page.records == newest[..Min(|newest|, 100)]
            && (page.partial <==> |newest| >= 100)
            && page.cursor == (if page.partial then Cursor(page.records) else None)
  {
    hide GrowingIndex, AnswersFrom, Wanted, Newest, CheckPage, BuildActivityQuery, Collect, Reverse, Cursor;
    var w, newest := Wanted(indices(0), scope, filter), Newest(indices(0), scope, filter, MAX_SEQUENCE);
    HonestPage(graph, indices, scope, filter, 0, 50, None);
    SecondPage(w, p, 50);
    var cursor := w[p - 50].sequence;
    NothingAddedBelow(indices, scope, filter, 0, 1, p - 50);
    HonestPage(graph, indices, scope, filter, 1, 50, Some(cursor));
    TwoTurns(graph, scope, filter, newest, cursor);
  }

  lemma TwoTurns(graph: Graph, scope: AccountScope, filter: ActivityFilter, newest: seq<Action>, cursor: nat)
    requires |newest| >= 50 && Cursor(newest[..50]) == Some(cursor)
    requires CheckPage(scope, graph(0, BuildActivityQuery(scope, filter, 50, None))) == Ok(newest[..50])
    requires CheckPage(scope, graph(1, BuildActivityQuery(scope, filter, 50, Some(cursor)))) ==
             Ok(newest[50..][..Min(|newest| - 50, 50)])
    ensures var page := Collect(scope, filter, graph, 0, [], None);
            && page.Page? && page.records == newest[..Min(|newest|, 100)]
            && (page.partial <==> |newest| >= 100)
            && page.cursor == (if page.partial then Cursor(page.records) else None)
  {
    var first, second := newest[..50], newest[50..][..Min(|newest| - 50, 50)];
    assert first + second == newest[..Min(|newest|, 100)];
    hide CheckPage, BuildActivityQuery, Collect;
    SecondTurn(graph, scope, filter, first, second, cursor);
    assert second != [] ==> (first + second)[|first| + |second| - 1] == second[|second| - 1];
  }

  lemma OneTurn(graph: Graph, scope: AccountScope, filter: ActivityFilter, first: seq<Action>)
    requires |first| < 50 && CheckPage(scope, graph(0, BuildActivityQuery(scope, filter, 50, None))) == Ok(first)
    ensures Collect(scope, filter, graph, 0, [], None) == Page(first, None, false)
  {
    hide CheckPage, BuildActivityQuery;
    assert [] + first == first && first[..|first|] == first;
  }

  lemma SecondTurn(graph: Graph, scope: AccountScope, filter: ActivityFilter, first: seq<Action>, second: seq<Action>,
                   cursor: nat)
    requires |first| == 50 && |second| <= 50 && Cursor(first) == Some(cursor)
    requires CheckPage(scope, graph(0, BuildActivityQuery(scope, filter, 50, None))) == Ok(first)
    requires CheckPage(scope, graph(1, BuildActivityQuery(scope, filter, 50, Some(cursor)))) == Ok(second)
    ensures Collect(scope, filter, graph, 0, [], None) ==
            Page(first + second, if |second| == 50 then Cursor(second) else None, |second| == 50)
  {
    hide CheckPage, BuildActivityQuery;
    assert [] + first == first && first[..50] == first;
    var all := first + second;
    assert all[..|all|] == all;
  }

  /** Following the cursor of `getActivity` from page to page, one request after another. */
  function Follow(scope: AccountScope, filter: ActivityFilter, first: int, graph: Graph, request: nat,
                  cursor: nat): Result<seq<Action>, FetchError>
    decreases cursor
  {
    match GetActivity(scope, filter, first, Some(cursor), graph, request)
    case UnavailablePage(integrity) => Err(if integrity then Integrity else Unavailable)
    case Page(records, None, _) => Ok(records)
    case Page(records, Some(next), _) =>
      // A service that does not move the cursor down is not followed for ever.
      if next >= cursor then Err(Integrity)
      else match Follow(scope, filter, first, graph, request + 1, next)
        case Err(e) => Err(e)
        case Ok(more) => Ok(records + more)
  }

  /** One turn of the reader, when the service answers with the first of `newest`. */
  lemma NextPage(scope: AccountScope, filter: ActivityFilter, first: int, graph: Graph, request: nat, cursor: nat,
                 newest: seq<Action>)
    requires CheckPage(scope, graph(request, BuildActivityQuery(scope, filter, PageSize(first), Some(cursor)))) ==
             Ok(newest[..Min(|newest|, PageSize(first))])
    ensures |newest| < PageSize(first) ==> Follow(scope, filter, first, graph, request, cursor) == Ok(newest)
    ensures |newest| >= PageSize(first) ==>
      var records := newest[..PageSize(first)];
      Cursor(records).Some? &&
      var next := Cursor(records).value;
      next < cursor && Follow(scope, filter, first, graph, request + 1, next).Ok? ==>
        Follow(scope, filter, first, graph, request, cursor) ==
          Ok(records + Follow(scope, filter, first, graph, request + 1, next).value)
  {
    hide CheckPage, BuildActivityQuery, PageSize;
    assert newest[..|newest|] == newest;
  }

  predicate AllBelow(s: seq<Action>, p: nat, before: nat) {
    p <= |s| && forall i :: 0 <= i < p ==> s[i].sequence < before
  }

  /**
   * The reader has come to `k` and asks below `cursor`, where the records are the first `p` of the index at
   * `start`.
   */
  ghost predicate Reading(graph: Graph, indices: nat -> seq<Action>, scope: AccountScope, filter: ActivityFilter,
                          k: nat, cursor: nat, w: seq<Action>, p: nat) {
    && GrowingIndex(indices, scope, filter) && AnswersFrom(graph, indices) && Ascending(w)
    && AllBelow(w, p, cursor) && Newest(indices(k), scope, filter, cursor) == Reverse(w[..p])
  }

  lemma {:induction false} FollowReadsPrefix(graph: Graph, indices: nat -> seq<Action>, scope: AccountScope,
                                             filter: ActivityFilter, first: int, start: nat, k: nat, cursor: nat,
                                             p: nat)
    requires start <= k && Reading(graph, indices, scope, filter, k, cursor, Wanted(indices(start), scope, filter), p)
    ensures Follow(scope, filter, first, graph, k, cursor) == Ok(Reverse(Wanted(indices(start), scope, filter)[..p]))
    decreases p
  {
    var w, size := Wanted(indices(start), scope, filter), PageSize(first);
    hide Wanted, Follow, PageSize;
    if p >= size {
      var next := NextReading(graph, indices, scope, filter, start, k, cursor, p, p - size);
      hide Reading;
      FollowReadsPrefix(graph, indices, scope, filter, first, start, k + 1, next, p - size);
      FullPageFollowed(scope, filter, first, graph, indices, k, cursor, w, p);
    } else {
      hide Reading;
      LastPageFollowed(scope, filter, first, graph, indices, k, cursor, w, p);
    }
  }

  /** Nothing comes in below a record that was read. */
  lemma NextReading(graph: Graph, indices: nat -> seq<Action>, scope: AccountScope, filter: ActivityFilter, start: nat,
                    k: nat, cursor: nat, p: nat, n: nat) returns (next: nat)
    requires start <= k && n < p && Reading(graph, indices, scope, filter, k, cursor,
                                            Wanted(indices(start), scope, filter), p)
    ensures n < |Wanted(indices(start), scope, filter)|
            && next == Wanted(indices(start), scope, filter)[n].sequence < cursor
    ensures Reading(graph, indices, scope, filter, k + 1, next, Wanted(indices(start), scope, filter), n)
  {
    hide GrowingIndex, AnswersFrom, Wanted, Newest, Reverse, Ascending;
    var w := Wanted(indices(start), scope, filter);
    BelowOneOfThem(w, p, cursor, n);
    next := w[n].sequence;
    NothingAddedBelow(indices, scope, filter, start, k + 1, n);
  }

  lemma BelowOneOfThem(w: seq<Action>, p: nat, cursor: nat, n: nat)
    requires Ascending(w) && AllBelow(w, p, cursor) && n < p
    ensures w[n].sequence < cursor && AllBelow(w, n, w[n].sequence)
  {
  }

  lemma PageSizeIsStable(first: int)
    ensures PageSize(PageSize(first)) == PageSize(first)
  {
  }

  /** A full page, and then what is read below its last record. */
  lemma FullPageFollowed(scope: AccountScope, filter: ActivityFilter, first: int, graph: Graph,
                         indices: nat -> seq<Action>, k: nat, cursor: nat, w: seq<Action>, p: nat)
    requires Reading(graph, indices, scope, filter, k, cursor, w, p) && PageSize(first) <= p <= |w|
             && w[p - PageSize(first)].sequence < cursor
    requires Follow(scope, filter, first, graph, k + 1, w[p - PageSize(first)].sequence) ==
             Ok(Reverse(w[..p - PageSize(first)]))
    ensures Follow(scope, filter, first, graph, k, cursor) == Ok(Reverse(w[..p]))
  {
    hide CheckPage, BuildActivityQuery, Reverse, Cursor, Follow, PageSize, GrowingIndex, AnswersFrom, Newest, Ascending,
         AllBelow;
    var size, newest := PageSize(first), Reverse(w[..p]);
    HonestPage(graph, indices, scope, filter, k, size, Some(cursor));
    PageSizeIsStable(first);
    SecondPage(w, p, size);
    NextPage(scope, filter, first, graph, k, cursor, newest);
    assert newest == newest[..size] + newest[size..];
  }

  lemma LastPageFollowed(scope: AccountScope, filter: ActivityFilter, first: int, graph: Graph,
                         indices: nat -> seq<Action>, k: nat, cursor: nat, w: seq<Action>, p: nat)
    requires Reading(graph, indices, scope, filter, k, cursor, w, p) && p < PageSize(first) && p <= |w|
    ensures Follow(scope, filter, first, graph, k, cursor) == Ok(Reverse(w[..p]))
  {
    hide CheckPage, BuildActivityQuery, Reverse, Cursor, Follow, PageSize, GrowingIndex, AnswersFrom, Newest, Ascending,
         AllBelow;
    HonestPage(graph, indices, scope, filter, k, PageSize(first), Some(cursor));
    PageSizeIsStable(first);
    NextPage(scope, filter, first, graph, k, cursor, Reverse(w[..p]));
  }

  /**
   * Following the cursor to its end, at any page size, yields every wanted record below the first bound
   * exactly once, newest first, whatever is appended meanwhile.
   */
  lemma CursorReachesEverything(graph: Graph, indices: nat -> seq<Action>, scope: AccountScope, filter: ActivityFilter,
                                first: int, k: nat, bound: nat)
    requires GrowingIndex(indices, scope, filter) && AnswersFrom(graph, indices)
    ensures Follow(scope, filter, first, graph, k, bound) == Ok(Newest(indices(k), scope, filter, bound))
  {
    var p := NewestIsPrefix(indices, scope, filter, k, bound);
    FollowReadsPrefix(graph, indices, scope, filter, first, k, k, bound, p);
  }

  /** Those records are in strictly descending order of sequence. */
  lemma NewestDescends(indices: nat -> seq<Action>, scope: AccountScope, filter: ActivityFilter, k: nat, bound: nat,
                       i: nat, j: nat)
    requires GrowingIndex(indices, scope, filter) && i < j < |Newest(indices(k), scope, filter, bound)|
    ensures Newest(indices(k), scope, filter, bound)[i].sequence > Newest(indices(k), scope, filter, bound)[j].sequence
  {
    var p := NewestIsPrefix(indices, scope, filter, k, bound);
    var w := Wanted(indices(k), scope, filter);
    assert Ascending(w);
    hide GrowingIndex, Wanted, Newest;
  }

  /**
   * The cursor of partial evidence continues it: followed to its end from any later request on, at any
   * page size, it gives the rest of the wanted records the index held at the first request.
   */
  lemma EvidenceContinues(graph: Graph, indices: nat -> seq<Action>, scope: AccountScope, filter: ActivityFilter,
                          first: int, k: nat)
    requires GrowingIndex(indices, scope, filter) && AnswersFrom(graph, indices)
    requires Collect(scope, filter, graph, 0, [], None).Page? && Collect(scope, filter, graph, 0, [], None).partial
    ensures var page := Collect(scope, filter, graph, 0, [], None);
            && page.cursor.Some?
            && var rest := Follow(scope, filter, first, graph, k, page.cursor.value);
               rest.Ok? && page.records + rest.value == Newest(indices(0), scope, filter, MAX_SEQUENCE)
  {
    hide GrowingIndex, AnswersFrom, Wanted, Newest, Collect, Follow, Reverse, Cursor;
    EvidenceIsTheNewestHundred(graph, indices, scope, filter);
    var w := Wanted(indices(0), scope, filter);
    var p := NewestIsPrefix(indices, scope, filter, 0, MAX_SEQUENCE);
    SecondPage(w, p, 100);
    NothingAddedBelow(indices, scope, filter, 0, k, p - 100);
    CursorReachesEverything(graph, indices, scope, filter, first, k, w[p - 100].sequence);
    var newest := Reverse(w[..p]);
    assert newest[..100] + newest[100..] == newest;
  }
}
