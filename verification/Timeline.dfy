/** One list from indexed records, confirmed overlays and lifecycle events: `web/src/client/timeline.ts`. */
module Timeline {
  import opened Prelude

  datatype ActivityRecord = ActivityRecord(actionId: string, requestId: string, transactionHash: string,
                                           outcome: string, timestamp: nat, details: string)

  datatype PendingActivity = PendingActivity(requestId: string, txHash: string, outcome: string, confirmedAt: int,
                                             details: string)

  datatype LifecycleEventRecord = LifecycleEventRecord(eventId: string, timestamp: nat, details: string)

  datatype Entry =
    | Indexed(key: string, record: ActivityRecord)
    | Pending(key: string, pending: PendingActivity)
    | Lifecycle(key: string, event: LifecycleEventRecord)

  function Timestamp(entry: Entry): int {
    match entry
    case Indexed(_, record) => record.timestamp * 1_000
    case Pending(_, pending) => pending.confirmedAt
    case Lifecycle(_, event) => event.timestamp * 1_000
  }

  // -- The first of each key ---------------------------------------------------------------------

  /** The elements whose key neither `seen` nor an earlier element has: what the two `Set` scans let through. */
  function FirstBy<T(!new)>(s: seq<T>, key: T -> string, seen: set<string>): seq<T> {
    if s == [] then []
    else if key(s[0]) in seen then FirstBy(s[1..], key, seen)
    else [s[0]] + FirstBy(s[1..], key, seen + {key(s[0])})
  }

  predicate IsFirst<T(!new)>(s: seq<T>, key: T -> string, i: int) {
    0 <= i < |s| && forall j :: 0 <= j < i ==> key(s[j]) != key(s[i])
  }

  predicate DistinctBy<T(!new)>(s: seq<T>, key: T -> string) {
    forall i, j :: 0 <= i < j < |s| ==> key(s[i]) != key(s[j])
  }

  /** Exactly the first elements are let through. */
  lemma {:induction false} FirstByMeans<T(!new)>(s: seq<T>, key: T -> string, seen: set<string>, x: T)
    ensures x in FirstBy(s, key, seen) <==> key(x) !in seen && exists i :: IsFirst(s, key, i) && s[i] == x
  {
    if s != [] {
      var head, rest := s[0], s[1..];
      var more := if key(head) in seen then seen else seen + {key(head)};
      FirstByMeans(rest, key, more, x);
      assert s == [head] + rest;
      assert x in FirstBy(s, key, seen) <==> (x == head && key(head) !in seen) || x in FirstBy(rest, key, more);
      hide FirstBy;
      assert IsFirst(s, key, 0);
      if key(x) !in more && exists i :: IsFirst(rest, key, i) && rest[i] == x {
        var i :| IsFirst(rest, key, i) && rest[i] == x;
        assert IsFirst(s, key, i + 1);
      }
      if key(x) !in seen && exists i :: IsFirst(s, key, i) && s[i] == x {
        var i :| IsFirst(s, key, i) && s[i] == x;
        if i > 0 {
          FirstOfRest(s, key, i);
        }
      }
    }
  }

  lemma FirstOfRest<T(!new)>(s: seq<T>, key: T -> string, i: int)
    requires i > 0 && IsFirst(s, key, i)
    ensures IsFirst(s[1..], key, i - 1) && key(s[0]) != key(s[i])
  {
    forall j | 0 <= j < i - 1 ensures key(s[1..][j]) != key(s[1..][i - 1]) {
      assert key(s[j + 1]) != key(s[i]);
    }
  }

  lemma {:induction false} FirstByDistinct<T(!new)>(s: seq<T>, key: T -> string, seen: set<string>)
    ensures DistinctBy(FirstBy(s, key, seen), key)
    ensures forall x :: x in FirstBy(s, key, seen) ==> key(x) !in seen
  {
    if s != [] {
      FirstByDistinct(s[1..], key, seen);
      FirstByDistinct(s[1..], key, seen + {key(s[0])});
    }
  }

  lemma {:induction false} FirstByCovers<T(!new)>(s: seq<T>, key: T -> string, seen: set<string>, x: T)
    requires x in s && key(x) !in seen
    ensures exists first :: first in FirstBy(s, key, seen) && key(first) == key(x)
  {
    if key(s[0]) == key(x) {
      assert s[0] in FirstBy(s, key, seen);
    } else {
      FirstByCovers(s[1..], key, if key(s[0]) in seen then seen else seen + {key(s[0])}, x);
    }
  }

  /** Dropping elements whose key no kept element may have changes nothing that is kept. */
  lemma {:induction false} DroppingIsHarmless<T(!new)>(s: seq<T>, key: T -> string, stay: T -> bool, keep: T -> bool,
                                                       taken: set<string>, seenFew: set<string>, seenMany: set<string>)
    requires seenFew <= seenMany && forall k :: k in seenMany ==> k in seenFew || k in taken
    requires forall x :: x in s && !stay(x) ==> key(x) in taken
    requires forall x :: keep(x) ==> key(x) !in taken
    ensures Filter(FirstBy(Filter(s, stay), key, seenFew), keep) == Filter(FirstBy(s, key, seenMany), keep)
  {
    if s != [] {
      var head, rest := s[0], s[1..];
      assert s == [head] + rest;
      var k := key(head);
      FilterAppend([head], rest, stay);
      FilterOne(head, stay);
      assert Filter(s, stay) == if stay(head) then [head] + Filter(rest, stay) else Filter(rest, stay);
      hide Filter, FirstBy;
      DroppingIsHarmless(rest, key, stay, keep, taken, if stay(head) then seenFew + {k} else seenFew, seenMany + {k});
      FirstStep(head, rest, key, seenMany, keep);
      if stay(head) {
        FirstStep(head, Filter(rest, stay), key, seenFew, keep);
      }
    }
  }

  lemma FirstStep<T(!new)>(head: T, rest: seq<T>, key: T -> string, seen: set<string>, keep: T -> bool)
    ensures Filter(FirstBy([head] + rest, key, seen), keep) ==
      (if key(head) !in seen && keep(head) then [head] else []) + Filter(FirstBy(rest, key, seen + {key(head)}), keep)
  {
    assert ([head] + rest)[1..] == rest;
    assert key(head) in seen ==> seen + {key(head)} == seen;
    var later := FirstBy(rest, key, seen + {key(head)});
    FilterAppend([head], later, keep);
    FilterOne(head, keep);
    assert [] + Filter(later, keep) == Filter(later, keep);
  }

  // -- Keys --------------------------------------------------------------------------------------

  function ActionKey(r: ActivityRecord): string {
    Lower(r.actionId)
  }

  function RequestKey(p: PendingActivity): string {
    Lower(p.requestId)
  }

  function RequestsOf(records: seq<ActivityRecord>): set<string> {
    set r | r in records :: Lower(r.requestId)
  }

  function HashesOf(records: seq<ActivityRecord>): set<string> {
    set r | r in records :: Lower(r.transactionHash)
  }

  predicate Overlaid(p: PendingActivity, requests: set<string>, hashes: set<string>) {
    Lower(p.requestId) !in requests && Lower(p.txHash) !in hashes
  }

  function IndexedEntry(r: ActivityRecord): Entry {
    Indexed(Lower(r.actionId), r)
  }

  function PendingEntry(p: PendingActivity): Entry {
    Pending("pending:" + Lower(p.requestId), p)
  }

  function LifecycleEntry(e: LifecycleEventRecord): Entry {
    Lifecycle("lifecycle:" + Lower(e.eventId), e)
  }

  function Map<T, U>(s: seq<T>, f: T -> U): (r: seq<U>)
    ensures |r| == |s| && forall i :: 0 <= i < |s| ==> r[i] == f(s[i])
  {
    seq(|s|, i requires 0 <= i < |s| => f(s[i]))
  }

  // -- The stable sort ---------------------------------------------------------------------------

  function Insert(e: Entry, sorted: seq<Entry>): seq<Entry> {
    if sorted == [] || Timestamp(sorted[0]) <= Timestamp(e) then [e] + sorted else [sorted[0]] + Insert(e, sorted[1..])
  }

  /** `sort` by descending timestamp; the language's sort is stable. */
  function StableSort(s: seq<Entry>): seq<Entry> {
    if s == [] then [] else Insert(s[0], StableSort(s[1..]))
  }

  predicate Descending(s: seq<Entry>) {
    forall i, j :: 0 <= i <= j < |s| ==> Timestamp(s[i]) >= Timestamp(s[j])
  }

  function AtTime(s: seq<Entry>, time: int): seq<Entry> {
    Filter(s, (e: Entry) => Timestamp(e) == time)
  }

  /** `b` has the entries of `a` with those of equal time in the same order. */
  ghost predicate SameByTime(a: seq<Entry>, b: seq<Entry>) {
    forall time :: AtTime(a, time) == AtTime(b, time)
  }

  lemma ConsAtTime(e: Entry, s: seq<Entry>, time: int)
    ensures AtTime([e] + s, time) == if Timestamp(e) == time then [e] + AtTime(s, time) else AtTime(s, time)
  {
    FilterAppend([e], s, (x: Entry) => Timestamp(x) == time);
    FilterOne(e, (x: Entry) => Timestamp(x) == time);
  }

  lemma {:induction false} InsertAtTime(e: Entry, sorted: seq<Entry>, time: int)
    ensures AtTime(Insert(e, sorted), time) == AtTime([e] + sorted, time)
  {
    if sorted != [] && Timestamp(sorted[0]) > Timestamp(e) {
      var head, rest := sorted[0], sorted[1..];
      assert sorted == [head] + rest && Insert(e, sorted) == [head] + Insert(e, rest);
      hide Insert, AtTime;
      InsertAtTime(e, rest, time);
      ConsAtTime(head, Insert(e, rest), time);
      ConsAtTime(e, rest, time);
      ConsAtTime(head, rest, time);
      ConsAtTime(e, sorted, time);
    }
  }

  lemma {:induction false} InsertPermutes(e: Entry, sorted: seq<Entry>)
    ensures multiset(Insert(e, sorted)) == multiset([e] + sorted)
  {
    if sorted != [] && Timestamp(sorted[0]) > Timestamp(e) {
      var head, rest := sorted[0], sorted[1..];
      assert sorted == [head] + rest && Insert(e, sorted) == [head] + Insert(e, rest);
      hide Insert;
      InsertPermutes(e, rest);
      assert multiset([head] + Insert(e, rest)) == multiset{head} + multiset([e] + rest);
    }
  }

  lemma {:induction false} InsertDescends(e: Entry, sorted: seq<Entry>)
    requires Descending(sorted)
    ensures Descending(Insert(e, sorted))
  {
    if sorted != [] && Timestamp(sorted[0]) > Timestamp(e) {
      var head, rest := sorted[0], sorted[1..];
      InsertDescends(e, rest);
      InsertBelow(e, rest, Timestamp(head));
      assert Insert(e, sorted) == [head] + Insert(e, rest);
    }
  }

  lemma {:induction false} InsertBelow(e: Entry, s: seq<Entry>, bound: int)
    requires Timestamp(e) <= bound && forall i :: 0 <= i < |s| ==> Timestamp(s[i]) <= bound
    ensures forall i :: 0 <= i < |Insert(e, s)| ==> Timestamp(Insert(e, s)[i]) <= bound
  {
    if s != [] && Timestamp(s[0]) > Timestamp(e) {
      InsertBelow(e, s[1..], bound);
    }
  }

  /** Sorted, a permutation, and stable. */
  lemma {:induction false} StableSortIsStable(s: seq<Entry>, time: int)
    ensures Descending(StableSort(s))
    ensures AtTime(StableSort(s), time) == AtTime(s, time)
    ensures multiset(StableSort(s)) == multiset(s)
  {
    if s != [] {
      var rest := StableSort(s[1..]);
      assert s == [s[0]] + s[1..] && StableSort(s) == Insert(s[0], rest);
      hide Insert, AtTime, Descending;
      StableSortIsStable(s[1..], time);
      InsertDescends(s[0], rest);
      InsertAtTime(s[0], rest, time);
      InsertPermutes(s[0], rest);
      ConsAtTime(s[0], s[1..], time);
      ConsAtTime(s[0], rest, time);
    }
  }

  lemma HeadAtItsTime(s: seq<Entry>)
    requires s != []
    ensures AtTime(s, Timestamp(s[0])) != [] && AtTime(s, Timestamp(s[0]))[0] == s[0]
  {
  }

  lemma {:induction false} NoneAbove(s: seq<Entry>, time: int)
    requires Descending(s) && (s != [] ==> Timestamp(s[0]) < time)
    ensures AtTime(s, time) == []
  {
    if s != [] {
      NoneAbove(s[1..], time);
    }
  }

  /** There is only one stable descending order: any sort that is stable gives this one. */
  lemma {:induction false} StableOrderIsUnique(a: seq<Entry>, b: seq<Entry>)
    requires Descending(a) && Descending(b) && SameByTime(a, b)
    ensures a == b
    decreases |a|
  {
    if a == [] {
      if b != [] {
        HeadAtItsTime(b);
        assert false;
      }
    } else {
      HeadAtItsTime(a);
      assert AtTime(a, Timestamp(a[0])) == AtTime(b, Timestamp(a[0]));
      assert b != [];
      HeadAtItsTime(b);
      assert AtTime(a, Timestamp(b[0])) == AtTime(b, Timestamp(b[0]));
      SameHeads(a, b);
      TailsSame(a, b);
      StableOrderIsUnique(a[1..], b[1..]);
      assert a == [a[0]] + a[1..] && b == [b[0]] + b[1..];
    }
  }

  lemma SameHeads(a: seq<Entry>, b: seq<Entry>)
    requires a != [] && b != [] && Descending(a) && Descending(b) && SameByTime(a, b)
    ensures a[0] == b[0]
  {
    HeadAtItsTime(a);
    HeadAtItsTime(b);
    var s, t := Timestamp(a[0]), Timestamp(b[0]);
    assert AtTime(a, s) == AtTime(b, s) && AtTime(a, t) == AtTime(b, t);
    if s < t {
      NoneAbove(a, t);
    } else if t < s {
      NoneAbove(b, s);
    }
  }

  lemma TailsSame(a: seq<Entry>, b: seq<Entry>)
    requires a != [] && b != [] && a[0] == b[0] && SameByTime(a, b)
    ensures SameByTime(a[1..], b[1..])
  {
    hide AtTime;
    assert a == [a[0]] + a[1..] && b == [b[0]] + b[1..];
    forall time ensures AtTime(a[1..], time) == AtTime(b[1..], time) {
      ConsAtTime(a[0], a[1..], time);
      ConsAtTime(b[0], b[1..], time);
      assert AtTime(a, time) == AtTime(b, time);
      var front := if Timestamp(a[0]) == time then 1 else 0;
      assert AtTime(a[1..], time) == AtTime(a, time)[front..];
      assert AtTime(b[1..], time) == AtTime(b, time)[front..];
    }
  }

  // -- The merge ---------------------------------------------------------------------------------

  function FirstRecords(records: seq<ActivityRecord>): seq<ActivityRecord> {
    FirstBy(records, ActionKey, {})
  }

  /** The first pending entry of each request, unless something indexed has its request or its hash. */
  function Unindexed(pending: seq<PendingActivity>, seen: set<string>, requests: set<string>,
                     hashes: set<string>): seq<PendingActivity> {
    Filter(FirstBy(pending, RequestKey, seen), (p: PendingActivity) => Overlaid(p, requests, hashes))
  }

  function Overlays(records: seq<ActivityRecord>, pending: seq<PendingActivity>): seq<PendingActivity> {
    Unindexed(pending, {}, RequestsOf(FirstRecords(records)), HashesOf(FirstRecords(records)))
  }

  function OnChain(records: seq<ActivityRecord>, lifecycle: seq<LifecycleEventRecord>): seq<Entry> {
    Map(FirstRecords(records), IndexedEntry) + Map(lifecycle, LifecycleEntry)
  }

  function Merged(records: seq<ActivityRecord>, pending: seq<PendingActivity>,
                  lifecycle: seq<LifecycleEventRecord>): seq<Entry> {
    Map(Overlays(records, pending), PendingEntry) + StableSort(OnChain(records, lifecycle))
  }

  /** The first scan: the records of the merge, and what they say is indexed. */
  method ScanRecords(records: seq<ActivityRecord>)
    returns (indexed: seq<Entry>, requests: set<string>, transactions: set<string>)
    ensures indexed == Map(FirstRecords(records), IndexedEntry)
    ensures requests == RequestsOf(FirstRecords(records)) && transactions == HashesOf(FirstRecords(records))
  {
    var seenActions: set<string> := {};
    requests, transactions, indexed := {}, {}, [];
    ghost var kept: seq<ActivityRecord> := [];
    for i := 0 to |records|
      invariant kept + FirstBy(records[i..], ActionKey, seenActions) == FirstRecords(records)
      invariant indexed == Map(kept, IndexedEntry)
      invariant requests == RequestsOf(kept) && transactions == HashesOf(kept)
    {
      var record := records[i];
      var key := Lower(record.actionId);
      assert records[i..][0] == record && records[i..][1..] == records[i + 1..];
      assert FirstBy(records[i..], ActionKey, seenActions) ==
        if key in seenActions then FirstBy(records[i + 1..], ActionKey, seenActions)
        else [record] + FirstBy(records[i + 1..], ActionKey, seenActions + {key});
      hide FirstBy, RequestsOf, HashesOf, Map;
      if key !in seenActions {
        seenActions := seenActions + {key};
        requests := requests + {Lower(record.requestId)};
        transactions := transactions + {Lower(record.transactionHash)};
        indexed := indexed + [Indexed(key, record)];
        KeptOneMore(kept, record);
        Regroup(kept, record, FirstBy(records[i + 1..], ActionKey, seenActions));
        kept := kept + [record];
      }
    }
    assert kept == FirstRecords(records);
  }

  /** The second scan: the overlays nothing indexed replaces. */
  method ScanPending(pending: seq<PendingActivity>, requests: set<string>, transactions: set<string>)
    returns (overlays: seq<Entry>)
    ensures overlays == Map(Unindexed(pending, {}, requests, transactions), PendingEntry)
  {
    var seenPending: set<string> := {};
    overlays := [];
    ghost var shown: seq<PendingActivity> := [];
    for i := 0 to |pending|
      invariant shown + Unindexed(pending[i..], seenPending, requests, transactions) ==
                Unindexed(pending, {}, requests, transactions)
      invariant overlays == Map(shown, PendingEntry)
    {
      var p := pending[i];
      var key := Lower(p.requestId);
      NextPending(pending, i, seenPending, requests, transactions);
      hide Unindexed, Map;
      if key !in seenPending {
        seenPending := seenPending + {key};
        if key !in requests && Lower(p.txHash) !in transactions {
          overlays := overlays + [Pending("pending:" + key, p)];
          MapOneMore(shown, p, PendingEntry);
          Regroup(shown, p, Unindexed(pending[i + 1..], seenPending, requests, transactions));
          shown := shown + [p];
        }
      }
    }
    assert shown == Unindexed(pending, {}, requests, transactions);
  }

  method MergeTimeline(records: seq<ActivityRecord>, pending: seq<PendingActivity>,
                       lifecycle: seq<LifecycleEventRecord>) returns (entries: seq<Entry>)
    ensures entries == Merged(records, pending, lifecycle)
  {
    var indexed, requests, transactions := ScanRecords(records);
    var overlays := ScanPending(pending, requests, transactions);
    return overlays + StableSort(indexed + Map(lifecycle, LifecycleEntry));
  }

  lemma NextPending(pending: seq<PendingActivity>, i: nat, seen: set<string>, requests: set<string>,
                    hashes: set<string>)
    requires i < |pending|
    ensures
      var p := pending[i];
      var key := RequestKey(p);
      Unindexed(pending[i..], seen, requests, hashes) ==
      if key in seen then Unindexed(pending[i + 1..], seen, requests, hashes)
      else (if Overlaid(p, requests, hashes) then [p] else []) + Unindexed(pending[i + 1..], seen + {key}, requests,
                                                                           hashes)
    ensures
      var rest := Unindexed(pending[i + 1..], seen + {RequestKey(pending[i])}, requests, hashes);
      [] + rest == rest
  {
    assert pending[i..] == [pending[i]] + pending[i + 1..];
    FirstStep(pending[i], pending[i + 1..], RequestKey, seen, (p: PendingActivity) => Overlaid(p, requests, hashes));
    assert RequestKey(pending[i]) in seen ==> seen + {RequestKey(pending[i])} == seen;
    var later := Unindexed(pending[i + 1..], seen + {RequestKey(pending[i])}, requests, hashes);
    assert [] + later == later;
  }

  lemma Regroup<T>(front: seq<T>, x: T, rest: seq<T>)
    ensures front + ([x] + rest) == (front + [x]) + rest
  {
  }

  lemma MapOneMore<T, U>(s: seq<T>, x: T, f: T -> U)
    ensures Map(s + [x], f) == Map(s, f) + [f(x)]
  {
  }

  lemma KeptOneMore(kept: seq<ActivityRecord>, record: ActivityRecord)
    ensures RequestsOf(kept + [record]) == RequestsOf(kept) + {Lower(record.requestId)}
    ensures HashesOf(kept + [record]) == HashesOf(kept) + {Lower(record.transactionHash)}
    ensures Map(kept + [record], IndexedEntry) == Map(kept, IndexedEntry) + [IndexedEntry(record)]
  {
    MapOneMore(kept, record, IndexedEntry);
    var more := kept + [record];
    assert forall r :: r in more <==> r in kept || r == record;
    assert more[|kept|] == record;
    assert Lower(record.requestId) in RequestsOf(more) && Lower(record.transactionHash) in HashesOf(more);
    forall r | r in kept ensures Lower(r.requestId) in RequestsOf(more) && Lower(r.transactionHash) in HashesOf(more) {
      assert r in more;
    }
  }

  // -- What is displayed -------------------------------------------------------------------------

  /** A pending entry is shown exactly when it is the first of its request and neither that request
      nor its hash belongs to a record that is shown. */
  lemma OverlaysAreTheUnindexed(records: seq<ActivityRecord>, pending: seq<PendingActivity>, p: PendingActivity)
    ensures p in Overlays(records, pending) <==>
      && (exists i :: IsFirst(pending, RequestKey, i) && pending[i] == p)
      && (forall r :: r in FirstRecords(records) ==>
            !SameText(r.requestId, p.requestId) && !SameText(r.transactionHash, p.txHash))
  {
    FirstByMeans(pending, RequestKey, {}, p);
    var kept := FirstRecords(records);
    assert Overlaid(p, RequestsOf(kept), HashesOf(kept)) <==>
      forall r :: r in kept ==> !SameText(r.requestId, p.requestId) && !SameText(r.transactionHash, p.txHash);
  }

  /** One overlay per request. */
  lemma OverlaysDifferInRequest(records: seq<ActivityRecord>, pending: seq<PendingActivity>)
    ensures DistinctBy(Overlays(records, pending), RequestKey)
  {
    FirstByDistinct(pending, RequestKey, {});
    var kept := FirstRecords(records);
    FilterKeepsDistinct(FirstBy(pending, RequestKey, {}), RequestKey,
                        (p: PendingActivity) => Overlaid(p, RequestsOf(kept), HashesOf(kept)));
  }

  lemma {:induction false} FilterKeepsDistinct<T(!new)>(s: seq<T>, key: T -> string, keep: T -> bool)
    requires DistinctBy(s, key)
    ensures DistinctBy(Filter(s, keep), key)
  {
    if s != [] {
      FilterKeepsDistinct(s[1..], key, keep);
      var head, later := s[0], Filter(s[1..], keep);
      assert forall x :: x in s[1..] ==> key(head) != key(x);
      assert Filter(s, keep) == (if keep(head) then [head] else []) + later;
    }
  }

  /** One shown record per action, and one for every action: its first. */
  lemma RecordsCoverEachActionOnce(records: seq<ActivityRecord>, r: ActivityRecord)
    ensures DistinctBy(FirstRecords(records), ActionKey)
    ensures r in FirstRecords(records) <==> exists i :: IsFirst(records, ActionKey, i) && records[i] == r
    ensures r in records ==> exists shown :: shown in FirstRecords(records) && SameText(shown.actionId, r.actionId)
  {
    FirstByDistinct(records, ActionKey, {});
    FirstByMeans(records, ActionKey, {}, r);
    if r in records {
      FirstByCovers(records, ActionKey, {}, r);
      var shown :| shown in FirstBy(records, ActionKey, {}) && ActionKey(shown) == ActionKey(r);
      assert shown in FirstRecords(records) && SameText(shown.actionId, r.actionId);
    }
  }

  /** The part after the overlays is the newest-first order of the records and lifecycle events, equal
      times in their given order, and any sequence that is that is this one. */
  lemma OnChainPartIsTheStableOrder(records: seq<ActivityRecord>, pending: seq<PendingActivity>,
                                    lifecycle: seq<LifecycleEventRecord>, entries: seq<Entry>)
    ensures
      var onChain := OnChain(records, lifecycle);
      var overlays := Map(Overlays(records, pending), PendingEntry);
      (|overlays| <= |entries| && entries[..|overlays|] == overlays
        && Descending(entries[|overlays|..]) && SameByTime(entries[|overlays|..], onChain))
      <==> entries == Merged(records, pending, lifecycle)
    ensures multiset(StableSort(OnChain(records, lifecycle))) == multiset(OnChain(records, lifecycle))
  {
    hide AtTime, Descending, StableSort, Overlays, FirstBy, Map;
    var onChain := OnChain(records, lifecycle);
    var sorted := StableSort(onChain);
    var overlays := Map(Overlays(records, pending), PendingEntry);
    forall time ensures AtTime(sorted, time) == AtTime(onChain, time) {
      StableSortIsStable(onChain, time);
    }
    StableSortIsStable(onChain, 0);
    if |overlays| <= |entries| && entries[..|overlays|] == overlays
      && Descending(entries[|overlays|..]) && SameByTime(entries[|overlays|..], onChain) {
      StableOrderIsUnique(entries[|overlays|..], sorted);
      assert entries == overlays + sorted;
    }
    if entries == Merged(records, pending, lifecycle) {
      assert entries[|overlays|..] == sorted && entries[..|overlays|] == overlays;
    }
  }

  // -- Pruning confirmed entries first -----------------------------------------------------------

  predicate IsIndexed(records: seq<ActivityRecord>, p: PendingActivity) {
    exists r :: r in records && SameText(r.requestId, p.requestId) && SameText(r.transactionHash, p.txHash)
  }

  function StillPending(records: seq<ActivityRecord>, pending: seq<PendingActivity>): seq<PendingActivity> {
    Filter(pending, (p: PendingActivity) => !IsIndexed(records, p))
  }

  /** Every request that some record tells of is told of by a record that is shown. */
  predicate NoRequestIsLost(records: seq<ActivityRecord>) {
    RequestsOf(records) <= RequestsOf(FirstRecords(records))
  }

  /**
   * Removing the entries the index already has leaves the merged list as it was, whatever is pending,
   * exactly when no request is lost with the records of an action after its first.
   */
  lemma PruneIsHarmlessExactlyWhen(records: seq<ActivityRecord>, lifecycle: seq<LifecycleEventRecord>)
    ensures NoRequestIsLost(records) <==>
            forall pending :: Merged(records, StillPending(records, pending), lifecycle) == Merged(records, pending,
                lifecycle)
  {
    hide NoRequestIsLost, Merged, StillPending;
    if NoRequestIsLost(records) {
      forall pending ensures Merged(records, StillPending(records, pending), lifecycle) ==
        Merged(records, pending, lifecycle) {
        PruneIsHarmless(records, pending, lifecycle);
      }
    } else {
      var pending := PruneHarms(records, lifecycle);
    }
  }

  lemma PruneIsHarmless(records: seq<ActivityRecord>, pending: seq<PendingActivity>,
                        lifecycle: seq<LifecycleEventRecord>)
    requires NoRequestIsLost(records)
    ensures Merged(records, StillPending(records, pending), lifecycle) == Merged(records, pending, lifecycle)
  {
    var kept := FirstRecords(records);
    var taken := RequestsOf(kept);
    forall p | p in pending && IsIndexed(records, p) ensures RequestKey(p) in taken {
      assert RequestKey(p) in RequestsOf(records);
    }
    hide IsIndexed, NoRequestIsLost;
    DroppingIsHarmless(pending, RequestKey, (p: PendingActivity) => !IsIndexed(records, p),
      (p: PendingActivity) => Overlaid(p, taken, HashesOf(kept)), taken, {}, {});
  }

  /** A hash no record has. */
  lemma {:induction false} UnseenHash(records: seq<ActivityRecord>) returns (hash: string)
    ensures forall r :: r in records ==> |r.transactionHash| < |hash|
  {
    if records == [] {
      hash := "";
    } else {
      var rest := UnseenHash(records[1..]);
      hash := rest + records[0].transactionHash + "0";
      assert forall r :: r in records ==> r == records[0] || r in records[1..];
    }
  }

  /** The lost record's own entry, followed by one of the same request under a hash nobody knows. */
  lemma PruneHarms(records: seq<ActivityRecord>, lifecycle: seq<LifecycleEventRecord>)
    returns (pending: seq<PendingActivity>)
    requires !NoRequestIsLost(records)
    ensures Merged(records, StillPending(records, pending), lifecycle) != Merged(records, pending, lifecycle)
  {
    var kept := FirstRecords(records);
    var r :| r in records && Lower(r.requestId) !in RequestsOf(kept);
    var hash := UnseenHash(records);
    var p := PendingActivity(r.requestId, r.transactionHash, "EXECUTED", 0, "");
    var q := PendingActivity(r.requestId, hash, "EXECUTED", 0, "");
    pending := [p, q];
    assert forall s :: s in records ==> |Lower(s.transactionHash)| < |Lower(hash)|;
    assert IsIndexed(records, p) && !IsIndexed(records, q);
    OnlyTheSecondIsStillPending(records, p, q);
    KeptAreRecords(records);
    hide IsIndexed, FirstRecords;
    OverlaysOfSecond(records, q);
    OverlaysOfBoth(records, p, q);
    MergedTellsOverlays(records, [q], pending, lifecycle);
  }

  lemma KeptAreRecords(records: seq<ActivityRecord>)
    ensures forall r :: r in FirstRecords(records) ==> r in records
  {
    forall r | r in FirstRecords(records) ensures r in records {
      RecordsCoverEachActionOnce(records, r);
      var i :| IsFirst(records, ActionKey, i) && records[i] == r;
    }
  }

  lemma OnlyTheSecondIsStillPending(records: seq<ActivityRecord>, p: PendingActivity, q: PendingActivity)
    requires IsIndexed(records, p) && !IsIndexed(records, q)
    ensures StillPending(records, [p, q]) == [q]
  {
    hide IsIndexed;
    var keep := (x: PendingActivity) => !IsIndexed(records, x);
    assert [p, q] == [p] + [q];
    FilterAppend([p], [q], keep);
    FilterOne(p, keep);
    FilterOne(q, keep);
  }

  lemma OverlaysOfSecond(records: seq<ActivityRecord>, q: PendingActivity)
    requires Overlaid(q, RequestsOf(FirstRecords(records)), HashesOf(FirstRecords(records)))
    ensures Overlays(records, [q]) == [q]
  {
    hide FirstRecords, RequestsOf, HashesOf, Overlaid;
    assert [q][1..] == [];
    assert FirstBy([q], RequestKey, {}) == [q];
    FilterOne(q, (x: PendingActivity) => Overlaid(x, RequestsOf(FirstRecords(records)),
                                                  HashesOf(FirstRecords(records))));
  }

  lemma OverlaysOfBoth(records: seq<ActivityRecord>, p: PendingActivity, q: PendingActivity)
    requires SameText(p.requestId, q.requestId)
    ensures q !in Overlays(records, [p, q]) || p == q
  {
    hide FirstRecords, RequestsOf, HashesOf, Overlaid;
    FirstByMeans([p, q], RequestKey, {}, q);
    if q in Overlays(records, [p, q]) {
      assert q in FirstBy([p, q], RequestKey, {});
      var i :| IsFirst([p, q], RequestKey, i) && [p, q][i] == q;
      assert i != 1 by {
        assert RequestKey([p, q][0]) == RequestKey([p, q][1]);
      }
    }
  }

  /** The merged list tells its overlays. */
  lemma MergedTellsOverlays(records: seq<ActivityRecord>, some: seq<PendingActivity>, others: seq<PendingActivity>,
                            lifecycle: seq<LifecycleEventRecord>)
    ensures Merged(records, some, lifecycle) == Merged(records, others, lifecycle) ==>
              Overlays(records, some) == Overlays(records, others)
  {
    hide Overlays, StableSort, OnChain;
    var a, b := Map(Overlays(records, some), PendingEntry), Map(Overlays(records, others), PendingEntry);
    var tail := StableSort(OnChain(records, lifecycle));
    if a + tail == b + tail {
      assert |a| == |b| && a == (a + tail)[..|a|] && b == (b + tail)[..|b|];
      assert forall i :: 0 <= i < |a| ==> a[i].pending == b[i].pending;
    }
  }

  /** Records of one action tell of one request. */
  predicate ActionsAgree(records: seq<ActivityRecord>) {
    forall r, s :: r in records && s in records && SameText(r.actionId, s.actionId) ==>
        SameText(r.requestId, s.requestId)
  }

  /** In particular pruning is harmless where records of one action tell of one request, as identical ones do. */
  lemma AgreementLosesNoRequest(records: seq<ActivityRecord>)
    requires ActionsAgree(records)
    ensures NoRequestIsLost(records)
  {
    KeptAreRecords(records);
    forall r | r in records ensures Lower(r.requestId) in RequestsOf(FirstRecords(records)) {
      RecordsCoverEachActionOnce(records, r);
      var shown :| shown in FirstRecords(records) && SameText(shown.actionId, r.actionId);
      assert SameText(shown.requestId, r.requestId);
    }
  }

  /** Two records of one action that tell of two requests lose the second, so pruning can show more. */
  lemma PruneNeedsAgreement(lifecycle: seq<LifecycleEventRecord>) returns (pending: seq<PendingActivity>)
    ensures
      var records := [ActivityRecord("a", "r1", "h1", "EXECUTED", 1, ""),
                      ActivityRecord("a", "r2", "h2", "EXECUTED", 1, "")];
      Merged(records, StillPending(records, pending), lifecycle) != Merged(records, pending, lifecycle)
  {
    var first, second := ActivityRecord("a", "r1", "h1", "EXECUTED", 1, ""),
        ActivityRecord("a", "r2", "h2", "EXECUTED", 1, "");
    var records := [first, second];
    assert Lower("r1")[1] != Lower("r2")[1];
    RecordsCoverEachActionOnce(records, second);
    assert records[1] == second && ActionKey(records[0]) == ActionKey(records[1]);
    KeptAreRecords(records);
    hide FirstRecords;
    assert second in records && Lower(second.requestId) in RequestsOf(records);
    assert Lower(second.requestId) !in RequestsOf(FirstRecords(records));
    pending := PruneHarms(records, lifecycle);
  }

  /** A request lost with one action may be told of by another: agreement is not needed. */
  lemma AgreementIsNotNeeded()
    ensures
      var records := [ActivityRecord("a", "r1", "h1", "EXECUTED", 1, ""),
                      ActivityRecord("a", "r2", "h2", "EXECUTED", 1, ""),
                      ActivityRecord("b", "r2", "h3", "EXECUTED", 1, "")];
      NoRequestIsLost(records) && !ActionsAgree(records)
  {
    var records := [ActivityRecord("a", "r1", "h1", "EXECUTED", 1, ""),
                    ActivityRecord("a", "r2", "h2", "EXECUTED", 1, ""),
                    ActivityRecord("b", "r2", "h3", "EXECUTED", 1, "")];
    assert Lower("r1")[1] != Lower("r2")[1] && Lower("a")[0] != Lower("b")[0];
    assert records[0] in records && records[1] in records;
    assert IsFirst(records, ActionKey, 0) && IsFirst(records, ActionKey, 2);
    RecordsCoverEachActionOnce(records, records[0]);
    RecordsCoverEachActionOnce(records, records[2]);
    hide FirstRecords;
    assert Lower(records[0].requestId) in RequestsOf(FirstRecords(records))
           && Lower(records[2].requestId) in RequestsOf(FirstRecords(records));
    forall r | r in records ensures Lower(r.requestId) in RequestsOf(FirstRecords(records)) {
      assert r == records[0] || r == records[1] || r == records[2];
    }
  }

  // -- In the source's terms ---------------------------------------------------------------------

  /** The block time of what is on the chain, in seconds. */
  function Seconds(entry: Entry): nat
    requires !entry.Pending?
  {
    match entry
    case Indexed(_, record) => record.timestamp
    case Lifecycle(_, event) => event.timestamp
  }

  /** The key under which an entry is displayed. */
  predicate IsKeyed(entry: Entry) {
    match entry
    case Indexed(key, record) => key == Lower(record.actionId)
    case Pending(key, pending) => key == "pending:" + Lower(pending.requestId)
    case Lifecycle(key, event) => key == "lifecycle:" + Lower(event.eventId)
  }

  lemma {:induction false} SortKeepsEntries(s: seq<Entry>, x: Entry)
    ensures x in StableSort(s) <==> x in s
    ensures |StableSort(s)| == |s|
  {
    StableSortIsStable(s, 0);
    assert x in multiset(StableSort(s)) <==> x in multiset(s);
    assert |multiset(StableSort(s))| == |multiset(s)|;
  }

  /**
   * First every overlay, then what is on the chain, newest first by its seconds, each under its own key.
   */
  lemma MergedIsNewestFirst(records: seq<ActivityRecord>, pending: seq<PendingActivity>,
                            lifecycle: seq<LifecycleEventRecord>)
    ensures var entries, shown := Merged(records, pending, lifecycle), |Overlays(records, pending)|;
            && |entries| == shown + |FirstRecords(records)| + |lifecycle|
            && (forall i :: 0 <= i < |entries| ==> IsKeyed(entries[i]) && (entries[i].Pending? <==> i < shown))
            && (forall i :: 0 <= i < shown ==> entries[i].pending == Overlays(records, pending)[i])
            && (forall i, j :: shown <= i < j < |entries| ==> Seconds(entries[i]) >= Seconds(entries[j]))
  {
    var onChain := OnChain(records, lifecycle);
    var sorted := StableSort(onChain);
    StableSortIsStable(onChain, 0);
    assert forall x :: x in onChain ==> IsKeyed(x) && !x.Pending? by { ChainIsKeyed(records, lifecycle); }
    forall x | x in sorted ensures IsKeyed(x) && !x.Pending? {
      SortKeepsEntries(onChain, x);
    }
    SortKeepsEntries(onChain, Lifecycle("", LifecycleEventRecord("", 0, "")));
    SortedInSeconds(sorted);
    hide StableSort, Lower, FirstRecords, Overlays, IsKeyed, Descending, AtTime, Seconds;
    assert |onChain| == |FirstRecords(records)| + |lifecycle|;
    hide OnChain;
    InOrder(Overlays(records, pending), sorted);
    hide Map;
  }

  lemma InOrder(shown: seq<PendingActivity>, sorted: seq<Entry>)
    requires forall x :: x in sorted ==> IsKeyed(x) && !x.Pending?
    requires forall i :: 0 <= i < |sorted| ==> !sorted[i].Pending?
    requires forall i, j :: 0 <= i < j < |sorted| ==> Seconds(sorted[i]) >= Seconds(sorted[j])
    ensures var entries := Map(shown, PendingEntry) + sorted;
            && |entries| == |shown| + |sorted|
            && (forall i :: 0 <= i < |entries| ==> IsKeyed(entries[i]) && (entries[i].Pending? <==> i < |shown|))
            && (forall i :: 0 <= i < |shown| ==> entries[i].pending == shown[i])
            && (forall i, j :: |shown| <= i < j < |entries| ==> Seconds(entries[i]) >= Seconds(entries[j]))
  {
    OverlaysAreKeyed(shown);
    hide IsKeyed, Seconds, Map;
    var entries := Map(shown, PendingEntry) + sorted;
    assert forall i :: 0 <= i < |sorted| ==> sorted[i] in sorted;
    assert forall i :: |shown| <= i < |entries| ==> entries[i] == sorted[i - |shown|];
    assert forall i :: 0 <= i < |shown| ==> entries[i] == Map(shown, PendingEntry)[i];
  }

  lemma ChainIsKeyed(records: seq<ActivityRecord>, lifecycle: seq<LifecycleEventRecord>)
    ensures forall x :: x in OnChain(records, lifecycle) ==> IsKeyed(x) && !x.Pending?
  {
    hide Lower, FirstRecords;
  }

  lemma OverlaysAreKeyed(shown: seq<PendingActivity>)
    ensures var entries := Map(shown, PendingEntry);
            forall i :: 0 <= i < |shown| ==>
                entries[i].Pending? && IsKeyed(entries[i]) && entries[i].pending == shown[i]
  {
    hide Lower;
  }

  lemma SortedInSeconds(sorted: seq<Entry>)
    requires Descending(sorted) && forall x :: x in sorted ==> !x.Pending?
    ensures forall i :: 0 <= i < |sorted| ==> !sorted[i].Pending?
    ensures forall i, j :: 0 <= i < j < |sorted| ==> Seconds(sorted[i]) >= Seconds(sorted[j])
  {
    assert forall i :: 0 <= i < |sorted| ==> sorted[i] in sorted;
    forall i, j | 0 <= i < j < |sorted| ensures Seconds(sorted[i]) >= Seconds(sorted[j]) {
      assert Timestamp(sorted[i]) >= Timestamp(sorted[j]);
    }
  }

  function KeyOf(e: Entry): string {
    e.key
  }

  lemma {:induction false} InsertedAre(e: Entry, s: seq<Entry>)
    ensures forall x :: x in Insert(e, s) <==> x == e || x in s
  {
    if s != [] && Timestamp(s[0]) > Timestamp(e) {
      assert s == [s[0]] + s[1..];
      InsertedAre(e, s[1..]);
    }
  }

  lemma ConsDistinct(head: Entry, rest: seq<Entry>)
    ensures DistinctBy([head] + rest, KeyOf) <==>
            DistinctBy(rest, KeyOf) && forall x :: x in rest ==> KeyOf(x) != KeyOf(head)
  {
    var s := [head] + rest;
    assert forall i :: 0 <= i < |rest| ==> s[i + 1] == rest[i];
    assert s[0] == head;
    if DistinctBy(s, KeyOf) {
      forall x | x in rest ensures KeyOf(x) != KeyOf(head) {
        var i :| 0 <= i < |rest| && rest[i] == x;
        assert KeyOf(s[0]) != KeyOf(s[i + 1]);
      }
      forall i, j | 0 <= i < j < |rest| ensures KeyOf(rest[i]) != KeyOf(rest[j]) {
        assert KeyOf(s[i + 1]) != KeyOf(s[j + 1]);
      }
    }
  }

  lemma {:induction false} InsertKeepsDistinct(e: Entry, s: seq<Entry>)
    requires DistinctBy(s, KeyOf) && forall x :: x in s ==> KeyOf(x) != KeyOf(e)
    ensures DistinctBy(Insert(e, s), KeyOf)
  {
    if s == [] || Timestamp(s[0]) <= Timestamp(e) {
      ConsDistinct(e, s);
    } else {
      var head, rest := s[0], s[1..];
      assert s == [head] + rest && Insert(e, s) == [head] + Insert(e, rest);
      hide Insert, DistinctBy;
      ConsDistinct(head, rest);
      InsertKeepsDistinct(e, rest);
      InsertedAre(e, rest);
      ConsDistinct(head, Insert(e, rest));
    }
  }

  lemma {:induction false} SortKeepsDistinct(s: seq<Entry>)
    requires DistinctBy(s, KeyOf)
    ensures DistinctBy(StableSort(s), KeyOf)
  {
    if s != [] {
      var sorted := StableSort(s[1..]);
      assert s == [s[0]] + s[1..] && StableSort(s) == Insert(s[0], sorted);
      hide StableSort, Insert, DistinctBy;
      ConsDistinct(s[0], s[1..]);
      SortKeepsDistinct(s[1..]);
      forall x | x in sorted ensures KeyOf(x) != KeyOf(s[0]) {
        SortKeepsEntries(s[1..], x);
      }
      InsertKeepsDistinct(s[0], sorted);
    }
  }

  /** No two entries are displayed under one key, when action IDs are hexadecimal and events differ in ID. */
  lemma EntryKeysDiffer(records: seq<ActivityRecord>, pending: seq<PendingActivity>,
                        lifecycle: seq<LifecycleEventRecord>)
    requires forall r :: r in records ==> r.actionId != "" && r.actionId[0] == '0'
    requires DistinctBy(lifecycle, (e: LifecycleEventRecord) => Lower(e.eventId))
    ensures DistinctBy(Merged(records, pending, lifecycle), KeyOf)
  {
    OverlaysDifferInRequest(records, pending);
    FirstByDistinct(records, ActionKey, {});
    KeptAreRecords(records);
    var kept, shown := FirstRecords(records), Overlays(records, pending);
    assert DistinctBy(kept, ActionKey) && DistinctBy(shown, RequestKey);
    hide FirstRecords, Overlays, Lower;
    var onChain := OnChain(records, lifecycle);
    ChainKeysDiffer(kept, lifecycle);
    SortKeepsDistinct(onChain);
    forall i | 0 <= i < |StableSort(onChain)| ensures StableSort(onChain)[i] in onChain {
      SortKeepsEntries(onChain, StableSort(onChain)[i]);
    }
    hide StableSort, OnChain, Map, KeyOf, DistinctBy;
    OverlayKeysDiffer(shown);
    ChainKeysAreNoOverlays(kept, lifecycle);
    assert onChain == Map(kept, IndexedEntry) + Map(lifecycle, LifecycleEntry) by { OnChainParts(records, lifecycle); }
    var overlays, sorted := Map(shown, PendingEntry), StableSort(onChain);
    forall i, j | 0 <= i < |overlays| && 0 <= j < |sorted| ensures overlays[i].key != sorted[j].key {
      assert sorted[j] in onChain && |overlays| == |shown|;
    }
    JoinedDiffer(overlays, sorted);
  }

  lemma OnChainParts(records: seq<ActivityRecord>, lifecycle: seq<LifecycleEventRecord>)
    ensures OnChain(records, lifecycle) == Map(FirstRecords(records), IndexedEntry) + Map(lifecycle, LifecycleEntry)
  {
    hide FirstRecords, Map;
  }

  lemma JoinedDiffer(a: seq<Entry>, b: seq<Entry>)
    requires DistinctBy(a, KeyOf) && DistinctBy(b, KeyOf)
    requires forall i, j :: 0 <= i < |a| && 0 <= j < |b| ==> a[i].key != b[j].key
    ensures DistinctBy(a + b, KeyOf)
  {
  }

  lemma OverlayKeysDiffer(shown: seq<PendingActivity>)
    requires DistinctBy(shown, RequestKey)
    ensures DistinctBy(Map(shown, PendingEntry), KeyOf)
    ensures forall i :: 0 <= i < |shown| ==>
              Map(shown, PendingEntry)[i].key != "" && Map(shown, PendingEntry)[i].key[0] == 'p'
  {
    hide Lower;
    forall i, j | 0 <= i < j < |shown| ensures KeyOf(PendingEntry(shown[i])) != KeyOf(PendingEntry(shown[j])) {
      assert ("pending:" + Lower(shown[i].requestId))[8..] == RequestKey(shown[i]);
      assert ("pending:" + Lower(shown[j].requestId))[8..] == RequestKey(shown[j]);
    }
  }

  lemma ChainKeysAreNoOverlays(kept: seq<ActivityRecord>, lifecycle: seq<LifecycleEventRecord>)
    requires forall r :: r in kept ==> r.actionId != "" && r.actionId[0] == '0'
    ensures forall x :: x in Map(kept, IndexedEntry) + Map(lifecycle, LifecycleEntry) ==> x.key != "" && x.key[0] != 'p'
  {
    forall i | 0 <= i < |kept| ensures Map(kept, IndexedEntry)[i].key != ""
      && Map(kept, IndexedEntry)[i].key[0] == '0' {
      assert kept[i] in kept;
    }
  }

  lemma ChainKeysDiffer(kept: seq<ActivityRecord>, lifecycle: seq<LifecycleEventRecord>)
    requires forall r :: r in kept ==> r.actionId != "" && r.actionId[0] == '0'
    requires DistinctBy(kept, ActionKey) && DistinctBy(lifecycle, (e: LifecycleEventRecord) => Lower(e.eventId))
    ensures DistinctBy(Map(kept, IndexedEntry) + Map(lifecycle, LifecycleEntry), KeyOf)
  {
    var a, b := Map(kept, IndexedEntry), Map(lifecycle, LifecycleEntry);
    forall i | 0 <= i < |kept| ensures a[i].key[0] == '0' && KeyOf(a[i]) == ActionKey(kept[i]) {
      assert kept[i] in kept;
    }
    hide Lower;
    forall i, j | 0 <= i < j < |b| ensures KeyOf(b[i]) != KeyOf(b[j]) {
      assert ("lifecycle:" + Lower(lifecycle[i].eventId))[10..] == Lower(lifecycle[i].eventId);
      assert ("lifecycle:" + Lower(lifecycle[j].eventId))[10..] == Lower(lifecycle[j].eventId);
    }
    assert forall i :: 0 <= i < |b| ==> b[i].key[0] == 'l';
  }

  /** What pruning leaves: the entries of which no record has both the request and the hash. */
  lemma StillPendingExactly(records: seq<ActivityRecord>, pending: seq<PendingActivity>, p: PendingActivity)
    ensures p in StillPending(records, pending) <==>
            p in pending && forall r :: r in records ==>
                              Lower(r.requestId) != Lower(p.requestId) || Lower(r.transactionHash) != Lower(p.txHash)
  {
    hide Lower;
  }
}
