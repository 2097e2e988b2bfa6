/** The sliding window of `web/src/server/core.ts`. Times are in milliseconds. */
module RateLimit {
  import opened Prelude

  const WINDOW: int := 60_000

  function Recent(times: seq<int>, after: int): seq<int> {
    Filter(times, (t: int) => t > after)
  }

  function InWindow(times: seq<int>, end: int): seq<int> {
    Filter(times, (t: int) => end - WINDOW < t <= end)
  }

  /** The places of the admissions after a moment, and of those in the sixty seconds up to a moment. */
  function After(times: seq<int>, after: int): set<int> {
    set i | 0 <= i < |times| && times[i] > after
  }

  function Within(times: seq<int>, end: int): set<int> {
    set i | 0 <= i < |times| && end - 60_000 < times[i] <= end
  }

  lemma AfterOfAppend(times: seq<int>, last: int, after: int)
    ensures After(times + [last], after) == After(times, after) + if last > after then {|times|} else {}
    ensures |times| !in After(times, after)
  {
    var all := times + [last];
    assert forall i :: 0 <= i < |times| ==> all[i] == times[i];
    assert all[|times|] == last;
  }

  lemma WithinOfAppend(times: seq<int>, last: int, end: int)
    ensures Within(times + [last], end) == Within(times, end) + if end - 60_000 < last <= end then {|times|} else {}
    ensures |times| !in Within(times, end)
  {
    var all := times + [last];
    assert forall i :: 0 <= i < |times| ==> all[i] == times[i];
    assert all[|times|] == last;
  }

  lemma {:induction false} RecentCounts(times: seq<int>, after: int)
    ensures |Recent(times, after)| == |After(times, after)|
  {
    if times != [] {
      var front, last := times[..|times| - 1], times[|times| - 1];
      assert times == front + [last];
      RecentCounts(front, after);
      RecentOfAppend(front, last, after);
      AfterOfAppend(front, last, after);
      hide Recent, After;
    }
  }

  lemma {:induction false} WindowCounts(times: seq<int>, end: int)
    ensures |InWindow(times, end)| == |Within(times, end)|
  {
    if times != [] {
      var front, last := times[..|times| - 1], times[|times| - 1];
      assert times == front + [last];
      WindowCounts(front, end);
      WindowOfAppend(front, last, end);
      WithinOfAppend(front, last, end);
      hide InWindow, Within;
    }
  }

  predicate Ordered(times: seq<int>) {
    forall i, j :: 0 <= i <= j < |times| ==> times[i] <= times[j]
  }

  /** A history in which every admission found fewer than the maximum in the window before it. */
  predicate AdmittedUnder(times: seq<int>, maximum: int) {
    Ordered(times) && forall i :: 0 <= i < |times| ==> |Recent(times[..i], times[i] - WINDOW)| < maximum
  }

  /** The limiter keeps per key only what its last admission still saw; `admitted` is the whole history. */
  class Limiter {
    var limits: map<string, seq<int>>
    ghost var admitted: map<string, seq<int>>
    ghost var clock: int
    /** Each key is used with one maximum. */
    ghost const maximumOf: string -> int

    constructor (ghost maximumOf: string -> int)
      ensures Valid() && this.maximumOf == maximumOf && admitted == map[]
    {
      limits, admitted, clock := map[], map[], 0;
      this.maximumOf := maximumOf;
    }

    ghost predicate ValidKey(key: string)
      requires key in limits && key in admitted
      reads this
    {
      var all := admitted[key];
      && all != [] && all[|all| - 1] <= clock
      && limits[key] == Recent(all, all[|all| - 1] - WINDOW)
      && AdmittedUnder(all, maximumOf(key))
    }

    ghost predicate Valid()
      reads this
    {
      && limits.Keys == admitted.Keys
      && forall key :: key in limits ==> ValidKey(key)
    }

    ghost function History(key: string): seq<int>
      reads this
    {
      if key in admitted then admitted[key] else []
    }

    /** `now` is the clock, which does not go back; it starts at or after zero. */
    method RateLimit(key: string, maximum: int, now: int) returns (admit: bool)
      requires Valid() && clock <= now && maximum == maximumOf(key)
      modifies this
      ensures Valid() && clock == now && limits.Keys == admitted.Keys
      ensures admit <==> |After(old(History(key)), now - 60_000)| < maximum
      ensures admitted == if admit then old(admitted)[key := old(History(key)) + [now]] else old(admitted)
    {
      var recent := Pruned(key, now);
      RecentCounts(History(key), now - WINDOW);
      if |recent| >= maximum {
        clock := now;
        LaterClock();
        return false;
      }
      Admit(key, recent, maximum, now);
      return true;
    }

    /** What the stored list still holds of the window is what the whole history holds of it. */
    method Pruned(key: string, now: int) returns (recent: seq<int>)
      requires Valid() && clock <= now
      ensures recent == Recent(History(key), now - WINDOW)
    {
      hide Recent;
      StillHeld(key, now);
      recent := Recent(Kept(key), now - WINDOW);
    }

    function Kept(key: string): seq<int>
      reads this
    {
      if key in limits then limits[key] else []
    }

    lemma StillHeld(key: string, now: int)
      requires Valid() && clock <= now
      ensures Recent(Kept(key), now - WINDOW) == Recent(History(key), now - WINDOW)
    {
      hide Recent, AdmittedUnder;
      if key in limits {
        assert ValidKey(key);
        var all := admitted[key];
        PrunedAgain(all, all[|all| - 1] - WINDOW, now - WINDOW);
      }
    }

    method Admit(key: string, recent: seq<int>, maximum: int, now: int)
      requires Valid() && clock <= now && maximum == maximumOf(key)
      requires recent == Recent(History(key), now - WINDOW) && |recent| < maximum
      modifies this
      ensures Valid() && clock == now && limits.Keys == admitted.Keys
      ensures admitted == old(admitted)[key := old(History(key)) + [now]]
    {
      hide Filter, Recent, AdmittedUnder;
      ghost var all := History(key);
      assert key in limits ==> ValidKey(key);
      AdmissionExtends(all, maximum, now);
      RecentOfAppend(all, now, now - WINDOW);
      limits := limits[key := recent + [now]];
      admitted := admitted[key := all + [now]];
      clock := now;
      LaterKeys(key);
    }

    /** Time alone keeps every key valid. */
    twostate lemma LaterClock()
      requires old(Valid()) && old(clock) <= clock && limits == old(limits) && admitted == old(admitted)
      ensures Valid()
    {
      hide Recent, AdmittedUnder;
      forall key | key in limits ensures ValidKey(key) {
        assert old(ValidKey(key));
      }
    }

    /** An admission of one key keeps the others valid. */
    twostate lemma LaterKeys(key: string)
      requires old(Valid()) && old(clock) <= clock && key in limits && key in admitted && ValidKey(key)
      requires limits == old(limits)[key := limits[key]] && admitted == old(admitted)[key := admitted[key]]
      ensures Valid()
    {
      hide Recent, AdmittedUnder;
      forall other | other in limits && other != key ensures ValidKey(other) {
        assert old(ValidKey(other));
      }
    }
  }

  lemma PrunedAgain(times: seq<int>, earlier: int, later: int)
    requires earlier <= later
    ensures Recent(Recent(times, earlier), later) == Recent(times, later)
  {
    FilterTwice(times, (t: int) => t > earlier, (t: int) => t > later, (t: int) => t > later);
  }

  lemma RecentOfAppend(times: seq<int>, now: int, after: int)
    ensures Recent(times + [now], after) == Recent(times, after) + if now > after then [now] else []
  {
    FilterAppend(times, [now], (t: int) => t > after);
    FilterOne(now, (t: int) => t > after);
  }

  lemma WindowOfAppend(times: seq<int>, last: int, end: int)
    ensures InWindow(times + [last], end) == InWindow(times, end) + if end - WINDOW < last <= end then [last] else []
  {
    FilterAppend(times, [last], (t: int) => end - WINDOW < t <= end);
    FilterOne(last, (t: int) => end - WINDOW < t <= end);
  }

  lemma WindowIsRecent(times: seq<int>, last: int, end: int)
    requires last <= end
    ensures |InWindow(times, end)| <= |Recent(times, last - WINDOW)|
  {
    FilterFewer(times, (t: int) => end - WINDOW < t <= end, (t: int) => t > last - WINDOW);
  }

  lemma AdmissionExtends(times: seq<int>, maximum: int, now: int)
    requires AdmittedUnder(times, maximum) || times == []
    requires |Recent(times, now - WINDOW)| < maximum && (times != [] ==> times[|times| - 1] <= now)
    ensures AdmittedUnder(times + [now], maximum)
  {
    hide Recent;
    var all := times + [now];
    forall i | 0 <= i < |all| ensures |Recent(all[..i], all[i] - WINDOW)| < maximum {
      assert all[..i] == times[..i];
      if i == |times| {
        assert times[..i] == times;
      }
    }
  }

  lemma AdmittedPrefix(front: seq<int>, last: int, maximum: int)
    requires AdmittedUnder(front + [last], maximum)
    ensures AdmittedUnder(front, maximum) && |Recent(front, last - WINDOW)| < maximum
  {
    hide Recent;
    var times := front + [last];
    forall i | 0 <= i < |front| ensures |Recent(front[..i], front[i] - WINDOW)| < maximum {
      assert front[..i] == times[..i] && front[i] == times[i];
    }
    assert Ordered(front) by {
      forall i, j | 0 <= i <= j < |front| ensures front[i] <= front[j] {
        assert times[i] <= times[j];
      }
    }
    assert times[..|front|] == front && times[|front|] == last;
  }

  /** Over any history the limiter admits, no window of sixty seconds holds more than the maximum. */
  lemma {:induction false} WindowsAreBounded(times: seq<int>, maximum: int, end: int)
    requires AdmittedUnder(times, maximum) && maximum >= 0
    ensures |InWindow(times, end)| <= maximum && |Within(times, end)| <= maximum
  {
    WindowCounts(times, end);
    if times != [] {
      var front, last := times[..|times| - 1], times[|times| - 1];
      assert times == front + [last];
      hide AdmittedUnder, InWindow, Recent;
      AdmittedPrefix(front, last, maximum);
      WindowsAreBounded(front, maximum, end);
      WindowOfAppend(front, last, end);
      if last <= end {
        WindowIsRecent(front, last, end);
      }
    }
  }

  /** The bound for the keys of a limiter, at every moment of its life. */
  lemma LimiterBoundsWindows(limiter: Limiter, key: string, end: int)
    requires limiter.Valid() && limiter.maximumOf(key) >= 0
    ensures |Within(limiter.History(key), end)| <= limiter.maximumOf(key)
  {
    if key !in limiter.admitted {
      assert Within(limiter.History(key), end) == {};
    } else {
      assert limiter.ValidKey(key);
      hide InWindow, AdmittedUnder;
      WindowsAreBounded(limiter.admitted[key], limiter.maximumOf(key), end);
    }
  }
}
