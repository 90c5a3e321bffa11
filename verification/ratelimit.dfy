/** RateLimitFilter of logging.py: the kept list is the recent history, and the history is bounded. */
module RateLimitModel {
  const WINDOW := 60.0

  /** What the filter knows of one key. */
  datatype Entry = Entry(kept: seq<real>, warned: bool)

  const NO_ENTRY := Entry([], false)

  /** Timestamps less than a minute old. */
  function Recent(times: seq<real>, now: real): seq<real> {
    if times == [] then []
    else
      var init, last := times[..|times| - 1], times[|times| - 1];
      Recent(init, now) + (if now - last < WINDOW then [last] else [])
  }

  /** One record below ERROR. */
  function Filtered(entry: Entry, rate: nat, now: real): (Entry, bool) {
    var kept := Recent(entry.kept, now);
    if |kept| >= rate then
      if entry.warned then (Entry(kept, true), false) else (Entry(kept + [now], true), true)
    else (Entry(kept + [now], entry.warned && |kept| >= rate / 2), true)
  }

  class RateLimitFilter {
    const rate: nat
    var counts: map<string, seq<real>>
    var warned: set<string>

    constructor (rate: nat)
      ensures this.rate == rate && forall key :: Of(key) == NO_ENTRY
    {
      this.rate, counts, warned := rate, map[], {};
    }

    function Of(key: string): Entry
      reads this
    {
      Entry(if key in counts then counts[key] else [], key in warned)
    }

    /** ERROR and above always pass and leave no trace; a record only ever touches its own key. */
    method Filter(isError: bool, key: string, now: real) returns (pass: bool)
      modifies this
      ensures isError ==> pass && forall k :: Of(k) == old(Of(k))
      ensures !isError ==> (Of(key), pass) == Filtered(old(Of(key)), rate, now)
      ensures forall k :: k != key ==> Of(k) == old(Of(k))
    {
      if isError {
        return true;
      }
      counts := counts[key := Recent(if key in counts then counts[key] else [], now)];
      if |counts[key]| >= rate {
        if key !in warned {
          warned := warned + {key};
          counts := counts[key := counts[key] + [now]];
          return true;
        }
        return false;
      }
      if key in warned && |counts[key]| < rate / 2 {
        warned := warned - {key};
      }
      counts := counts[key := counts[key] + [now]];
      return true;
    }
  }

  // ----- the history of one key -----

  predicate NonDecreasing(times: seq<real>) {
    forall i, j :: 0 <= i < j < |times| ==> times[i] <= times[j]
  }

  /** The entry after records at these times. */
  function After(rate: nat, times: seq<real>): Entry {
    if times == [] then NO_ENTRY else Filtered(After(rate, times[..|times| - 1]), rate, times[|times| - 1]).0
  }

  predicate Passes(rate: nat, times: seq<real>)
    requires times != []
  {
    Filtered(After(rate, times[..|times| - 1]), rate, times[|times| - 1]).1
  }

  /** All records that ever passed. */
  function Passed(rate: nat, times: seq<real>): seq<real> {
    if times == [] then []
    else Passed(rate, times[..|times| - 1]) + (if Passes(rate, times) then [times[|times| - 1]] else [])
  }

  function InWindow(times: seq<real>, start: real): seq<real> {
    if times == [] then []
    else
      var init, last := times[..|times| - 1], times[|times| - 1];
      InWindow(init, start) + (if start <= last < start + WINDOW then [last] else [])
  }

  lemma RecentLast(times: seq<real>, last: real, now: real)
    ensures Recent(times + [last], now) == Recent(times, now) + (if now - last < WINDOW then [last] else [])
  {
    assert (times + [last])[..|times|] == times;
  }

  /** What was not recent before is not recent later. */
  lemma {:induction false} RecentTwice(times: seq<real>, before: real, now: real)
    requires before <= now
    ensures Recent(Recent(times, before), now) == Recent(times, now)
  {
    if times != [] {
      var init, last := times[..|times| - 1], times[|times| - 1];
      RecentTwice(init, before, now);
      if before - last < WINDOW {
        RecentLast(Recent(init, before), last, now);
      } else {
        assert Recent(times, before) == Recent(init, before);
      }
    }
  }

  lemma {:induction false} PassedOnlyThese(rate: nat, times: seq<real>)
    ensures forall t :: t in Passed(rate, times) ==> t in times
  {
    if times != [] {
      PassedOnlyThese(rate, times[..|times| - 1]);
    }
  }

  /** On a clock that never runs backwards, what is kept after a record is exactly what passed
      in the last minute, through any number of warnings and resets. */
  lemma {:induction false} KeptIsRecentHistory(rate: nat, times: seq<real>)
    requires NonDecreasing(times) && times != []
    ensures After(rate, times).kept == Recent(Passed(rate, times), times[|times| - 1])
  {
    var init, now := times[..|times| - 1], times[|times| - 1];
    assert Recent(After(rate, init).kept, now) == Recent(Passed(rate, init), now) by {
      if init != [] {
        KeptIsRecentHistory(rate, init);
        RecentTwice(Passed(rate, init), init[|init| - 1], now);
      }
    }
    if Passes(rate, times) {
      RecentLast(Passed(rate, init), now, now);
    } else {
      assert Passed(rate, times) == Passed(rate, init);
    }
  }

  lemma {:induction false} RecentIsNoLonger(times: seq<real>, now: real)
    ensures |Recent(times, now)| <= |times|
  {
    if times != [] {
      RecentIsNoLonger(times[..|times| - 1], now);
    }
  }

  /** One more than the rate at most, and not even that much without a warning. */
  lemma {:induction false} KeptIsBounded(rate: nat, times: seq<real>)
    ensures var entry := After(rate, times);
            |entry.kept| <= rate + 1 && (!entry.warned ==> |entry.kept| <= rate)
  {
    if times != [] {
      var before := After(rate, times[..|times| - 1]);
      KeptIsBounded(rate, times[..|times| - 1]);
      RecentIsNoLonger(before.kept, times[|times| - 1]);
    }
  }

  lemma {:induction false} WindowIsRecent(times: seq<real>, start: real, now: real)
    requires now < start + WINDOW
    ensures |InWindow(times, start)| <= |Recent(times, now)|
  {
    if times != [] {
      WindowIsRecent(times[..|times| - 1], start, now);
    }
  }

  /** In no minute, wherever it starts, do more than rate + 1 records of a key pass. */
  lemma {:induction false} AtMostRatePlusOne(rate: nat, times: seq<real>, start: real)
    requires NonDecreasing(times)
    ensures |InWindow(Passed(rate, times), start)| <= rate + 1
  {
    if times != [] {
      var init, now := times[..|times| - 1], times[|times| - 1];
      if Passes(rate, times) && start <= now < start + WINDOW {
        KeptIsRecentHistory(rate, times);
        KeptIsBounded(rate, times);
        WindowIsRecent(Passed(rate, times), start, now);
      } else {
        AtMostRatePlusOne(rate, init, start);
        if Passes(rate, times) {
          assert Passed(rate, times)[..|Passed(rate, init)|] == Passed(rate, init);
          assert InWindow(Passed(rate, times), start) == InWindow(Passed(rate, init), start);
        } else {
          assert Passed(rate, times) == Passed(rate, init);
        }
      }
    }
  }

  /** On a sorted list, what is recent is the part from some place on, everything from there on
      less than sixty seconds old and everything before at least as old. */
  lemma {:induction false} RecentIsTail(times: seq<real>, now: real) returns (k: nat)
    requires NonDecreasing(times)
    ensures k <= |times| && Recent(times, now) == times[k..]
    ensures forall j :: 0 <= j < |times| ==> (k <= j <==> now - times[j] < 60.0)
  {
    k := 0;
    if times != [] {
      var init, last := times[..|times| - 1], times[|times| - 1];
      k := RecentIsTail(init, now);
      assert forall j :: 0 <= j < |init| ==> init[j] == times[j];
      if now - last < WINDOW {
        assert times[k..] == init[k..] + [last];
      } else {
        assert forall j :: 0 <= j < |init| ==> init[j] <= last && j < k;
        assert Recent(times, now) == [] == times[|times|..];
        k := |times|;
      }
    }
  }

  lemma {:induction false} PassedIsSorted(rate: nat, times: seq<real>)
    requires NonDecreasing(times)
    ensures NonDecreasing(Passed(rate, times))
  {
    if times != [] {
      var init, last := times[..|times| - 1], times[|times| - 1];
      assert forall i :: 0 <= i < |init| ==> init[i] == times[i];
      PassedIsSorted(rate, init);
      PassedOnlyThese(rate, init);
      var passed := Passed(rate, init);
      forall i | 0 <= i < |passed| ensures passed[i] <= last {
        assert passed[i] in passed;
        assert passed[i] in init;
        var j :| 0 <= j < |init| && init[j] == passed[i];
        assert times[j] <= times[|times| - 1];
      }
      assert NonDecreasing(passed + [last]);
      assert Passed(rate, times) == (if Passes(rate, times) then passed + [last] else passed);
    }
  }

  /** How much of the minute before record i, at the moment of that record, has passed. */
  function Fill(rate: nat, times: seq<real>, i: nat): nat
    requires i < |times|
  {
    |Recent(Passed(rate, times[..i]), times[i])|
  }

  /** Record i found a full minute, and no later one a minute less than half full. */
  predicate WarnedAt(rate: nat, times: seq<real>, i: nat) {
    i < |times| && Fill(rate, times, i) >= rate && forall j :: i < j < |times| ==> Fill(rate, times, j) >= rate / 2
  }

  lemma FillIs(rate: nat, times: seq<real>)
    requires NonDecreasing(times) && times != []
    ensures Fill(rate, times, |times| - 1) == |Recent(After(rate, times[..|times| - 1]).kept, times[|times| - 1])|
  {
    var init, now := times[..|times| - 1], times[|times| - 1];
    if init != [] {
      assert NonDecreasing(init) by {
        assert forall i :: 0 <= i < |init| ==> init[i] == times[i];
      }
      KeptIsRecentHistory(rate, init);
      assert init[|init| - 1] == times[|init| - 1] <= now;
      RecentTwice(Passed(rate, init), init[|init| - 1], now);
    }
  }

  lemma WarnedNext(rate: nat, times: seq<real>, i: nat)
    requires times != []
    ensures var fill := Fill(rate, times, |times| - 1);
            WarnedAt(rate, times, i) <==>
            if i == |times| - 1 then fill >= rate else WarnedAt(rate, times[..|times| - 1], i) && fill >= rate / 2
  {
    hide Recent, Passed;
    var init := times[..|times| - 1];
    forall j | 0 <= j < |init| ensures Fill(rate, times, j) == Fill(rate, init, j) {
      assert times[..j] == init[..j];
    }
  }

  /** A key counts as warned about exactly if some record found a full minute and none since has
      found it less than half full. */
  lemma {:induction false} WarnedIff(rate: nat, times: seq<real>)
    requires NonDecreasing(times)
    ensures After(rate, times).warned <==> exists i :: WarnedAt(rate, times, i)
  {
    if times != [] {
      hide Recent, Passed, Fill, WarnedAt;
      var init := times[..|times| - 1];
      assert NonDecreasing(init) by {
        assert forall i :: 0 <= i < |init| ==> init[i] == times[i];
      }
      WarnedIff(rate, init);
      FillIs(rate, times);
      var fill := Fill(rate, times, |times| - 1);
      WarnedNext(rate, times, |init|);
      if i :| WarnedAt(rate, times, i) {
        WarnedNext(rate, times, i);
      }
      if i :| WarnedAt(rate, init, i) {
        WarnedNext(rate, times, i);
        OnlyEarlier(rate, init, i);
      }
    } else {
      forall i: nat ensures !WarnedAt(rate, times, i) {
        OnlyEarlier(rate, times, i);
      }
    }
  }

  lemma OnlyEarlier(rate: nat, times: seq<real>, i: nat)
    ensures WarnedAt(rate, times, i) ==> i < |times|
  {
  }

  /** A record is held back exactly if the key has been warned about and the last minute is full. */
  lemma HeldBackIff(rate: nat, times: seq<real>, now: real)
    requires NonDecreasing(times + [now])
    ensures !Passes(rate, times + [now]) <==> After(rate, times).warned && |Recent(Passed(rate, times), now)| >= rate
  {
    assert (times + [now])[..|times|] == times;
    if times != [] {
      assert NonDecreasing(times) by {
        assert forall i :: 0 <= i < |times| ==> times[i] == (times + [now])[i];
      }
      KeptIsRecentHistory(rate, times);
      assert times[|times| - 1] == (times + [now])[|times| - 1] <= (times + [now])[|times|];
      RecentTwice(Passed(rate, times), times[|times| - 1], now);
    }
  }
}
