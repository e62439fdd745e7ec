/** The stale-response tracker: a sliding window over observation times, compacted in place,
    and a trigger that fires once until it is reset. */
module StaleTracker {

  const DEFAULT_WINDOW: int := 60_000_000_000
  const DEFAULT_THRESHOLD: int := 10

  /** The times not before the cutoff, in order. */
  function Within(times: seq<int>, cutoff: int): (r: seq<int>)
    ensures |r| <= |times|
  {
    if times == [] then []
    else
      var last := times[|times| - 1];
      Within(times[..|times| - 1], cutoff) + if last >= cutoff then [last] else []
  }

  class Tracker {
    const window: int
    const threshold: int
    var buffer: array<int>
    var len: nat
    var fired: bool
    var fires: nat // calls of onDegrade

    ghost predicate Valid()
      reads this
    {
      len <= buffer.Length
    }

    ghost function Events(): seq<int>
      requires Valid()
      reads this, buffer
    {
      buffer[..len]
    }

    constructor (window: int, threshold: int)
      ensures Valid() && Events() == [] && !fired && fires == 0 && fresh(buffer)
      ensures this.window == if window <= 0 then DEFAULT_WINDOW else window
      ensures this.threshold == if threshold <= 0 then DEFAULT_THRESHOLD else threshold
    {
      this.window := if window <= 0 then DEFAULT_WINDOW else window;
      this.threshold := if threshold <= 0 then DEFAULT_THRESHOLD else threshold;
      buffer := new int[0];
      len, fired, fires := 0, false, 0;
    }

    /** Keeps the entries not before the cutoff, moving them to the front of the buffer. */
    method Prune(cutoff: int)
      requires Valid()
      modifies this`len, buffer
      ensures Valid() && Events() == Within(old(Events()), cutoff)
    {
      ghost var before := Events();
      var kept := 0;
      for i := 0 to len
        invariant kept <= i <= len == old(len) <= buffer.Length
        invariant buffer[..kept] == Within(before[..i], cutoff)
        invariant buffer[i..len] == before[i..]
      {
        var event := buffer[i];
        assert event == before[i] && before[..i + 1][..i] == before[..i];
        assert buffer[i + 1..len] == buffer[i..len][1..];
        if event >= cutoff {
          buffer[kept] := event;
          kept := kept + 1;
          assert buffer[..kept] == buffer[..kept - 1] + [event];
        }
      }
      assert before[..len] == before;
      len := kept;
    }

    method Append(event: int)
      requires Valid()
      modifies this`len, this`buffer, buffer
      ensures Valid() && Events() == old(Events()) + [event]
      ensures buffer == old(buffer) || fresh(buffer)
    {
      if len == buffer.Length {
        var larger := new int[2 * len + 1];
        for i := 0 to len
          invariant len == old(len) < larger.Length && buffer == old(buffer) && buffer[..] == old(buffer[..])
          invariant larger[..i] == buffer[..i]
        {
          larger[i] := buffer[i];
        }
        buffer := larger;
      }
      buffer[len] := event;
      len := len + 1;
      assert buffer[..len] == buffer[..len - 1] + [event];
    }

    method Observe(now: int)
      requires Valid()
      modifies this, buffer
      ensures Valid() && (buffer == old(buffer) || fresh(buffer))
      ensures var s := Observed(window, threshold, State(old(Events()), old(fired), old(fires)), now);
              Events() == s.events && fired == s.fired && fires == s.fires
    {
      Prune(now - window);
      Append(now);
      if !fired && len >= threshold {
        fired := true;
        fires := fires + 1;
      }
    }

    method Reset()
      requires Valid()
      modifies this`len, this`fired
      ensures Valid() && Events() == [] && !fired
    {
      len, fired := 0, false;
    }
  }

  // ----- whole histories -----

  datatype State = State(events: seq<int>, fired: bool, fires: nat)

  datatype Event = Observation(at: int) | ResetCall

  function Observed(window: int, threshold: int, s: State, now: int): State {
    var events := Within(s.events, now - window) + [now];
    var fires := !s.fired && |events| >= threshold;
    State(events, s.fired || fires, s.fires + if fires then 1 else 0)
  }

  /** The tracker after a history of Observe and Reset calls. */
  function Replay(window: int, threshold: int, history: seq<Event>): State {
    if history == [] then State([], false, 0)
    else
      var s := Replay(window, threshold, history[..|history| - 1]);
      match history[|history| - 1]
      case Observation(now) => Observed(window, threshold, s, now)
      case ResetCall => State([], false, s.fires)
  }

  /** The observation times since the last Reset. */
  function Period(history: seq<Event>): seq<int> {
    if history == [] then []
    else
      match history[|history| - 1]
      case Observation(now) => Period(history[..|history| - 1]) + [now]
      case ResetCall => []
  }

  predicate Ordered(times: seq<int>) {
    forall i, j :: 0 <= i < j < |times| ==> times[i] <= times[j]
  }

  /** Whether the window ending at observation `k` of the period holds `threshold` of them: the
      one that many back, counting itself, is no older than the window. */
  predicate Reaches(window: int, threshold: int, period: seq<int>, k: nat)
    requires k < |period|
  {
    threshold <= 0 || (threshold <= k + 1 && period[k] - period[k + 1 - threshold] <= window)
  }

  /** The latest times, those no older than the window before the last one; all others are. */
  ghost predicate LatestWithin(events: seq<int>, times: seq<int>, window: int)
    requires times != []
  {
    var n, last := |times| - |events|, times[|times| - 1];
    && 0 <= n && events == times[n..]
    && (forall i :: 0 <= i < n ==> last - times[i] > window)
    && (forall i :: n <= i < |times| ==> last - times[i] <= window)
  }

  /** The times from position n on are those not before the cutoff. */
  predicate Cut(times: seq<int>, n: int, cutoff: int) {
    && 0 <= n <= |times| && (forall i :: 0 <= i < n ==> times[i] < cutoff)
    && (forall i :: n <= i < |times| ==> times[i] >= cutoff)
  }

  /** These are the times from the cutoff on. */
  predicate IsCut(times: seq<int>, kept: seq<int>, cutoff: int) {
    var n := |times| - |kept|;
    Cut(times, n, cutoff) && kept == times[n..]
  }

  lemma CutMore(times: seq<int>, kept: seq<int>, last: int, cutoff: int)
    requires IsCut(times, kept, cutoff) && (times != [] ==> times[|times| - 1] <= last)
    ensures IsCut(times + [last], if last >= cutoff then kept + [last] else kept, cutoff)
  {
    var n := |times| - |kept|;
    if last >= cutoff {
      assert kept + [last] == (times + [last])[n..];
    } else {
      assert n == |times| && kept == [];
    }
  }

  lemma {:induction false} WithinIsSuffix(times: seq<int>, cutoff: int)
    requires Ordered(times)
    ensures IsCut(times, Within(times, cutoff), cutoff)
  {
    hide Within, Ordered, IsCut;
    if times == [] {
      NothingWithin(cutoff);
      NothingCut(cutoff);
    } else {
      var rest, last := times[..|times| - 1], times[|times| - 1];
      assert times == rest + [last];
      OrderedPrefix(rest, last);
      WithinIsSuffix(rest, cutoff);
      WithinAppend(rest, last, cutoff);
      CutMore(rest, Within(rest, cutoff), last, cutoff);
    }
  }

  lemma NothingCut(cutoff: int)
    ensures IsCut([], [], cutoff)
  {
  }

  lemma ReachesExactly(window: int, threshold: int, period: seq<int>)
    requires Ordered(period) && period != []
    ensures var k := |period| - 1;
            |Within(period, period[k] - window)| >= threshold <==> Reaches(window, threshold, period, k)
  {
    WithinIsSuffix(period, period[|period| - 1] - window);
  }

  ghost predicate HasReached(window: int, threshold: int, period: seq<int>) {
    exists k :: 0 <= k < |period| && Reaches(window, threshold, period, k)
  }

  lemma WithinAppend(times: seq<int>, last: int, cutoff: int)
    ensures Within(times + [last], cutoff) ==
            if last >= cutoff then Within(times, cutoff) + [last] else Within(times, cutoff)
  {
    assert (times + [last])[..|times|] == times;
  }

  lemma {:induction false} WithinTwice(times: seq<int>, low: int, high: int)
    requires low <= high
    ensures Within(Within(times, low), high) == Within(times, high)
  {
    if times != [] {
      var rest, last := times[..|times| - 1], times[|times| - 1];
      WithinTwice(rest, low, high);
      assert times == rest + [last];
      WithinAppend(rest, last, low);
      WithinAppend(rest, last, high);
      WithinAppend(Within(rest, low), last, high);
    }
  }

  lemma OrderedPrefix(times: seq<int>, last: int)
    requires Ordered(times + [last])
    ensures Ordered(times) && (times != [] ==> times[|times| - 1] <= last)
  {
    var all := times + [last];
    forall i, j | 0 <= i < j < |times| ensures times[i] <= times[j] {
      assert all[i] <= all[j];
    }
    assert times != [] ==> all[|times| - 1] <= all[|times|];
  }

  lemma AfterObservation(window: int, threshold: int, history: seq<Event>)
    requires history != [] && history[|history| - 1].Observation?
    ensures var rest, now := history[..|history| - 1], history[|history| - 1].at;
            && Period(history) == Period(rest) + [now]
            && Replay(window, threshold, history) == Observed(window, threshold, Replay(window, threshold, rest), now)
  {
  }

  lemma AtRest(window: int, threshold: int, history: seq<Event>)
    requires history != [] ==> history[|history| - 1].ResetCall?
    ensures Period(history) == [] && !Replay(window, threshold, history).fired
            && Replay(window, threshold, history).events == []
    ensures history != [] ==>
            Replay(window, threshold, history).fires == Replay(window, threshold, history[..|history| - 1]).fires
  {
  }

  /** After every Observe the buffer is the part of the period inside the window, in order. */
  lemma BufferIsWindow(window: int, threshold: int, history: seq<Event>)
    requires window > 0 && Ordered(Period(history))
    ensures var events, period := Replay(window, threshold, history).events, Period(history);
            if period == [] then events == [] else LatestWithin(events, period, window)
  {
    hide Period, Replay, Ordered, Within;
    BufferIsWithin(window, threshold, history);
    if Period(history) != [] {
      WithinIsSuffix(Period(history), Period(history)[|Period(history)| - 1] - window);
    }
  }

  lemma {:induction false} BufferIsWithin(window: int, threshold: int, history: seq<Event>)
    requires window > 0 && Ordered(Period(history))
    ensures var events, period := Replay(window, threshold, history).events, Period(history);
            if period == [] then events == []
            else events == Within(period, period[|period| - 1] - window)
  {
    hide Period, Replay, Ordered, Within;
    if history == [] || history[|history| - 1].ResetCall? {
      AtRest(window, threshold, history);
    } else {
      var rest, now := history[..|history| - 1], history[|history| - 1].at;
      var before := Period(rest);
      AfterObservation(window, threshold, history);
      OrderedPrefix(before, now);
      BufferIsWithin(window, threshold, rest);
      WithinAppend(before, now, now - window);
      if before != [] {
        WithinTwice(before, before[|before| - 1] - window, now - window);
      } else {
        NothingWithin(now - window);
      }
    }
  }

  lemma NothingWithin(cutoff: int)
    ensures Within([], cutoff) == []
  {
  }

  /** The trigger fires at an observation exactly when its window is the first of the period
      to reach the threshold; Reset never fires it. */
  lemma {:induction false} FiresAtFirstReach(window: int, threshold: int, history: seq<Event>)
    requires window > 0 && Ordered(Period(history))
    ensures var s, period := Replay(window, threshold, history), Period(history);
            && (s.fired <==> HasReached(window, threshold, period))
            && (history != [] ==>
                  var rest := history[..|history| - 1];
                  var first := && history[|history| - 1].Observation?
                               && HasReached(window, threshold, period) && !HasReached(window, threshold, Period(rest));
                  s.fires == Replay(window, threshold, rest).fires + if first then 1 else 0)
  {
    hide Period, Replay, Ordered, Within;
    if history == [] || history[|history| - 1].ResetCall? {
      AtRest(window, threshold, history);
    } else {
      var rest, now := history[..|history| - 1], history[|history| - 1].at;
      var before, period := Period(rest), Period(history);
      AfterObservation(window, threshold, history);
      OrderedPrefix(before, now);
      BufferIsWithin(window, threshold, history);
      ReachesExactly(window, threshold, period);
      FiresAtFirstReach(window, threshold, rest);
      hide HasReached;
      assert period[..|before|] == before && period[..|before| + 1] == period;
      ReachesStays(window, threshold, before, period);
    }
  }

  lemma ReachesStays(window: int, threshold: int, before: seq<int>, period: seq<int>)
    requires |period| == |before| + 1 && period[..|before|] == before
    ensures HasReached(window, threshold, period) <==>
              HasReached(window, threshold, before) || Reaches(window, threshold, period, |before|)
  {
    forall k | 0 <= k < |before|
      ensures Reaches(window, threshold, period, k) == Reaches(window, threshold, before, k)
    {
      assert period[..k + 1] == before[..k + 1];
    }
    if HasReached(window, threshold, before) {
      var k :| 0 <= k < |before| && Reaches(window, threshold, before, k);
      assert Reaches(window, threshold, period, k);
    }
  }
}
