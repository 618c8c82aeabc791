/** The sliding-window search budget: a log pruned to one day decides as the whole history would,
    and no hour or day of searches ever holds more than its maximum. */
module SearchBudget {
  import opened Common

  const HOUR := 3_600

  /** How many events are later than a cutoff. */
  function Since(events: seq<int>, cutoff: int): nat {
    if events == [] then 0
    else Since(events[..|events| - 1], cutoff) + (if events[|events| - 1] > cutoff then 1 else 0)
  }

  /** The events later than a cutoff, in order. */
  function Kept(events: seq<int>, cutoff: int): seq<int> {
    if events == [] then []
    else Kept(events[..|events| - 1], cutoff) + (if events[|events| - 1] > cutoff then [events[|events| - 1]] else [])
  }

  predicate Ordered(events: seq<int>) {
    forall i, j :: 0 <= i < j < |events| ==> events[i] <= events[j]
  }

  /** Events of the window that ends at `end` and reaches back `width`. */
  function Window(events: seq<int>, end: int, width: nat): nat {
    if events == [] then 0
    else Window(events[..|events| - 1], end, width) + (if end - width < events[|events| - 1] <= end then 1 else 0)
  }

  lemma {:induction false} SinceAppend(events: seq<int>, e: int, cutoff: int)
    ensures Since(events + [e], cutoff) == Since(events, cutoff) + (if e > cutoff then 1 else 0)
  {
    assert (events + [e])[..|events|] == events;
  }

  lemma KeptAppend(events: seq<int>, e: int, cutoff: int)
    ensures Kept(events + [e], cutoff) == Kept(events, cutoff) + (if e > cutoff then [e] else [])
  {
    assert (events + [e])[..|events|] == events;
  }

  /** Pruning a pruned log again at a later cutoff is pruning the history there. */
  lemma {:induction false} KeptTwice(events: seq<int>, first: int, second: int)
    requires first <= second
    ensures Kept(Kept(events, first), second) == Kept(events, second)
  {
    if events != [] {
      var n := |events| - 1;
      KeptTwice(events[..n], first, second);
      assert Kept(events[..n], first) + [] == Kept(events[..n], first)
             && Kept(events[..n], second) + [] == Kept(events[..n], second);
      if events[n] > first {
        KeptAppend(Kept(events[..n], first), events[n], second);
      }
    }
  }

  lemma {:induction false} SinceMonotone(events: seq<int>, low: int, high: int)
    requires low <= high
    ensures Since(events, high) <= Since(events, low)
  {
    if events != [] {
      SinceMonotone(events[..|events| - 1], low, high);
    }
  }

  /** Each search of the history was allowed by the searches before it. */
  predicate Paced(history: seq<int>, width: nat, maximum: nat) {
    forall i :: 0 <= i < |history| ==> Since(history[..i], history[i] - width) < maximum
  }

  /** The number of searches in any window never exceeds the maximum, in whatever order the clock
      stamped them. */
  lemma {:induction false} AnyWindowBounded(history: seq<int>, width: nat, maximum: nat, end: int)
    requires Paced(history, width, maximum)
    ensures Window(history, end, width) <= maximum
  {
    if history != [] {
      var n := |history| - 1;
      var front := history[..n];
      PacedFront(history, width, maximum);
      hide Paced, Since;
      if end - width < history[n] <= end {
        WindowWithin(front, end, width);
        SinceMonotone(front, history[n] - width, end - width);
      } else {
        AnyWindowBounded(front, width, maximum, end);
      }
    }
  }

  lemma {:induction false} WindowWithin(events: seq<int>, end: int, width: nat)
    ensures Window(events, end, width) <= Since(events, end - width)
  {
    if events != [] {
      WindowWithin(events[..|events| - 1], end, width);
    }
  }

  lemma PacedFront(history: seq<int>, width: nat, maximum: nat)
    requires history != [] && Paced(history, width, maximum)
    ensures Paced(history[..|history| - 1], width, maximum)
    ensures Since(history[..|history| - 1], history[|history| - 1] - width) < maximum
  {
    hide Since;
    var front := history[..|history| - 1];
    forall i | 0 <= i < |front|
      ensures Since(front[..i], front[i] - width) < maximum
    {
      assert front[..i] == history[..i];
    }
  }

  // The pruned log under any clock.

  /** The log that a history of searches leaves: each search prunes to the day before itself. */
  function LogOf(history: seq<int>): seq<int> {
    if history == [] then []
    else
      var last := history[|history| - 1];
      Kept(LogOf(history[..|history| - 1]) + [last], last - DAY)
  }

  /** No event after the cutoff is a day older than one that was recorded after it. */
  predicate StillLogged(history: seq<int>, cutoff: int) {
    forall i, j :: 0 <= i <= j < |history| && history[i] > cutoff ==> history[i] > history[j] - DAY
  }

  lemma LogAppend(history: seq<int>, now: int)
    ensures LogOf(history + [now]) == Kept(LogOf(history) + [now], now - DAY)
  {
    assert (history + [now])[..|history|] == history;
  }

  /** How many events are later than both of two cutoffs. */
  lemma {:induction false} SinceBoth(events: seq<int>, pruned: int, cutoff: int)
    ensures Since(Kept(events, pruned), cutoff) == Since(events, if pruned <= cutoff then cutoff else pruned)
  {
    if events != [] {
      var n := |events| - 1;
      SinceBoth(events[..n], pruned, cutoff);
      assert Kept(events[..n], pruned) + [] == Kept(events[..n], pruned);
      if events[n] > pruned {
        SinceAppend(Kept(events[..n], pruned), events[n], cutoff);
      }
    }
  }

  /** The log never counts more than the history. */
  lemma {:induction false} LogCountsNoMore(history: seq<int>, cutoff: int)
    ensures Since(LogOf(history), cutoff) <= Since(history, cutoff)
  {
    if history != [] {
      var n := |history| - 1;
      var front := LogOf(history[..n]);
      var later := if history[n] - DAY <= cutoff then cutoff else history[n] - DAY;
      SinceBoth(front + [history[n]], history[n] - DAY, cutoff);
      SinceAppend(front, history[n], later);
      SinceMonotone(front, cutoff, later);
      LogCountsNoMore(history[..n], cutoff);
    }
  }

  /** A later cutoff counts as much exactly when nothing lies between the two. */
  lemma {:induction false} SinceSameIff(events: seq<int>, low: int, high: int)
    requires low <= high
    ensures Since(events, high) == Since(events, low)
            <==> forall i :: 0 <= i < |events| && events[i] > low ==> events[i] > high
  {
    if events != [] {
      var n := |events| - 1;
      SinceSameIff(events[..n], low, high);
      SinceMonotone(events[..n], low, high);
      assert forall i :: 0 <= i < n ==> events[..n][i] == events[i];
    }
  }

  /** The pruned log counts exactly what the history holds after a cutoff if and only if no such
      event was a day old when a later search was recorded. */
  lemma {:induction false} LogExactIff(history: seq<int>, cutoff: int)
    ensures Since(LogOf(history), cutoff) == Since(history, cutoff) <==> StillLogged(history, cutoff)
  {
    if history != [] {
      var n := |history| - 1;
      var last := history[n];
      var front := history[..n];
      var later := if last - DAY <= cutoff then cutoff else last - DAY;
      assert LogOf(history) == Kept(LogOf(front) + [last], last - DAY);
      hide LogOf, Since, Kept, StillLogged;
      assert history == front + [last];
      SinceAppend(front, last, cutoff);
      SinceBoth(LogOf(front) + [last], last - DAY, cutoff);
      SinceAppend(LogOf(front), last, later);
      LogCountsNoMore(front, later);
      SinceMonotone(front, cutoff, later);
      SinceSameIff(front, cutoff, later);
      LogExactIff(front, later);
      StillLoggedSplit(history, cutoff, later);
      assert forall i :: 0 <= i < n ==> front[i] == history[i];
    }
  }

  lemma StillLoggedSplit(history: seq<int>, cutoff: int, later: int)
    requires history != []
             && later == if history[|history| - 1] - DAY <= cutoff then cutoff else history[|history| - 1] - DAY
    ensures StillLogged(history, cutoff)
            <==> StillLogged(history[..|history| - 1], later)
                 && forall i :: 0 <= i < |history| - 1 && history[i] > cutoff ==> history[i] > later
  {
    var n := |history| - 1;
    var front := history[..n];
    assert forall i :: 0 <= i < n ==> front[i] == history[i];
    if StillLogged(history, cutoff) {
      forall i | 0 <= i < n && history[i] > cutoff
        ensures history[i] > later
      {
        assert history[i] > history[n] - DAY;
      }
    }
  }

  /** The hour before the clock is counted exactly while the clock is at most 23 hours behind the
      latest recorded search, the day before it while the clock is not behind at all. */
  lemma ExactWhileNotFarBehind(history: seq<int>, now: int)
    ensures (forall i :: 0 <= i < |history| ==> history[i] <= now + DAY - HOUR) ==>
      Since(LogOf(history), now - HOUR) == Since(history, now - HOUR)
    ensures (forall i :: 0 <= i < |history| ==> history[i] <= now) ==>
      Since(LogOf(history), now - DAY) == Since(history, now - DAY)
  {
    LogExactIff(history, now - HOUR);
    LogExactIff(history, now - DAY);
  }

  /** Under a clock that never steps back the log is the history pruned once. */
  lemma {:induction false} OrderedLog(history: seq<int>)
    requires Ordered(history) && history != []
    ensures LogOf(history) == Kept(history, history[|history| - 1] - DAY)
  {
    var n := |history| - 1;
    var front, last := history[..n], history[n];
    assert history == front + [last];
    assert LogOf(history) == Kept(LogOf(front) + [last], last - DAY);
    KeptAppend(front, last, last - DAY);
    if n > 0 {
      hide Kept, LogOf;
      OrderedLog(front);
      KeptAppend(LogOf(front), last, last - DAY);
      KeptTwice(front, front[n - 1] - DAY, last - DAY);
    }
  }

  /** Every search was allowed by its past, and the log still holds the window before this time. */
  predicate Guarded(history: seq<int>, now: int, width: nat, maximum: nat) {
    Paced(history, width, maximum) && StillLogged(history, now - width)
  }

  /** A search allowed by its past keeps it so, and the window logged for another one now. */
  lemma SearchKeepsGuarded(history: seq<int>, now: int, width: nat, maximum: nat)
    requires Guarded(history, now, width, maximum) && Since(history, now - width) < maximum && width <= DAY
    ensures Guarded(history + [now], now, width, maximum)
  {
    PacedAppend(history, now, width, maximum);
    hide Paced, Since;
  }

  method Pruned(events: seq<int>, cutoff: int) returns (kept: seq<int>)
    ensures kept == Kept(events, cutoff)
  {
    kept := [];
    assert Kept(events[..0], cutoff) == [];
    hide Kept;
    var i := 0;
    while i < |events|
      invariant 0 <= i <= |events|
      invariant kept == Kept(events[..i], cutoff)
    {
      KeptAppend(events[..i], events[i], cutoff);
      assert events[..i + 1] == events[..i] + [events[i]];
      if events[i] > cutoff {
        kept := kept + [events[i]];
      } else {
        assert kept + [] == kept;
      }
      i := i + 1;
    }
    assert events[..|events|] == events;
  }

  class BudgetLog {
    var events: seq<int>
    ghost var history: seq<int>

    ghost predicate Valid()
      reads this
    {
      events == LogOf(history)
    }

    constructor ()
      ensures Valid() && history == []
    {
      events, history := [], [];
    }

    /** Appends, then drops what is a day older. */
    method RecordEvent(now: int) returns (ok: bool)
      requires Valid()
      modifies this
      ensures Valid()
      ensures ok <==> now >= 0
      ensures history == if ok then old(history) + [now] else old(history)
    {
      if now < 0 {
        return false;
      }
      LogAppend(history, now);
      events := Pruned(events + [now], now - DAY);
      history := history + [now];
      return true;
    }

    method CountSince(cutoff: int) returns (n: nat)
      ensures n == Since(events, cutoff)
    {
      n := 0;
      var i := 0;
      while i < |events|
        invariant 0 <= i <= |events|
        invariant n == Since(events[..i], cutoff)
      {
        SinceAppend(events[..i], events[i], cutoff);
        assert events[..i + 1] == events[..i] + [events[i]];
        if events[i] > cutoff {
          n := n + 1;
        }
        i := i + 1;
      }
      assert events[..|events|] == events;
    }

    /** Decides by the pruned log: never stricter than by every search ever made, and the same
        while both windows are remembered. */
    method WithinBudget(now: int, perHour: int, perDay: int) returns (within: bool)
      requires Valid()
      ensures Since(history, now - HOUR) < perHour && Since(history, now - DAY) < perDay ==> within
      ensures within && StillLogged(history, now - HOUR) ==> Since(history, now - HOUR) < perHour
      ensures within && StillLogged(history, now - DAY) ==> Since(history, now - DAY) < perDay
    {
      LogCountsNoMore(history, now - HOUR);
      LogCountsNoMore(history, now - DAY);
      LogExactIff(history, now - HOUR);
      LogExactIff(history, now - DAY);
      var hour := CountSince(now - HOUR);
      var day := CountSince(now - DAY);
      within := hour < perHour && day < perDay;
    }

    /** One scheduled search: only within budget, and recorded.  While the log still holds the
        window before it, it keeps every window of that width within its maximum. */
    method Search(now: int, perHour: nat, perDay: nat) returns (searched: bool)
      requires Valid()
      modifies this
      ensures Valid() && (searched ==> now >= 0)
      ensures history == if searched then old(history) + [now] else old(history)
      ensures !searched && now >= 0 ==> Since(history, now - HOUR) >= perHour || Since(history, now - DAY) >= perDay
      ensures old(Guarded(history, now, HOUR, perHour)) ==>
        Guarded(history, now, HOUR, perHour) && forall end :: Window(history, end, HOUR) <= perHour
      ensures old(Guarded(history, now, DAY, perDay)) ==>
        Guarded(history, now, DAY, perDay) && forall end :: Window(history, end, DAY) <= perDay
    {
      hide LogOf, Since, Paced, StillLogged, Window;
      var within := WithinBudget(now, perHour, perDay);
      searched := false;
      if within {
        if Guarded(history, now, HOUR, perHour) {
          SearchKeepsGuarded(history, now, HOUR, perHour);
        }
        if Guarded(history, now, DAY, perDay) {
          SearchKeepsGuarded(history, now, DAY, perDay);
        }
        searched := RecordEvent(now);
      }
      GuardedBounds(history, now, HOUR, perHour);
      GuardedBounds(history, now, DAY, perDay);
    }
  }

  lemma GuardedBounds(history: seq<int>, now: int, width: nat, maximum: nat)
    ensures Guarded(history, now, width, maximum) ==> forall end :: Window(history, end, width) <= maximum
  {
    if Paced(history, width, maximum) {
      forall end
        ensures Window(history, end, width) <= maximum
      {
        AnyWindowBounded(history, width, maximum, end);
      }
    }
  }

  lemma PacedAppend(history: seq<int>, now: int, width: nat, maximum: nat)
    requires Paced(history, width, maximum) && Since(history, now - width) < maximum
    ensures Paced(history + [now], width, maximum)
  {
    forall i | 0 <= i < |history + [now]|
      ensures Since((history + [now])[..i], (history + [now])[i] - width) < maximum
    {
      assert (history + [now])[..i] == history[..i];
      if i == |history| {
        assert history[..i] == history;
      }
    }
  }

  /** A clock that steps back by more than 23 hours hides a search from the hour count. */
  lemma ClockStepBackForgets()
    ensures var history := [10, 100_000]; Since(LogOf(history), 20 - HOUR) < Since(history, 20 - HOUR)
  {
    var history := [10, 100_000];
    LogCountsNoMore(history, 20 - HOUR);
    LogExactIff(history, 20 - HOUR);
    hide LogOf, Since;
    assert history[0] > 20 - HOUR && !(history[0] > history[1] - DAY);
  }
}
