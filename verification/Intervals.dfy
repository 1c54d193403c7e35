/** Registration intervals (signalHistory.ts) against the lookup they replace. */
module Intervals {
  import opened Basics
  import opened Samples

  datatype State = Registered | Unregistered | Offline | Unknown

  datatype Reading = Reading(online: bool, registered: bool)

  datatype Interval = Interval(start: int, end: int, state: State)

  function RegistrationState(r: Reading): State {
    if !r.online then Offline else if r.registered then Registered else Unregistered
  }

  /** The reference: the state of the last report at or before t, unknown before the first. */
  function StateAt(samples: seq<Timed<Reading>>, t: int): State {
    var last := LastAt(samples, t);
    if last.Some? then RegistrationState(last.value.1) else Unknown
  }

  // ------------------------------------------------------------ good lists

  /** The last report at or before t. */
  ghost predicate LastReport(samples: seq<Timed<Reading>>, t: int, i: nat) {
    && i < |samples| && samples[i].time.Some? && samples[i].time.value <= t
    && forall j :: 0 <= j < |samples| && samples[j].time.Some? && samples[j].time.value <= t ==>
         samples[j].time.value < samples[i].time.value || (samples[j].time.value == samples[i].time.value && j <= i)
  }

  /** What the lookup says of a time: nothing without a report, and else what the last report saw. */
  lemma StateMeaning(samples: seq<Timed<Reading>>, t: int)
    ensures StateAt(samples, t) == Unknown <==> forall i: nat :: !LastReport(samples, t, i)
    ensures forall i: nat :: LastReport(samples, t, i) ==>
      StateAt(samples, t) == (match samples[i].value
        case Reading(true, true) => Registered
        case Reading(true, false) => Unregistered
        case Reading(false, _) => Offline)
  {
    var last := LastIndex(samples, t);
    if last.Some? {
      forall i: nat | LastReport(samples, t, i) ensures i == last.value {
      }
    }
  }

  lemma {:induction false} LastIndex(samples: seq<Timed<Reading>>, t: int) returns (last: Option<nat>)
    ensures last.None? ==> LastAt(samples, t) == None && forall i: nat :: !LastReport(samples, t, i)
    ensures last.Some? ==>
      && LastReport(samples, t, last.value)
      && LastAt(samples, t) == Some((samples[last.value].time.value, samples[last.value].value))
  {
    if samples == [] {
      last := None;
    } else {
      var n := |samples| - 1;
      last := LastIndex(samples[..n], t);
      var s := samples[n];
      if s.time.Some? && s.time.value <= t && (last.None? || samples[last.value].time.value <= s.time.value) {
        if last.None? {
          NoneBefore(samples[..n], t);
        }
        last := Some(n);
      } else if last.None? {
        NoneBefore(samples[..n], t);
      }
    }
  }

  /** Without a last report there is no report. */
  lemma {:induction false} NoneBefore(samples: seq<Timed<Reading>>, t: int)
    requires LastAt(samples, t) == None
    ensures forall j :: 0 <= j < |samples| && samples[j].time.Some? ==> samples[j].time.value > t
  {
    if samples != [] {
      NoneBefore(samples[..|samples| - 1], t);
    }
  }

  /** The intervals fill start up to end, one after another. */
  ghost predicate Tiles(intervals: seq<Interval>, start: int, end: int) {
    && (intervals == [] ==> start == end)
    && (intervals != [] ==> intervals[0].start == start && intervals[|intervals| - 1].end == end)
    && (forall i :: 0 <= i < |intervals| ==> intervals[i].start < intervals[i].end)
    && (forall i :: 0 < i < |intervals| ==> intervals[i - 1].end == intervals[i].start)
  }

  ghost predicate NeighboursDiffer(intervals: seq<Interval>) {
    forall i :: 0 < i < |intervals| ==> intervals[i - 1].state != intervals[i].state
  }

  /** At every instant of an interval its state is what the lookup says. */
  ghost predicate Right(intervals: seq<Interval>, samples: seq<Timed<Reading>>) {
    forall i, t :: 0 <= i < |intervals| && intervals[i].start <= t < intervals[i].end ==>
      StateAt(samples, t) == intervals[i].state
  }

  ghost predicate Good(intervals: seq<Interval>, samples: seq<Timed<Reading>>, start: int, end: int) {
    Tiles(intervals, start, end) && NeighboursDiffer(intervals) && Right(intervals, samples)
  }

  // ------------------------------------------------------------ building

  /** The closure append: extends the last interval in place, or pushes a new one. */
  function Append(intervals: seq<Interval>, start: int, end: int, state: State): seq<Interval> {
    var last := |intervals| - 1;
    if end <= start then intervals
    else if intervals != [] && intervals[last].state == state && intervals[last].end == start then
      intervals[last := intervals[last].(end := end)]
    else intervals + [Interval(start, end, state)]
  }

  lemma AppendKeeps(intervals: seq<Interval>, samples: seq<Timed<Reading>>, from: int, start: int, end: int,
      state: State)
    requires Good(intervals, samples, from, start) && start <= end
    requires forall t :: start <= t < end ==> StateAt(samples, t) == state
    ensures Good(Append(intervals, start, end, state), samples, from, end)
  {
    var after := Append(intervals, start, end, state);
    forall i, t | 0 <= i < |after| && after[i].start <= t < after[i].end ensures StateAt(samples, t) == after[i].state {
      if i < |intervals| && t < intervals[i].end {
        assert intervals[i].start == after[i].start && intervals[i].state == after[i].state;
      }
    }
  }

  /** The state once the entries before index have been passed. */
  function StateBefore(ordered: seq<(int, State)>, index: nat): State
    requires index <= |ordered|
  {
    if index == 0 then Unknown else ordered[index - 1].1
  }

  /** The map of states collected from the samples up to the range's end. */
  ghost predicate StatesByTime(byTime: map<int, State>, readings: map<int, Reading>) {
    byTime.Keys == readings.Keys && forall k :: k in readings ==> byTime[k] == RegistrationState(readings[k])
  }

  lemma StateBetween(byTime: map<int, State>, ordered: seq<(int, State)>, samples: seq<Timed<Reading>>, end: int,
      index: nat, t: int)
    requires StatesByTime(byTime, ByTime(samples, Some(end))) && SortedEntries(byTime, ordered) && index <= |ordered| &&
      t <= end
    requires index > 0 ==> ordered[index - 1].0 <= t
    requires index < |ordered| ==> t < ordered[index].0
    ensures StateAt(samples, t) == StateBefore(ordered, index)
  {
    MapFindsLast(samples, Some(end), t);
    EntryBefore(byTime, ordered, index, t);
  }

  method CollectStates(samples: seq<Timed<Reading>>, end: int) returns (byTime: map<int, State>)
    ensures StatesByTime(byTime, ByTime(samples, Some(end)))
  {
    byTime := map[];
    for i := 0 to |samples|
      invariant StatesByTime(byTime, ByTime(samples[..i], Some(end)))
    {
      assert samples[..i + 1][..i] == samples[..i];
      if Counts(samples[i], Some(end)) {
        byTime := byTime[samples[i].time.value := RegistrationState(samples[i].value)];
      }
    }
    assert samples[..|samples|] == samples;
  }

  /**
   buildRegistrationIntervals: the intervals tile the range, neighbours differ,
   and the state at every instant is what the lookup says.
   */
  method BuildIntervals(samples: seq<Timed<Reading>>, rangeStart: Option<int>, rangeEnd: Option<int>)
      returns (intervals: seq<Interval>)
    ensures rangeStart.None? || rangeEnd.None? || rangeEnd.value <= rangeStart.value ==> intervals == []
    ensures rangeStart.Some? && rangeEnd.Some? && rangeStart.value < rangeEnd.value ==>
      Good(intervals, samples, rangeStart.value, rangeEnd.value)
  {
    if rangeStart.None? || rangeEnd.None? || rangeEnd.value <= rangeStart.value {
      return [];
    }
    var start, end := rangeStart.value, rangeEnd.value;
    var byTime := CollectStates(samples, end);
    var ordered := SortEntries(byTime);

    assert Good([], samples, start, start);
    hide Good, StatesByTime, ByTime, StateAt, Append;
    var state := Unknown;
    var cursor := start;
    var index := 0;
    while index < |ordered| && ordered[index].0 <= start
      invariant index <= |ordered| && state == StateBefore(ordered, index)
      invariant index > 0 ==> ordered[index - 1].0 <= start
    {
      state := ordered[index].1;
      index := index + 1;
    }

    intervals := [];
    while index < |ordered|
      invariant index <= |ordered| && state == StateBefore(ordered, index)
      invariant start <= cursor < end
      invariant index > 0 ==> ordered[index - 1].0 <= cursor
      invariant index < |ordered| ==> cursor < ordered[index].0
      invariant Good(intervals, samples, start, cursor)
    {
      var (time, nextState) := ordered[index];
      if time >= end { break; }
      forall t | cursor <= t < time ensures StateAt(samples, t) == state {
        StateBetween(byTime, ordered, samples, end, index, t);
      }
      AppendKeeps(intervals, samples, start, cursor, time, state);
      intervals := Append(intervals, cursor, time, state);
      cursor := time;
      state := nextState;
      index := index + 1;
    }
    forall t | cursor <= t < end ensures StateAt(samples, t) == state {
      StateBetween(byTime, ordered, samples, end, index, t);
    }
    AppendKeeps(intervals, samples, start, cursor, end, state);
    intervals := Append(intervals, cursor, end, state);
  }

  // ------------------------------------------------------------ the list is determined

  lemma FrontGood(intervals: seq<Interval>, samples: seq<Timed<Reading>>, start: int, end: int)
    requires Good(intervals, samples, start, end) && intervals != []
    ensures Good(intervals[..|intervals| - 1], samples, start, intervals[|intervals| - 1].start)
  {
    var last := |intervals| - 1;
    forall i, t | 0 <= i < last && intervals[..last][i].start <= t < intervals[..last][i].end
      ensures StateAt(samples, t) == intervals[..last][i].state
    {
      assert intervals[i].start <= t < intervals[i].end;
    }
  }

  lemma {:induction false} StartsWithin(intervals: seq<Interval>, start: int, end: int, i: nat)
    requires Tiles(intervals, start, end) && i < |intervals|
    ensures start <= intervals[i].start
  {
    if i > 0 {
      StartsWithin(intervals, start, end, i - 1);
    }
  }

  /** Where the last interval of one list starts, no interval of the other ends inside. */
  lemma LastStartsTogether(a: seq<Interval>, b: seq<Interval>, samples: seq<Timed<Reading>>, start: int, end: int)
    requires Good(a, samples, start, end) && Good(b, samples, start, end) && a != [] && b != []
    ensures a[|a| - 1].start <= b[|b| - 1].start
  {
    var i, j := |a| - 1, |b| - 1;
    StartsWithin(a, start, end, i);
    if i > 0 {
      assert a[i - 1].start <= a[i].start - 1 < a[i - 1].end;
      assert StateAt(samples, a[i].start - 1) == a[i - 1].state;
    }
    if b[j].start < a[i].start {
      var t := a[i].start;
      assert StateAt(samples, t) == a[i].state;
      assert StateAt(samples, t) == b[j].state && StateAt(samples, t - 1) == b[j].state;
      StartsWithin(b, start, end, j);
    }
  }

  /** Tiling, differing neighbours and agreement with the lookup leave one list only. */
  lemma {:induction false} IntervalsDetermined(a: seq<Interval>, b: seq<Interval>, samples: seq<Timed<Reading>>,
      start: int, end: int)
    requires Good(a, samples, start, end) && Good(b, samples, start, end)
    ensures a == b
    decreases |a|
  {
    if a == [] || b == [] {
      Empty(a, start, end);
      Empty(b, start, end);
    } else {
      LastStartsTogether(a, b, samples, start, end);
      LastStartsTogether(b, a, samples, start, end);
      var i, j := |a| - 1, |b| - 1;
      assert StateAt(samples, a[i].start) == a[i].state == b[j].state;
      FrontGood(a, samples, start, end);
      FrontGood(b, samples, start, end);
      IntervalsDetermined(a[..i], b[..j], samples, start, a[i].start);
      assert a == a[..i] + [a[i]] && b == b[..j] + [b[j]];
    }
  }

  lemma Empty(a: seq<Interval>, start: int, end: int)
    requires Tiles(a, start, end)
    ensures a == [] <==> start == end
  {
    if a != [] {
      StartsWithin(a, start, end, |a| - 1);
    }
  }

  // ------------------------------------------------------------ summary

  datatype Summary =
      Summary(unregisteredCount: nat, unregisteredMs: int, offlineCount: nat, offlineMs: int, unknownMs: int)

  function TimeIn(intervals: seq<Interval>, state: State): int {
    if intervals == [] then 0
    else
      var last := intervals[|intervals| - 1];
      TimeIn(intervals[..|intervals| - 1], state) + if last.state == state then Max(0, last.end - last.start) else 0
  }

  function CountOf(intervals: seq<Interval>, state: State): nat {
    if intervals == [] then 0
    else CountOf(intervals[..|intervals| - 1], state) + if intervals[|intervals| - 1].state == state then 1 else 0
  }

  /** summarizeRegistration. */
  method Summarize(intervals: seq<Interval>) returns (s: Summary)
    ensures s == Summary(CountOf(intervals, Unregistered), TimeIn(intervals, Unregistered),
                         CountOf(intervals, Offline), TimeIn(intervals, Offline), TimeIn(intervals, Unknown))
  {
    s := Summary(0, 0, 0, 0, 0);
    for i := 0 to |intervals|
      invariant s == Summary(CountOf(intervals[..i], Unregistered), TimeIn(intervals[..i], Unregistered),
                             CountOf(intervals[..i], Offline), TimeIn(intervals[..i], Offline),
                             TimeIn(intervals[..i], Unknown))
    {
      assert intervals[..i + 1][..i] == intervals[..i];
      var interval := intervals[i];
      var duration := Max(0, interval.end - interval.start);
      if interval.state == Unregistered {
        s := s.(unregisteredCount := s.unregisteredCount + 1, unregisteredMs := s.unregisteredMs + duration);
      } else if interval.state == Offline {
        s := s.(offlineCount := s.offlineCount + 1, offlineMs := s.offlineMs + duration);
      } else if interval.state == Unknown {
        s := s.(unknownMs := s.unknownMs + duration);
      }
    }
    assert intervals[..|intervals|] == intervals;
  }

  function Instants(samples: seq<Timed<Reading>>, start: int, end: int, state: State): set<int> {
    set t | start <= t < end && StateAt(samples, t) == state
  }

  function Span(start: int, end: int): set<int> {
    set t | start <= t < end && InSpan(start, end, t)
  }

  predicate InSpan(start: int, end: int, t: int) {
    start <= t < end
  }

  lemma {:induction false} SpanSize(start: int, end: int)
    requires start <= end
    ensures |Span(start, end)| == end - start
    decreases end - start
  {
    if start == end {
      assert Span(start, end) == {};
    } else {
      SpanSize(start, end - 1);
      assert Span(start, end) == Span(start, end - 1) + {end - 1};
    }
  }

  /** The time summed for a state is the number of instants at which the lookup gives that state. */
  lemma {:induction false} TimeIsInstants(intervals: seq<Interval>, samples: seq<Timed<Reading>>, start: int, end: int,
      state: State)
    requires Good(intervals, samples, start, end)
    ensures TimeIn(intervals, state) == |Instants(samples, start, end, state)|
    decreases |intervals|
  {
    Empty(intervals, start, end);
    if intervals == [] {
      assert Instants(samples, start, end, state) == {};
    } else {
      var last := intervals[|intervals| - 1];
      StartsWithin(intervals, start, end, |intervals| - 1);
      FrontGood(intervals, samples, start, end);
      TimeIsInstants(intervals[..|intervals| - 1], samples, start, last.start, state);
      SpanSize(last.start, last.end);
      assert forall t :: last.start <= t < last.end ==> StateAt(samples, t) == last.state;
      InstantsGrow(samples, start, last.start, last.end, state, last.state);
    }
  }

  lemma InstantsGrow(samples: seq<Timed<Reading>>, start: int, middle: int, end: int, state: State, tail: State)
    requires start <= middle <= end && forall t :: middle <= t < end ==> StateAt(samples, t) == tail
    ensures |Instants(samples, start, end, state)|
      == |Instants(samples, start, middle, state)| + if tail == state then |Span(middle, end)| else 0
  {
    hide StateAt;
    var front := Instants(samples, start, middle, state);
    assert Instants(samples, start, end, state) == front + if tail == state then Span(middle, end) else {};
    assert front !! Span(middle, end);
  }

  /** The four states account for the whole range. */
  lemma {:induction false} TimesAddUp(intervals: seq<Interval>, start: int, end: int)
    requires Tiles(intervals, start, end)
    ensures TimeIn(intervals, Registered) + TimeIn(intervals, Unregistered) + TimeIn(intervals, Offline) +
      TimeIn(intervals, Unknown)
      == end - start
    decreases |intervals|
  {
    if intervals != [] {
      TimesAddUp(intervals[..|intervals| - 1], start, intervals[|intervals| - 1].start);
    }
  }
}
