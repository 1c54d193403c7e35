/** Samples by time: the map they are collected in, its sorted entries, and the plain lookup both stand for. */
module Samples {
  import opened Basics

  /** A reading and its parsed time; None when the timestamp does not parse. */
  datatype Timed<T> = Timed(time: Option<int>, value: T)

  /** The reference: of the samples at or before t the latest, the later report of two at one time. */
  function LastAt<T>(samples: seq<Timed<T>>, t: int): (r: Option<(int, T)>)
    ensures r.Some? ==> r.value.0 <= t
  {
    if samples == [] then None
    else
      var before := LastAt(samples[..|samples| - 1], t);
      var s := samples[|samples| - 1];
      if s.time.Some? && s.time.value <= t && (before.None? || before.value.0 <= s.time.value) then
        Some((s.time.value, s.value))
      else before
  }

  predicate Counts<T>(s: Timed<T>, upTo: Option<int>) {
    s.time.Some? && (upTo.Some? ==> s.time.value <= upTo.value)
  }

  /** What the Map holds after the samples have been set in turn. */
  function ByTime<T>(samples: seq<Timed<T>>, upTo: Option<int>): map<int, T> {
    if samples == [] then map[]
    else
      var before := ByTime(samples[..|samples| - 1], upTo);
      var s := samples[|samples| - 1];
      if Counts(s, upTo) then before[s.time.value := s.value] else before
  }

  /** The greatest key at or before t. */
  ghost predicate LatestKey<T>(m: map<int, T>, t: int, r: Option<(int, T)>) {
    match r
    case None => forall k :: k in m ==> k > t
    case Some((k, v)) => k in m && m[k] == v && k <= t && forall j :: j in m && j <= t ==> j <= k
  }

  /** The map finds what the reference finds, at every time it was collected for. */
  lemma {:induction false} MapFindsLast<T>(samples: seq<Timed<T>>, upTo: Option<int>, t: int)
    requires upTo.Some? ==> t <= upTo.value
    ensures LatestKey(ByTime(samples, upTo), t, LastAt(samples, t))
  {
    if samples != [] {
      MapFindsLast(samples[..|samples| - 1], upTo, t);
    }
  }

  /** The entries of a map in ascending order of time. */
  ghost predicate SortedEntries<T>(m: map<int, T>, s: seq<(int, T)>) {
    && (forall i, j :: 0 <= i < j < |s| ==> s[i].0 < s[j].0)
    && (forall i :: 0 <= i < |s| ==> s[i].0 in m && m[s[i].0] == s[i].1)
    && (forall k :: k in m ==> exists i :: 0 <= i < |s| && s[i].0 == k)
  }

  lemma {:induction false} SmallestKey(keys: set<int>) returns (k: int)
    requires keys != {}
    ensures k in keys && forall j :: j in keys ==> k <= j
    decreases |keys|
  {
    var some := AnyOf(keys);
    var rest := keys - {some};
    if rest == {} {
      assert keys == {some};
      k := some;
    } else {
      var least := SmallestKey(rest);
      k := Min(some, least);
      forall j | j in keys ensures k <= j {
        assert j == some || j in rest;
      }
    }
  }

  /** s lists the entries outside left, in order, and all of left comes later. */
  ghost predicate Picked<T>(m: map<int, T>, left: set<int>, s: seq<(int, T)>) {
    && left <= m.Keys
    && (forall i, j :: 0 <= i < j < |s| ==> s[i].0 < s[j].0)
    && (forall i :: 0 <= i < |s| ==> s[i].0 in m && m[s[i].0] == s[i].1)
    && (forall i, k :: 0 <= i < |s| && k in left ==> s[i].0 < k)
    && (forall k :: k in m && k !in left ==> exists i :: 0 <= i < |s| && s[i].0 == k)
  }

  lemma PickNext<T>(m: map<int, T>, left: set<int>, s: seq<(int, T)>, k: int)
    requires Picked(m, left, s) && k in left && forall j :: j in left ==> k <= j
    ensures Picked(m, left - {k}, s + [(k, m[k])])
  {
    var after := s + [(k, m[k])];
    assert after[|s|].0 == k;
    forall key | key in m && key !in left - {k} ensures exists i :: 0 <= i < |after| && after[i].0 == key {
      if key != k {
        var i :| 0 <= i < |s| && s[i].0 == key;
        assert after[i].0 == key;
      }
    }
  }

  /** [...byTime.entries()].sort(by time). */
  method SortEntries<T>(m: map<int, T>) returns (s: seq<(int, T)>)
    ensures SortedEntries(m, s)
  {
    s := [];
    var left := m.Keys;
    while left != {}
      invariant Picked(m, left, s)
      decreases |left|
    {
      ghost var least := SmallestKey(left);
      var k :| k in left && forall j :: j in left ==> k <= j;
      PickNext(m, left, s, k);
      s := s + [(k, m[k])];
      left := left - {k};
    }
  }

  /** What the sorted entries say at t: the entry before the first one after t. */
  lemma EntryBefore<T>(m: map<int, T>, s: seq<(int, T)>, index: nat, t: int)
    requires SortedEntries(m, s) && index <= |s|
    requires index > 0 ==> s[index - 1].0 <= t
    requires index < |s| ==> t < s[index].0
    ensures LatestKey(m, t, if index == 0 then None else Some(s[index - 1]))
  {
    forall k | k in m && k <= t ensures index > 0 && k <= s[index - 1].0 {
      var i :| 0 <= i < |s| && s[i].0 == k;
    }
  }

  lemma LatestOnce<T>(m: map<int, T>, t: int, a: Option<(int, T)>, b: Option<(int, T)>)
    requires LatestKey(m, t, a) && LatestKey(m, t, b)
    ensures a == b
  {
  }

  /** sampleAt: the binary search for the last sample at or before t. */
  method SampleAt<T>(ordered: seq<(int, T)>, t: int, ghost m: map<int, T>) returns (found: Option<T>)
    requires SortedEntries(m, ordered)
    ensures LatestKey(m, t, None) ==> found == None
    ensures forall k, v :: LatestKey(m, t, Some((k, v))) ==> found == Some(v)
  {
    var low, high := 0, |ordered| - 1;
    found := None;
    while low <= high
      invariant 0 <= low <= high + 1 <= |ordered|
      invariant found == if low == 0 then None else Some(ordered[low - 1].1)
      invariant low > 0 ==> ordered[low - 1].0 <= t
      invariant high + 1 < |ordered| ==> t < ordered[high + 1].0
      decreases high + 1 - low
    {
      var middle := (low + high) / 2;
      if ordered[middle].0 <= t {
        found := Some(ordered[middle].1);
        low := middle + 1;
      } else {
        high := middle - 1;
      }
    }
    EntryBefore(m, ordered, low, t);
    forall k, v | LatestKey(m, t, Some((k, v))) ensures found == Some(v) {
      LatestOnce(m, t, Some((k, v)), if low == 0 then None else Some(ordered[low - 1]));
    }
  }

  /** buildSamples for one series: its points, then the current sample if there is one. */
  method BuildSamples<T>(points: seq<Timed<T>>, current: Option<Timed<T>>) returns (ordered: seq<(int, T)>)
    ensures SortedEntries(ByTime(points + (if current.Some? then [current.value] else []), None), ordered)
  {
    var byTime: map<int, T> := map[];
    for i := 0 to |points|
      invariant byTime == ByTime(points[..i], None)
    {
      assert points[..i + 1][..i] == points[..i];
      if points[i].time.Some? {
        byTime := byTime[points[i].time.value := points[i].value];
      }
    }
    assert points[..|points|] == points;
    if current.Some? {
      assert (points + [current.value])[..|points|] == points;
      if current.value.time.Some? {
        byTime := byTime[current.value.time.value := current.value.value];
      }
    } else {
      assert points + [] == points;
    }
    ordered := SortEntries(byTime);
  }

  /** The chart's lookup: binary search over the built samples is the reference lookup. */
  method Lookup<T>(points: seq<Timed<T>>, current: Option<Timed<T>>, t: int) returns (found: Option<T>)
    ensures var last := LastAt(points + (if current.Some? then [current.value] else []), t);
      found == if last.Some? then Some(last.value.1) else None
  {
    var ordered := BuildSamples(points, current);
    ghost var samples := points + (if current.Some? then [current.value] else []);
    MapFindsLast(samples, None, t);
    found := SampleAt(ordered, t, ByTime(samples, None));
  }
}
