/**
 * The client analytics service: the enable switch in front of `track`, the local event store
 * capped at the 1000 most recent events, the event counts behind `getTopEvents`, the time spent
 * on a page, and the scroll-depth and time-on-page milestones, each reported at most once.
 *
 * Ids, clocks and the measured scroll percentage or seconds on the page are parameters; sending
 * events over the network and `localStorage` are not part of this model.
 */
module Analytics {
  import opened Wrappers
  import opened Sequences
  import opened Sorting

  datatype Event = Event(id: string, name: string, timestamp: int)

  datatype PageView = PageView(page: string, timestamp: int)

  /** An entry of `getTopEvents`. */
  datatype EventCount = EventCount(name: string, count: nat)

  // ---------------------------------------------------------------- the local store

  const MaxStoredEvents: nat := 1000

  /** `storeEventLocally`: append, then `splice` away the oldest events beyond the 1000 most recent. */
  function StoreEventLocally(stored: seq<Event>, e: Event): (r: seq<Event>)
    ensures |r| == if |stored| + 1 <= MaxStoredEvents then |stored| + 1 else MaxStoredEvents
    ensures r == (stored + [e])[|stored| + 1 - |r|..]
    ensures r[|r| - 1] == e
  {
    var s := stored + [e];
    if |s| > MaxStoredEvents then s[|s| - MaxStoredEvents..] else s
  }

  /** Storing into a store that respects the cap keeps it within the cap, and a full store drops exactly its oldest event. */
  lemma StoreKeepsCap(stored: seq<Event>, e: Event)
    requires |stored| <= MaxStoredEvents
    ensures |StoreEventLocally(stored, e)| <= MaxStoredEvents
    ensures |stored| == MaxStoredEvents ==> StoreEventLocally(stored, e) == stored[1..] + [e]
  {
  }

  // ---------------------------------------------------------------- event counts

  /** How many events carry the name. */
  function Occurrences(events: seq<Event>, name: string): (n: nat)
    ensures n <= |events|
    ensures n == 0 <==> forall i :: 0 <= i < |events| ==> events[i].name != name
  {
    CountWhere(events, (e: Event) => e.name == name)
  }

  /** Where the name stands in the count list, if it is there. */
  function IndexOfName(counts: seq<EventCount>, name: string): (r: Option<nat>)
    ensures r.Some? ==> r.value < |counts| && counts[r.value].name == name
    ensures r.None? ==> forall i :: 0 <= i < |counts| ==> counts[i].name != name
  {
    FirstIndex(counts, (c: EventCount) => c.name == name)
  }

  /** `eventCounts[name] = (eventCounts[name] || 0) + 1`, with the object's entries in insertion order. */
  function Bump(counts: seq<EventCount>, name: string): seq<EventCount>
  {
    match IndexOfName(counts, name)
    case None => counts + [EventCount(name, 1)]
    case Some(k) => counts[k := EventCount(name, counts[k].count + 1)]
  }

  /** The entries of `eventCounts` after the `forEach` over the events. */
  function CountsOf(events: seq<Event>): seq<EventCount>
  {
    if events == [] then [] else Bump(CountsOf(events[..|events| - 1]), events[|events| - 1].name)
  }

  predicate DistinctNames(counts: seq<EventCount>)
  {
    forall i, j :: 0 <= i < |counts| && 0 <= j < |counts| && counts[i].name == counts[j].name ==> i == j
  }

  /** Each entry is a name that occurs, with its number of occurrences. */
  predicate Accurate(counts: seq<EventCount>, events: seq<Event>)
  {
    forall i :: 0 <= i < |counts| ==> counts[i].count == Occurrences(events, counts[i].name) && counts[i].count > 0
  }

  /** Every occurring name has an entry. */
  predicate Complete(counts: seq<EventCount>, events: seq<Event>)
  {
    forall i :: 0 <= i < |events| ==> IndexOfName(counts, events[i].name).Some?
  }

  /** Appending an event adds one occurrence to its name and none to any other. */
  lemma OccurrencesSnoc(p: seq<Event>, e: Event, name: string)
    ensures Occurrences(p + [e], name) == Occurrences(p, name) + (if e.name == name then 1 else 0)
  {
    CountWhereSnoc(p, e, (x: Event) => x.name == name);
  }

  /** Bumping a name keeps the names distinct. */
  lemma BumpDistinct(c: seq<EventCount>, name: string)
    requires DistinctNames(c)
    ensures DistinctNames(Bump(c, name))
  {
  }

  /** Bumping the name of the appended event keeps every count exact. */
  lemma BumpAccurate(c: seq<EventCount>, p: seq<Event>, e: Event)
    requires DistinctNames(c) && Accurate(c, p) && Complete(c, p)
    ensures Accurate(Bump(c, e.name), p + [e])
  {
    var r := Bump(c, e.name);
    forall i | 0 <= i < |r| ensures r[i].count == Occurrences(p + [e], r[i].name) && r[i].count > 0 {
      OccurrencesSnoc(p, e, r[i].name);
    }
  }

  /** Bumping the name of the appended event gives every occurring name an entry. */
  lemma BumpComplete(c: seq<EventCount>, p: seq<Event>, e: Event)
    requires Complete(c, p)
    ensures Complete(Bump(c, e.name), p + [e])
  {
    var r := Bump(c, e.name);
    var events := p + [e];
    forall i | 0 <= i < |events| ensures IndexOfName(r, events[i].name).Some? {
      var n := events[i].name;
      var k := if i < |p| then IndexOfName(c, p[i].name).value else 0;
      if i < |p| {
        assert events[i] == p[i];
        assert r[k].name == n;
      } else {
        match IndexOfName(c, e.name)
        case None => assert r[|c|].name == n;
        case Some(j) => assert r[j].name == n;
      }
    }
  }

  /** The counts list every name that occurs exactly once, with the number of its occurrences. */
  lemma {:induction false} CountsOfMeans(events: seq<Event>)
    ensures DistinctNames(CountsOf(events))
    ensures Accurate(CountsOf(events), events)
    ensures Complete(CountsOf(events), events)
  {
    if events != [] {
      var p := events[..|events| - 1];
      var e := events[|events| - 1];
      assert events == p + [e];
      CountsOfMeans(p);
      BumpDistinct(CountsOf(p), e.name);
      BumpAccurate(CountsOf(p), p, e);
      BumpComplete(CountsOf(p), p, e);
    }
  }

  /** A name has an entry iff it occurs. */
  lemma CountsCoverOccurring(events: seq<Event>, name: string)
    ensures IndexOfName(CountsOf(events), name).Some? <==> Occurrences(events, name) > 0
  {
    CountsOfMeans(events);
    var c := CountsOf(events);
    if Occurrences(events, name) > 0 {
      var i :| 0 <= i < |events| && events[i].name == name;
    }
    if IndexOfName(c, name).Some? {
      assert c[IndexOfName(c, name).value].count > 0;
    }
  }

  /** The counting loop of `getTopEvents`: the entry of each event's name is created or incremented. */
  method CountEvents(events: seq<Event>) returns (counts: seq<EventCount>)
    ensures counts == CountsOf(events)
  {
    counts := [];
    var i := 0;
    while i < |events|
      invariant i <= |events|
      invariant counts == CountsOf(events[..i])
    {
      assert events[..i + 1][..i] == events[..i];
      var k := IndexOfName(counts, events[i].name);
      if k.None? {
        counts := counts + [EventCount(events[i].name, 1)];
      } else {
        counts := counts[k.value := EventCount(events[i].name, counts[k.value].count + 1)];
      }
      i := i + 1;
    }
    assert events[..i] == events;
  }

  function CountKey(c: EventCount): int { c.count }

  const TopEventsLimit: nat := 10

  /** `getTopEvents`: the entries sorted by count, largest first, cut to the first 10. */
  function TopEvents(events: seq<Event>): seq<EventCount>
  {
    var sorted := SortDesc(CountsOf(events), CountKey);
    if |sorted| <= TopEventsLimit then sorted else sorted[..TopEventsLimit]
  }

  /** In a list with distinct names no entry appears twice. */
  lemma {:induction false} DistinctOnce(a: seq<EventCount>, x: EventCount)
    requires DistinctNames(a)
    ensures multiset(a)[x] <= 1
  {
    if a != [] {
      assert a == [a[0]] + a[1..];
      assert DistinctNames(a[1..]) by {
        forall i, j | 0 <= i < |a[1..]| && 0 <= j < |a[1..]| && a[1..][i].name == a[1..][j].name ensures i == j {
          assert a[i + 1].name == a[j + 1].name;
        }
      }
      DistinctOnce(a[1..], x);
      if a[0] == x {
        assert x !in a[1..] by {
          forall j | 0 <= j < |a[1..]| ensures a[1..][j] != x {
            assert a[j + 1].name != a[0].name;
          }
        }
      }
    }
  }

  /** An entry at two positions is counted twice. */
  lemma Twice(b: seq<EventCount>, i: nat, j: nat)
    requires i < j < |b| && b[i] == b[j]
    ensures multiset(b)[b[i]] >= 2
  {
    assert b == b[..j] + b[j..];
    assert b[i] in b[..j];
    assert b[j] == b[j..][0];
    assert multiset(b) == multiset(b[..j]) + multiset(b[j..]);
  }

  /** Sorting the counts keeps every entry, and only those. */
  lemma SortedCountsSameEntries(c: seq<EventCount>)
    ensures var sorted := SortDesc(c, CountKey);
      |sorted| == |c| && (forall x :: x in c <==> x in sorted)
  {
    var sorted := SortDesc(c, CountKey);
    assert |sorted| == |c| by {
      assert |multiset(sorted)| == |multiset(c)|;
    }
    forall x ensures x in c <==> x in sorted {
      assert x in c <==> x in multiset(c);
      assert x in sorted <==> x in multiset(sorted);
    }
  }

  /** Sorting exact counts with distinct names keeps the names distinct. */
  lemma SortedCountsDistinct(c: seq<EventCount>, events: seq<Event>)
    requires DistinctNames(c) && Accurate(c, events)
    ensures DistinctNames(SortDesc(c, CountKey)) && Accurate(SortDesc(c, CountKey), events)
  {
    var sorted := SortDesc(c, CountKey);
    SortedCountsSameEntries(c);
    assert Accurate(sorted, events) by {
      forall i | 0 <= i < |sorted| ensures sorted[i].count == Occurrences(events, sorted[i].name) && sorted[i].count > 0 {
        assert sorted[i] in c;
      }
    }
    forall i, j | 0 <= i < |sorted| && 0 <= j < |sorted| && sorted[i].name == sorted[j].name ensures i == j {
      if i != j {
        var lo := if i < j then i else j;
        var hi := if i < j then j else i;
        assert sorted[lo] == sorted[hi];
        Twice(sorted, lo, hi);
        DistinctOnce(c, sorted[lo]);
      }
    }
  }

  /** The sorted counts: as many entries, distinct names, exact counts, largest first, each listed name present. */
  lemma SortedCountsMeans(events: seq<Event>)
    ensures var c := CountsOf(events); var sorted := SortDesc(c, CountKey);
      |sorted| == |c| && DistinctNames(sorted) && Accurate(sorted, events) && SortedDesc(sorted, CountKey) &&
      forall x :: x in c ==> x in sorted
  {
    CountsOfMeans(events);
    SortDescSorted(CountsOf(events), CountKey);
    SortedCountsSameEntries(CountsOf(events));
    SortedCountsDistinct(CountsOf(events), events);
  }

  /** The shown entries are the first ones of the sorted counts. */
  lemma TopEventsShape(events: seq<Event>)
    ensures var top := TopEvents(events);
      |top| == (if |CountsOf(events)| < TopEventsLimit then |CountsOf(events)| else TopEventsLimit) &&
      DistinctNames(top) && Accurate(top, events) && SortedDesc(top, CountKey)
  {
    SortedCountsMeans(events);
    var sorted := SortDesc(CountsOf(events), CountKey);
    var top := TopEvents(events);
    assert top == sorted[..|top|];
    forall i | 0 <= i < |top| ensures top[i] == sorted[i] {
    }
  }

  /** A name missing from a prefix of a list stands after that prefix. */
  lemma NotShownComesLater(sorted: seq<EventCount>, n: nat, name: string, j: nat)
    requires n <= |sorted| && j < |sorted| && sorted[j].name == name
    requires IndexOfName(sorted[..n], name).None?
    ensures j >= n
  {
  }

  /** A name that occurs but is not shown is no more frequent than any shown name. */
  lemma TopEventsLeftOut(events: seq<Event>, name: string)
    requires Occurrences(events, name) > 0 && IndexOfName(TopEvents(events), name).None?
    ensures forall i :: 0 <= i < |TopEvents(events)| ==> TopEvents(events)[i].count >= Occurrences(events, name)
  {
    var c := CountsOf(events);
    var sorted := SortDesc(c, CountKey);
    var top := TopEvents(events);
    var want := Occurrences(events, name);
    assert exists j :: 0 <= j < |sorted| && sorted[j].name == name && sorted[j].count == want by {
      CountsCoverOccurring(events, name);
      var k := IndexOfName(c, name).value;
      assert c[k].count == want by {
        CountsOfMeans(events);
      }
      SortedCountsSameEntries(c);
      assert c[k] in sorted;
    }
    var j :| 0 <= j < |sorted| && sorted[j].name == name && sorted[j].count == want;
    assert top == sorted[..|top|];
    NotShownComesLater(sorted, |top|, name, j);
    SortDescSorted(c, CountKey);
    forall i | 0 <= i < |top| ensures top[i].count >= want {
      assert top[i] == sorted[i];
      assert CountKey(sorted[i]) >= CountKey(sorted[j]);
    }
  }

  /**
   * The first 10 entries, or all of them when there are fewer, with distinct names, each with that name's number of occurrences, in
   * non-increasing order of count; a name that occurs but is left out is no more frequent than
   * any name shown.
   */
  lemma TopEventsMeans(events: seq<Event>, name: string)
    ensures var top := TopEvents(events);
      |top| == (if |CountsOf(events)| < TopEventsLimit then |CountsOf(events)| else TopEventsLimit) &&
      DistinctNames(top) &&
      (forall i :: 0 <= i < |top| ==> top[i].count == Occurrences(events, top[i].name) > 0) &&
      (forall i, j :: 0 <= i < j < |top| ==> top[i].count >= top[j].count) &&
      (Occurrences(events, name) > 0 && IndexOfName(top, name).None? ==>
         forall i :: 0 <= i < |top| ==> top[i].count >= Occurrences(events, name))
  {
    TopEventsShape(events);
    var top := TopEvents(events);
    forall i, j | 0 <= i < j < |top| ensures top[i].count >= top[j].count {
      assert CountKey(top[i]) >= CountKey(top[j]);
    }
    if Occurrences(events, name) > 0 && IndexOfName(top, name).None? {
      TopEventsLeftOut(events, name);
    }
  }

  // ---------------------------------------------------------------- time spent

  /** `pageViews.find(pv => pv.timestamp > t)`. */
  function FirstLater(views: seq<PageView>, t: int): (r: Option<PageView>)
    ensures r.Some? ==> r.value in views && r.value.timestamp > t
    ensures r.None? <==> forall i :: 0 <= i < |views| ==> views[i].timestamp <= t
    ensures r.Some? ==> exists k :: 0 <= k < |views| && views[k] == r.value &&
                         forall j :: 0 <= j < k ==> views[j].timestamp <= t
  {
    if views == [] then None
    else if views[0].timestamp > t then Some(views[0])
    else
      match FirstLater(views[1..], t)
      case None => None
      case Some(v) =>
        var k :| 0 <= k < |views[1..]| && views[1..][k] == v && forall j :: 0 <= j < k ==> views[1..][j].timestamp <= t;
        assert views[k + 1] == v;
        Some(v)
  }

  /** `calculateTimeSpent`: up to the first later page view in array order, or up to now when there is none. */
  function TimeSpent(views: seq<PageView>, pv: PageView, now: int): int
  {
    match FirstLater(views, pv.timestamp)
    case Some(next) => next.timestamp - pv.timestamp
    case None => now - pv.timestamp
  }

  predicate Chronological(views: seq<PageView>)
  {
    forall i, j :: 0 <= i < j < |views| ==> views[i].timestamp <= views[j].timestamp
  }

  /** When the views are in time order, as `trackPageView` records them, the first later view is the nearest one. */
  lemma FirstLaterIsNearest(views: seq<PageView>, pv: PageView, now: int)
    requires Chronological(views)
    ensures FirstLater(views, pv.timestamp).Some? ==>
      0 < TimeSpent(views, pv, now) &&
      forall i :: 0 <= i < |views| && views[i].timestamp > pv.timestamp ==>
        TimeSpent(views, pv, now) <= views[i].timestamp - pv.timestamp
  {
    if FirstLater(views, pv.timestamp).Some? {
      var v := FirstLater(views, pv.timestamp).value;
      var k :| 0 <= k < |views| && views[k] == v && forall j :: 0 <= j < k ==> views[j].timestamp <= pv.timestamp;
      forall i | 0 <= i < |views| && views[i].timestamp > pv.timestamp
        ensures v.timestamp <= views[i].timestamp
      {
        assert i >= k;
      }
    }
  }

  /** Out of time order it is not: after a view at 100 comes one at 50, and the view at 0 is charged 100. */
  lemma FirstLaterNotNearest()
    ensures TimeSpent([PageView("a", 0), PageView("c", 100), PageView("b", 50)], PageView("a", 0), 1000) == 100
  {
  }

  // ---------------------------------------------------------------- milestones

  const ScrollMilestones: seq<int> := [25, 50, 75, 100]
  const TimeMilestones: seq<int> := [10, 30, 60, 120, 300]

  /**
   * One reading of a scroll or time listener: each milestone, in order, that the reading has
   * reached and that is not yet tracked is added to the tracked set and reported.
   */
  function Observe(milestones: seq<int>, tracked: set<int>, reading: int): (set<int>, seq<int>)
  {
    if milestones == [] then (tracked, [])
    else if reading >= milestones[0] && milestones[0] !in tracked then
      var rest := Observe(milestones[1..], tracked + {milestones[0]}, reading);
      (rest.0, [milestones[0]] + rest.1)
    else Observe(milestones[1..], tracked, reading)
  }

  predicate NoDuplicates(s: seq<int>)
  {
    forall i, j :: 0 <= i < j < |s| ==> s[i] != s[j]
  }

  /** The set after a reading or a session: the set before plus what was reported, and nothing else. */
  predicate Grows(before: set<int>, after: set<int>, reported: seq<int>)
  {
    before <= after &&
    (forall m :: m in reported ==> m in after) &&
    (forall m :: m in after ==> m in before || m in reported)
  }

  /**
   * A reading reports distinct, not yet tracked milestones it has reached, adds exactly those to
   * the tracked set, and afterwards every milestone it has reached is tracked.
   */
  lemma {:induction false} ObserveMeans(milestones: seq<int>, tracked: set<int>, reading: int)
    ensures var (after, reported) := Observe(milestones, tracked, reading);
      NoDuplicates(reported) &&
      (forall m :: m in reported ==> m in milestones && m <= reading && m !in tracked) &&
      Grows(tracked, after, reported) &&
      (forall i :: 0 <= i < |milestones| && milestones[i] <= reading ==> milestones[i] in after)
  {
    if milestones != [] {
      var m0 := milestones[0];
      var tail := milestones[1..];
      if reading >= m0 && m0 !in tracked {
        ObserveMeans(tail, tracked + {m0}, reading);
        var rest := Observe(tail, tracked + {m0}, reading);
        var reported := [m0] + rest.1;
        forall i, j | 0 <= i < j < |reported| ensures reported[i] != reported[j] {
          assert reported[j] == rest.1[j - 1];
          if i > 0 {
            assert reported[i] == rest.1[i - 1];
          }
        }
        forall i | 0 <= i < |milestones| && milestones[i] <= reading ensures milestones[i] in rest.0 {
          if i > 0 {
            assert milestones[i] == tail[i - 1];
          }
        }
      } else {
        ObserveMeans(tail, tracked, reading);
        var rest := Observe(tail, tracked, reading);
        forall i | 0 <= i < |milestones| && milestones[i] <= reading ensures milestones[i] in rest.0 {
          if i > 0 {
            assert milestones[i] == tail[i - 1];
          }
        }
      }
    }
  }

  /** A whole session of readings, from the tracked set `tracked`: the final set and every report in order. */
  function ObserveAll(milestones: seq<int>, tracked: set<int>, readings: seq<int>): (set<int>, seq<int>)
    decreases |readings|
  {
    if readings == [] then (tracked, [])
    else
      var first := Observe(milestones, tracked, readings[0]);
      var rest := ObserveAll(milestones, first.0, readings[1..]);
      (rest.0, first.1 + rest.1)
  }

  /**
   * Over a session each milestone is reported at most once, never one tracked before, and every
   * milestone that some reading reached is tracked at the end.
   */
  lemma {:induction false} ObserveAllOnce(milestones: seq<int>, tracked: set<int>, readings: seq<int>)
    decreases |readings|
    ensures var (after, reported) := ObserveAll(milestones, tracked, readings);
      NoDuplicates(reported) &&
      (forall m :: m in reported ==> m in milestones && m !in tracked) &&
      Grows(tracked, after, reported) &&
      (forall i, k :: 0 <= i < |milestones| && 0 <= k < |readings| && milestones[i] <= readings[k] ==> milestones[i] in after)
  {
    if readings != [] {
      ObserveMeans(milestones, tracked, readings[0]);
      var first := Observe(milestones, tracked, readings[0]);
      ObserveAllOnce(milestones, first.0, readings[1..]);
      var rest := ObserveAll(milestones, first.0, readings[1..]);
      var reported := first.1 + rest.1;
      forall i, j | 0 <= i < j < |reported| ensures reported[i] != reported[j] {
        if j < |first.1| {
          assert reported[i] == first.1[i] && reported[j] == first.1[j];
        } else if i >= |first.1| {
          assert reported[i] == rest.1[i - |first.1|] && reported[j] == rest.1[j - |first.1|];
        } else {
          assert reported[i] == first.1[i];
          assert reported[j] == rest.1[j - |first.1|];
          assert reported[i] in first.0;
        }
      }
      forall m | m in reported ensures m in milestones && m !in tracked && m in rest.0 {
        if m in first.1 {
          assert m in first.0;
        } else {
          assert m in rest.1;
        }
      }
      forall i, k | 0 <= i < |milestones| && 0 <= k < |readings| && milestones[i] <= readings[k]
        ensures milestones[i] in rest.0
      {
        if k > 0 {
          assert readings[k] == readings[1..][k - 1];
        }
      }
    }
  }

  /** A listener's state: its milestones and the set of those already reported. */
  class MilestoneTracker {
    const milestones: seq<int>
    var tracked: set<int>

    constructor (milestones: seq<int>)
      ensures this.milestones == milestones && tracked == {}
    {
      this.milestones := milestones;
      tracked := {};
    }

    /** The body of the listener: the `forEach` over the milestones; each reported one is then passed to `track`. */
    method OnReading(reading: int) returns (reported: seq<int>)
      modifies this`tracked
      ensures tracked == Observe(milestones, old(tracked), reading).0
      ensures reported == Observe(milestones, old(tracked), reading).1
    {
      ghost var spec := Observe(milestones, tracked, reading);
      reported := [];
      var i := 0;
      assert milestones[0..] == milestones;
      while i < |milestones|
        invariant i <= |milestones|
        invariant spec.0 == Observe(milestones[i..], tracked, reading).0
        invariant spec.1 == reported + Observe(milestones[i..], tracked, reading).1
      {
        assert milestones[i..][1..] == milestones[i + 1..];
        var m := milestones[i];
        if reading >= m && m !in tracked {
          tracked := tracked + {m};
          reported := reported + [m];
        }
        i := i + 1;
      }
      assert milestones[i..] == [];
    }
  }

  // ---------------------------------------------------------------- the service

  class AnalyticsService {
    var events: seq<Event>
    var pageViews: seq<PageView>
    var isEnabled: bool

    constructor ()
      ensures events == [] && pageViews == [] && isEnabled
    {
      events := [];
      pageViews := [];
      isEnabled := true;
    }

    /** `setEnabled`. */
    method SetEnabled(enabled: bool)
      modifies this`isEnabled
      ensures isEnabled == enabled
    {
      isEnabled := enabled;
    }

    /** `track`: nothing while disabled; otherwise exactly one event is appended. */
    method Track(name: string, id: string, now: int)
      modifies this`events
      ensures events == if isEnabled then old(events) + [Event(id, name, now)] else old(events)
    {
      if !isEnabled {
        return;
      }
      events := events + [Event(id, name, now)];
    }

    /** `trackPageView`: the view is always recorded, and a `page_view` event is tracked. */
    method TrackPageView(page: string, id: string, now: int)
      modifies this`events, this`pageViews
      ensures pageViews == old(pageViews) + [PageView(page, now)]
      ensures events == if isEnabled then old(events) + [Event(id, "page_view", now)] else old(events)
    {
      pageViews := pageViews + [PageView(page, now)];
      Track("page_view", id, now);
    }

    /** `getTopEvents` over the tracked events. */
    method GetTopEvents() returns (top: seq<EventCount>)
      ensures top == TopEvents(events)
      ensures |top| == (if |CountsOf(events)| < TopEventsLimit then |CountsOf(events)| else TopEventsLimit) && DistinctNames(top)
      ensures forall i :: 0 <= i < |top| ==> top[i].count == Occurrences(events, top[i].name)
      ensures forall i, j :: 0 <= i < j < |top| ==> top[i].count >= top[j].count
    {
      var counts := CountEvents(events);
      var sorted := SortDesc(counts, CountKey);
      top := if |sorted| <= TopEventsLimit then sorted else sorted[..TopEventsLimit];
      TopEventsMeans(events, "");
    }
  }
}
