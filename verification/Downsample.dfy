// The window aggregator in front of a sink: the online object, a batch reference, and the laws that
// connect them.
module Downsample {
  import opened Prelude
  import SeriesKey

  // Timestamps are nanoseconds since the zero time of the clock library (1 January of year 1).
  datatype Measurement = Measurement(
    timestamp: int, name: string, value: real, unit: string, tags: map<string, string>)

  datatype Aggregation = Mean | Max | Min | Last | Sum

  // A sample as it is written, with the wall clock at that moment.
  datatype Arrival = Arrival(m: Measurement, now: int)

  // Samples of one series that share a buffer.
  type Group = seq<Arrival>

  datatype Config = Config(window: int, agg: Aggregation, counters: set<string>)

  // Windows --------------------------------------------------------------------------------------

  // Time.Truncate: rounds down to a multiple of the window since the zero time.
  function Truncate(t: int, w: int): (s: int)
    requires w > 0
    ensures s <= t < s + w
  {
    t - t % w
  }

  lemma TruncateIsMultiple(t: int, w: int)
    requires w > 0
    ensures Truncate(t, w) % w == 0
  {
    assert Truncate(t, w) == (t / w) * w + 0;
    RemainderUnique(Truncate(t, w), w, t / w, 0);
  }

  // A sample without a time gets the current one.
  function TimeOf(a: Arrival): int {
    if a.m.timestamp == 0 then a.now else a.m.timestamp
  }

  function WindowOf(a: Arrival, w: int): int
    requires w > 0
  {
    Truncate(TimeOf(a), w)
  }

  ghost function KeyOf(a: Arrival): string {
    SeriesKey.KeyOf(a.m.name, a.m.tags)
  }

  // The Unix epoch, and rounding down relative to it.
  const UNIX := 62135596800 * 1000000000

  function TruncateUnix(t: int, w: int): int
    requires w > 0
  {
    UNIX + Truncate(t - UNIX, w)
  }

  // The windows are aligned to the Unix epoch, as announced, exactly when the window divides the
  // distance between the two origins.
  lemma UnixAlignedIff(w: int)
    requires w > 0
    ensures (forall t :: Truncate(t, w) == TruncateUnix(t, w)) <==> UNIX % w == 0
  {
    if UNIX % w == 0 {
      forall t
        ensures Truncate(t, w) == TruncateUnix(t, w)
      {
        SameGrid(t, w, UNIX);
      }
    }
    if forall t :: Truncate(t, w) == TruncateUnix(t, w) {
      assert Truncate(UNIX, w) == TruncateUnix(UNIX, w);
    }
  }

  lemma SameGrid(t: int, w: int, origin: int)
    requires w > 0 && origin % w == 0
    ensures Truncate(t, w) == origin + Truncate(t - origin, w)
  {
    var q := origin / w;
    assert origin == q * w;
    var k, r := t / w, t % w;
    assert t - origin == (k - q) * w + r;
    RemainderUnique(t - origin, w, k - q, r);
  }

  lemma RemainderUnique(x: int, w: int, q: int, r: int)
    requires w > 0 && 0 <= r < w && x == q * w + r
    ensures x % w == r
  {
    var d := x / w - q;
    MultipleBound(d, w);
    assert d * w == r - x % w;
  }

  lemma MultipleBound(d: int, w: int)
    requires w > 0
    ensures d > 0 ==> d * w >= w
    ensures d < 0 ==> d * w <= -w
  {
  }

  // A window of seven seconds is not aligned to the Unix epoch.
  lemma SevenSecondsMisaligned()
    ensures Truncate(UNIX, 7000000000) != TruncateUnix(UNIX, 7000000000)
  {
  }

  // Aggregates -----------------------------------------------------------------------------------

  function SumOf(s: seq<real>): real {
    if s == [] then 0.0 else SumOf(s[..|s| - 1]) + s[|s| - 1]
  }

  function MaxOf(s: seq<real>): real
    requires s != []
  {
    if |s| == 1 then s[0]
    else if s[|s| - 1] > MaxOf(s[..|s| - 1]) then s[|s| - 1] else MaxOf(s[..|s| - 1])
  }

  function MinOf(s: seq<real>): real
    requires s != []
  {
    if |s| == 1 then s[0]
    else if s[|s| - 1] < MinOf(s[..|s| - 1]) then s[|s| - 1] else MinOf(s[..|s| - 1])
  }

  function Reduce(agg: Aggregation, s: seq<real>): real
    requires s != []
  {
    match agg
    case Mean => SumOf(s) / |s| as real
    case Max => MaxOf(s)
    case Min => MinOf(s)
    case Last => s[|s| - 1]
    case Sum => SumOf(s)
  }

  lemma {:induction false} MaxMeaning(s: seq<real>)
    requires s != []
    ensures MaxOf(s) in s && forall i :: 0 <= i < |s| ==> s[i] <= MaxOf(s)
  {
    if |s| > 1 {
      MaxMeaning(s[..|s| - 1]);
    }
  }

  lemma {:induction false} MinMeaning(s: seq<real>)
    requires s != []
    ensures MinOf(s) in s && forall i :: 0 <= i < |s| ==> MinOf(s) <= s[i]
  {
    if |s| > 1 {
      MinMeaning(s[..|s| - 1]);
    }
  }

  lemma {:induction false} SumBounds(s: seq<real>, low: real, high: real)
    requires forall i :: 0 <= i < |s| ==> low <= s[i] <= high
    ensures |s| as real * low <= SumOf(s) <= |s| as real * high
  {
    if s != [] {
      SumBounds(s[..|s| - 1], low, high);
      var n := (|s| - 1) as real;
      assert |s| as real == n + 1.0;
      assert (n + 1.0) * low == n * low + low && (n + 1.0) * high == n * high + high;
    }
  }

  // Sum and mean are determined by what they are on one sample and on two groups put together.
  lemma {:induction false} SumConcat(a: seq<real>, b: seq<real>)
    ensures SumOf(a + b) == SumOf(a) + SumOf(b)
    decreases |b|
  {
    if b == [] {
      assert a + b == a;
    } else {
      SumConcat(a, b[..|b| - 1]);
      assert (a + b)[..|a + b| - 1] == a + b[..|b| - 1];
    }
  }

  lemma OneSample(agg: Aggregation, x: real)
    ensures Reduce(agg, [x]) == x
  {
    assert [x][..0] == [];
    assert SumOf([x]) == x;
  }

  lemma TwoGroups(a: seq<real>, b: seq<real>)
    requires a != [] && b != []
    ensures Reduce(Sum, a + b) == Reduce(Sum, a) + Reduce(Sum, b)
    ensures Reduce(Mean, a + b) * |a + b| as real == Reduce(Mean, a) * |a| as real + Reduce(Mean, b) * |b| as real
    ensures Reduce(Last, a + b) == Reduce(Last, b)
  {
    hide SumOf;
    SumConcat(a, b);
    TimesCount(a);
    TimesCount(b);
    TimesCount(a + b);
  }

  lemma TimesCount(s: seq<real>)
    requires s != []
    ensures Reduce(Mean, s) * |s| as real == SumOf(s)
  {
    hide SumOf;
    var n := |s| as real;
    assert SumOf(s) / n * n == SumOf(s);
  }

  // Every aggregate except the sum lies between the smallest and the greatest sample.
  lemma AggregateInRange(agg: Aggregation, s: seq<real>)
    requires s != [] && agg != Sum
    ensures MinOf(s) <= Reduce(agg, s) <= MaxOf(s)
  {
    hide MinOf, MaxOf, SumOf, Reduce;
    MinMeaning(s);
    MaxMeaning(s);
    if agg == Mean {
      MeanInRange(s, MinOf(s), MaxOf(s));
    } else {
      Picked(agg, s);
    }
  }

  lemma Picked(agg: Aggregation, s: seq<real>)
    requires s != []
    ensures agg == Max ==> Reduce(agg, s) == MaxOf(s)
    ensures agg == Min ==> Reduce(agg, s) == MinOf(s)
    ensures agg == Last ==> Reduce(agg, s) == s[|s| - 1]
  {
    hide MinOf, MaxOf;
  }

  lemma MeanInRange(s: seq<real>, low: real, high: real)
    requires s != [] && forall i :: 0 <= i < |s| ==> low <= s[i] <= high
    ensures low <= Reduce(Mean, s) <= high
  {
    hide SumOf;
    SumBounds(s, low, high);
    DivideBounds(SumOf(s), |s| as real, low, high);
  }

  lemma DivideBounds(x: real, n: real, low: real, high: real)
    requires n > 0.0 && n * low <= x <= n * high
    ensures low <= x / n <= high
  {
    assert x == n * (x / n);
  }

  function Values(g: Group): (s: seq<real>)
    ensures |s| == |g|
  {
    seq(|g|, i requires 0 <= i < |g| => g[i].m.value)
  }

  // Counters are never averaged.
  function AggFor(cfg: Config, name: string): Aggregation {
    if name in cfg.counters then Last else cfg.agg
  }

  // What is emitted for a group: its window, the identity of its first sample, one value.
  function Summary(cfg: Config, g: Group): Measurement
    requires cfg.window > 0 && g != []
  {
    Measurement(WindowOf(g[0], cfg.window), g[0].m.name, Reduce(AggFor(cfg, g[0].m.name), Values(g)),
      g[0].m.unit, g[0].m.tags)
  }

  // What a group is emitted as, without naming the aggregation that was picked: a counter keeps its last
  // sample, and any other series has the configured aggregate, which is determined by these laws.
  lemma SummaryLaws(cfg: Config, g: Group)
    requires cfg.window > 0 && g != []
    ensures var e := Summary(cfg, g);
      && e.name == g[0].m.name && e.unit == g[0].m.unit && e.tags == g[0].m.tags
      && e.timestamp % cfg.window == 0
      && (g[0].m.timestamp != 0 ==> e.timestamp <= g[0].m.timestamp < e.timestamp + cfg.window)
      && (g[0].m.timestamp == 0 ==> e.timestamp <= g[0].now < e.timestamp + cfg.window)
      && (e.name in cfg.counters || cfg.agg == Last ==> e.value == g[|g| - 1].m.value)
      && (|g| == 1 ==> e.value == g[0].m.value)
      && (e.name !in cfg.counters && cfg.agg == Max ==>
        (exists i :: 0 <= i < |g| && e.value == g[i].m.value) && forall i :: 0 <= i < |g| ==> g[i].m.value <= e.value)
      && (e.name !in cfg.counters && cfg.agg == Min ==>
        (exists i :: 0 <= i < |g| && e.value == g[i].m.value) && forall i :: 0 <= i < |g| ==> e.value <= g[i].m.value)
  {
    hide Reduce, Truncate, MaxOf, MinOf;
    TruncateIsMultiple(TimeOf(g[0]), cfg.window);
    Picked(Last, Values(g));
    Picked(Max, Values(g));
    Picked(Min, Values(g));
    MaxMeaning(Values(g));
    MinMeaning(Values(g));
    forall i | 0 <= i < |g|
      ensures MinOf(Values(g)) <= g[i].m.value <= MaxOf(Values(g))
    {
      assert Values(g)[i] == g[i].m.value;
    }
    if |g| == 1 {
      OneSample(AggFor(cfg, g[0].m.name), g[0].m.value);
      assert Values(g) == [g[0].m.value];
    }
  }

  // Two groups of a series that is no counter, put together.
  lemma SummaryOfTwo(cfg: Config, g: Group, h: Group)
    requires cfg.window > 0 && g != [] && h != [] && g[0].m.name == h[0].m.name && g[0].m.name !in cfg.counters
    ensures cfg.agg == Sum ==> Summary(cfg, g + h).value == Summary(cfg, g).value + Summary(cfg, h).value
    ensures cfg.agg == Mean ==>
      var (x, y) := (Summary(cfg, g).value, Summary(cfg, h).value);
      Summary(cfg, g + h).value * |g + h| as real == x * |g| as real + y * |h| as real
  {
    hide Reduce, WindowOf;
    TwoGroups(Values(g), Values(h));
    assert Values(g + h) == Values(g) + Values(h);
  }

  function Summaries(cfg: Config, gs: seq<Group>): (ms: seq<Measurement>)
    requires cfg.window > 0 && forall i :: 0 <= i < |gs| ==> gs[i] != []
    ensures |ms| == |gs| && forall i :: 0 <= i < |gs| ==> ms[i] == Summary(cfg, gs[i])
  {
    seq(|gs|, i requires 0 <= i < |gs| => Summary(cfg, gs[i]))
  }

  // Batch reference ------------------------------------------------------------------------------

  // The samples of one series.
  ghost function Select(as_: seq<Arrival>, key: string): seq<Arrival> {
    if as_ == [] then []
    else Select(as_[..|as_| - 1], key) + if KeyOf(as_[|as_| - 1]) == key then [as_[|as_| - 1]] else []
  }

  // gs cuts as_ into maximal runs of samples of the same window.
  ghost predicate IsGrouping(gs: seq<Group>, as_: seq<Arrival>, w: int)
    requires w > 0
  {
    && Flatten(gs) == as_
    && (forall i :: 0 <= i < |gs| ==> OneWindow(gs[i], w))
    && (forall i, j :: 0 <= i && j == i + 1 && j < |gs| ==> Differ(gs[i], gs[j], w))
  }

  predicate OneWindow(g: Group, w: int)
    requires w > 0
  {
    g != [] && forall i :: 0 <= i < |g| ==> WindowOf(g[i], w) == WindowOf(g[0], w)
  }

  predicate Differ(g: Group, h: Group, w: int)
    requires w > 0
  {
    g != [] && h != [] && WindowOf(g[0], w) != WindowOf(h[0], w)
  }

  // The only such cut.
  function Groups(as_: seq<Arrival>, w: int): (gs: seq<Group>)
    requires w > 0
    ensures (gs == [] <==> as_ == []) && forall i :: 0 <= i < |gs| ==> gs[i] != []
  {
    if as_ == [] then []
    else
      var a := as_[|as_| - 1];
      var gs := Groups(as_[..|as_| - 1], w);
      if gs != [] && WindowOf(gs[|gs| - 1][0], w) == WindowOf(a, w)
      then gs[..|gs| - 1] + [gs[|gs| - 1] + [a]]
      else gs + [[a]]
  }

  lemma {:induction false} GroupsAreGrouping(as_: seq<Arrival>, w: int)
    requires w > 0
    ensures IsGrouping(Groups(as_, w), as_, w)
  {
    hide WindowOf, IsGrouping;
    if as_ == [] {
      NoGrouping(w);
    } else {
      var a, init := as_[|as_| - 1], as_[..|as_| - 1];
      var gs := Groups(init, w);
      GroupsAreGrouping(init, w);
      assert as_ == init + [a];
      if gs != [] && WindowOf(gs[|gs| - 1][0], w) == WindowOf(a, w) {
        GroupGrows(gs, init, a, w);
      } else {
        GroupAdded(gs, init, a, w);
      }
    }
  }

  lemma NoGrouping(w: int)
    requires w > 0
    ensures IsGrouping([], [], w)
  {
  }

  lemma GroupGrows(gs: seq<Group>, init: seq<Arrival>, a: Arrival, w: int)
    requires w > 0 && IsGrouping(gs, init, w) && gs != [] && gs[|gs| - 1] != []
    requires WindowOf(gs[|gs| - 1][0], w) == WindowOf(a, w)
    ensures IsGrouping(gs[..|gs| - 1] + [gs[|gs| - 1] + [a]], init + [a], w)
  {
    hide WindowOf, Flatten;
    var front, last := gs[..|gs| - 1], gs[|gs| - 1];
    assert gs == front + [last];
    FlattenConcat(front, [last]);
    FlattenConcat(front, [last + [a]]);
    FlattenOne(last);
    FlattenOne(last + [a]);
    assert Flatten(front) + (last + [a]) == Flatten(front) + last + [a];
    assert OneWindow(last, w);
    assert OneWindow(last + [a], w) && (last + [a])[0] == last[0];
  }

  lemma GroupAdded(gs: seq<Group>, init: seq<Arrival>, a: Arrival, w: int)
    requires w > 0 && IsGrouping(gs, init, w)
    requires forall i :: 0 <= i < |gs| ==> gs[i] != []
    requires gs != [] ==> WindowOf(gs[|gs| - 1][0], w) != WindowOf(a, w)
    ensures IsGrouping(gs + [[a]], init + [a], w)
  {
    hide WindowOf, Flatten;
    FlattenConcat(gs, [[a]]);
    FlattenOne([a]);
    assert OneWindow([a], w);
  }

  lemma FlattenOne<T>(x: seq<T>)
    ensures Flatten([x]) == x
  {
    assert [x][1..] == [];
  }

  // The cut is determined by the three conditions.
  lemma InFirstGroup(gs: seq<Group>, as_: seq<Arrival>, w: int, n: nat)
    requires w > 0 && IsGrouping(gs, as_, w) && gs != [] && n < |gs[0]|
    ensures n < |as_| && WindowOf(as_[n], w) == WindowOf(as_[0], w)
  {
    hide WindowOf, Flatten;
    FlattenFirst(gs);
    assert OneWindow(gs[0], w);
  }

  lemma AfterFirstGroup(gs: seq<Group>, as_: seq<Arrival>, w: int)
    requires w > 0 && IsGrouping(gs, as_, w) && gs != []
    ensures |gs| == 1 ==> |as_| == |gs[0]|
    ensures |gs| > 1 ==> |gs[0]| < |as_| && WindowOf(as_[|gs[0]|], w) != WindowOf(as_[0], w)
  {
    hide WindowOf, Flatten;
    FlattenFirst(gs);
    assert OneWindow(gs[0], w);
    FlattenNil<Arrival>();
    if |gs| > 1 {
      FlattenFirst(gs[1..]);
      assert Differ(gs[0], gs[1], w);
      assert as_[|gs[0]|] == gs[1][0] && as_[0] == gs[0][0];
    } else {
      assert gs[1..] == [];
    }
  }

  lemma NotShorter(gs: seq<Group>, hs: seq<Group>, as_: seq<Arrival>, w: int)
    requires w > 0 && IsGrouping(gs, as_, w) && IsGrouping(hs, as_, w) && gs != [] && hs != []
    ensures |gs[0]| >= |hs[0]|
  {
    hide *;
    AfterFirstGroup(gs, as_, w);
    if |gs[0]| < |hs[0]| {
      InFirstGroup(hs, as_, w, |gs[0]|);
    }
  }

  lemma FlattenFirst<T>(gs: seq<seq<T>>)
    requires gs != []
    ensures Flatten(gs) == gs[0] + Flatten(gs[1..])
  {
  }

  lemma {:induction false} GroupingUnique(gs: seq<Group>, hs: seq<Group>, as_: seq<Arrival>, w: int)
    requires w > 0 && IsGrouping(gs, as_, w) && IsGrouping(hs, as_, w)
    ensures gs == hs
    decreases |gs|
  {
    hide WindowOf, Flatten, IsGrouping;
    EmptyGrouping(gs, as_, w);
    EmptyGrouping(hs, as_, w);
    if gs != [] {
      NotShorter(gs, hs, as_, w);
      NotShorter(hs, gs, as_, w);
      RestGrouping(gs, as_, w);
      RestGrouping(hs, as_, w);
      assert gs[0] == as_[..|gs[0]|] == hs[0];
      GroupingUnique(gs[1..], hs[1..], as_[|gs[0]|..], w);
      assert gs == [gs[0]] + gs[1..] && hs == [hs[0]] + hs[1..];
    }
  }

  lemma EmptyGrouping(gs: seq<Group>, as_: seq<Arrival>, w: int)
    requires w > 0 && IsGrouping(gs, as_, w)
    ensures gs == [] <==> as_ == []
  {
    if gs != [] {
      assert OneWindow(gs[0], w);
    }
  }

  lemma RestGrouping(gs: seq<Group>, as_: seq<Arrival>, w: int)
    requires w > 0 && IsGrouping(gs, as_, w) && gs != []
    ensures |gs[0]| <= |as_| && gs[0] == as_[..|gs[0]|] && IsGrouping(gs[1..], as_[|gs[0]|..], w)
  {
    hide WindowOf, Flatten;
    FlattenFirst(gs);
    assert forall i :: 0 <= i < |gs[1..]| ==> gs[1..][i] == gs[i + 1];
  }

  // With samples in time order --------------------------------------------------------------------

  predicate InOrder(as_: seq<Arrival>) {
    forall i, j :: 0 <= i < j < |as_| ==> TimeOf(as_[i]) <= TimeOf(as_[j])
  }

  // No sample goes back to an earlier window; inside a window the samples may come in any order.
  predicate Ascending(as_: seq<Arrival>, w: int)
    requires w > 0
  {
    forall i, j :: 0 <= i < j < |as_| ==> WindowOf(as_[i], w) <= WindowOf(as_[j], w)
  }

  lemma TimeOrderAscends(as_: seq<Arrival>, w: int)
    requires w > 0 && InOrder(as_)
    ensures Ascending(as_, w)
  {
    hide Truncate;
    forall i, j | 0 <= i < j < |as_|
      ensures WindowOf(as_[i], w) <= WindowOf(as_[j], w)
    {
      TruncateMonotone(TimeOf(as_[i]), TimeOf(as_[j]), w);
    }
  }

  function InWindow(as_: seq<Arrival>, start: int, w: int): seq<Arrival>
    requires w > 0
  {
    if as_ == [] then []
    else
      InWindow(as_[..|as_| - 1], start, w)
      + if WindowOf(as_[|as_| - 1], w) == start then [as_[|as_| - 1]] else []
  }

  lemma TruncateMonotone(s: int, t: int, w: int)
    requires w > 0 && s <= t
    ensures Truncate(s, w) <= Truncate(t, w)
  {
    var q := s / w - t / w;
    assert Truncate(s, w) == (s / w) * w && Truncate(t, w) == (t / w) * w;
    assert Truncate(s, w) - Truncate(t, w) == q * w;
    MultipleBound(q, w);
  }

  // Starts of the groups, and membership of each sample in the group of its window.
  ghost predicate OnePerWindow(gs: seq<Group>, as_: seq<Arrival>, w: int)
    requires w > 0
  {
    && (forall i :: 0 <= i < |gs| ==> gs[i] != [])
    && (forall i, j :: 0 <= i < j < |gs| ==> WindowOf(gs[i][0], w) < WindowOf(gs[j][0], w))
    && (forall i :: 0 <= i < |gs| ==> gs[i] == InWindow(as_, WindowOf(gs[i][0], w), w))
  }

  lemma {:induction false} NoneInWindow(as_: seq<Arrival>, start: int, w: int)
    requires w > 0 && forall i :: 0 <= i < |as_| ==> WindowOf(as_[i], w) != start
    ensures InWindow(as_, start, w) == []
  {
    if as_ != [] {
      hide WindowOf;
      NoneInWindow(as_[..|as_| - 1], start, w);
    }
  }

  lemma LastGroup(gs: seq<Group>, as_: seq<Arrival>, w: int)
    requires w > 0 && IsGrouping(gs, as_, w) && gs != []
    ensures as_ != [] && WindowOf(as_[|as_| - 1], w) == WindowOf(gs[|gs| - 1][0], w)
  {
    hide WindowOf, Flatten;
    var last := gs[|gs| - 1];
    assert gs == gs[..|gs| - 1] + [last];
    FlattenConcat(gs[..|gs| - 1], [last]);
    FlattenOne(last);
    assert OneWindow(last, w);
    assert as_[|as_| - 1] == last[|last| - 1];
  }

  // There is exactly one group for each window that has samples, in ascending order and with all samples
  // of its window, if and only if no sample goes back to an earlier window. In particular this is so for
  // samples in time order.
  lemma OrderedGroups(as_: seq<Arrival>, w: int)
    requires w > 0
    ensures OnePerWindow(Groups(as_, w), as_, w) <==> Ascending(as_, w)
    ensures forall i :: 0 <= i < |as_| ==> HasWindow(Groups(as_, w), WindowOf(as_[i], w), w)
    ensures InOrder(as_) ==> Ascending(as_, w)
  {
    hide *;
    if InOrder(as_) {
      TimeOrderAscends(as_, w);
    }
    if Ascending(as_, w) {
      AscendingGroups(as_, w);
    }
    GroupsAreGrouping(as_, w);
    if OnePerWindow(Groups(as_, w), as_, w) {
      StartsOf(Groups(as_, w), as_, w);
      GroupsAscend(Groups(as_, w), as_, w);
    }
    WindowsPresent(as_, w);
  }

  // Each group lies in a later window than the one before it.
  ghost predicate StartsAscend(gs: seq<Group>, w: int)
    requires w > 0
  {
    && (forall i :: 0 <= i < |gs| ==> gs[i] != [])
    && (forall i, j :: 0 <= i < j < |gs| ==> WindowOf(gs[i][0], w) < WindowOf(gs[j][0], w))
  }

  lemma StartsOf(gs: seq<Group>, as_: seq<Arrival>, w: int)
    requires w > 0 && OnePerWindow(gs, as_, w)
    ensures StartsAscend(gs, w)
  {
    hide WindowOf, InWindow;
  }

  lemma GroupsAscend(gs: seq<Group>, as_: seq<Arrival>, w: int)
    requires w > 0 && IsGrouping(gs, as_, w) && StartsAscend(gs, w)
    ensures Ascending(as_, w)
  {
    hide WindowOf, Flatten;
    FlattenAscends(gs, w);
  }

  lemma {:induction false} FlattenAscends(gs: seq<Group>, w: int)
    requires w > 0 && StartsAscend(gs, w) && forall i :: 0 <= i < |gs| ==> OneWindow(gs[i], w)
    ensures Ascending(Flatten(gs), w)
    ensures gs != [] ==> forall i :: 0 <= i < |Flatten(gs)| ==> WindowOf(gs[0][0], w) <= WindowOf(Flatten(gs)[i], w)
  {
    hide WindowOf, Flatten;
    FlattenNil<Arrival>();
    if gs != [] {
      var rest := gs[1..];
      FlattenAscends(rest, w);
      FlattenFirst(gs);
      assert rest != [] ==> WindowOf(gs[0][0], w) < WindowOf(rest[0][0], w);
      GroupThenAscending(gs[0], Flatten(rest), w);
    }
  }

  lemma GroupThenAscending(g: Group, more: seq<Arrival>, w: int)
    requires w > 0 && OneWindow(g, w) && Ascending(more, w)
    requires forall i :: 0 <= i < |more| ==> WindowOf(g[0], w) <= WindowOf(more[i], w)
    ensures Ascending(g + more, w)
    ensures forall i :: 0 <= i < |g + more| ==> WindowOf(g[0], w) <= WindowOf((g + more)[i], w)
  {
    hide WindowOf;
  }

  ghost predicate HasWindow(gs: seq<Group>, start: int, w: int)
    requires w > 0
  {
    exists j :: 0 <= j < |gs| && gs[j] != [] && WindowOf(gs[j][0], w) == start
  }

  // Every sample's window is the window of some group.
  lemma {:induction false} WindowsPresent(as_: seq<Arrival>, w: int)
    requires w > 0
    ensures forall i :: 0 <= i < |as_| ==> HasWindow(Groups(as_, w), WindowOf(as_[i], w), w)
  {
    hide WindowOf;
    if as_ != [] {
      var a, init := as_[|as_| - 1], as_[..|as_| - 1];
      var gs := Groups(init, w);
      assert as_ == init + [a];
      WindowsPresent(init, w);
      if gs != [] && WindowOf(gs[|gs| - 1][0], w) == WindowOf(a, w) {
        var hs := gs[..|gs| - 1] + [gs[|gs| - 1] + [a]];
        assert Groups(as_, w) == hs;
        assert forall j :: 0 <= j < |gs| ==> hs[j][0] == gs[j][0];
        assert hs[|gs| - 1][0] == gs[|gs| - 1][0];
        KeepsWindows(gs, hs, init, a, w);
      } else {
        assert Groups(as_, w) == gs + [[a]];
        assert (gs + [[a]])[|gs|][0] == a;
        KeepsWindows(gs, gs + [[a]], init, a, w);
      }
    }
  }

  lemma {:induction false} AscendingGroups(as_: seq<Arrival>, w: int)
    requires w > 0 && Ascending(as_, w)
    ensures OnePerWindow(Groups(as_, w), as_, w)
  {
    hide WindowOf, InWindow, IsGrouping, OnePerWindow;
    if as_ == [] {
      NoWindows(w);
    } else {
      var a, init := as_[|as_| - 1], as_[..|as_| - 1];
      var gs := Groups(init, w);
      assert as_ == init + [a];
      WindowsBelow(init, a, w);
      AscendingGroups(init, w);
      GroupsAreGrouping(init, w);
      if gs != [] {
        LastGroup(gs, init, w);
      }
      if gs != [] && WindowOf(gs[|gs| - 1][0], w) == WindowOf(a, w) {
        WindowGrows(gs, init, a, w);
      } else {
        WindowAdded(gs, init, a, w);
      }
    }
  }

  // A sample that goes back to a window after one of another window: that window comes out twice.
  lemma ReturningSample(a: Arrival, b: Arrival, c: Arrival, w: int)
    requires w > 0 && WindowOf(a, w) == WindowOf(c, w) != WindowOf(b, w)
    ensures Groups([a, b, c], w) == [[a], [b], [c]]
    ensures !OnePerWindow([[a], [b], [c]], [a, b, c], w)
  {
    hide WindowOf, InWindow;
    assert [a, b, c][..2] == [a, b] && [a, b][..1] == [a] && [a][..0] == [];
    assert Groups([a], w) == [[a]];
    assert Groups([a, b], w) == [[a], [b]];
    assert [[a], [b], [c]][0][0] == a && [[a], [b], [c]][2][0] == c;
  }

  lemma NoWindows(w: int)
    requires w > 0
    ensures OnePerWindow([], [], w)
  {
  }

  lemma KeepsWindows(gs: seq<Group>, hs: seq<Group>, init: seq<Arrival>, a: Arrival, w: int)
    requires w > 0 && |gs| <= |hs| && (forall j :: 0 <= j < |hs| ==> hs[j] != [])
    requires forall j :: 0 <= j < |gs| ==> gs[j] != [] && hs[j][0] == gs[j][0]
    requires forall i :: 0 <= i < |init| ==> HasWindow(gs, WindowOf(init[i], w), w)
    requires HasWindow(hs, WindowOf(a, w), w)
    ensures forall i :: 0 <= i < |init + [a]| ==> HasWindow(hs, WindowOf((init + [a])[i], w), w)
  {
    hide WindowOf;
    forall i | 0 <= i < |init + [a]|
      ensures HasWindow(hs, WindowOf((init + [a])[i], w), w)
    {
      if i < |init| {
        assert HasWindow(gs, WindowOf(init[i], w), w);
        var j :| 0 <= j < |gs| && gs[j] != [] && WindowOf(gs[j][0], w) == WindowOf(init[i], w);
        assert WindowOf(hs[j][0], w) == WindowOf((init + [a])[i], w);
      }
    }
  }

  lemma WindowsBelow(init: seq<Arrival>, a: Arrival, w: int)
    requires w > 0 && Ascending(init + [a], w)
    ensures Ascending(init, w)
    ensures forall i :: 0 <= i < |init| ==> WindowOf(init[i], w) <= WindowOf(a, w)
    ensures forall i :: 0 <= i < |init| ==> WindowOf(init[i], w) <= WindowOf(init[|init| - 1], w)
  {
    hide WindowOf;
    var as_ := init + [a];
    assert as_[|init|] == a;
    assert forall i :: 0 <= i < |init| ==> init[i] == as_[i];
  }

  lemma InWindowSnoc(init: seq<Arrival>, a: Arrival, start: int, w: int)
    requires w > 0
    ensures InWindow(init + [a], start, w) == InWindow(init, start, w) + if WindowOf(a, w) == start then [a] else []
  {
    assert (init + [a])[..|init|] == init;
  }

  lemma WindowGrows(gs: seq<Group>, init: seq<Arrival>, a: Arrival, w: int)
    requires w > 0 && OnePerWindow(gs, init, w) && gs != [] && gs[|gs| - 1] != []
    requires WindowOf(gs[|gs| - 1][0], w) == WindowOf(a, w)
    ensures OnePerWindow(gs[..|gs| - 1] + [gs[|gs| - 1] + [a]], init + [a], w)
  {
    hide WindowOf, InWindow;
    var n := |gs| - 1;
    var hs := gs[..n] + [gs[n] + [a]];
    assert forall i :: 0 <= i < |hs| ==> hs[i][0] == gs[i][0];
    forall i | 0 <= i < |hs|
      ensures hs[i] == InWindow(init + [a], WindowOf(hs[i][0], w), w)
    {
      InWindowSnoc(init, a, WindowOf(gs[i][0], w), w);
      assert gs[i] + [] == gs[i];
    }
  }

  lemma WindowAdded(gs: seq<Group>, init: seq<Arrival>, a: Arrival, w: int)
    requires w > 0 && OnePerWindow(gs, init, w)
    requires gs == [] <==> init == []
    requires forall i :: 0 <= i < |init| ==> WindowOf(init[i], w) <= WindowOf(init[|init| - 1], w)
    requires gs != [] ==> gs[|gs| - 1] != [] && WindowOf(gs[|gs| - 1][0], w) < WindowOf(a, w)
    requires gs != [] ==> WindowOf(init[|init| - 1], w) == WindowOf(gs[|gs| - 1][0], w)
    ensures OnePerWindow(gs + [[a]], init + [a], w)
  {
    hide WindowOf, InWindow;
    var hs := gs + [[a]];
    NoneInWindow(init, WindowOf(a, w), w);
    assert forall i :: 0 <= i < |gs| ==> WindowOf(gs[i][0], w) <= WindowOf(gs[|gs| - 1][0], w);
    forall i | 0 <= i < |hs|
      ensures hs[i] == InWindow(init + [a], WindowOf(hs[i][0], w), w)
    {
      InWindowSnoc(init, a, WindowOf(hs[i][0], w), w);
      assert [] + [a] == [a];
      assert i < |gs| ==> gs[i] + [] == gs[i];
    }
  }
}
