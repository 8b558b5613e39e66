// The online aggregator: one buffer for each series, changed as samples arrive.
module Downsampler {
  import opened Prelude
  import opened Downsample
  import SeriesKey

  // The store on the level of groups -------------------------------------------------------------

  type Store = map<string, Group>

  ghost predicate GoodStore(st: Store) {
    forall k :: k in st ==> st[k] != [] && KeyOf(st[k][0]) == k
  }

  // The buffered group that a sample pushes out because it belongs to another window, earlier or later.
  ghost function Evicted(st: Store, a: Arrival, w: int): (gs: seq<Group>)
    requires w > 0 && GoodStore(st)
    ensures forall i :: 0 <= i < |gs| ==> gs[i] != []
  {
    var k := KeyOf(a);
    if k in st && WindowOf(st[k][0], w) != WindowOf(a, w) then [st[k]] else []
  }

  ghost function Stored(st: Store, a: Arrival, w: int): (st': Store)
    requires w > 0 && GoodStore(st)
    ensures GoodStore(st')
  {
    var k := KeyOf(a);
    if k in st && Evicted(st, a, w) == [] then
      assert (st[k] + [a])[0] == st[k][0];
      st[k := st[k] + [a]]
    else
      st[k := [a]]
  }

  // A run without idle flushes: the store and the groups that were pushed out.
  ghost function WriteAll(as_: seq<Arrival>, w: int): (r: (Store, seq<Group>))
    requires w > 0
    ensures GoodStore(r.0) && forall i :: 0 <= i < |r.1| ==> r.1[i] != []
  {
    if as_ == [] then (map[], [])
    else
      var (st, log) := WriteAll(as_[..|as_| - 1], w);
      var a := as_[|as_| - 1];
      (Stored(st, a, w), log + Evicted(st, a, w))
  }

  // The groups of one series.
  ghost function Project(gs: seq<Group>, key: string): (r: seq<Group>)
    requires forall i :: 0 <= i < |gs| ==> gs[i] != []
    ensures forall i :: 0 <= i < |r| ==> r[i] != []
  {
    if gs == [] then []
    else (if KeyOf(gs[0][0]) == key then [gs[0]] else []) + Project(gs[1..], key)
  }

  lemma {:induction false} ProjectConcat(a: seq<Group>, b: seq<Group>, key: string)
    requires forall i :: 0 <= i < |a| ==> a[i] != []
    requires forall i :: 0 <= i < |b| ==> b[i] != []
    ensures Project(a + b, key) == Project(a, key) + Project(b, key)
  {
    hide KeyOf;
    if a == [] {
      assert a + b == b;
    } else {
      ProjectConcat(a[1..], b, key);
      assert (a + b)[1..] == a[1..] + b;
      var x, y, z := if KeyOf(a[0][0]) == key then [a[0]] else [], Project(a[1..], key), Project(b, key);
      assert x + (y + z) == x + y + z;
    }
  }

  lemma ProjectOne(g: Group, key: string)
    requires g != []
    ensures Project([g], key) == if KeyOf(g[0]) == key then [g] else []
    ensures Project([], key) == []
  {
    assert [g][1..] == [];
  }

  ghost function OpenOf(st: Store, key: string): seq<Group> {
    if key in st then [st[key]] else []
  }

  lemma SelectSnoc(as_: seq<Arrival>, a: Arrival, key: string)
    ensures Select(as_ + [a], key) == Select(as_, key) + if KeyOf(a) == key then [a] else []
  {
    assert (as_ + [a])[..|as_|] == as_;
  }

  // A sample joins the last group or starts a new one.
  function Extended(gs: seq<Group>, a: Arrival, w: int): seq<Group>
    requires w > 0
  {
    if gs != [] && gs[|gs| - 1] != [] && WindowOf(gs[|gs| - 1][0], w) == WindowOf(a, w)
    then gs[..|gs| - 1] + [gs[|gs| - 1] + [a]]
    else gs + [[a]]
  }

  lemma GroupsSnoc(as_: seq<Arrival>, a: Arrival, w: int)
    requires w > 0
    ensures var gs := Groups(as_, w);
      Groups(as_ + [a], w) == Extended(gs, a, w)
  {
    assert (as_ + [a])[..|as_|] == as_;
  }

  lemma WriteAllSnoc(as_: seq<Arrival>, a: Arrival, w: int)
    requires w > 0
    ensures var (st, log) := WriteAll(as_, w);
      WriteAll(as_ + [a], w) == (Stored(st, a, w), log + Evicted(st, a, w))
  {
    assert (as_ + [a])[..|as_|] == as_;
  }

  // One sample, for one series.
  lemma WriteStep(st: Store, log: seq<Group>, gs: seq<Group>, a: Arrival, key: string, w: int)
    requires w > 0 && GoodStore(st) && (forall i :: 0 <= i < |log| ==> log[i] != [])
    requires Project(log, key) + OpenOf(st, key) == gs
    requires gs != [] ==> key in st
    ensures var gs' := Project(log + Evicted(st, a, w), key) + OpenOf(Stored(st, a, w), key);
      && (KeyOf(a) != key ==> gs' == gs)
      && (KeyOf(a) == key ==> gs' == Extended(gs, a, w))
  {
    hide KeyOf, WindowOf, Project;
    ProjectConcat(log, Evicted(st, a, w), key);
    ProjectOne([a], key);
    if Evicted(st, a, w) != [] {
      ProjectOne(st[KeyOf(a)], key);
    }
  }

  // Main result. Without idle flushes, whatever series are interleaved, the groups of a key that were
  // pushed out, followed by the one still buffered, are exactly the maximal runs of same-window samples
  // with that key taken alone.
  lemma {:induction false} OnlineIsBatch(as_: seq<Arrival>, key: string, w: int)
    requires w > 0
    ensures var (st, log) := WriteAll(as_, w);
      Project(log, key) + OpenOf(st, key) == Groups(Select(as_, key), w)
    ensures IsGrouping(Groups(Select(as_, key), w), Select(as_, key), w)
    ensures key in WriteAll(as_, w).0 <==> Select(as_, key) != []
    decreases |as_|
  {
    hide *;
    GroupsAreGrouping(Select(as_, key), w);
    if as_ == [] {
      NothingWritten(key, w);
    } else {
      var a, init := as_[|as_| - 1], as_[..|as_| - 1];
      assert as_ == init + [a];
      OnlineIsBatch(init, key, w);
      var (st, log) := WriteAll(init, w);
      WriteAllSnoc(init, a, w);
      SelectSnoc(init, a, key);
      GroupsSnoc(Select(init, key), a, w);
      WriteStep(st, log, Groups(Select(init, key), w), a, key, w);
      StoredKeys(st, a, w);
      if KeyOf(a) != key {
        assert Select(init, key) + [] == Select(init, key);
      }
    }
  }

  lemma NothingWritten(key: string, w: int)
    requires w > 0
    ensures WriteAll([], w) == (map[], []) && Select([], key) == [] && Groups([], w) == []
    ensures Project([], key) + OpenOf(map[], key) == []
  {
  }

  lemma StoredKeys(st: Store, a: Arrival, w: int)
    requires w > 0 && GoodStore(st)
    ensures Stored(st, a, w).Keys == st.Keys + {KeyOf(a)}
  {
  }

  // Measurements of a series, as the inner sink sees them.
  ghost function ProjectMeasurements(ms: seq<Measurement>, key: string): seq<Measurement> {
    if ms == [] then []
    else (if SeriesKey.KeyOf(ms[0].name, ms[0].tags) == key then [ms[0]] else []) + ProjectMeasurements(ms[1..], key)
  }

  // Selecting a series commutes with aggregation: an emission carries its series' own name and tags.
  lemma {:induction false} SummariesOfSeries(cfg: Config, gs: seq<Group>, key: string)
    requires cfg.window > 0 && forall i :: 0 <= i < |gs| ==> gs[i] != []
    ensures ProjectMeasurements(Summaries(cfg, gs), key) == Summaries(cfg, Project(gs, key))
  {
    hide SeriesKey.KeyOf, Reduce, WindowOf, AggFor;
    if gs != [] {
      SummariesOfSeries(cfg, gs[1..], key);
      assert Summaries(cfg, gs)[1..] == Summaries(cfg, gs[1..]);
      var rest := Project(gs[1..], key);
      assert Summaries(cfg, [gs[0]] + rest) == [Summary(cfg, gs[0])] + Summaries(cfg, rest);
    }
  }

  // The object -----------------------------------------------------------------------------------

  datatype WindowBuf = WindowBuf(
    seriesKey: string, name: string, unit: string, tags: map<string, string>, winStart: int,
    samples: seq<real>, lastVal: real, lastTS: int, updated: int)

  // The groups are the buffered ones of the given series, one for each.
  ghost predicate Covers(gs: seq<Group>, st: Store, keys: set<string>) {
    && (forall i :: 0 <= i < |gs| ==> gs[i] != [])
    && keys <= st.Keys
    && forall k :: Project(gs, k) == if k in keys then [st[k]] else []
  }

  lemma CoversNothing(st: Store)
    ensures Covers([], st, {})
  {
  }

  lemma CoversMore(gs: seq<Group>, g: Group, key: string, st: Store, keys: set<string>)
    requires Covers(gs, st, keys) && key !in keys && key in st && st[key] == g
    requires g != [] && KeyOf(g[0]) == key
    ensures Covers(gs + [g], st, keys + {key})
  {
    hide Project, KeyOf;
    forall k
      ensures Project(gs + [g], k) == if k in keys + {key} then [st[k]] else []
    {
      ProjectConcat(gs, [g], k);
      ProjectOne(g, k);
    }
  }

  // The buffer that holds a group.
  function BufOf(key: string, g: Group, w: int): WindowBuf
    requires w > 0 && g != []
  {
    var last := g[|g| - 1];
    WindowBuf(key, g[0].m.name, g[0].m.unit, g[0].m.tags, WindowOf(g[0], w), Values(g), last.m.value, TimeOf(last), last.now)
  }

  // The sample is the last one of the buffer, in whose window it lies: by its own timestamp, or by the clock if
  // it has none.
  predicate Joined(buf: WindowBuf, m: Measurement, now: int, w: int) {
    && (m.timestamp != 0 ==> buf.winStart <= m.timestamp < buf.winStart + w)
    && (m.timestamp == 0 ==> buf.winStart <= now < buf.winStart + w)
    && buf.samples != [] && buf.samples[|buf.samples| - 1] == m.value && buf.lastVal == m.value && buf.updated == now
  }

  lemma JoinedBuf(key: string, g: Group, m: Measurement, now: int, w: int)
    requires w > 0 && g != [] && g[|g| - 1] == Arrival(m, now) && WindowOf(g[0], w) == WindowOf(Arrival(m, now), w)
    ensures Joined(BufOf(key, g, w), m, now, w)
  {
    hide Truncate;
  }

  class Downsampler {
    const cfg: Config
    var bufs: map<string, WindowBuf>
    // what the inner sink was handed
    var emitted: seq<Measurement>
    // the samples behind the buffers, and behind what was emitted
    ghost var store: Store
    ghost var log: seq<Group>

    ghost predicate Valid()
      reads this
    {
      && cfg.window > 0
      && GoodStore(store)
      && bufs.Keys == store.Keys
      && (forall k :: k in store ==> bufs[k] == BufOf(k, store[k], cfg.window))
      && (forall i :: 0 <= i < |log| ==> log[i] != [])
      && emitted == Summaries(cfg, log)
    }

    constructor (cfg: Config)
      requires cfg.window > 0
      ensures Valid() && this.cfg == cfg && store == map[] && log == [] && emitted == []
    {
      this.cfg := cfg;
      bufs, emitted := map[], [];
      store, log := map[], [];
    }

    // The aggregate of a buffer; a buffer without samples gives none.
    method FinishLocked(buf: WindowBuf) returns (r: Option<Measurement>)
      requires buf.samples != [] ==> buf.lastVal == buf.samples[|buf.samples| - 1]
      ensures r == if buf.samples == [] then None else
        Some(Measurement(buf.winStart, buf.name, Reduce(AggFor(cfg, buf.name), buf.samples), buf.unit, buf.tags))
      ensures r.Some? ==>
        && (buf.name in cfg.counters || cfg.agg == Last ==> r.value.value == buf.samples[|buf.samples| - 1])
        && (buf.name !in cfg.counters && cfg.agg == Sum ==> r.value.value == SumOf(buf.samples))
        && (buf.name !in cfg.counters && cfg.agg == Mean ==> r.value.value == SumOf(buf.samples) / |buf.samples| as real)
        && (buf.name !in cfg.counters && cfg.agg == Max ==> r.value.value == MaxOf(buf.samples))
        && (buf.name !in cfg.counters && cfg.agg == Min ==> r.value.value == MinOf(buf.samples))
    {
      var s := buf.samples;
      if |s| == 0 {
        return None;
      }
      var agg := if buf.name in cfg.counters then Last else cfg.agg;
      var value := 0.0;
      match agg {
        case Mean =>
          var sum := Total(s);
          value := sum / |s| as real;
        case Max =>
          value := s[0];
          for i := 1 to |s|
            invariant value == MaxOf(s[..i])
          {
            assert s[..i + 1][..i] == s[..i];
            if s[i] > value {
              value := s[i];
            }
          }
          assert s[..|s|] == s;
        case Min =>
          value := s[0];
          for i := 1 to |s|
            invariant value == MinOf(s[..i])
          {
            assert s[..i + 1][..i] == s[..i];
            if s[i] < value {
              value := s[i];
            }
          }
          assert s[..|s|] == s;
        case Sum =>
          value := Total(s);
        case Last =>
          value := buf.lastVal;
      }
      return Some(Measurement(buf.winStart, buf.name, value, buf.unit, buf.tags));
    }

    static method Total(s: seq<real>) returns (sum: real)
      ensures sum == SumOf(s)
    {
      sum := 0.0;
      for i := 0 to |s|
        invariant sum == SumOf(s[..i])
      {
        assert s[..i + 1][..i] == s[..i];
        sum := sum + s[i];
      }
      assert s[..|s|] == s;
    }

    // Hands the aggregate of the buffer of a group to the inner sink.
    method Emit(buf: WindowBuf, ghost key: string, ghost g: Group)
      requires Valid() && g != [] && buf == BufOf(key, g, cfg.window)
      modifies this`emitted, this`log
      ensures Valid() && log == old(log) + [g]
    {
      var r := FinishLocked(buf);
      match r
      case None =>
      case Some(m) =>
        emitted := emitted + [m];
        log := log + [g];
    }

    lemma StoreFacts(key: string)
      requires Valid()
      ensures key in store ==> store[key] != [] && KeyOf(store[key][0]) == key
      ensures key in store ==> bufs[key].winStart == WindowOf(store[key][0], cfg.window)
    {
    }

    lemma StoreKeys()
      requires Valid()
      ensures cfg.window > 0 && GoodStore(store) && bufs.Keys == store.Keys
    {
    }

    lemma BufsAre()
      requires Valid()
      ensures cfg.window > 0 && bufs.Keys == store.Keys
      ensures forall k :: k in store ==> store[k] != [] && bufs[k] == BufOf(k, store[k], cfg.window)
    {
      hide BufOf, KeyOf;
    }

    // Removes the buffer of a series and hands its aggregate on.
    method Evict(key: string)
      requires Valid() && key in bufs
      modifies this
      ensures Valid() && store == old(store) - {key} && log == old(log) + [old(store)[key]]
    {
      hide BufOf, Summaries, KeyOf;
      var buf := bufs[key];
      ghost var g := store[key];
      bufs := bufs - {key};
      store := store - {key};
      Emit(buf, key, g);
    }

    method Append(key: string, m: Measurement, time: int, now: int)
      requires Valid() && key in bufs && time == TimeOf(Arrival(m, now))
      modifies this`bufs, this`store
      ensures Valid() && store == old(store)[key := old(store)[key] + [Arrival(m, now)]]
    {
      hide Reduce, Summaries, KeyOf, Truncate, Values;
      ghost var g := store[key];
      ValuesSnoc(g, Arrival(m, now));
      assert (g + [Arrival(m, now)])[0] == g[0];
      var buf := bufs[key];
      bufs := bufs[key := buf.(samples := buf.samples + [m.value], lastVal := m.value, lastTS := time, updated := now)];
      store := store[key := g + [Arrival(m, now)]];
    }

    method Start(key: string, m: Measurement, time: int, now: int)
      requires Valid() && key == KeyOf(Arrival(m, now)) && time == TimeOf(Arrival(m, now))
      modifies this`bufs, this`store
      ensures Valid() && store == old(store)[key := [Arrival(m, now)]]
    {
      hide Reduce, Summaries, KeyOf, Truncate, Values;
      ValuesOne(Arrival(m, now));
      bufs := bufs[key := WindowBuf(
        key, m.name, m.unit, m.tags, Truncate(time, cfg.window), [m.value], m.value, time, now)];
      store := store[key := [Arrival(m, now)]];
    }

    // One writer, no flush in between: pushes out the buffer of another window, then records the sample.
    method Write(m: Measurement, now: int)
      requires Valid()
      modifies this
      ensures Valid()
      ensures store == Stored(old(store), Arrival(m, now), cfg.window)
      ensures log == old(log) + Evicted(old(store), Arrival(m, now), cfg.window)
      ensures var key := SeriesKey.KeyOf(m.name, m.tags);
        && key in bufs && Joined(bufs[key], m, now, cfg.window)
        && forall k :: k != key ==> (k in bufs <==> k in old(bufs)) && (k in bufs ==> bufs[k] == old(bufs)[k])
    {
      hide Valid, GoodStore, BufOf, SeriesKey.KeyOf, Truncate, Joined;
      BufsAre();
      var time := if m.timestamp == 0 then now else m.timestamp;
      StoreFacts(KeyOf(Arrival(m, now)));
      StoreKeys();
      var winStart := Truncate(time, cfg.window);
      var key := SeriesKey.SeriesKeyOf(m.name, m.tags);
      if key in bufs && bufs[key].winStart != winStart {
        Evict(key);
        Start(key, m, time, now);
      } else if key in bufs {
        Append(key, m, time, now);
      } else {
        Start(key, m, time, now);
      }
      BufsAre();
      JoinedBuf(key, store[key], m, now, cfg.window);
    }

    // The background flush: buffers that got no sample for one and a half windows are emitted and dropped.
    method FlushIdle(now: int)
      requires Valid()
      modifies this
      ensures Valid() && old(log) <= log
      ensures store.Keys == set k | k in old(store) && old(bufs)[k].updated >= now - cfg.window - cfg.window / 2
      ensures forall k :: k in store ==> store[k] == old(store)[k]
      ensures Covers(log[|old(log)|..], old(store), old(store.Keys) - store.Keys)
    {
      hide Covers, GoodStore, Valid, KeyOf, BufOf, Summaries;
      StoreKeys();
      var cutoff := now - cfg.window - cfg.window / 2;
      var idle := set k | k in bufs && bufs[k].updated < cutoff;
      FlushAll(idle);
      assert old(store.Keys) - store.Keys == idle;
    }

    // Emits every buffer, in any order, and leaves none.
    method Close()
      requires Valid()
      modifies this
      ensures Valid() && store == map[] && old(log) <= log
      ensures Covers(log[|old(log)|..], old(store), old(store.Keys))
    {
      FlushAll(bufs.Keys);
      assert store.Keys == {};
    }

    method FlushAll(keys: set<string>)
      requires Valid() && keys <= bufs.Keys
      modifies this
      ensures Valid() && old(log) <= log
      ensures store == old(store) - keys
      ensures Covers(log[|old(log)|..], old(store), keys)
    {
      hide Covers, BufOf, KeyOf, Summaries, Valid, GoodStore;
      StoreKeys();
      var todo := keys;
      ghost var done: seq<Group> := [];
      CoversNothing(store);
      assert keys - todo == {};
      while todo != {}
        invariant Valid() && todo <= keys && todo <= bufs.Keys
        invariant store == old(store) - (keys - todo)
        invariant log == old(log) + done && Covers(done, old(store), keys - todo)
        decreases todo
      {
        var key :| key in todo;
        ghost var g, before := store[key], keys - todo;
        StoreFacts(key);
        assert old(store)[key] == g;
        Evict(key);
        CoversMore(done, g, key, old(store), before);
        done := done + [g];
        todo := todo - {key};
        assert keys - todo == before + {key};
        assert old(store) - before - {key} == old(store) - (before + {key});
        StoreKeys();
      }
      assert log[|old(log)|..] == done;
      assert keys - todo == keys;
    }
  }

  // Whole runs -----------------------------------------------------------------------------------

  // What the inner sink receives under one key over a run that ends with Close: one aggregate for each
  // maximal run of same-window samples with that key, in order.
  lemma KeyOutput(as_: seq<Arrival>, closing: seq<Group>, key: string, cfg: Config)
    requires cfg.window > 0 && Covers(closing, WriteAll(as_, cfg.window).0, WriteAll(as_, cfg.window).0.Keys)
    ensures forall i :: 0 <= i < |closing| ==> closing[i] != []
    ensures ProjectMeasurements(Summaries(cfg, WriteAll(as_, cfg.window).1 + closing), key)
      == Summaries(cfg, Groups(Select(as_, key), cfg.window))
  {
    hide WriteAll, Project, Select, Groups, ProjectMeasurements, Summaries, IsGrouping;
    var (st, log) := WriteAll(as_, cfg.window);
    SummariesOfSeries(cfg, log + closing, key);
    ProjectConcat(log, closing, key);
    OnlineIsBatch(as_, key, cfg.window);
    assert Project(closing, key) == OpenOf(st, key);
  }

  predicate AllClean(as_: seq<Arrival>) {
    forall i :: 0 <= i < |as_| ==> SeriesKey.Clean(as_[i].m.name, as_[i].m.tags)
  }

  // The samples of one series: those with its name and its tags.
  function SeriesOf(as_: seq<Arrival>, name: string, tags: map<string, string>): seq<Arrival> {
    if as_ == [] then []
    else
      var a := as_[|as_| - 1];
      SeriesOf(as_[..|as_| - 1], name, tags) + if a.m.name == name && a.m.tags == tags then [a] else []
  }

  // The measurements of one series.
  function EmissionsOf(ms: seq<Measurement>, name: string, tags: map<string, string>): seq<Measurement> {
    if ms == [] then []
    else (if ms[0].name == name && ms[0].tags == tags then [ms[0]] else []) + EmissionsOf(ms[1..], name, tags)
  }

  // Among clean samples the key picks out exactly one series.
  lemma {:induction false} KeySelectsSeries(as_: seq<Arrival>, name: string, tags: map<string, string>)
    requires AllClean(as_) && SeriesKey.Clean(name, tags)
    ensures Select(as_, SeriesKey.KeyOf(name, tags)) == SeriesOf(as_, name, tags)
  {
    hide SeriesKey.KeyOf, SeriesKey.Clean;
    if as_ != [] {
      var a := as_[|as_| - 1];
      KeySelectsSeries(as_[..|as_| - 1], name, tags);
      if KeyOf(a) == SeriesKey.KeyOf(name, tags) {
        SeriesKey.KeysIdentifySeries(a.m.name, a.m.tags, name, tags);
      }
    }
  }

  lemma {:induction false} KeySelectsEmissions(ms: seq<Measurement>, name: string, tags: map<string, string>)
    requires SeriesKey.Clean(name, tags) && forall i :: 0 <= i < |ms| ==> SeriesKey.Clean(ms[i].name, ms[i].tags)
    ensures ProjectMeasurements(ms, SeriesKey.KeyOf(name, tags)) == EmissionsOf(ms, name, tags)
    ensures forall m :: m in EmissionsOf(ms, name, tags) ==> m.name == name && m.tags == tags
  {
    hide SeriesKey.KeyOf, SeriesKey.Clean;
    if ms != [] {
      KeySelectsEmissions(ms[1..], name, tags);
      if SeriesKey.KeyOf(ms[0].name, ms[0].tags) == SeriesKey.KeyOf(name, tags) {
        SeriesKey.KeysIdentifySeries(ms[0].name, ms[0].tags, name, tags);
      }
    }
  }

  // Groups of clean samples.
  predicate CleanGroup(g: Group) {
    g != [] && SeriesKey.Clean(g[0].m.name, g[0].m.tags)
  }

  lemma {:induction false} WrittenClean(as_: seq<Arrival>, w: int)
    requires w > 0 && AllClean(as_)
    ensures var (st, log) := WriteAll(as_, w);
      (forall k :: k in st ==> CleanGroup(st[k])) && forall i :: 0 <= i < |log| ==> CleanGroup(log[i])
  {
    hide KeyOf, WindowOf, SeriesKey.Clean, WriteAll;
    if as_ == [] {
      NothingWritten("", w);
    } else {
      var a, init := as_[|as_| - 1], as_[..|as_| - 1];
      assert as_ == init + [a];
      WrittenClean(init, w);
      WriteAllSnoc(init, a, w);
      StoredClean(WriteAll(init, w).0, a, w);
    }
  }

  lemma StoredClean(st: Store, a: Arrival, w: int)
    requires w > 0 && GoodStore(st) && SeriesKey.Clean(a.m.name, a.m.tags)
    requires forall k :: k in st ==> CleanGroup(st[k])
    ensures forall k :: k in Stored(st, a, w) ==> CleanGroup(Stored(st, a, w)[k])
    ensures forall i :: 0 <= i < |Evicted(st, a, w)| ==> CleanGroup(Evicted(st, a, w)[i])
  {
    hide KeyOf, WindowOf, SeriesKey.Clean;
  }

  lemma {:induction false} ProjectHas(gs: seq<Group>, i: nat)
    requires (forall j :: 0 <= j < |gs| ==> gs[j] != []) && i < |gs|
    ensures gs[i] in Project(gs, KeyOf(gs[i][0]))
  {
    hide KeyOf;
    if i > 0 {
      ProjectHas(gs[1..], i - 1);
      assert gs[1..][i - 1] == gs[i];
    }
  }

  lemma ClosingClean(closing: seq<Group>, st: Store)
    requires Covers(closing, st, st.Keys) && forall k :: k in st ==> CleanGroup(st[k])
    ensures forall i :: 0 <= i < |closing| ==> CleanGroup(closing[i])
  {
    hide KeyOf, CleanGroup, Project;
    forall i | 0 <= i < |closing|
      ensures CleanGroup(closing[i])
    {
      ProjectHas(closing, i);
    }
  }

  // Main result. What the inner sink receives for one series over a whole run that ends with Close: one
  // aggregate for each maximal run of same-window samples of that series alone, in order, and every
  // one under the name and the tags of the series.
  lemma RunOutput(as_: seq<Arrival>, closing: seq<Group>, name: string, tags: map<string, string>, cfg: Config)
    requires cfg.window > 0 && Covers(closing, WriteAll(as_, cfg.window).0, WriteAll(as_, cfg.window).0.Keys)
    requires AllClean(as_) && SeriesKey.Clean(name, tags)
    ensures forall i :: 0 <= i < |closing| ==> closing[i] != []
    ensures var ms := EmissionsOf(Summaries(cfg, WriteAll(as_, cfg.window).1 + closing), name, tags);
      && ms == Summaries(cfg, Groups(SeriesOf(as_, name, tags), cfg.window))
      && (forall m :: m in ms ==> m.name == name && m.tags == tags)
  {
    hide *;
    var (st, log) := WriteAll(as_, cfg.window);
    KeyOutput(as_, closing, SeriesKey.KeyOf(name, tags), cfg);
    KeySelectsSeries(as_, name, tags);
    WrittenClean(as_, cfg.window);
    ClosingClean(closing, st);
    CleanSummaries(cfg, log + closing);
    KeySelectsEmissions(Summaries(cfg, log + closing), name, tags);
  }

  lemma CleanSummaries(cfg: Config, gs: seq<Group>)
    requires cfg.window > 0 && forall i :: 0 <= i < |gs| ==> CleanGroup(gs[i])
    ensures forall i :: 0 <= i < |gs| ==> gs[i] != []
    ensures var ms := Summaries(cfg, gs); forall i :: 0 <= i < |ms| ==> SeriesKey.Clean(ms[i].name, ms[i].tags)
  {
    hide SeriesKey.Clean, WindowOf, Reduce, AggFor;
  }

  // Main result, on the emissions of one series over a whole run that ends with Close. They are at
  // multiples of the window, and every sample of the series has one for the window its own timestamp lies
  // in. They are at strictly increasing times if and only if no sample of the series goes back to an
  // earlier window; and then each one is the aggregate of all samples of the series in its window.
  lemma OneEmissionPerWindow(
      as_: seq<Arrival>, closing: seq<Group>, name: string, tags: map<string, string>, cfg: Config)
    requires cfg.window > 0 && Covers(closing, WriteAll(as_, cfg.window).0, WriteAll(as_, cfg.window).0.Keys)
    requires AllClean(as_) && SeriesKey.Clean(name, tags)
    ensures forall i :: 0 <= i < |closing| ==> closing[i] != []
    ensures var ms := EmissionsOf(Summaries(cfg, WriteAll(as_, cfg.window).1 + closing), name, tags);
      var sel := SeriesOf(as_, name, tags);
      && (forall i :: 0 <= i < |ms| ==> ms[i].timestamp % cfg.window == 0)
      && (forall i :: 0 <= i < |sel| ==> HasTime(ms, WindowOf(sel[i], cfg.window)) && EmittedFor(ms, sel[i], cfg.window))
      && (TimesIncrease(ms) <==> Ascending(sel, cfg.window))
      && (TimesIncrease(ms) ==> forall i :: 0 <= i < |ms| ==> Complete(cfg, ms[i], sel))
  {
    hide *;
    RunOutput(as_, closing, name, tags, cfg);
    var sel := SeriesOf(as_, name, tags);
    var gs := Groups(sel, cfg.window);
    GroupsAreGrouping(sel, cfg.window);
    OrderedGroups(sel, cfg.window);
    GroupTimes(cfg, gs);
    forall i | 0 <= i < |sel|
      ensures HasTime(Summaries(cfg, gs), WindowOf(sel[i], cfg.window))
      ensures EmittedFor(Summaries(cfg, gs), sel[i], cfg.window)
    {
      GroupPresent(cfg, gs, WindowOf(sel[i], cfg.window));
      TimeFits(Summaries(cfg, gs), sel[i], cfg.window);
    }
    if TimesIncrease(Summaries(cfg, gs)) {
      GroupsAscend(gs, sel, cfg.window);
      GroupsComplete(cfg, gs, sel);
    }
    if Ascending(sel, cfg.window) {
      StartsOf(gs, sel, cfg.window);
    }
  }

  predicate TimesIncrease(ms: seq<Measurement>) {
    forall i, j :: 0 <= i < j < |ms| ==> ms[i].timestamp < ms[j].timestamp
  }

  predicate HasTime(ms: seq<Measurement>, time: int) {
    exists j :: 0 <= j < |ms| && ms[j].timestamp == time
  }

  // Some measurement stands for the window that the sample's own timestamp lies in, or the clock if it has none.
  predicate EmittedFor(ms: seq<Measurement>, a: Arrival, w: int) {
    exists j :: 0 <= j < |ms| && (
      var t := if a.m.timestamp != 0 then a.m.timestamp else a.now;
      ms[j].timestamp <= t < ms[j].timestamp + w)
  }

  lemma TimeFits(ms: seq<Measurement>, a: Arrival, w: int)
    requires w > 0 && HasTime(ms, WindowOf(a, w))
    ensures EmittedFor(ms, a, w)
  {
    hide Truncate;
    var j :| 0 <= j < |ms| && ms[j].timestamp == WindowOf(a, w);
  }

  lemma SummaryTime(cfg: Config, gs: seq<Group>, i: nat)
    requires cfg.window > 0 && (forall j :: 0 <= j < |gs| ==> gs[j] != []) && i < |gs|
    ensures Summaries(cfg, gs)[i] == Summary(cfg, gs[i])
    ensures Summary(cfg, gs[i]).timestamp == WindowOf(gs[i][0], cfg.window)
  {
    hide WindowOf, Reduce, AggFor;
  }

  lemma GroupTimes(cfg: Config, gs: seq<Group>)
    requires cfg.window > 0 && forall i :: 0 <= i < |gs| ==> gs[i] != []
    ensures forall i :: 0 <= i < |gs| ==> Summaries(cfg, gs)[i].timestamp % cfg.window == 0
    ensures TimesIncrease(Summaries(cfg, gs)) <==> StartsAscend(gs, cfg.window)
  {
    hide WindowOf, Summary;
    forall i | 0 <= i < |gs|
      ensures Summaries(cfg, gs)[i].timestamp == WindowOf(gs[i][0], cfg.window)
      ensures Summaries(cfg, gs)[i].timestamp % cfg.window == 0
    {
      SummaryTime(cfg, gs, i);
      WindowIsMultiple(gs[i][0], cfg.window);
    }
  }

  lemma WindowIsMultiple(a: Arrival, w: int)
    requires w > 0
    ensures WindowOf(a, w) % w == 0
  {
    TruncateIsMultiple(TimeOf(a), w);
  }

  lemma GroupPresent(cfg: Config, gs: seq<Group>, start: int)
    requires cfg.window > 0 && (forall i :: 0 <= i < |gs| ==> gs[i] != []) && HasWindow(gs, start, cfg.window)
    ensures HasTime(Summaries(cfg, gs), start)
  {
    hide WindowOf, Summary;
    var j :| 0 <= j < |gs| && gs[j] != [] && WindowOf(gs[j][0], cfg.window) == start;
    SummaryTime(cfg, gs, j);
    assert Summaries(cfg, gs)[j].timestamp == start;
  }

  // The emission is the aggregate of all samples of its window.
  ghost predicate Complete(cfg: Config, m: Measurement, sel: seq<Arrival>)
    requires cfg.window > 0
  {
    var g := InWindow(sel, m.timestamp, cfg.window);
    g != [] && m == Summary(cfg, g)
  }

  lemma GroupsComplete(cfg: Config, gs: seq<Group>, sel: seq<Arrival>)
    requires cfg.window > 0 && OnePerWindow(gs, sel, cfg.window)
    ensures forall i :: 0 <= i < |gs| ==> gs[i] != []
    ensures forall i :: 0 <= i < |gs| ==> Complete(cfg, Summaries(cfg, gs)[i], sel)
  {
    hide WindowOf, Summary, InWindow;
    forall i | 0 <= i < |gs|
      ensures Complete(cfg, Summaries(cfg, gs)[i], sel)
    {
      SummaryTime(cfg, gs, i);
    }
  }

  lemma ValuesSnoc(g: Group, a: Arrival)
    ensures Values(g + [a]) == Values(g) + [a.m.value]
  {
  }

  lemma ValuesOne(a: Arrival)
    ensures Values([a]) == [a.m.value]
  {
  }
}
