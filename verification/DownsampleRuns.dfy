// Runs of the aggregator with writers, the idle flusher and Close as separate threads. A step is one
// critical section or one hand-over to the inner sink.
module DownsampleRuns {
  import opened Prelude
  import opened Downsample
  import Downsampler

  // A writer may be between the section that removed a buffer and the hand-over of its aggregate, or
  // between that and the section that records its own sample.
  datatype Writer = Idle | Holding(group: Group, arrival: Arrival) | Inserting(arrival: Arrival)

  // store holds the buffered groups, the flusher and Close hold groups they took out, log lists the
  // groups whose aggregate was handed over, written lists the samples in the order of the Write calls.
  datatype State = State(
    window: int, store: map<string, Group>, writers: seq<Writer>, flusher: seq<Group>, closer: seq<Group>,
    log: seq<Group>, written: seq<Arrival>)

  datatype Step =
    | Write(i: nat, a: Arrival) | HandOver(i: nat) | Insert(i: nat)
    | Flush(order: seq<string>) | FlushOver
    | Close(order: seq<string>) | CloseOver

  function Init(window: int, writers: nat): State {
    State(window, map[], seq(writers, i => Idle), [], [], [], [])
  }

  predicate Distinct(keys: seq<string>) {
    forall i, j :: 0 <= i < j < |keys| ==> keys[i] != keys[j]
  }

  ghost predicate Enabled(s: State, step: Step) {
    match step
    case Write(i, _) => i < |s.writers| && s.writers[i].Idle?
    case HandOver(i) => i < |s.writers| && s.writers[i].Holding?
    case Insert(i) => i < |s.writers| && s.writers[i].Inserting?
    // the keys whose buffers were not updated lately, in some order
    case Flush(order) => s.flusher == [] && Distinct(order) && forall k :: k in order ==> k in s.store
    case FlushOver => s.flusher != []
    case Close(order) => s.closer == [] && Distinct(order) && forall k :: k in order <==> k in s.store
    case CloseOver => s.closer != []
  }

  function Taken(store: map<string, Group>, order: seq<string>): seq<Group>
    requires forall k :: k in order ==> k in store
  {
    if order == [] then [] else [store[order[0]]] + Taken(store, order[1..])
  }

  ghost function Do(s: State, step: Step): State
    requires s.window > 0 && Enabled(s, step)
  {
    match step
    case Write(i, a) =>
      var k := KeyOf(a);
      var t := s.(written := s.written + [a]);
      if k in s.store && s.store[k] != [] && WindowOf(s.store[k][0], s.window) != WindowOf(a, s.window) then
        t.(store := s.store - {k}, writers := s.writers[i := Holding(s.store[k], a)])
      else if k in s.store then t.(store := s.store[k := s.store[k] + [a]])
      else t.(store := s.store[k := [a]])
    case HandOver(i) =>
      s.(log := s.log + [s.writers[i].group], writers := s.writers[i := Inserting(s.writers[i].arrival)])
    // always a new buffer, whatever is filed under the key by now
    case Insert(i) =>
      var a := s.writers[i].arrival;
      s.(store := s.store[KeyOf(a) := [a]], writers := s.writers[i := Idle])
    case Flush(order) =>
      s.(flusher := Taken(s.store, order), store := map k | k in s.store && k !in order :: s.store[k])
    case FlushOver => s.(flusher := s.flusher[1..], log := s.log + [s.flusher[0]])
    case Close(order) => s.(closer := Taken(s.store, order), store := map[])
    case CloseOver => s.(closer := s.closer[1..], log := s.log + [s.closer[0]])
  }

  ghost predicate Reaches(s: State, steps: seq<Step>, t: State)
    decreases |steps|
  {
    if steps == [] then s == t
    else s.window > 0 && Enabled(s, steps[0]) && Reaches(Do(s, steps[0]), steps[1..], t)
  }

  // Accounting, sample by sample -------------------------------------------------------------------

  function Count(s: seq<Arrival>, x: Arrival): nat {
    if s == [] then 0 else (if s[0] == x then 1 else 0) + Count(s[1..], x)
  }

  function Occurs(gs: seq<Group>, x: Arrival): nat {
    if gs == [] then 0 else Count(gs[0], x) + Occurs(gs[1..], x)
  }

  function InHand(w: Writer, x: Arrival): nat {
    match w
    case Idle => 0
    case Holding(g, a) => Count(g, x) + if a == x then 1 else 0
    case Inserting(a) => if a == x then 1 else 0
  }

  function AllInHand(ws: seq<Writer>, x: Arrival): nat {
    if ws == [] then 0 else InHand(ws[0], x) + AllInHand(ws[1..], x)
  }

  ghost function Buffered(store: map<string, Group>, x: Arrival): nat {
    if KeyOf(x) in store then Count(store[KeyOf(x)], x) else 0
  }

  // How often a sample is somewhere: buffered, in a writer's, the flusher's or Close's hands, or in an
  // aggregate that was handed over.
  ghost function Accounted(s: State, x: Arrival): nat {
    Buffered(s.store, x) + AllInHand(s.writers, x) + Occurs(s.flusher, x) + Occurs(s.closer, x) + Occurs(s.log, x)
  }

  // Occurrences that a step throws away: those a writer finds under its key when it records its own.
  ghost function Overwritten(s: State, step: Step, x: Arrival): nat
    requires Enabled(s, step)
  {
    if step.Insert? && KeyOf(s.writers[step.i].arrival) == KeyOf(x) then Buffered(s.store, x) else 0
  }

  // A group holds samples of one series.
  ghost predicate Uniform(g: Group, key: string) {
    g != [] && forall i :: 0 <= i < |g| ==> KeyOf(g[i]) == key
  }

  ghost predicate AllUniform(gs: seq<Group>) {
    forall i :: 0 <= i < |gs| ==> gs[i] != [] && Uniform(gs[i], KeyOf(gs[i][0]))
  }

  ghost predicate UniformStore(store: map<string, Group>) {
    forall k :: k in store ==> Uniform(store[k], k)
  }

  ghost predicate GoodWriter(w: Writer) {
    w.Holding? ==> w.group != [] && Uniform(w.group, KeyOf(w.group[0]))
  }

  ghost predicate Good(s: State) {
    && s.window > 0 && UniformStore(s.store)
    && AllUniform(s.flusher) && AllUniform(s.closer) && AllUniform(s.log)
    && forall i :: 0 <= i < |s.writers| ==> GoodWriter(s.writers[i])
  }

  lemma {:induction false} CountConcat(a: seq<Arrival>, b: seq<Arrival>, x: Arrival)
    ensures Count(a + b, x) == Count(a, x) + Count(b, x)
  {
    if a == [] {
      assert a + b == b;
    } else {
      CountConcat(a[1..], b, x);
      assert (a + b)[1..] == a[1..] + b;
    }
  }

  lemma CountOne(a: Arrival, x: Arrival)
    ensures Count([a], x) == if a == x then 1 else 0
  {
    assert [a][1..] == [];
  }

  lemma CountSnoc(s: seq<Arrival>, a: Arrival, x: Arrival)
    ensures Count(s + [a], x) == Count(s, x) + if a == x then 1 else 0
  {
    CountConcat(s, [a], x);
    CountOne(a, x);
  }

  lemma {:induction false} OccursSnoc(gs: seq<Group>, g: Group, x: Arrival)
    ensures Occurs(gs + [g], x) == Occurs(gs, x) + Count(g, x)
  {
    hide Count;
    if gs == [] {
      assert gs + [g] == [g] && [g][1..] == [];
    } else {
      OccursSnoc(gs[1..], g, x);
      assert (gs + [g])[1..] == gs[1..] + [g];
    }
  }

  lemma {:induction false} HandUpdate(ws: seq<Writer>, i: nat, w: Writer, x: Arrival)
    requires i < |ws|
    ensures AllInHand(ws[i := w], x) + InHand(ws[i], x) == AllInHand(ws, x) + InHand(w, x)
  {
    hide InHand;
    if i == 0 {
      assert ws[0 := w][1..] == ws[1..];
    } else {
      HandUpdate(ws[1..], i - 1, w, x);
      assert ws[i := w][1..] == ws[1..][i - 1 := w] && ws[i := w][0] == ws[0];
    }
  }

  // A group of another series does not contain the sample.
  lemma {:induction false} ForeignGroup(g: Group, key: string, x: Arrival)
    requires (forall i :: 0 <= i < |g| ==> KeyOf(g[i]) == key) && KeyOf(x) != key
    ensures Count(g, x) == 0
  {
    hide KeyOf;
    if g != [] {
      ForeignGroup(g[1..], key, x);
    }
  }

  lemma {:induction false} TakenOccurs(store: map<string, Group>, order: seq<string>, x: Arrival)
    requires (forall k :: k in order ==> k in store) && Distinct(order) && UniformStore(store)
    ensures Occurs(Taken(store, order), x) == if KeyOf(x) in order then Buffered(store, x) else 0
    ensures AllUniform(Taken(store, order))
  {
    hide KeyOf, Count;
    if order != [] {
      var rest := order[1..];
      assert Distinct(rest);
      TakenOccurs(store, rest, x);
      assert order == [order[0]] + rest;
      FirstNotLater(order);
      assert Uniform(store[order[0]], order[0]);
      if KeyOf(x) != order[0] {
        ForeignGroup(store[order[0]], order[0], x);
      }
      assert Taken(store, order)[1..] == Taken(store, rest);
    }
  }

  lemma FirstNotLater(order: seq<string>)
    requires order != [] && Distinct(order)
    ensures order[0] !in order[1..]
  {
  }

  // Each step balances: what is accounted for afterwards, with what the step threw away, is what was
  // accounted for before, with what the step brought in.
  lemma WriteBalance(s: State, i: nat, a: Arrival, x: Arrival)
    requires Good(s) && Enabled(s, Write(i, a))
    ensures var t := Do(s, Write(i, a));
      Accounted(t, x) == Accounted(s, x) + if a == x then 1 else 0
  {
    hide KeyOf, WindowOf, Count, Occurs, AllInHand, Uniform;
    var k := KeyOf(a);
    CountOne(a, x);
    if k in s.store {
      var g := s.store[k];
      HandUpdate(s.writers, i, Holding(g, a), x);
      CountSnoc(g, a, x);
      if k != KeyOf(x) {
        StoredIsForeign(s.store, k, x);
      }
    }
  }

  lemma StoredIsForeign(store: map<string, Group>, k: string, x: Arrival)
    requires UniformStore(store) && k in store && KeyOf(x) != k
    ensures Count(store[k], x) == 0
  {
    hide KeyOf, Count;
    assert Uniform(store[k], k);
    ForeignGroup(store[k], k, x);
  }

  lemma WriterBalance(s: State, step: Step, x: Arrival)
    requires Good(s) && Enabled(s, step) && (step.HandOver? || step.Insert?)
    ensures Accounted(Do(s, step), x) + Overwritten(s, step, x) == Accounted(s, x)
  {
    hide KeyOf, Count, Occurs, AllInHand, UniformStore, AllUniform, GoodWriter;
    var t := Do(s, step);
    HandUpdate(s.writers, step.i, t.writers[step.i], x);
    if step.HandOver? {
      OccursSnoc(s.log, s.writers[step.i].group, x);
    } else {
      CountOne(s.writers[step.i].arrival, x);
    }
  }

  lemma ServerBalance(s: State, step: Step, x: Arrival)
    requires Good(s) && Enabled(s, step) && (step.Flush? || step.FlushOver? || step.Close? || step.CloseOver?)
    ensures Accounted(Do(s, step), x) == Accounted(s, x)
  {
    hide KeyOf, Count, AllInHand, Taken, UniformStore, AllUniform;
    match step
    case Flush(order) => TakenOccurs(s.store, order, x);
    case Close(order) => TakenOccurs(s.store, order, x);
    case FlushOver => OccursSnoc(s.log, s.flusher[0], x);
    case CloseOver => OccursSnoc(s.log, s.closer[0], x);
  }

  lemma GoodWrite(s: State, i: nat, a: Arrival)
    requires Good(s) && Enabled(s, Write(i, a))
    ensures Good(Do(s, Write(i, a)))
  {
    hide KeyOf, WindowOf;
    var k := KeyOf(a);
    if k in s.store {
      assert Uniform(s.store[k], k);
      assert Uniform(s.store[k] + [a], k);
    }
    assert Uniform([a], k);
  }

  lemma GoodServer(s: State, step: Step)
    requires Good(s) && Enabled(s, step) && !step.Write?
    ensures Good(Do(s, step))
  {
    hide KeyOf, Taken;
    match step
    case Flush(order) => TakenUniform(s.store, order);
    case Close(order) => TakenUniform(s.store, order);
    case HandOver(i) => assert GoodWriter(s.writers[i]);
    case Insert(i) => assert Uniform([s.writers[i].arrival], KeyOf(s.writers[i].arrival));
    case _ =>
  }

  lemma TakenUniform(store: map<string, Group>, order: seq<string>)
    requires (forall k :: k in order ==> k in store) && Distinct(order) && UniformStore(store)
    ensures AllUniform(Taken(store, order))
  {
    TakenOccurs(store, order, Arrival(Measurement(0, "", 0.0, "", map[]), 0));
  }

  lemma StepBalance(s: State, step: Step, x: Arrival)
    requires Good(s) && Enabled(s, step)
    ensures var t := Do(s, step);
      && Good(t)
      && Accounted(t, x) + Overwritten(s, step, x) + Count(s.written, x) == Accounted(s, x) + Count(t.written, x)
  {
    hide KeyOf, Accounted, Count, WindowOf, Buffered, Taken;
    match step
    case Write(i, a) =>
      GoodWrite(s, i, a);
      WriteBalance(s, i, a, x);
      CountSnoc(s.written, a, x);
    case HandOver(_) => GoodServer(s, step); WriterBalance(s, step, x);
    case Insert(_) => GoodServer(s, step); WriterBalance(s, step, x);
    case _ => GoodServer(s, step); ServerBalance(s, step, x);
  }

  // Occurrences thrown away over a run.
  ghost function ThrownAway(s: State, steps: seq<Step>, x: Arrival): nat
    decreases |steps|
  {
    if steps == [] || s.window <= 0 || !Enabled(s, steps[0]) then 0
    else Overwritten(s, steps[0], x) + ThrownAway(Do(s, steps[0]), steps[1..], x)
  }

  lemma {:induction false} RunBalance(s: State, steps: seq<Step>, t: State, x: Arrival)
    requires Good(s) && Reaches(s, steps, t)
    ensures Good(t)
    ensures Accounted(t, x) + ThrownAway(s, steps, x) + Count(s.written, x) == Accounted(s, x) + Count(t.written, x)
    decreases |steps|
  {
    hide Accounted, Count, Overwritten, Do, Enabled, Good;
    if steps != [] {
      StepBalance(s, steps[0], x);
      RunBalance(Do(s, steps[0]), steps[1..], t, x);
    }
  }

  lemma InitBalance(window: int, writers: nat, x: Arrival)
    requires window > 0
    ensures Good(Init(window, writers)) && Accounted(Init(window, writers), x) == 0
    ensures Init(window, writers).written == [] && Count([], x) == 0
  {
    hide KeyOf;
    NothingInHand(Init(window, writers).writers, x);
  }

  lemma {:induction false} NothingInHand(ws: seq<Writer>, x: Arrival)
    requires forall i :: 0 <= i < |ws| ==> ws[i].Idle?
    ensures AllInHand(ws, x) == 0
  {
    if ws != [] {
      NothingInHand(ws[1..], x);
    }
  }

  // Conservation for any number of writers: every occurrence of a sample that was written is somewhere,
  // exactly when the run never recorded a sample over a buffer, made by another writer, that held it.
  lemma ConservedIff(window: int, writers: nat, steps: seq<Step>, t: State, x: Arrival)
    requires window > 0 && Reaches(Init(window, writers), steps, t)
    ensures Good(t)
    ensures Accounted(t, x) + ThrownAway(Init(window, writers), steps, x) == Count(t.written, x)
    ensures Accounted(t, x) == Count(t.written, x) <==> ThrownAway(Init(window, writers), steps, x) == 0
  {
    hide *;
    InitBalance(window, writers, x);
    RunBalance(Init(window, writers), steps, t, x);
  }

  // One writer ------------------------------------------------------------------------------------

  // While the writer is between its two sections, nothing is filed under its key: only writers file.
  ghost predicate OneWriter(s: State) {
    |s.writers| == 1 && (!s.writers[0].Idle? ==> KeyOf(s.writers[0].arrival) !in s.store)
  }

  lemma OneWriterStep(s: State, step: Step, x: Arrival)
    requires s.window > 0 && OneWriter(s) && Enabled(s, step)
    ensures OneWriter(Do(s, step))
    ensures Overwritten(s, step, x) == 0
  {
    hide KeyOf, WindowOf, Taken, Count;
  }

  lemma {:induction false} OneWriterRun(s: State, steps: seq<Step>, t: State, x: Arrival)
    requires OneWriter(s) && Reaches(s, steps, t)
    ensures OneWriter(t) && ThrownAway(s, steps, x) == 0
    decreases |steps|
  {
    hide OneWriter, Do, Enabled, Overwritten;
    if steps != [] {
      OneWriterStep(s, steps[0], x);
      OneWriterRun(Do(s, steps[0]), steps[1..], t, x);
    }
  }

  // Main result. With one writer, idle flushes at any point and Close, every written sample is in a
  // buffer, in somebody's hands, or in an aggregate that was handed over, as often as it was written.
  lemma Conservation(window: int, steps: seq<Step>, t: State, x: Arrival)
    requires window > 0 && Reaches(Init(window, 1), steps, t)
    ensures Accounted(t, x) == Count(t.written, x)
  {
    hide Reaches, Accounted, Count, ThrownAway, Good;
    ConservedIff(window, 1, steps, t, x);
    OneWriterRun(Init(window, 1), steps, t, x);
  }

  // Nothing buffered and nothing in anybody's hands.
  predicate Drained(s: State) {
    s.store == map[] && s.flusher == [] && s.closer == [] && forall i :: 0 <= i < |s.writers| ==> s.writers[i].Idle?
  }

  // The samples of a series in the aggregates that were handed over.
  ghost function Flat(gs: seq<Group>, key: string): seq<Arrival> {
    if gs == [] then [] else (if gs[0] != [] && KeyOf(gs[0][0]) == key then gs[0] else []) + Flat(gs[1..], key)
  }

  // Sum of the emitted values of a series.
  ghost function EmittedTotal(cfg: Config, gs: seq<Group>, key: string): real
    requires cfg.window > 0
  {
    if gs == [] then 0.0
    else (if gs[0] != [] && KeyOf(gs[0][0]) == key then Summary(cfg, gs[0]).value else 0.0) + EmittedTotal(cfg, gs[1..], key)
  }

  // Once Close and the flusher have handed everything over, the emitted aggregates of a series hold
  // exactly its written samples; under the sum aggregation the emitted total of a series that is no
  // counter is its written total, whatever other series are counters.
  lemma DrainedTotals(cfg: Config, steps: seq<Step>, t: State, key: string)
    requires cfg.window > 0 && Reaches(Init(cfg.window, 1), steps, t) && Drained(t)
    ensures multiset(Flat(t.log, key)) == multiset(Select(t.written, key))
    ensures cfg.agg == Sum && (forall a :: a in Select(t.written, key) ==> a.m.name !in cfg.counters) ==>
      EmittedTotal(cfg, t.log, key) == SumOf(Values(Select(t.written, key)))
  {
    hide *;
    forall x
      ensures multiset(Flat(t.log, key))[x] == multiset(Select(t.written, key))[x]
    {
      ConservedIff(cfg.window, 1, steps, t, x);
      Conservation(cfg.window, steps, t, x);
      DrainedAccount(t, x);
      GoodLog(t);
      FlatCount(t.log, key, x);
      SelectCount(t.written, key, x);
      CountIsMultiset(Flat(t.log, key), x);
      CountIsMultiset(Select(t.written, key), x);
    }
    if cfg.agg == Sum && forall a :: a in Select(t.written, key) ==> a.m.name !in cfg.counters {
      forall a | a in Flat(t.log, key)
        ensures a.m.name !in cfg.counters
      {
        SameMembers(Flat(t.log, key), Select(t.written, key), a);
      }
      TotalOfFlat(cfg, t.log, key);
      SameTotal(Flat(t.log, key), Select(t.written, key));
    }
  }

  lemma SameMembers(a: seq<Arrival>, b: seq<Arrival>, x: Arrival)
    requires multiset(a) == multiset(b) && x in a
    ensures x in b
  {
    assert x in multiset(a);
  }

  lemma GoodLog(t: State)
    requires Good(t)
    ensures AllUniform(t.log)
  {
  }

  lemma DrainedAccount(t: State, x: Arrival)
    requires Drained(t)
    ensures Accounted(t, x) == Occurs(t.log, x)
  {
    NothingInHand(t.writers, x);
  }

  lemma {:induction false} FlatCount(gs: seq<Group>, key: string, x: Arrival)
    requires AllUniform(gs)
    ensures Count(Flat(gs, key), x) == if KeyOf(x) == key then Occurs(gs, x) else 0
  {
    if gs != [] {
      hide KeyOf, Count;
      var g, rest := gs[0], gs[1..];
      FlatCount(rest, key, x);
      CountConcat(if KeyOf(g[0]) == key then g else [], Flat(rest, key), x);
      CountNone(x);
      assert Uniform(g, KeyOf(g[0]));
      if KeyOf(g[0]) != KeyOf(x) {
        ForeignGroup(g, KeyOf(g[0]), x);
      }
    } else {
      CountNone(x);
    }
  }

  lemma CountNone(x: Arrival)
    ensures Count([], x) == 0
  {
  }

  lemma {:induction false} SelectCount(as_: seq<Arrival>, key: string, x: Arrival)
    ensures Count(Select(as_, key), x) == if KeyOf(x) == key then Count(as_, x) else 0
  {
    hide KeyOf, Count;
    CountNone(x);
    if as_ != [] {
      var init, a := as_[..|as_| - 1], as_[|as_| - 1];
      assert as_ == init + [a];
      SelectCount(init, key, x);
      CountSnoc(init, a, x);
      CountSnoc(Select(init, key), a, x);
      assert Select(init, key) + [] == Select(init, key);
    }
  }

  lemma {:induction false} CountIsMultiset(s: seq<Arrival>, x: Arrival)
    ensures Count(s, x) == multiset(s)[x]
  {
    if s != [] {
      CountIsMultiset(s[1..], x);
      assert s == [s[0]] + s[1..];
    }
  }

  lemma {:induction false} TotalOfFlat(cfg: Config, gs: seq<Group>, key: string)
    requires cfg.window > 0 && cfg.agg == Sum
    requires forall a :: a in Flat(gs, key) ==> a.m.name !in cfg.counters
    ensures EmittedTotal(cfg, gs, key) == SumOf(Values(Flat(gs, key)))
  {
    SumNothing();
    if gs != [] {
      hide KeyOf, SumOf, WindowOf, Values;
      var first, rest := if gs[0] != [] && KeyOf(gs[0][0]) == key then gs[0] else [], Flat(gs[1..], key);
      assert forall a :: a in first || a in rest ==> a in first + rest;
      TotalOfFlat(cfg, gs[1..], key);
      SumValuesConcat(first, rest);
      assert first != [] ==> first[0] in first;
    }
  }

  lemma SumNothing()
    ensures SumOf(Values([])) == 0.0
  {
  }

  lemma SumValuesConcat(a: seq<Arrival>, b: seq<Arrival>)
    ensures SumOf(Values(a + b)) == SumOf(Values(a)) + SumOf(Values(b))
  {
    hide SumOf;
    SumConcat(Values(a), Values(b));
    assert Values(a + b) == Values(a) + Values(b);
  }

  // A sum of reals does not depend on the order.
  lemma {:induction false} SameTotal(a: seq<Arrival>, b: seq<Arrival>)
    requires multiset(a) == multiset(b)
    ensures SumOf(Values(a)) == SumOf(Values(b))
    decreases |a|
  {
    hide SumOf, Values;
    if a == [] {
      assert |multiset(b)| == 0;
      assert b == [];
    } else {
      var x, rest := a[0], a[1..];
      assert a == [x] + rest;
      assert x in multiset(b);
      var j :| 0 <= j < |b| && b[j] == x;
      var left, right := b[..j], b[j + 1..];
      assert b == left + ([x] + right);
      WithoutFirst(x, rest, left, right);
      SameTotal(rest, left + right);
      SumValuesConcat([x], rest);
      SumValuesConcat(left, right);
      SumValuesConcat([x], right);
      SumValuesConcat(left, [x] + right);
    }
  }

  lemma WithoutFirst(x: Arrival, rest: seq<Arrival>, left: seq<Arrival>, right: seq<Arrival>)
    requires multiset([x] + rest) == multiset(left + ([x] + right))
    ensures multiset(rest) == multiset(left + right)
  {
    forall y
      ensures multiset(rest)[y] == multiset(left + right)[y]
    {
      CountIsMultiset([x] + rest, y);
      CountIsMultiset(left + ([x] + right), y);
      CountIsMultiset(rest, y);
      CountIsMultiset(left + right, y);
      CountConcat([x], rest, y);
      CountConcat(left, [x] + right, y);
      CountConcat([x], right, y);
      CountConcat(left, right, y);
    }
  }

  // Limits ------------------------------------------------------------------------------------------

  lemma Next(s: State, steps: seq<Step>, s': State, rest: seq<Step>, t: State)
    requires steps != [] && steps[1..] == rest && s.window > 0
    requires Enabled(s, steps[0]) && Do(s, steps[0]) == s' && Reaches(s', rest, t)
    ensures Reaches(s, steps, t)
  {
  }

  // Without interference the sections of one Write add up to what the aggregator object promises.
  lemma UninterruptedWrite(s: State, a: Arrival)
    requires Good(s) && s.writers == [Idle]
    ensures Downsampler.GoodStore(s.store)
    ensures exists steps, t ::
      && Reaches(s, [Write(0, a)] + steps, t) && t.writers == [Idle]
      && t.store == Downsampler.Stored(s.store, a, s.window)
      && t.log == s.log + Downsampler.Evicted(s.store, a, s.window)
  {
    hide KeyOf, WindowOf, Reaches, AllUniform, GoodWriter;
    StoreIsGood(s.store);
    var s1 := Do(s, Write(0, a));
    if s1.writers[0].Idle? {
      FinalState(s1);
      assert [Write(0, a)] + [] == [Write(0, a)] && [Write(0, a)][1..] == [];
      Next(s, [Write(0, a)] + [], s1, [], s1);
      assert s.log + [] == s.log;
    } else {
      var t := WriteInThree(s, a);
    }
  }

  // The write that finds a buffer of another window.
  lemma WriteInThree(s: State, a: Arrival) returns (t: State)
    requires Good(s) && s.writers == [Idle] && !Do(s, Write(0, a)).writers[0].Idle?
    ensures Reaches(s, [Write(0, a)] + [HandOver(0), Insert(0)], t) && t.writers == [Idle]
    ensures t.store == Downsampler.Stored(s.store, a, s.window)
    ensures t.log == s.log + Downsampler.Evicted(s.store, a, s.window)
  {
    hide KeyOf, WindowOf, Reaches, AllUniform, GoodWriter;
    var s1 := Do(s, Write(0, a));
    var s2 := Do(s1, HandOver(0));
    t := Do(s2, Insert(0));
    FinalState(t);
    Next(s2, [Insert(0)], t, [], t);
    Next(s1, [HandOver(0), Insert(0)], s2, [Insert(0)], t);
    Next(s, [Write(0, a)] + [HandOver(0), Insert(0)], s1, [HandOver(0), Insert(0)], t);
  }

  lemma StoreIsGood(store: map<string, Group>)
    requires UniformStore(store)
    ensures Downsampler.GoodStore(store)
  {
    hide KeyOf;
    forall k | k in store
      ensures store[k] != [] && KeyOf(store[k][0]) == k
    {
      assert Uniform(store[k], k);
    }
  }

  // Two writers of one series can lose a sample: the second one files a new buffer while the first is
  // handing over, and the first then files its own over it. True of any three samples like these.
  lemma TwoWritersLose(w: int, a: Arrival, b: Arrival, c: Arrival)
    requires w > 0 && KeyOf(a) == KeyOf(b) == KeyOf(c) && WindowOf(a, w) != WindowOf(b, w)
    ensures exists steps, t ::
      && Reaches(Init(w, 2), steps, t)
      && t.written == [a, b, c] && t.log == [[a]] && t.store == map[KeyOf(a) := [b]]
      && t.writers == [Idle, Idle] && t.flusher == [] && t.closer == []
  {
    hide KeyOf, WindowOf, Reaches;
    var k := KeyOf(a);
    var none: seq<Group> := [];
    var steps := [Write(0, a), Write(0, b), Write(1, c), HandOver(0), Insert(0)];
    var s0 := Init(w, 2);
    assert s0.writers == [Idle, Idle];
    var s1 := State(w, map[k := [a]], [Idle, Idle], none, none, none, [a]);
    var s2 := State(w, map[], [Holding([a], b), Idle], none, none, none, [a, b]);
    var s3 := State(w, map[k := [c]], [Holding([a], b), Idle], none, none, none, [a, b, c]);
    var s4 := s3.(log := [[a]], writers := [Inserting(b), Idle]);
    var t := s4.(store := map[k := [b]], writers := [Idle, Idle]);
    assert Do(s0, steps[0]) == s1;
    assert Do(s1, steps[1]) == s2;
    assert Do(s2, steps[2]) == s3;
    assert Do(s3, steps[3]) == s4;
    assert Do(s4, steps[4]) == t;
    FinalState(t);
    Next(s4, steps[4..], t, steps[5..], t);
    Next(s3, steps[3..], s4, steps[4..], t);
    Next(s2, steps[2..], s3, steps[3..], t);
    Next(s1, steps[1..], s2, steps[2..], t);
    Next(s0, steps, s1, steps[1..], t);
  }

  lemma FinalState(t: State)
    ensures Reaches(t, [], t)
  {
  }

  lemma TakenOnly(k: string, g: Group)
    ensures Distinct([k]) && Taken(map[k := g], [k]) == [g]
  {
    assert [k][1..] == [];
  }

  lemma FlushOnly(s: State, k: string, t: State)
    requires s.window > 0 && s.flusher == [] && s.store.Keys == {k}
    requires t == s.(store := map[], flusher := [s.store[k]])
    ensures Enabled(s, Flush([k])) && Do(s, Flush([k])) == t
  {
    TakenOnly(k, s.store[k]);
    assert s.store == map[k := s.store[k]];
  }

  // One emission for each window ---------------------------------------------------------------------

  // The series and the window of a group.
  datatype Slot = Slot(key: string, start: int)

  ghost function SlotOf(a: Arrival, w: int): Slot
    requires w > 0
  {
    Slot(KeyOf(a), WindowOf(a, w))
  }

  // How many groups of the list belong to the slot.
  ghost function Made(gs: seq<Group>, x: Slot, w: int): nat
    requires w > 0
  {
    if gs == [] then 0 else (if gs[0] != [] && SlotOf(gs[0][0], w) == x then 1 else 0) + Made(gs[1..], x, w)
  }

  ghost function Open(store: map<string, Group>, x: Slot, w: int): nat
    requires w > 0
  {
    if x.key in store && store[x.key] != [] && WindowOf(store[x.key][0], w) == x.start then 1 else 0
  }

  // A writer holds the group it took out, and its own sample, which is about to start a group.
  ghost function Held(writer: Writer, x: Slot, w: int): nat
    requires w > 0
  {
    if writer.Holding? && writer.group != [] && SlotOf(writer.group[0], w) == x then 1 else 0
  }

  ghost function Starting(writer: Writer, x: Slot, w: int): nat
    requires w > 0
  {
    if !writer.Idle? && SlotOf(writer.arrival, w) == x then 1 else 0
  }

  // Groups of the slot that were taken out of the store.
  ghost function Out(s: State, x: Slot): nat
    requires s.window > 0 && |s.writers| == 1
  {
    Made(s.log, x, s.window) + Made(s.flusher, x, s.window) + Made(s.closer, x, s.window)
    + Held(s.writers[0], x, s.window)
  }

  // All groups of the slot, taken out or not.
  ghost function All(s: State, x: Slot): nat
    requires s.window > 0 && |s.writers| == 1
  {
    Out(s, x) + Open(s.store, x, s.window) + Starting(s.writers[0], x, s.window)
  }

  // The groups of each series have pairwise different windows.
  ghost predicate OncePerWindow(s: State)
    requires s.window > 0 && |s.writers| == 1
  {
    forall x :: All(s, x) <= 1
  }

  // The step writes a sample of a series into a window whose group was already taken out.
  ghost predicate Reopens(s: State, step: Step)
    requires s.window > 0 && |s.writers| == 1
  {
    step.Write? && Out(s, SlotOf(step.a, s.window)) > 0
  }

  ghost predicate NeverReopens(s: State, steps: seq<Step>)
    decreases |steps|
  {
    steps == [] || (
      && s.window > 0 && |s.writers| == 1 && Enabled(s, steps[0])
      && !Reopens(s, steps[0]) && NeverReopens(Do(s, steps[0]), steps[1..]))
  }

  lemma {:induction false} MadeSnoc(gs: seq<Group>, g: Group, x: Slot, w: int)
    requires w > 0 && g != []
    ensures Made(gs + [g], x, w) == Made(gs, x, w) + if SlotOf(g[0], w) == x then 1 else 0
  {
    hide SlotOf;
    if gs == [] {
      assert gs + [g] == [g] && [g][1..] == [];
    } else {
      MadeSnoc(gs[1..], g, x, w);
      assert (gs + [g])[1..] == gs[1..] + [g];
    }
  }

  lemma {:induction false} TakenMade(store: map<string, Group>, order: seq<string>, x: Slot, w: int)
    requires w > 0 && (forall k :: k in order ==> k in store) && Distinct(order) && UniformStore(store)
    ensures Made(Taken(store, order), x, w) == if x.key in order then Open(store, x, w) else 0
  {
    hide KeyOf, WindowOf;
    if order != [] {
      var rest := order[1..];
      assert Distinct(rest);
      TakenMade(store, rest, x, w);
      assert order == [order[0]] + rest;
      FirstNotLater(order);
      assert Uniform(store[order[0]], order[0]);
      assert Taken(store, order)[1..] == Taken(store, rest);
    }
  }

  // The buffer the sample joins, if there is one.
  ghost predicate Joins(s: State, a: Arrival)
    requires s.window > 0
  {
    Open(s.store, SlotOf(a, s.window), s.window) == 1
  }

  // Only a write that starts a group adds one.
  lemma WriteMakes(s: State, i: nat, a: Arrival, x: Slot)
    requires Good(s) && OneWriter(s) && Enabled(s, Write(i, a))
    ensures var t := Do(s, Write(i, a));
      && |t.writers| == 1 && t.window == s.window
      && All(t, x) == All(s, x) + if !Joins(s, a) && x == SlotOf(a, s.window) then 1 else 0
  {
    hide KeyOf, WindowOf, Made, AllUniform, GoodWriter;
    var k := KeyOf(a);
    assert k in s.store ==> Uniform(s.store[k], k);
  }

  lemma OtherMakesNone(s: State, step: Step, x: Slot)
    requires Good(s) && OneWriter(s) && Enabled(s, step) && !step.Write?
    ensures var t := Do(s, step);
      && |t.writers| == 1 && t.window == s.window
      && All(t, x) == All(s, x)
  {
    hide KeyOf, WindowOf, Made, AllUniform, Taken, UniformStore, Uniform;
    MadeNothing(x, s.window);
    match step
    case HandOver(i) => Emits(s); MadeSnoc(s.log, s.writers[i].group, x, s.window);
    case Insert(_) =>
    case Flush(order) => TakenMade(s.store, order, x, s.window);
    case Close(order) => TakenMade(s.store, order, x, s.window);
    case FlushOver => Emits(s); MadeSnoc(s.log, s.flusher[0], x, s.window); MadeFirst(s.flusher, x, s.window);
    case CloseOver => Emits(s); MadeSnoc(s.log, s.closer[0], x, s.window); MadeFirst(s.closer, x, s.window);
  }

  lemma MadeFirst(gs: seq<Group>, x: Slot, w: int)
    requires w > 0 && gs != []
    ensures Made(gs, x, w) == (if gs[0] != [] && SlotOf(gs[0][0], w) == x then 1 else 0) + Made(gs[1..], x, w)
  {
    hide SlotOf;
  }

  lemma MadeNothing(x: Slot, w: int)
    requires w > 0
    ensures Made([], x, w) == 0
  {
  }

  lemma Emits(s: State)
    requires Good(s)
    ensures forall i :: 0 <= i < |s.writers| && s.writers[i].Holding? ==> s.writers[i].group != []
    ensures s.flusher != [] ==> s.flusher[0] != []
    ensures s.closer != [] ==> s.closer[0] != []
  {
    hide Uniform;
    assert forall i :: 0 <= i < |s.writers| ==> GoodWriter(s.writers[i]);
  }

  lemma OnceStep(s: State, step: Step)
    requires Good(s) && OneWriter(s) && Enabled(s, step)
    ensures var t := Do(s, step);
      && t.window == s.window && |t.writers| == 1
      && (OncePerWindow(t) <==> OncePerWindow(s) && !Reopens(s, step))
  {
    hide Good, OneWriter, Do, All, Out, SlotOf, Open, Enabled;
    OneWriterShape(s);
    var t := Do(s, step);
    if step.Write? {
      var x := SlotOf(step.a, s.window);
      WriteMakes(s, step.i, step.a, x);
      forall y
        ensures All(t, y) == All(s, y) + if !Joins(s, step.a) && y == x then 1 else 0
      {
        WriteMakes(s, step.i, step.a, y);
      }
      AllOf(s, x);
      WriterIsIdle(s, step);
    } else {
      OtherMakesNone(s, step, Slot("", 0));
      forall y
        ensures All(t, y) == All(s, y)
      {
        OtherMakesNone(s, step, y);
      }
    }
  }

  lemma OneWriterShape(s: State)
    requires Good(s) && OneWriter(s)
    ensures s.window > 0 && |s.writers| == 1
  {
    hide Uniform, KeyOf;
  }

  lemma AllOf(s: State, x: Slot)
    requires s.window > 0 && |s.writers| == 1
    ensures All(s, x) == Out(s, x) + Open(s.store, x, s.window) + Starting(s.writers[0], x, s.window)
    ensures Open(s.store, x, s.window) <= 1
  {
    hide Out;
  }

  lemma WriterIsIdle(s: State, step: Step)
    requires s.window > 0 && |s.writers| == 1 && Enabled(s, step) && step.Write?
    ensures s.writers[0].Idle?
  {
  }

  lemma {:induction false} OnceRun(s: State, steps: seq<Step>, t: State)
    requires Good(s) && OneWriter(s) && Reaches(s, steps, t)
    ensures s.window > 0 && |s.writers| == 1 && t.window == s.window && |t.writers| == 1
    ensures OncePerWindow(t) <==> OncePerWindow(s) && NeverReopens(s, steps)
    decreases |steps|
  {
    hide Good, OneWriter, Do, Enabled, OncePerWindow, Reopens;
    OneWriterShape(s);
    if steps != [] {
      OnceStep(s, steps[0]);
      GoodStep(s, steps[0]);
      OnceRun(Do(s, steps[0]), steps[1..], t);
    }
  }

  lemma GoodStep(s: State, step: Step)
    requires Good(s) && OneWriter(s) && s.window > 0 && Enabled(s, step)
    ensures Good(Do(s, step)) && OneWriter(Do(s, step))
  {
    hide *;
    var x := Arrival(Measurement(0, "", 0.0, "", map[]), 0);
    StepBalance(s, step, x);
    OneWriterStep(s, step, x);
  }

  // Main result, for every run of one writer with idle flushes and Close at any point: the groups of each
  // series, whether emitted, taken out or still buffered, have pairwise different windows if and only if
  // no Write brought a sample into a window of its series that had already been taken out.
  lemma OncePerWindowIff(window: int, steps: seq<Step>, t: State)
    requires window > 0 && Reaches(Init(window, 1), steps, t)
    ensures t.window == window && |t.writers| == 1
    ensures OncePerWindow(t) <==> NeverReopens(Init(window, 1), steps)
  {
    hide *;
    InitGood(window);
    OnceRun(Init(window, 1), steps, t);
  }

  lemma InitGood(window: int)
    requires window > 0
    ensures Good(Init(window, 1)) && OneWriter(Init(window, 1))
    ensures Init(window, 1).window == window && OncePerWindow(Init(window, 1))
  {
    hide KeyOf, WindowOf;
    var s := Init(window, 1);
    forall x
      ensures All(s, x) == 0
    {
      MadeNothing(x, window);
    }
  }

  // On what was handed over once everything is: no two emissions of one series have the same timestamp,
  // if and only if no Write came back to a window after it was taken out.
  lemma EmissionsDifferIff(cfg: Config, steps: seq<Step>, t: State)
    requires cfg.window > 0 && Reaches(Init(cfg.window, 1), steps, t) && Drained(t)
    ensures forall i :: 0 <= i < |t.log| ==> t.log[i] != []
    ensures (forall i, j :: 0 <= i < j < |t.log| && KeyOf(t.log[i][0]) == KeyOf(t.log[j][0]) ==>
        Summary(cfg, t.log[i]).timestamp != Summary(cfg, t.log[j]).timestamp)
      <==> NeverReopens(Init(cfg.window, 1), steps)
  {
    hide *;
    OncePerWindowIff(cfg.window, steps, t);
    ConservedIff(cfg.window, 1, steps, t, Arrival(Measurement(0, "", 0.0, "", map[]), 0));
    LogGroups(t);
    DrainedOnce(t);
    PairsDiffer(t.log, t.window);
    TimesAreWindows(cfg, t.log);
  }

  lemma LogGroups(t: State)
    requires Good(t)
    ensures forall i :: 0 <= i < |t.log| ==> t.log[i] != []
  {
    hide Uniform;
  }

  lemma DrainedOnce(t: State)
    requires Drained(t) && t.window > 0 && |t.writers| == 1
    ensures OncePerWindow(t) <==> OneOfEach(t.log, t.window)
  {
    hide SlotOf;
    forall x
      ensures All(t, x) == Made(t.log, x, t.window)
    {
      DrainedAll(t, x);
    }
  }

  lemma DrainedAll(t: State, x: Slot)
    requires Drained(t) && t.window > 0 && |t.writers| == 1
    ensures All(t, x) == Made(t.log, x, t.window)
  {
    hide SlotOf;
  }

  lemma TimesAreWindows(cfg: Config, gs: seq<Group>)
    requires cfg.window > 0 && forall i :: 0 <= i < |gs| ==> gs[i] != []
    ensures AllDiffer(gs, cfg.window) <==>
      forall i, j :: 0 <= i < j < |gs| && KeyOf(gs[i][0]) == KeyOf(gs[j][0]) ==>
        Summary(cfg, gs[i]).timestamp != Summary(cfg, gs[j]).timestamp
  {
    hide KeyOf, WindowOf, Reduce, AggFor;
    forall i | 0 <= i < |gs|
      ensures SlotOf(gs[i][0], cfg.window) == Slot(KeyOf(gs[i][0]), Summary(cfg, gs[i]).timestamp)
    {
    }
  }

  ghost predicate OneOfEach(gs: seq<Group>, w: int)
    requires w > 0
  {
    forall x :: Made(gs, x, w) <= 1
  }

  ghost predicate AllDiffer(gs: seq<Group>, w: int)
    requires w > 0 && forall i :: 0 <= i < |gs| ==> gs[i] != []
  {
    forall i, j :: 0 <= i < j < |gs| ==> SlotOf(gs[i][0], w) != SlotOf(gs[j][0], w)
  }

  // At most one group for every slot means that any two groups have different slots.
  lemma PairsDiffer(gs: seq<Group>, w: int)
    requires w > 0 && forall i :: 0 <= i < |gs| ==> gs[i] != []
    ensures OneOfEach(gs, w) <==> AllDiffer(gs, w)
  {
    hide SlotOf;
    if !AllDiffer(gs, w) {
      var i, j :| 0 <= i < j < |gs| && SlotOf(gs[i][0], w) == SlotOf(gs[j][0], w);
      TwoMade(gs, i, j, SlotOf(gs[i][0], w), w);
    } else {
      forall x
        ensures Made(gs, x, w) <= 1
      {
        MadeOnce(gs, x, w);
      }
    }
  }

  lemma {:induction false} MadeSome(gs: seq<Group>, i: nat, w: int)
    requires w > 0 && i < |gs| && gs[i] != []
    ensures Made(gs, SlotOf(gs[i][0], w), w) >= 1
  {
    hide SlotOf;
    if i > 0 {
      MadeSome(gs[1..], i - 1, w);
    }
  }

  lemma {:induction false} TwoMade(gs: seq<Group>, i: nat, j: nat, x: Slot, w: int)
    requires w > 0 && i < j < |gs| && gs[i] != [] && gs[j] != []
    requires SlotOf(gs[i][0], w) == x == SlotOf(gs[j][0], w)
    ensures Made(gs, x, w) >= 2
  {
    hide SlotOf;
    if i > 0 {
      TwoMade(gs[1..], i - 1, j - 1, x, w);
    } else {
      MadeSome(gs[1..], j - 1, w);
    }
  }

  lemma {:induction false} MadeNone(gs: seq<Group>, x: Slot, w: int)
    requires w > 0 && forall i :: 0 <= i < |gs| ==> gs[i] != [] && SlotOf(gs[i][0], w) != x
    ensures Made(gs, x, w) == 0
  {
    hide SlotOf;
    if gs != [] {
      MadeNone(gs[1..], x, w);
    }
  }

  lemma {:induction false} MadeOnce(gs: seq<Group>, x: Slot, w: int)
    requires w > 0 && forall i :: 0 <= i < |gs| ==> gs[i] != []
    requires forall i, j :: 0 <= i < j < |gs| ==> SlotOf(gs[i][0], w) != SlotOf(gs[j][0], w)
    ensures Made(gs, x, w) <= 1
  {
    hide SlotOf;
    if gs != [] {
      MadeOnce(gs[1..], x, w);
      if SlotOf(gs[0][0], w) == x {
        MadeNone(gs[1..], x, w);
      }
    }
  }

  // An idle flush between two samples of a window splits it: they come out as two aggregates with the
  // same timestamp. A flush after the last sample of a window does not (OncePerWindowIff).
  lemma IdleFlushSplitsWindow(w: int, a: Arrival, b: Arrival)
    requires w > 0 && KeyOf(a) == KeyOf(b) && WindowOf(a, w) == WindowOf(b, w)
    ensures exists steps, t :: Reaches(Init(w, 1), steps, t) && Drained(t) && t.log == [[a], [b]]
  {
    hide KeyOf, WindowOf, Reaches;
    var k := KeyOf(a);
    var tail := [Write(0, b), Close([k]), CloseOver];
    ClosedLater(w, a, b);
    FlushedFirst(w, a, tail, State(w, map[], [Idle], [], [], [[a], [b]], [a, b]));
  }

  lemma FlushedFirst(w: int, a: Arrival, tail: seq<Step>, t: State)
    requires w > 0 && Reaches(State(w, map[], [Idle], [], [], [[a]], [a]), tail, t)
    ensures Reaches(Init(w, 1), [Write(0, a), Flush([KeyOf(a)]), FlushOver] + tail, t)
  {
    hide KeyOf, WindowOf, Reaches, Taken;
    var k := KeyOf(a);
    var none: seq<Group> := [];
    var s0 := Init(w, 1);
    var s1 := State(w, map[k := [a]], [Idle], none, none, none, [a]);
    var s2 := s1.(store := map[], flusher := [[a]]);
    var s3 := State(w, map[], [Idle], none, none, [[a]], [a]);
    assert s0.writers == [Idle];
    FlushOnly(s1, k, s2);
    Next(s2, [FlushOver] + tail, s3, tail, t);
    Next(s1, [Flush([k]), FlushOver] + tail, s2, [FlushOver] + tail, t);
    Next(s0, [Write(0, a), Flush([k]), FlushOver] + tail, s1, [Flush([k]), FlushOver] + tail, t);
  }

  lemma ClosedLater(w: int, a: Arrival, b: Arrival)
    requires w > 0 && KeyOf(a) == KeyOf(b)
    ensures Reaches(State(w, map[], [Idle], [], [], [[a]], [a]), [Write(0, b), Close([KeyOf(a)]), CloseOver],
      State(w, map[], [Idle], [], [], [[a], [b]], [a, b]))
  {
    hide KeyOf, WindowOf, Reaches, Taken;
    var k := KeyOf(a);
    var none: seq<Group> := [];
    var s3 := State(w, map[], [Idle], none, none, [[a]], [a]);
    var s4 := s3.(store := map[k := [b]], written := [a, b]);
    var s5 := s4.(store := map[], closer := [[b]]);
    var t := State(w, map[], [Idle], none, none, [[a], [b]], [a, b]);
    TakenOnly(k, [b]);
    FinalState(t);
    Next(s5, [CloseOver], t, [], t);
    Next(s4, [Close([k]), CloseOver], s5, [CloseOver], t);
    Next(s3, [Write(0, b), Close([k]), CloseOver], s4, [Close([k]), CloseOver], t);
  }
}
