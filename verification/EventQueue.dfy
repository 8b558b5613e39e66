// pushEvent against a consumer that may run between any two of its channel operations.
module EventQueue {
  import opened Driver

  // Where the producer is inside pushEvent. Each state before Idle ends with one channel operation.
  datatype Phase = Idle | Sending(ev: Event) | Dropping(ev: Event) | Resending(ev: Event)

  // queue is the channel; the logs hold what pushEvent was called with and has finished, and what
  // the consumer has taken out. drops counts events taken out by the producer, mark is its value when the current
  // push began, and lost counts events that found the channel full twice.
  datatype State = State(
    cap: nat, queue: seq<Event>, phase: Phase, pushed: seq<Event>, received: seq<Event>,
    drops: nat, mark: nat, lost: nat)

  datatype Step = Call(ev: Event) | Producer | Consumer

  function Init(cap: nat): State {
    State(cap, [], Idle, [], [], 0, 0, 0)
  }

  predicate Enabled(s: State, step: Step) {
    match step
    case Call(_) => s.phase.Idle?
    case Producer => !s.phase.Idle?
    case Consumer => s.queue != []
  }

  function Enqueue(s: State, ev: Event): State {
    s.(queue := s.queue + [ev], pushed := s.pushed + [ev], phase := Idle)
  }

  function Do(s: State, step: Step): State
    requires Enabled(s, step)
  {
    match step
    case Call(ev) => s.(phase := Sending(ev), mark := s.drops)
    case Consumer => s.(received := s.received + [s.queue[0]], queue := s.queue[1..])
    case Producer =>
      match s.phase
      case Sending(ev) => if |s.queue| < s.cap then Enqueue(s, ev) else s.(phase := Dropping(ev))
      case Dropping(ev) =>
        if s.queue != [] then s.(queue := s.queue[1..], drops := s.drops + 1, phase := Resending(ev))
        else s.(phase := Resending(ev))
      case Resending(ev) =>
        if |s.queue| < s.cap then Enqueue(s, ev)
        else s.(pushed := s.pushed + [ev], lost := s.lost + 1, phase := Idle)
  }

  ghost predicate Reaches(s: State, steps: seq<Step>, t: State)
    decreases |steps|
  {
    if steps == [] then s == t else Enabled(s, steps[0]) && Reaches(Do(s, steps[0]), steps[1..], t)
  }

  // a can be obtained from b by leaving elements out.
  predicate Subsequence(a: seq<Event>, b: seq<Event>)
    decreases |b|
  {
    a == [] || (b != [] && ((a[0] == b[0] && Subsequence(a[1..], b[1..])) || Subsequence(a, b[1..])))
  }

  predicate Suffix(a: seq<Event>, b: seq<Event>) {
    |a| <= |b| && a == b[|b| - |a|..]
  }

  ghost predicate Inv(s: State) {
    && s.cap > 0
    && |s.queue| <= s.cap
    && (s.phase.Resending? ==> |s.queue| < s.cap)
    && s.lost == 0
    && Suffix(s.queue, s.pushed)
    && Subsequence(s.received + s.queue, s.pushed)
    && |s.pushed| == |s.received| + |s.queue| + s.drops
    && s.mark <= s.drops <= s.mark + 1
    && (s.phase.Sending? || s.phase.Dropping? ==> s.drops == s.mark)
  }

  lemma {:induction false} SubsequenceSnoc(a: seq<Event>, b: seq<Event>, x: Event)
    requires Subsequence(a, b)
    ensures Subsequence(a + [x], b + [x])
    decreases |b|
  {
    if b == [] {
      assert a == [];
      assert (a + [x])[1..] == [] && (b + [x])[1..] == [];
    } else {
      assert (b + [x])[1..] == b[1..] + [x] && (b + [x])[0] == b[0];
      if a == [] {
        SubsequenceSnoc([], b[1..], x);
      } else if a[0] == b[0] && Subsequence(a[1..], b[1..]) {
        SubsequenceSnoc(a[1..], b[1..], x);
        assert (a + [x])[1..] == a[1..] + [x];
      } else {
        SubsequenceSnoc(a, b[1..], x);
      }
    }
  }

  // Leaving out one more element.
  lemma {:induction false} SubsequenceLess(a: seq<Event>, x: Event, c: seq<Event>, b: seq<Event>)
    requires Subsequence(a + [x] + c, b)
    ensures Subsequence(a + c, b)
    decreases |b|
  {
    var s := a + [x] + c;
    if s[0] == b[0] && Subsequence(s[1..], b[1..]) {
      if a == [] {
        assert s[1..] == c == a + c;
        SubsequenceWeaken(c, b);
      } else {
        assert s[1..] == a[1..] + [x] + c;
        SubsequenceLess(a[1..], x, c, b[1..]);
        assert (a + c)[1..] == a[1..] + c;
      }
    } else {
      SubsequenceLess(a, x, c, b[1..]);
    }
  }

  lemma SubsequenceWeaken(a: seq<Event>, b: seq<Event>)
    requires b != [] && Subsequence(a, b[1..])
    ensures Subsequence(a, b)
  {
  }

  lemma InitInv(cap: nat)
    requires cap > 0
    ensures Inv(Init(cap))
  {
  }

  lemma EnqueueInv(s: State, ev: Event)
    requires Inv(s) && |s.queue| < s.cap
    ensures Inv(Enqueue(s, ev))
  {
    SubsequenceSnoc(s.received + s.queue, s.pushed, ev);
    assert s.received + s.queue + [ev] == s.received + (s.queue + [ev]);
  }

  lemma DropInv(s: State)
    requires Inv(s) && s.phase.Dropping?
    ensures Inv(Do(s, Producer))
  {
    if s.queue != [] {
      assert s.received + s.queue == s.received + [s.queue[0]] + s.queue[1..];
      SubsequenceLess(s.received, s.queue[0], s.queue[1..], s.pushed);
    }
  }

  lemma ReceiveInv(s: State)
    requires Inv(s) && s.queue != []
    ensures Inv(Do(s, Consumer))
  {
    assert s.received + [s.queue[0]] + s.queue[1..] == s.received + s.queue;
  }

  lemma StepInv(s: State, step: Step)
    requires Inv(s) && Enabled(s, step)
    ensures Inv(Do(s, step))
  {
    hide Subsequence, Suffix;
    match step
    case Call(_) =>
    case Consumer => ReceiveInv(s);
    case Producer =>
      match s.phase
      case Sending(ev) => if |s.queue| < s.cap { EnqueueInv(s, ev); }
      case Dropping(_) => DropInv(s);
      case Resending(ev) => EnqueueInv(s, ev);
  }

  lemma {:induction false} RunInv(s: State, steps: seq<Step>, t: State)
    requires Inv(s) && Reaches(s, steps, t)
    ensures Inv(t)
    decreases |steps|
  {
    hide Inv, Do;
    if steps != [] {
      StepInv(s, steps[0]);
      RunInv(Do(s, steps[0]), steps[1..], t);
    }
  }

  // Main result, for every interleaving of one producer and a consumer: no pushed event is turned
  // away, the channel holds the newest pushed events in order, what the consumer got followed by
  // what is waiting is in pushing order, and no push drops more than one event.
  lemma QueueSafety(cap: nat, steps: seq<Step>, t: State)
    requires cap > 0 && Reaches(Init(cap), steps, t)
    ensures t.lost == 0 && |t.queue| <= cap
    ensures Suffix(t.queue, t.pushed)
    ensures Subsequence(t.received + t.queue, t.pushed)
    ensures |t.received| + |t.queue| + t.drops == |t.pushed|
    ensures t.drops <= t.mark + 1
  {
    hide Reaches, Subsequence, Suffix;
    InitInv(cap);
    RunInv(Init(cap), steps, t);
    RunCap(Init(cap), steps, t);
  }

  lemma {:induction false} RunCap(s: State, steps: seq<Step>, t: State)
    requires Reaches(s, steps, t)
    ensures s.cap == t.cap
    decreases |steps|
  {
    if steps != [] {
      RunCap(Do(s, steps[0]), steps[1..], t);
    }
  }

  // Without a consumer in between, the operations add up to what the driver's PushEvent promises.
  lemma UninterruptedPush(s: State, ev: Event)
    requires Inv(s) && s.phase.Idle?
    ensures exists steps, t ::
      && Reaches(s, [Call(ev)] + steps, t)
      && t.phase.Idle? && t.queue == Newest(s.queue + [ev], s.cap) && t.received == s.received
  {
    hide Inv, Subsequence, Suffix;
    StepInv(s, Call(ev));
    var s1 := Do(s, Call(ev));
    var steps := if |s.queue| < s.cap then [Producer] else [Producer, Producer, Producer];
    QueueBounds(s);
    var t := if |s.queue| < s.cap then Enqueue(s1, ev)
      else Enqueue(s1.(queue := s.queue[1..], drops := s.drops + 1), ev);
    ProducerAlone(s1, t);
    assert ([Call(ev)] + steps)[1..] == steps;
    assert Reaches(s, [Call(ev)] + steps, t);
  }

  lemma QueueBounds(s: State)
    requires Inv(s)
    ensures 0 < s.cap && |s.queue| <= s.cap
  {
  }

  lemma ProducerAlone(s: State, t: State)
    requires 0 < s.cap && |s.queue| <= s.cap && s.phase.Sending?
    requires t == if |s.queue| < s.cap then Enqueue(s, s.phase.ev)
      else Enqueue(s.(queue := s.queue[1..], drops := s.drops + 1), s.phase.ev)
    ensures Reaches(s, if |s.queue| < s.cap then [Producer] else [Producer, Producer, Producer], t)
  {
    if |s.queue| < s.cap {
      assert [Producer][1..] == [];
    } else {
      var s1 := Do(s, Producer);
      var s2 := Do(s1, Producer);
      assert Do(s2, Producer) == t;
      assert [Producer, Producer, Producer][1..] == [Producer, Producer];
      assert [Producer, Producer][1..] == [Producer] && [Producer][1..] == [];
      assert Reaches(s2, [Producer], t);
      assert Reaches(s1, [Producer, Producer], t);
    }
  }

  // The end state of any finished push holds its event last, whoever ran in between ...
  lemma PushedIsLast(s: State)
    requires Inv(s) && (s.phase.Resending? || (s.phase.Sending? && |s.queue| < s.cap))
    ensures var t := Do(s, Producer);
      t.queue != [] && t.queue[|t.queue| - 1] == s.phase.ev && t.pushed == s.pushed + [s.phase.ev]
  {
  }

  // ... and a consumer that reads the channel empty gets everything it held, in order.
  lemma {:induction false} ConsumerDrains(s: State) returns (steps: seq<Step>, t: State)
    ensures Reaches(s, steps, t) && t == s.(queue := [], received := s.received + s.queue)
    ensures forall i :: 0 <= i < |steps| ==> steps[i].Consumer?
    decreases |s.queue|
  {
    if s.queue == [] {
      steps, t := [], s;
      assert s.received + s.queue == s.received;
    } else {
      var more;
      more, t := ConsumerDrains(Do(s, Consumer));
      steps := [Consumer] + more;
      assert steps[1..] == more;
      assert s.received + [s.queue[0]] + s.queue[1..] == s.received + s.queue;
    }
  }
}
