// The single pending slot of the driver, shared by callers of command, the read loop and Close. Every
// step is one critical section or one channel operation, so runs are all the interleavings.
module CommandProtocol {
  import opened Prelude

  // What arrives on a command's result channel.
  datatype Reply = Response(ok: bool, lines: seq<string>) | Abort

  // How a call ends.
  datatype Ending = Got(reply: Reply) | TimedOut | SawClosed | WriteFailed | Busy

  // Where a call of command is.
  datatype Phase =
    | Entering               // before cmdMu.Lock
    | Locked                 // before the check of closed
    | Checked                // before the slot is claimed
    | Installed              // before the write
    | Waiting                // in the select
    | Leaving(end: Ending)   // before the deferred clean-up
    | Unlocking(end: Ending) // before cmdMu.Unlock
    | Returned(end: Ending)

  // channel is the result channel of capacity one; sent logs every result put into it; taken counts
  // how often the command was removed from the slot.
  datatype Call = Call(phase: Phase, resp: seq<string>, channel: seq<Reply>, sent: seq<Reply>, taken: nat)

  // Where the read loop is: between lines, holding a response line it is about to append, holding a
  // command it took out of the slot, or on its way out.
  datatype Reader = Reading | Matching(call: nat, line: string) | Holding(call: nat, ok: bool) | Exiting | Exited

  datatype Closer = Open | Closing | Closed

  datatype State = State(
    calls: seq<Call>, mutex: Option<nat>, slot: Option<nat>, closed: bool, closer: Closer, reader: Reader,
    discarded: nat)

  datatype Step =
    | NewCall
    | Lock(c: nat) | CheckClosed(c: nat) | Claim(c: nat) | Write(c: nat, ok: bool)
    | Receive(c: nat) | TimeOut(c: nat) | SeeClosed(c: nat) | CleanUp(c: nat) | Unlock(c: nat)
    | ReaderMatch(line: string) | ReaderAppend | ReaderTake(success: bool) | ReaderDeliver
    | ReaderEof | ReaderFail | ReaderSweep
    | CloseStart | CloseSweep

  const INIT := State([], None, None, false, Open, Reading, 0)
  const FRESH := Call(Entering, [], [], [], 0)

  predicate At(s: State, c: nat, p: Phase) {
    c < |s.calls| && s.calls[c].phase == p
  }

  predicate IsCallerStep(step: Step) {
    step.Lock? || step.CheckClosed? || step.Claim? || step.Write? || step.Receive? || step.TimeOut?
    || step.SeeClosed? || step.CleanUp? || step.Unlock?
  }

  predicate Enabled(s: State, step: Step) {
    match step
    case NewCall => true
    case Lock(c) => At(s, c, Entering) && s.mutex.None?
    case CheckClosed(c) => At(s, c, Locked)
    case Claim(c) => At(s, c, Checked)
    case Write(c, _) => At(s, c, Installed)
    case Receive(c) => At(s, c, Waiting) && s.calls[c].channel != []
    case TimeOut(c) => At(s, c, Waiting)
    case SeeClosed(c) => At(s, c, Waiting) && s.closed
    case CleanUp(c) => c < |s.calls| && s.calls[c].phase.Leaving?
    case Unlock(c) => c < |s.calls| && s.calls[c].phase.Unlocking?
    case ReaderMatch(_) => s.reader.Reading?
    case ReaderAppend => s.reader.Matching? && s.reader.call < |s.calls|
    case ReaderTake(_) => s.reader.Reading? && (s.slot.Some? ==> s.slot.value < |s.calls|)
    case ReaderDeliver => s.reader.Holding? && s.reader.call < |s.calls|
    case ReaderEof => s.reader.Reading?
    case ReaderFail => s.reader.Reading?
    case ReaderSweep => s.reader.Exiting? && (s.slot.Some? ==> s.slot.value < |s.calls|)
    case CloseStart => !s.closed
    case CloseSweep => s.closer.Closing? && (s.slot.Some? ==> s.slot.value < |s.calls|)
  }

  function Move(s: State, c: nat, p: Phase): State
    requires c < |s.calls|
  {
    s.(calls := s.calls[c := s.calls[c].(phase := p)])
  }

  // A send that gives up when the channel is full.
  function Send(s: State, c: nat, reply: Reply): State
    requires c < |s.calls|
  {
    var k := s.calls[c];
    if k.channel == [] then s.(calls := s.calls[c := k.(channel := [reply], sent := k.sent + [reply])])
    else s.(discarded := s.discarded + 1)
  }

  function Take(s: State, c: nat): State
    requires c < |s.calls|
  {
    s.(slot := None, calls := s.calls[c := s.calls[c].(taken := s.calls[c].taken + 1)])
  }

  // Close and the exit of the read loop fail whatever command is pending.
  function Sweep(s: State): State
    requires s.slot.Some? ==> s.slot.value < |s.calls|
  {
    match s.slot
    case None => s
    case Some(c) => Send(Take(s, c), c, Abort)
  }

  function Do(s: State, step: Step): State
    requires Enabled(s, step)
  {
    match step
    case NewCall => s.(calls := s.calls + [FRESH])
    case Lock(c) => Move(s, c, Locked).(mutex := Some(c))
    case CheckClosed(c) => Move(s, c, if s.closed then Unlocking(SawClosed) else Checked)
    case Claim(c) =>
      if s.slot.Some? then Move(s, c, Unlocking(Busy)) else Move(s, c, Installed).(slot := Some(c))
    case Write(c, ok) => Move(s, c, if ok then Waiting else Leaving(WriteFailed))
    case Receive(c) =>
      var k := s.calls[c];
      s.(calls := s.calls[c := k.(phase := Leaving(Got(k.channel[0])), channel := k.channel[1..])])
    case TimeOut(c) => Move(s, c, Leaving(TimedOut))
    case SeeClosed(c) => Move(s, c, Leaving(SawClosed))
    case CleanUp(c) =>
      var t := Move(s, c, Unlocking(s.calls[c].phase.end));
      if s.slot == Some(c) then Take(t, c) else t
    case Unlock(c) => Move(s, c, Returned(s.calls[c].phase.end)).(mutex := None)
    case ReaderMatch(line) => if s.slot.Some? then s.(reader := Matching(s.slot.value, line)) else s
    case ReaderAppend =>
      var c, line := s.reader.call, s.reader.line;
      var t := s.(reader := Reading);
      if s.slot == Some(c) then t.(calls := s.calls[c := s.calls[c].(resp := s.calls[c].resp + [line])]) else t
    case ReaderTake(ok) => if s.slot.Some? then Take(s, s.slot.value).(reader := Holding(s.slot.value, ok)) else s
    case ReaderDeliver =>
      var c := s.reader.call;
      Send(s, c, Response(s.reader.ok, s.calls[c].resp)).(reader := Reading)
    case ReaderEof => s.(reader := Exiting)
    case ReaderFail => s.(reader := Exiting, closed := true)
    case ReaderSweep => Sweep(s).(reader := Exited)
    case CloseStart => s.(closed := true, closer := Closing)
    case CloseSweep => Sweep(s).(closer := Closed)
  }

  ghost predicate Reaches(s: State, steps: seq<Step>, t: State)
    decreases |steps|
  {
    if steps == [] then s == t else Enabled(s, steps[0]) && Reaches(Do(s, steps[0]), steps[1..], t)
  }

  // Invariant ----------------------------------------------------------------------------------

  predicate HoldsLock(p: Phase) {
    p.Locked? || p.Checked? || p.Installed? || p.Waiting? || p.Leaving? || p.Unlocking?
  }

  predicate MayOwnSlot(p: Phase) {
    p.Installed? || p.Waiting? || p.Leaving?
  }

  predicate HasEnding(p: Phase) {
    p.Leaving? || p.Unlocking? || p.Returned?
  }

  predicate CallInv(s: State, c: nat)
    requires c < |s.calls|
  {
    var k := s.calls[c];
    var held := s.reader.Holding? && s.reader.call == c;
    && k.taken <= 1
    && |k.sent| <= k.taken
    && (k.channel == [] || k.channel == k.sent)
    && (k.sent != [] && k.sent[0].Response? ==> k.sent[0].lines == k.resp)
    && (s.mutex == Some(c) <==> HoldsLock(k.phase))
    && (s.slot == Some(c) ==> k.taken == 0 && MayOwnSlot(k.phase))
    && (k.phase.Entering? || k.phase.Locked? || k.phase.Checked? ==> k.taken == 0 && k.resp == [])
    && (held ==> k.taken == 1 && k.sent == [])
    && (k.phase.Installed? || k.phase.Waiting? ==> k.channel == k.sent && (s.slot == Some(c) || held || k.sent != []))
    && (HasEnding(k.phase) ==> k.phase.end != Busy && (k.phase.end.Got? ==> k.sent == [k.phase.end.reply]))
  }

  ghost predicate Inv(s: State) {
    && (forall c :: 0 <= c < |s.calls| ==> CallInv(s, c))
    && (s.slot.Some? ==> s.slot.value < |s.calls|)
    && (s.mutex.Some? ==> s.mutex.value < |s.calls|)
    && (s.reader.Matching? || s.reader.Holding? ==> s.reader.call < |s.calls|)
    && s.discarded == 0
    && (!s.closer.Open? ==> s.closed)
  }

  lemma InvAt(s: State, c: nat)
    requires Inv(s) && c < |s.calls|
    ensures CallInv(s, c)
  {
  }

  lemma SlotOwner(s: State)
    requires Inv(s) && s.slot.Some?
    ensures s.mutex == s.slot && MayOwnSlot(s.calls[s.slot.value].phase)
  {
    assert CallInv(s, s.slot.value);
  }

  // The slot belongs to the call that holds the mutex, so whoever gets to claim it finds it empty.
  lemma SlotFree(s: State, c: nat)
    requires Inv(s) && At(s, c, Checked)
    ensures s.slot.None?
  {
    assert CallInv(s, c);
    if s.slot.Some? {
      SlotOwner(s);
    }
  }

  lemma MoverInv(s: State, step: Step)
    requires Inv(s) && Enabled(s, step) && IsCallerStep(step)
    ensures CallInv(Do(s, step), step.c)
  {
    hide Inv;
    InvAt(s, step.c);
    if step.Claim? {
      SlotFree(s, step.c);
    }
  }

  // A caller's step concerns the other calls only through the mutex and the slot.
  lemma BystanderInv(s: State, step: Step, d: nat)
    requires Inv(s) && Enabled(s, step) && IsCallerStep(step) && d < |s.calls| && d != step.c
    ensures CallInv(Do(s, step), d)
  {
    hide Inv;
    var t := Do(s, step);
    InvAt(s, d);
    InvAt(s, step.c);
    if step.Claim? {
      SlotFree(s, step.c);
    }
    assert t.calls[d] == s.calls[d];
    assert t.reader == s.reader;
    assert t.mutex == Some(d) <==> s.mutex == Some(d);
    assert t.slot == Some(d) <==> s.slot == Some(d);
  }

  lemma CallerStepInv(s: State, step: Step)
    requires Inv(s) && Enabled(s, step) && IsCallerStep(step)
    ensures Inv(Do(s, step))
  {
    hide CallInv;
    var t := Do(s, step);
    if step.Claim? {
      SlotFree(s, step.c);
    }
    forall d | 0 <= d < |t.calls|
      ensures CallInv(t, d)
    {
      if d == step.c {
        MoverInv(s, step);
      } else {
        BystanderInv(s, step, d);
      }
    }
  }

  // Steps of the read loop and of Close keep what is known about every call.
  lemma SweepAt(s: State, d: nat)
    requires Inv(s) && (s.slot.Some? ==> s.slot.value < |s.calls|) && d < |s.calls|
    ensures d < |Sweep(s).calls| && CallInv(Sweep(s), d)
  {
    hide Inv;
    InvAt(s, d);
    if s.slot.Some? {
      SlotOwner(s);
      InvAt(s, s.slot.value);
    }
  }

  predicate IsSweep(step: Step) {
    step.ReaderSweep? || step.CloseSweep?
  }

  lemma SweepStepAt(s: State, step: Step, d: nat)
    requires Inv(s) && Enabled(s, step) && IsSweep(step) && d < |s.calls|
    ensures d < |Do(s, step).calls| && CallInv(Do(s, step), d)
  {
    hide Inv, Sweep;
    SweepAt(s, d);
    SweepKeeps(s);
  }

  lemma DeliverAt(s: State, d: nat)
    requires Inv(s) && Enabled(s, ReaderDeliver) && d < |s.calls|
    ensures d < |Do(s, ReaderDeliver).calls| && CallInv(Do(s, ReaderDeliver), d)
  {
    hide Inv, Sweep, Take;
    ReaderOwner(s);
    InvAt(s, d);
  }

  lemma TakeAt(s: State, ok: bool, d: nat)
    requires Inv(s) && Enabled(s, ReaderTake(ok)) && d < |s.calls|
    ensures d < |Do(s, ReaderTake(ok)).calls| && CallInv(Do(s, ReaderTake(ok)), d)
  {
    hide Inv, Sweep, Send;
    ReaderOwner(s);
    InvAt(s, d);
  }

  lemma AppendAt(s: State, d: nat)
    requires Inv(s) && Enabled(s, ReaderAppend) && d < |s.calls|
    ensures d < |Do(s, ReaderAppend).calls| && CallInv(Do(s, ReaderAppend), d)
  {
    hide Inv, Sweep, Send, Take;
    ReaderOwner(s);
    InvAt(s, d);
  }

  // Steps that change no call that exists.
  lemma QuietAt(s: State, step: Step, d: nat)
    requires Inv(s) && Enabled(s, step) && d < |Do(s, step).calls|
    requires step.NewCall? || step.ReaderMatch? || step.ReaderEof? || step.ReaderFail? || step.CloseStart?
    ensures CallInv(Do(s, step), d)
  {
    hide Inv, Sweep, Send, Take;
    ReaderOwner(s);
    if d < |s.calls| {
      InvAt(s, d);
    }
  }

  lemma ServerStepAt(s: State, step: Step, d: nat)
    requires Inv(s) && Enabled(s, step) && !IsCallerStep(step) && d < |Do(s, step).calls|
    ensures CallInv(Do(s, step), d)
  {
    hide Inv, Do, CallInv, Enabled;
    SameCalls(s, step);
    match step
    case ReaderTake(ok) => TakeAt(s, ok, d);
    case ReaderAppend => AppendAt(s, d);
    case ReaderDeliver => DeliverAt(s, d);
    case ReaderSweep => SweepStepAt(s, step, d);
    case CloseSweep => SweepStepAt(s, step, d);
    case _ => QuietAt(s, step, d);
  }

  lemma SameCalls(s: State, step: Step)
    requires Enabled(s, step) && !IsCallerStep(step)
    ensures !step.NewCall? ==> |Do(s, step).calls| == |s.calls|
  {
  }

  lemma SweepKeeps(s: State)
    requires s.slot.Some? ==> s.slot.value < |s.calls|
    ensures Sweep(s).reader == s.reader && Sweep(s).mutex == s.mutex && |Sweep(s).calls| == |s.calls|
  {
  }

  lemma ReaderOwner(s: State)
    requires Inv(s)
    ensures s.slot.Some? ==> s.slot.value < |s.calls|
    ensures s.mutex.Some? ==> s.mutex.value < |s.calls|
    ensures s.reader.Holding? ==> s.reader.call < |s.calls| && s.calls[s.reader.call].channel == []
  {
    if s.reader.Holding? {
      assert CallInv(s, s.reader.call);
    }
  }

  lemma OtherStepInv(s: State, step: Step)
    requires Inv(s) && Enabled(s, step) && !IsCallerStep(step)
    ensures Inv(Do(s, step))
  {
    hide CallInv;
    var t := Do(s, step);
    if s.slot.Some? {
      EmptyChannel(s);
    }
    ReaderOwner(s);
    forall d | 0 <= d < |t.calls|
      ensures CallInv(t, d)
    {
      ServerStepAt(s, step, d);
    }
  }

  lemma EmptyChannel(s: State)
    requires Inv(s) && s.slot.Some?
    ensures s.calls[s.slot.value].channel == []
  {
    assert CallInv(s, s.slot.value);
  }

  lemma {:induction false} RunInv(s: State, steps: seq<Step>, t: State)
    requires Inv(s) && Reaches(s, steps, t)
    ensures Inv(t)
    decreases |steps|
  {
    hide Inv, Do, Enabled;
    if steps != [] {
      if IsCallerStep(steps[0]) {
        CallerStepInv(s, steps[0]);
      } else {
        OtherStepInv(s, steps[0]);
      }
      RunInv(Do(s, steps[0]), steps[1..], t);
    }
  }

  // Results ------------------------------------------------------------------------------------

  // Every interleaving: a command leaves the slot at most once and gets at most one result; no
  // result is ever discarded; a response is exactly what was attributed to that command; the slot is
  // in use only under the command mutex, so no call ends with "another command in flight".
  lemma ExactlyOnce(steps: seq<Step>, t: State, c: nat)
    requires Reaches(INIT, steps, t) && c < |t.calls|
    ensures t.discarded == 0
    ensures t.calls[c].taken <= 1 && |t.calls[c].sent| <= t.calls[c].taken
    ensures t.slot.Some? ==> t.mutex == t.slot
    ensures forall e :: t.calls[c].phase == Returned(e) ==>
      && e != Busy
      && (e.Got? ==> t.calls[c].sent == [e.reply])
      && (e.Got? && e.reply.Response? ==> e.reply.lines == t.calls[c].resp)
  {
    hide Reaches;
    RunInv(INIT, steps, t);
    assert CallInv(t, c);
    if t.slot.Some? {
      assert CallInv(t, t.slot.value);
    }
  }

  // A call that waits is never forgotten: it still owns the slot, or its result is on the way or there.
  lemma WaitingIsServed(steps: seq<Step>, t: State, c: nat)
    requires Reaches(INIT, steps, t) && At(t, c, Waiting)
    ensures t.slot == Some(c) || (t.reader.Holding? && t.reader.call == c) || t.calls[c].channel != []
  {
    hide Reaches;
    RunInv(INIT, steps, t);
    assert CallInv(t, c);
  }

  // Work left for the callers.
  function Rank(p: Phase): nat {
    match p
    case Entering => 7
    case Locked => 6
    case Checked => 5
    case Installed => 4
    case Waiting => 3
    case Leaving(_) => 2
    case Unlocking(_) => 1
    case Returned(_) => 0
  }

  function Work(calls: seq<Call>): nat {
    if calls == [] then 0 else Rank(calls[0].phase) + Work(calls[1..])
  }

  function CallerSteps(steps: seq<Step>): nat {
    if steps == [] then 0 else (if IsCallerStep(steps[0]) then 1 else 0) + CallerSteps(steps[1..])
  }

  lemma {:induction false} WorkUpdate(calls: seq<Call>, c: nat, k: Call)
    requires c < |calls|
    ensures Work(calls[c := k]) == Work(calls) - Rank(calls[c].phase) + Rank(k.phase)
  {
    if c == 0 {
      assert calls[0 := k][1..] == calls[1..];
    } else {
      WorkUpdate(calls[1..], c - 1, k);
      assert calls[c := k][1..] == calls[1..][c - 1 := k];
    }
  }

  lemma StepWork(s: State, step: Step)
    requires Enabled(s, step) && !step.NewCall?
    ensures Work(Do(s, step).calls) + (if IsCallerStep(step) then 1 else 0) <= Work(s.calls)
  {
    hide Work;
    var t := Do(s, step);
    if IsCallerStep(step) {
      var c := step.c;
      assert t.calls == s.calls[c := t.calls[c]];
      WorkUpdate(s.calls, c, t.calls[c]);
    } else {
      UnmovedWork(s.calls, t.calls);
    }
  }

  lemma {:induction false} UnmovedWork(a: seq<Call>, b: seq<Call>)
    requires |a| == |b| && forall i :: 0 <= i < |a| ==> a[i].phase == b[i].phase
    ensures Work(a) == Work(b)
  {
    if a != [] {
      UnmovedWork(a[1..], b[1..]);
    }
  }

  // Calls already made take a bounded number of steps, whatever the reader and Close do ...
  lemma {:induction false} CallersFinish(s: State, steps: seq<Step>, t: State)
    requires Reaches(s, steps, t) && forall i :: 0 <= i < |steps| ==> !steps[i].NewCall?
    ensures CallerSteps(steps) + Work(t.calls) <= Work(s.calls)
    decreases |steps|
  {
    hide Work, Do, Enabled;
    if steps != [] {
      StepWork(s, steps[0]);
      CallersFinish(Do(s, steps[0]), steps[1..], t);
    }
  }

  lemma {:induction false} SomeWork(calls: seq<Call>) returns (c: nat)
    requires Work(calls) > 0
    ensures c < |calls| && !calls[c].phase.Returned?
  {
    if Rank(calls[0].phase) > 0 {
      c := 0;
    } else {
      var d := SomeWork(calls[1..]);
      c := d + 1;
    }
  }

  // ... and once the driver is closed they never get stuck: as long as one has not returned, some
  // caller can take a step that is no timeout. So after Close every call returns.
  lemma ClosedNeverStuck(steps: seq<Step>, s: State)
    requires Reaches(INIT, steps, s) && s.closed && Work(s.calls) > 0
    ensures exists step :: IsCallerStep(step) && !step.TimeOut? && Enabled(s, step)
  {
    hide Reaches, Work;
    RunInv(INIT, steps, s);
    var c := SomeWork(s.calls);
    assert CallInv(s, c);
    if s.calls[c].phase.Entering? && s.mutex.Some? {
      assert CallInv(s, s.mutex.value);
      OwnStep(s, s.mutex.value);
    } else {
      OwnStep(s, c);
    }
  }

  lemma OwnStep(s: State, c: nat)
    requires c < |s.calls| && s.closed && !s.calls[c].phase.Returned?
    requires s.calls[c].phase.Entering? ==> s.mutex.None?
    ensures exists step :: IsCallerStep(step) && !step.TimeOut? && Enabled(s, step)
  {
    var step := match s.calls[c].phase
      case Entering => Lock(c)
      case Locked => CheckClosed(c)
      case Checked => Claim(c)
      case Installed => Write(c, true)
      case Waiting => SeeClosed(c)
      case Leaving(_) => CleanUp(c)
      case _ => Unlock(c);
    assert IsCallerStep(step) && !step.TimeOut? && Enabled(s, step);
  }

  // Without Close this fails after a clean end of input. Such a state is reached by this run: the read
  // loop is gone, nothing was closed, and a command that was issued afterwards has nothing left but to
  // time out.
  lemma EofLeavesOnlyTimeout()
    ensures exists steps, t ::
      && Reaches(INIT, steps, t) && At(t, 0, Waiting)
      && (forall step :: Enabled(t, step) && IsCallerStep(step) && step.c == 0 ==> step.TimeOut?)
      && t.reader.Exited? && !t.closed
  {
    var s1 := INIT.(reader := Exited);
    var t := State([FRESH.(phase := Waiting)], Some(0), Some(0), false, Open, Exited, 0);
    OnlyTimeout(t);
    var tail := [NewCall, Lock(0), CheckClosed(0), Claim(0), Write(0, true)];
    CallAfterEof(s1, t);
    Chain([ReaderSweep] + tail, INIT.(reader := Exiting), s1, t);
    Chain([ReaderEof] + ([ReaderSweep] + tail), INIT, INIT.(reader := Exiting), t);
  }

  lemma CallAfterEof(s1: State, t: State)
    requires s1 == INIT.(reader := Exited)
    requires t == State([FRESH.(phase := Waiting)], Some(0), Some(0), false, Open, Exited, 0)
    ensures Reaches(s1, [NewCall, Lock(0), CheckClosed(0), Claim(0), Write(0, true)], t)
  {
    hide Sweep, Send, Reaches;
    var s2 := s1.(calls := [FRESH]);
    var s3 := s2.(calls := [FRESH.(phase := Locked)], mutex := Some(0));
    var s4 := s3.(calls := [FRESH.(phase := Checked)]);
    var s5 := s4.(calls := [FRESH.(phase := Installed)], slot := Some(0));
    ReachesSelf(t);
    Chain([Write(0, true)], s5, t, t);
    Chain([Claim(0), Write(0, true)], s4, s5, t);
    Chain([CheckClosed(0), Claim(0), Write(0, true)], s3, s4, t);
    Chain([Lock(0), CheckClosed(0), Claim(0), Write(0, true)], s2, s3, t);
    Chain([NewCall, Lock(0), CheckClosed(0), Claim(0), Write(0, true)], s1, s2, t);
  }

  lemma ReachesSelf(s: State)
    ensures Reaches(s, [], s)
  {
  }

  lemma OnlyTimeout(t: State)
    requires At(t, 0, Waiting) && t.calls[0].channel == [] && !t.closed
    ensures forall step :: Enabled(t, step) && IsCallerStep(step) && step.c == 0 ==> step.TimeOut?
  {
  }

  lemma Chain(steps: seq<Step>, s: State, s': State, t: State)
    requires steps != [] && Enabled(s, steps[0]) && Do(s, steps[0]) == s' && Reaches(s', steps[1..], t)
    ensures Reaches(s, steps, t)
  {
  }

  // Nothing of this call has a result, and if it is over it failed to write or timed out; the read loop is
  // gone and nobody has closed the driver.
  predicate Hopeless(s: State, c: nat) {
    && s.reader.Exited? && !s.closed && s.closer.Open?
    && (c < |s.calls| ==>
      && s.calls[c].channel == []
      && (HasEnding(s.calls[c].phase) ==> GaveUp(s.calls[c].phase.end)))
  }

  predicate GaveUp(end: Ending) {
    end == TimedOut || end == WriteFailed
  }

  predicate Unclaimed(p: Phase) {
    p.Entering? || p.Locked? || p.Checked?
  }

  lemma HopelessStep(s: State, step: Step, c: nat)
    requires Inv(s) && Hopeless(s, c) && Enabled(s, step) && step != CloseStart
    ensures Hopeless(Do(s, step), c)
  {
    hide Inv, Sweep, Send;
    if step.Claim? {
      SlotFree(s, step.c);
    }
  }

  lemma {:induction false} HopelessRun(s: State, steps: seq<Step>, t: State, c: nat)
    requires Inv(s) && Hopeless(s, c) && Reaches(s, steps, t) && CloseStart !in steps
    ensures Hopeless(t, c)
    decreases |steps|
  {
    hide Inv, Do, Enabled, Hopeless;
    if steps != [] {
      assert steps[0] in steps && forall x :: x in steps[1..] ==> x in steps;
      StepInv(s, steps[0]);
      HopelessStep(s, steps[0], c);
      HopelessRun(Do(s, steps[0]), steps[1..], t, c);
    }
  }

  lemma StepInv(s: State, step: Step)
    requires Inv(s) && Enabled(s, step)
    ensures Inv(Do(s, step))
  {
    hide *;
    if IsCallerStep(step) {
      CallerStepInv(s, step);
    } else {
      OtherStepInv(s, step);
    }
  }

  lemma UnclaimedIsEmpty(s: State, c: nat)
    requires Inv(s) && (c < |s.calls| ==> Unclaimed(s.calls[c].phase))
    ensures s.reader.Exited? && !s.closed ==> Hopeless(s, c)
  {
    if c < |s.calls| {
      assert CallInv(s, c);
    }
  }

  // The step that takes the holder of the mutex, or else the call itself, further in a closed driver.
  function Onward(s: State, c: nat): Step
    requires c < |s.calls|
  {
    match s.calls[c].phase
    case Entering => Lock(c)
    case Locked => CheckClosed(c)
    case Checked => Claim(c)
    case Installed => Write(c, true)
    case Waiting => SeeClosed(c)
    case Leaving(_) => CleanUp(c)
    case _ => Unlock(c)
  }

  predicate Leads(s: State, c: nat) {
    c < |s.calls| && (HasEnding(s.calls[c].phase) ==> s.calls[c].phase.end == SawClosed)
  }

  lemma OnwardStep(s: State, d: nat, c: nat)
    requires Inv(s) && s.closed && Leads(s, c) && d < |s.calls| && !s.calls[d].phase.Returned?
    requires s.calls[d].phase.Entering? ==> s.mutex.None?
    ensures var step := Onward(s, d);
      && Enabled(s, step) && IsCallerStep(step)
      && Do(s, step).closed && Leads(Do(s, step), c)
  {
    hide Inv, Sweep, Send;
    if s.calls[d].phase.Checked? {
      SlotFree(s, d);
    }
  }

  lemma MutexHolder(s: State)
    requires Inv(s) && s.mutex.Some?
    ensures s.mutex.value < |s.calls| && HoldsLock(s.calls[s.mutex.value].phase)
  {
    assert CallInv(s, s.mutex.value);
  }

  // Once the driver is closed, a call that has not got anything else can be brought to see it.
  lemma {:induction false} ClosedReturns(s: State, c: nat) returns (steps: seq<Step>, t: State)
    requires Inv(s) && s.closed && Leads(s, c)
    ensures Reaches(s, steps, t) && At(t, c, Returned(SawClosed))
    decreases Work(s.calls)
  {
    hide Inv, Do, Enabled, Work, Reaches, CallInv;
    if s.calls[c].phase.Returned? {
      steps, t := [], s;
      ReachesSelf(s);
    } else {
      var d := c;
      if s.calls[c].phase.Entering? && s.mutex.Some? {
        MutexHolder(s);
        d := s.mutex.value;
      }
      OnwardStep(s, d, c);
      var step := Onward(s, d);
      StepInv(s, step);
      StepWork(s, step);
      var more;
      more, t := ClosedReturns(Do(s, step), c);
      steps := [step] + more;
      assert steps[1..] == more;
      Chain(steps, s, Do(s, step), t);
    }
  }

  lemma InitInv()
    ensures Inv(INIT)
  {
  }

  // The call is over and neither timed out nor failed to write.
  predicate EndsOtherwise(s: State, c: nat) {
    c < |s.calls| && s.calls[c].phase.Returned? && !GaveUp(s.calls[c].phase.end)
  }

  // Every run after a clean end of input: a call that had not claimed the slot by then, or that is made
  // later, fails to write or times out in every continuation in which nobody calls Close; and Close is
  // all it takes for it to end otherwise.
  lemma AfterEndOfInput(before: seq<Step>, s: State, c: nat)
    requires Reaches(INIT, before, s) && s.reader.Exited? && !s.closed
    requires c < |s.calls| ==> Unclaimed(s.calls[c].phase)
    ensures forall steps, t :: Reaches(s, steps, t) && EndsOtherwise(t, c) ==> CloseStart in steps
    ensures exists steps, t :: Reaches(s, steps, t) && CloseStart in steps && At(t, c, Returned(SawClosed))
  {
    hide Reaches, Inv, Do, Enabled, CallInv;
    InitInv();
    RunInv(INIT, before, s);
    UnclaimedIsEmpty(s, c);
    forall steps, t | Reaches(s, steps, t) && CloseStart !in steps
      ensures !EndsOtherwise(t, c)
    {
      HopelessRun(s, steps, t, c);
    }
    CloseHelps(s, c);
  }

  lemma CloseHelps(s: State, c: nat)
    requires Inv(s) && !s.closed && (c < |s.calls| ==> Unclaimed(s.calls[c].phase))
    ensures exists steps, t :: Reaches(s, steps, t) && CloseStart in steps && At(t, c, Returned(SawClosed))
    decreases if c < |s.calls| then 0 else 1 + c - |s.calls|
  {
    hide Reaches, Inv, CallInv;
    if c < |s.calls| {
      StepInv(s, CloseStart);
      var more, t := ClosedReturns(Do(s, CloseStart), c);
      Chain([CloseStart] + more, s, Do(s, CloseStart), t);
      assert CloseStart in [CloseStart] + more;
    } else {
      StepInv(s, NewCall);
      CloseHelps(Do(s, NewCall), c);
      var more, t :| Reaches(Do(s, NewCall), more, t) && CloseStart in more && At(t, c, Returned(SawClosed));
      Chain([NewCall] + more, s, Do(s, NewCall), t);
      assert CloseStart in [NewCall] + more;
    }
  }

  predicate OnlyOwn(steps: seq<Step>, c: nat) {
    forall i :: 0 <= i < |steps| ==> IsCallerStep(steps[i]) && steps[i].c == c && !steps[i].TimeOut?
  }

  // A waiting call can return by itself, without timing out, if and only if its result is in its channel
  // or the driver is closed.
  lemma WaitingCanMoveIff(s: State, c: nat)
    requires At(s, c, Waiting)
    ensures (exists steps, t :: OnlyOwn(steps, c) && Reaches(s, steps, t) && c < |t.calls| && t.calls[c].phase.Returned?)
      <==> s.calls[c].channel != [] || s.closed
  {
    hide Take;
    if s.calls[c].channel != [] {
      ReturnsAfter(s, Receive(c), c);
    } else if s.closed {
      ReturnsAfter(s, SeeClosed(c), c);
    }
  }

  lemma ReturnsAfter(s: State, step: Step, c: nat)
    requires At(s, c, Waiting) && Enabled(s, step) && (step == Receive(c) || step == SeeClosed(c))
    ensures exists steps, t ::
      OnlyOwn(steps, c) && Reaches(s, steps, t) && c < |t.calls| && t.calls[c].phase.Returned?
  {
    hide Reaches, Sweep, Send;
    var s1 := Do(s, step);
    var s2 := Do(s1, CleanUp(c));
    var t := Do(s2, Unlock(c));
    ReachesSelf(t);
    Chain([Unlock(c)], s2, t, t);
    Chain([CleanUp(c), Unlock(c)], s1, s2, t);
    Chain([step, CleanUp(c), Unlock(c)], s, s1, t);
    assert OnlyOwn([step, CleanUp(c), Unlock(c)], c);
  }
}
