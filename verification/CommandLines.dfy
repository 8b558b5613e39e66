// The driver object and the interleavings of the pending command describe the same thing: what one line
// or one call does to the object is what the protocol's steps do when nobody interferes.
module CommandLines {
  import opened Prelude
  import opened Driver
  import P = CommandProtocol

  // The slot of the protocol holds the command the reader has pending, with the same response lines.
  predicate Matches(s: P.State, r: Reader) {
    && s.reader.Reading?
    && (s.slot.None? <==> r.pending.None?)
    && (s.slot.Some? ==> s.slot.value < |s.calls| && s.calls[s.slot.value].resp == r.pending.value.resp)
  }

  // Claiming the slot is issuing the command.
  lemma ClaimIsIssue(s: P.State, r: Reader, c: nat, cmd: string)
    requires P.Inv(s) && Matches(s, r) && P.At(s, c, P.Checked)
    ensures r.pending.None?
    ensures var t := P.Do(s, P.Claim(c)); Matches(t, Issue(r, cmd)) && t.slot == Some(c)
  {
    hide P.Inv;
    P.SlotFree(s, c);
    P.InvAt(s, c);
  }

  // One line is at most two steps of the read loop.
  lemma LineIsSteps(s: P.State, r: Reader, line: string, c: nat) returns (steps: seq<P.Step>, t: P.State)
    requires P.Inv(s) && WellFormed(r) && Matches(s, r) && s.slot == Some(c)
    ensures P.Reaches(s, steps, t) && P.Inv(t) && Matches(t, Handle(r, line))
    ensures c < |t.calls| && t.calls[c].phase == s.calls[c].phase && t.closed == s.closed && |t.calls| == |s.calls|
    ensures var q := Handle(r, line);
      && (q.pending.Some? ==> t.slot == Some(c) && q.outcomes == r.outcomes)
      && (q.pending.None? ==>
        && |q.outcomes| == |r.outcomes| + 1 && q.outcomes[..|r.outcomes|] == r.outcomes
        && t.calls[c].channel == [P.Response(q.outcomes[|r.outcomes|].ok, q.outcomes[|r.outcomes|].lines)])
  {
    hide Handle, P.Inv, P.Reaches, P.Do, P.Enabled;
    LineEffect(r, line);
    var q := Handle(r, line);
    if q.pending == r.pending {
      steps, t := [], s;
      P.ReachesSelf(s);
    } else if q.pending.Some? {
      t := AppendSteps(s, c, line);
      steps := [P.ReaderMatch(line), P.ReaderAppend];
    } else {
      var ok, fail :| q.outcomes == r.outcomes + [Outcome(r.pending.value.cmd, ok, fail, r.pending.value.resp)];
      t := CompleteSteps(s, c, ok);
      steps := [P.ReaderTake(ok), P.ReaderDeliver];
    }
  }

  lemma AppendSteps(s: P.State, c: nat, line: string) returns (t: P.State)
    requires P.Inv(s) && s.reader.Reading? && s.slot == Some(c) && c < |s.calls|
    ensures P.Reaches(s, [P.ReaderMatch(line), P.ReaderAppend], t) && P.Inv(t)
    ensures t == s.(calls := s.calls[c := s.calls[c].(resp := s.calls[c].resp + [line])], reader := P.Reading)
  {
    hide P.Inv, P.Reaches;
    var s1 := P.Do(s, P.ReaderMatch(line));
    t := P.Do(s1, P.ReaderAppend);
    P.StepInv(s, P.ReaderMatch(line));
    P.StepInv(s1, P.ReaderAppend);
    P.ReachesSelf(t);
    P.Chain([P.ReaderAppend], s1, t, t);
    P.Chain([P.ReaderMatch(line), P.ReaderAppend], s, s1, t);
  }

  lemma CompleteSteps(s: P.State, c: nat, ok: bool) returns (t: P.State)
    requires P.Inv(s) && s.reader.Reading? && s.slot == Some(c) && c < |s.calls|
    ensures P.Reaches(s, [P.ReaderTake(ok), P.ReaderDeliver], t) && P.Inv(t)
    ensures t.slot.None? && t.reader.Reading? && |t.calls| == |s.calls| && t.closed == s.closed
    ensures t.calls[c].phase == s.calls[c].phase && t.calls[c].channel == [P.Response(ok, s.calls[c].resp)]
  {
    hide P.Inv, P.Reaches;
    P.EmptyChannel(s);
    var s1 := P.Do(s, P.ReaderTake(ok));
    t := P.Do(s1, P.ReaderDeliver);
    P.StepInv(s, P.ReaderTake(ok));
    P.StepInv(s1, P.ReaderDeliver);
    P.ReachesSelf(t);
    P.Chain([P.ReaderDeliver], s1, t, t);
    P.Chain([P.ReaderTake(ok), P.ReaderDeliver], s, s1, t);
  }

  // The end of the call: it takes its result or times out, then cleans up.
  lemma ReturnSteps(s: P.State, c: nat) returns (steps: seq<P.Step>, t: P.State)
    requires P.Inv(s) && s.reader.Reading? && P.At(s, c, P.Waiting)
    requires (s.slot == Some(c) && s.calls[c].channel == []) || (s.slot.None? && s.calls[c].channel != [])
    ensures P.Reaches(s, steps, t) && t.slot.None? && t.reader.Reading?
    ensures P.At(t, c, P.Returned(
      if s.calls[c].channel == [] then P.TimedOut else P.Got(s.calls[c].channel[0])))
  {
    hide P.Inv, P.Reaches, P.Sweep, P.Send;
    var first := if s.calls[c].channel == [] then P.TimeOut(c) else P.Receive(c);
    var s1 := P.Do(s, first);
    var s2 := P.Do(s1, P.CleanUp(c));
    t := P.Do(s2, P.Unlock(c));
    steps := [first, P.CleanUp(c), P.Unlock(c)];
    P.ReachesSelf(t);
    P.Chain([P.Unlock(c)], s2, t, t);
    P.Chain([P.CleanUp(c), P.Unlock(c)], s1, s2, t);
    P.Chain(steps, s, s1, t);
  }

  // While the call waits, the lines are steps of the read loop, up to the end of the call.
  lemma {:induction false} AwaitIsSteps(s: P.State, r: Reader, lines: seq<string>, c: nat)
      returns (steps: seq<P.Step>, t: P.State)
    requires P.Inv(s) && WellFormed(r) && Matches(s, r) && s.slot == Some(c) && P.At(s, c, P.Waiting)
    ensures P.Reaches(s, steps, t) && Matches(t, Release(Awaited(r, lines)))
    ensures P.At(t, c, Ended(r, Awaited(r, lines)))
    decreases |lines|
  {
    hide Handle, P.Inv, P.Reaches, P.Do, P.Enabled;
    if lines == [] {
      P.EmptyChannel(s);
      steps, t := ReturnSteps(s, c);
    } else {
      var first, s1 := LineIsSteps(s, r, lines[0], c);
      var q := Handle(r, lines[0]);
      var more;
      if q.pending.Some? {
        more, t := AwaitIsSteps(s1, q, lines[1..], c);
      } else {
        AwaitedDone(q, lines[1..]);
        more, t := ReturnSteps(s1, c);
      }
      steps := first + more;
      Joined(s, first, s1, more, t);
    }
  }

  lemma AwaitedDone(r: Reader, lines: seq<string>)
    requires WellFormed(r) && r.pending.None?
    ensures Awaited(r, lines) == r
  {
  }

  // How the call returns, seen from the results before and after.
  function Ended(r: Reader, q: Reader): P.Phase {
    match Newly(r.outcomes, q.outcomes)
    case None => P.Returned(P.TimedOut)
    case Some(o) => P.Returned(P.Got(P.Response(o.ok, o.lines)))
  }

  lemma {:induction false} Joined(s: P.State, a: seq<P.Step>, m: P.State, b: seq<P.Step>, t: P.State)
    requires P.Reaches(s, a, m) && P.Reaches(m, b, t)
    ensures P.Reaches(s, a + b, t)
    decreases |a|
  {
    hide P.Do, P.Enabled;
    if a == [] {
      assert a + b == b;
    } else {
      Joined(P.Do(s, a[0]), a[1..], m, b, t);
      assert (a + b)[1..] == a[1..] + b && (a + b)[0] == a[0];
    }
  }

  // The beginning of a call that nobody disturbs.
  lemma CallBegins(s: P.State, r: Reader, cmd: string) returns (steps: seq<P.Step>, t: P.State)
    requires P.Inv(s) && Matches(s, r) && s.mutex.None? && s.slot.None? && !s.closed
    ensures P.Reaches(s, steps, t) && P.Inv(t)
    ensures var c := |s.calls|; Matches(t, Issue(r, cmd)) && t.slot == Some(c) && P.At(t, c, P.Waiting)
  {
    hide P.Inv, P.Reaches, P.Sweep, P.Send, P.Take;
    var c := |s.calls|;
    var s1 := P.Do(s, P.NewCall);
    var s2 := P.Do(s1, P.Lock(c));
    var s3 := P.Do(s2, P.CheckClosed(c));
    var s4 := P.Do(s3, P.Claim(c));
    t := P.Do(s4, P.Write(c, true));
    P.StepInv(s, P.NewCall);
    P.StepInv(s1, P.Lock(c));
    P.StepInv(s2, P.CheckClosed(c));
    P.StepInv(s3, P.Claim(c));
    P.StepInv(s4, P.Write(c, true));
    steps := [P.NewCall, P.Lock(c), P.CheckClosed(c), P.Claim(c), P.Write(c, true)];
    P.ReachesSelf(t);
    P.Chain([P.Write(c, true)], s4, t, t);
    P.Chain([P.Claim(c), P.Write(c, true)], s3, s4, t);
    P.Chain([P.CheckClosed(c), P.Claim(c), P.Write(c, true)], s2, s3, t);
    P.Chain([P.Lock(c), P.CheckClosed(c), P.Claim(c), P.Write(c, true)], s1, s2, t);
    P.Chain(steps, s, s1, t);
  }

  // A whole call without interference: from any reachable state in which no call is under way, the
  // protocol has a run that leads to what Driver.Command does to the object, and the call returns what
  // Driver.Command returns.
  lemma CommandIsSteps(before: seq<P.Step>, s: P.State, r: Reader, cmd: string, lines: seq<string>)
    requires P.Reaches(P.INIT, before, s) && s.mutex.None? && s.slot.None? && !s.closed
    requires WellFormed(r) && Matches(s, r)
    ensures var q := Awaited(Issue(r, cmd), lines);
      exists steps, t :: P.Reaches(s, steps, t) && Matches(t, Release(q)) && P.At(t, |s.calls|, Ended(r, q))
  {
    hide P.Inv, P.Reaches, Matches, Awaited;
    P.InitInv();
    P.RunInv(P.INIT, before, s);
    var first, m := CallBegins(s, r, cmd);
    var more, t := AwaitIsSteps(m, Issue(r, cmd), lines, |s.calls|);
    Joined(s, first, m, more, t);
  }
}
