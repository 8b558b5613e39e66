// Correlation of responses with requests by transaction identifier.
module Meter {
  import opened Prelude
  import opened Echonet

  // Transaction identifiers ---------------------------------------------------------------------

  const WRAP := 0x1_0000_0000

  // One atomic addition to the 32-bit counter.
  function Bump(counter: nat): nat {
    (counter + 1) % WRAP
  }

  // The counter after a call took its identifier; zero is skipped.
  function NextCounter(counter: nat): nat {
    if Bump(counter) % 0x1_0000 == 0 then Bump(Bump(counter)) else Bump(counter)
  }

  // The counter before call number k, when calls take their identifiers one after the other.
  function CounterBefore(k: nat): nat {
    if k == 0 then 1 else NextCounter(CounterBefore(k - 1))
  }

  function TidOfCall(k: nat): uint16 {
    NextCounter(CounterBefore(k)) % 0x1_0000
  }

  lemma NextLow(counter: nat)
    requires counter < WRAP
    ensures NextCounter(counter) < WRAP
    ensures NextCounter(counter) % 0x1_0000 == if counter % 0x1_0000 == 0xFFFF then 1 else counter % 0x1_0000 + 1
  {
    hide Bump;
    BumpLow(counter);
    BumpLow(Bump(counter));
  }

  lemma BumpLow(counter: nat)
    requires counter < WRAP
    ensures Bump(counter) < WRAP
    ensures Bump(counter) % 0x1_0000 == if counter % 0x1_0000 == 0xFFFF then 0 else counter % 0x1_0000 + 1
  {
    var q, r := counter / 0x1_0000, counter % 0x1_0000;
    if r < 0xFFFF {
      Low16(Bump(counter), q, r + 1);
    } else if counter + 1 < WRAP {
      Low16(Bump(counter), q + 1, 0);
    }
  }

  lemma {:induction false} CounterLow(k: nat)
    ensures CounterBefore(k) < WRAP && CounterBefore(k) % 0x1_0000 == k % 0xFFFF + 1
  {
    if k > 0 {
      CounterLow(k - 1);
      NextLow(CounterBefore(k - 1));
      NextResidue(k);
    }
  }

  lemma NextResidue(k: nat)
    requires k > 0
    ensures k % 0xFFFF == if (k - 1) % 0xFFFF == 0xFFFE then 0 else (k - 1) % 0xFFFF + 1
  {
  }

  // Across the cut to 16 bits and the wrap of the 32-bit counter, call number k gets this identifier.
  lemma TidFormula(k: nat)
    ensures TidOfCall(k) == (k + 1) % 0xFFFF + 1
    ensures TidOfCall(k) != 0
  {
    CounterLow(k + 1);
  }

  // Any 65535 consecutive calls have pairwise different identifiers, and no fewer suffice for a repeat.
  lemma TidsDistinct(i: nat, j: nat)
    requires i < j
    ensures j < i + 0xFFFF ==> TidOfCall(i) != TidOfCall(j)
    ensures j == i + 0xFFFF ==> TidOfCall(i) == TidOfCall(j)
  {
    hide TidOfCall;
    TidFormula(i);
    TidFormula(j);
    Residues(i + 1, j + 1);
  }

  lemma Residues(a: nat, b: nat)
    requires a < b
    ensures b < a + 0xFFFF ==> a % 0xFFFF != b % 0xFFFF
    ensures b == a + 0xFFFF ==> a % 0xFFFF == b % 0xFFFF
  {
  }

  // The client object: its critical sections -------------------------------------------------------

  class Client {
    // atomic 32-bit counter
    var tid: nat
    // identifiers of outstanding requests; a channel is named by the number of its call
    var pending: map<uint16, nat>

    ghost predicate Valid()
      reads this
    {
      tid < WRAP
    }

    constructor ()
      ensures Valid() && tid == CounterBefore(0) && pending == map[]
    {
      tid, pending := 1, map[];
    }

    method TakeTid() returns (t: uint16)
      requires Valid()
      modifies this`tid
      ensures Valid() && tid == NextCounter(old(tid)) && t == tid % 0x1_0000 && t != 0
    {
      tid := Bump(tid);
      t := tid % 0x1_0000;
      if t == 0 {
        tid := Bump(tid);
        t := tid % 0x1_0000;
      }
    }

    method Register(t: uint16, channel: nat)
      modifies this`pending
      ensures pending == old(pending)[t := channel]
    {
      pending := pending[t := channel];
    }

    method Forget(t: uint16)
      modifies this`pending
      ensures pending == old(pending) - {t}
    {
      pending := pending - {t};
    }

    // What the dispatcher does with one datagram: the channel to send to, if any.
    method Claim(payload: seq<byte>) returns (r: Option<(nat, Frame)>)
      modifies this`pending
      ensures (r, pending) == Claimed(old(pending), payload)
    {
      var decoded := Decode(payload);
      if decoded.Err? || decoded.value.tid !in pending {
        return None;
      }
      var f := decoded.value;
      r := Some((pending[f.tid], f));
      pending := pending - {f.tid};
    }

    // One call, while the dispatcher handles these datagrams: the request that is sent, and the answer. mine
    // is the channel of the call.
    method Get(epcs: seq<byte>, mine: nat, sent: bool, arriving: seq<seq<byte>>)
        returns (request: seq<byte>, r: Option<Frame>)
      requires Valid()
      modifies this
      ensures Valid()
      ensures epcs == [] ==> r.None? && tid == old(tid) && pending == old(pending)
      ensures epcs != [] ==>
        && tid == NextCounter(old(tid))
        && var t := tid % 0x1_0000;
           var served := Served(old(pending)[t := mine], t, if sent then arriving else []);
           && request == Encoding(GetRequest(t, SMART_METER, epcs))
           && (|epcs| <= 255 ==> IsRequest(request, t, [0x02, 0x88, 0x01], epcs))
           && r == served.0 && pending == served.1 - {t}
    {
      hide Encoding, Decoding, NextCounter, Claimed, IsRequest;
      if |epcs| == 0 {
        return [], None;
      }
      var t := TakeTid();
      var f := NewGetRequest(t, SMART_METER, epcs);
      request := Encode(f);
      if |epcs| <= 255 {
        RequestBytes(t, SMART_METER, epcs);
      }
      Register(t, mine);
      ghost var start, todo := pending, if sent then arriving else [];
      r := None;
      if sent {
        var i := 0;
        while i < |arriving| && r.None?
          invariant 0 <= i <= |arriving| && tid % 0x1_0000 == t && Valid() && tid == NextCounter(old(tid))
          invariant r.None? ==> Served(start, t, todo) == Served(pending, t, arriving[i..])
          invariant r.Some? ==> Served(start, t, todo) == (r, pending)
        {
          assert arriving[i..][0] == arriving[i] && arriving[i..][1..] == arriving[i + 1..];
          var claimed := Claim(arriving[i]);
          if claimed.Some? && claimed.value.1.tid == t {
            r := Some(claimed.value.1);
          }
          i := i + 1;
        }
      }
      Forget(t);
    }
  }

  // The dispatcher claims datagrams until one carries the identifier.
  function Served(pending: map<uint16, nat>, t: uint16, arriving: seq<seq<byte>>): (Option<Frame>, map<uint16, nat>) {
    if arriving == [] then (None, pending)
    else
      var (claimed, rest) := Claimed(pending, arriving[0]);
      if claimed.Some? && claimed.value.1.tid == t then (Some(claimed.value.1), rest)
      else Served(rest, t, arriving[1..])
  }

  function FirstWith(t: uint16, arriving: seq<seq<byte>>): Option<Frame> {
    if arriving == [] then None
    else if Decoding(arriving[0]).Ok? && Decoding(arriving[0]).value.tid == t then Some(Decoding(arriving[0]).value)
    else FirstWith(t, arriving[1..])
  }

  // The answer is the first datagram that is a frame with the identifier of the call, however many others
  // come before it.
  lemma {:induction false} ServedFirst(pending: map<uint16, nat>, t: uint16, arriving: seq<seq<byte>>)
    requires t in pending
    ensures Served(pending, t, arriving).0 == FirstWith(t, arriving)
    decreases |arriving|
  {
    hide Decoding;
    if arriving != [] {
      var (claimed, rest) := Claimed(pending, arriving[0]);
      if !(claimed.Some? && claimed.value.1.tid == t) {
        ServedFirst(rest, t, arriving[1..]);
      }
    }
  }

  // Taking an identifier is one or two additions of the protocol.
  lemma TakingIsNumbering(n: nat)
    ensures var counter := (1 + n) % WRAP;
      NextCounter(counter) == (1 + (n + if TidAt(n + 1) == 0 then 2 else 1)) % WRAP
  {
    hide TidAt;
    WrapInvisible(n + 1);
    BumpIsAddition(n);
    BumpIsAddition(n + 1);
  }

  lemma BumpIsAddition(n: nat)
    ensures Bump((1 + n) % WRAP) == (1 + (n + 1)) % WRAP
  {
    var q, m := (1 + n) / WRAP, (1 + n) % WRAP;
    assert 1 + n == WRAP * q + m;
  }

  // Datagrams that are no frame, and frames nobody waits for, are dropped.
  function Claimed(pending: map<uint16, nat>, payload: seq<byte>): (Option<(nat, Frame)>, map<uint16, nat>) {
    match Decoding(payload)
    case Err(_) => (None, pending)
    case Ok(f) => if f.tid in pending then (Some((pending[f.tid], f)), pending - {f.tid}) else (None, pending)
  }

  // The protocol: any number of callers and one dispatcher ------------------------------------------

  datatype Ending = Reply(frame: Frame) | SendFailed | TimedOut

  datatype Phase =
    | Starting            // before the first addition
    | Skipping            // the first addition gave zero
    | Numbered            // before the map entry
    | Sending             // before the datagram is sent
    | Waiting             // in the select
    | Leaving(end: Ending) // before the deferred removal
    | Returned(end: Ending)

  // order is the number of the counter addition the identifier came from; channel has capacity one
  // and delivered logs what was put into it.
  datatype Call = Call(phase: Phase, order: nat, tid: uint16, channel: seq<Frame>, delivered: seq<Frame>)

  datatype Dispatcher = Ready | Holding(call: nat, frame: Frame)

  datatype State = State(calls: seq<Call>, adds: nat, pending: map<uint16, nat>, dispatcher: Dispatcher)

  datatype Step =
    | NewCall
    | Number(c: nat) | Enter(c: nat) | Send(c: nat, ok: bool)
    | Receive(c: nat) | TimeOut(c: nat) | Leave(c: nat)
    | Dispatch(payload: seq<byte>) | Deliver

  const INIT := State([], 0, map[], Ready)
  const FRESH := Call(Starting, 0, 0, [], [])

  // The low 16 bits of the counter after addition number n; the 32-bit wrap does not show.
  function TidAt(n: nat): uint16 {
    (1 + n) % 0x1_0000
  }

  lemma WrapInvisible(n: nat)
    ensures (1 + n) % WRAP % 0x1_0000 == TidAt(n)
  {
    var q, m := (1 + n) / WRAP, (1 + n) % WRAP;
    Low16(1 + n, 0x1_0000 * q + m / 0x1_0000, m % 0x1_0000);
  }

  predicate At(s: State, c: nat, p: Phase) {
    c < |s.calls| && s.calls[c].phase == p
  }

  predicate Enabled(s: State, step: Step) {
    match step
    case NewCall => true
    case Number(c) => At(s, c, Starting) || At(s, c, Skipping)
    case Enter(c) => At(s, c, Numbered)
    case Send(c, _) => At(s, c, Sending)
    case Receive(c) => At(s, c, Waiting) && s.calls[c].channel != []
    case TimeOut(c) => At(s, c, Waiting)
    case Leave(c) => c < |s.calls| && s.calls[c].phase.Leaving?
    case Dispatch(_) => s.dispatcher.Ready?
    // a send on a full channel would block
    case Deliver => s.dispatcher.Holding? && s.dispatcher.call < |s.calls| && s.calls[s.dispatcher.call].channel == []
  }

  function Update(s: State, c: nat, k: Call): State
    requires c < |s.calls|
  {
    s.(calls := s.calls[c := k])
  }

  function Do(s: State, step: Step): State
    requires Enabled(s, step)
  {
    match step
    case NewCall => s.(calls := s.calls + [FRESH])
    case Number(c) =>
      var n := s.adds + 1;
      var k := s.calls[c];
      if k.phase.Starting? && TidAt(n) == 0 then Update(s, c, k.(phase := Skipping)).(adds := n)
      else Update(s, c, k.(phase := Numbered, order := n, tid := TidAt(n))).(adds := n)
    case Enter(c) =>
      Update(s, c, s.calls[c].(phase := Sending)).(pending := s.pending[s.calls[c].tid := c])
    case Send(c, ok) => Update(s, c, s.calls[c].(phase := if ok then Waiting else Leaving(SendFailed)))
    case Receive(c) =>
      var k := s.calls[c];
      Update(s, c, k.(phase := Leaving(Reply(k.channel[0])), channel := k.channel[1..]))
    case TimeOut(c) => Update(s, c, s.calls[c].(phase := Leaving(TimedOut)))
    case Leave(c) =>
      Update(s, c, s.calls[c].(phase := Returned(s.calls[c].phase.end))).(pending := s.pending - {s.calls[c].tid})
    case Dispatch(payload) =>
      var (target, pending) := Claimed(s.pending, payload);
      s.(pending := pending, dispatcher := if target.None? then Ready else Holding(target.value.0, target.value.1))
    case Deliver =>
      var k := s.calls[s.dispatcher.call];
      var f := s.dispatcher.frame;
      Update(s, s.dispatcher.call, k.(channel := [f], delivered := k.delivered + [f])).(dispatcher := Ready)
  }

  predicate InFlight(k: Call) {
    k.phase.Numbered? || k.phase.Sending? || k.phase.Waiting? || k.phase.Leaving?
  }

  ghost predicate Runs(s: State, steps: seq<Step>, t: State)
    decreases |steps|
  {
    if steps == [] then s == t else Enabled(s, steps[0]) && Runs(Do(s, steps[0]), steps[1..], t)
  }

  predicate Entered(k: Call) {
    k.phase.Sending? || k.phase.Waiting? || k.phase.Leaving?
  }

  predicate Held(s: State, c: nat) {
    s.dispatcher.Holding? && s.dispatcher.call == c
  }

  predicate HasEntry(s: State, c: nat)
    requires c < |s.calls|
  {
    s.calls[c].tid in s.pending && s.pending[s.calls[c].tid] == c
  }

  predicate CallInv(s: State, c: nat)
    requires c < |s.calls|
  {
    var k := s.calls[c];
    && |k.delivered| <= 1
    && (k.channel == [] || k.channel == k.delivered)
    && (k.delivered != [] ==> k.delivered[0].tid == k.tid && !Held(s, c) && !HasEntry(s, c))
    && (k.phase.Starting? || k.phase.Skipping? || k.phase.Numbered? ==> k.delivered == [] && !Held(s, c))
    && (k.phase.Sending? || k.phase.Waiting? ==> k.channel == k.delivered)
    && (k.phase.Leaving? || k.phase.Returned? ==> k.phase.end.Reply? ==> k.delivered == [k.phase.end.frame])
  }

  predicate EntryInv(s: State, t: uint16)
    requires t in s.pending
  {
    s.pending[t] < |s.calls| && Entered(s.calls[s.pending[t]]) && s.calls[s.pending[t]].tid == t
  }

  // An entry always belongs to a call under way with that identifier.
  ghost predicate Entries(s: State) {
    forall t :: t in s.pending ==> EntryInv(s, t)
  }

  predicate DispatcherInv(s: State) {
    s.dispatcher.Holding? ==>
      var c := s.dispatcher.call;
      c < |s.calls| && s.dispatcher.frame.tid == s.calls[c].tid && !HasEntry(s, c) && s.calls[c].delivered == []
  }

  ghost predicate Inv(s: State) {
    && (forall c :: 0 <= c < |s.calls| ==> CallInv(s, c))
    && Entries(s)
    && DispatcherInv(s)
  }

  lemma InvAt(s: State, c: nat)
    requires Inv(s) && c < |s.calls|
    ensures CallInv(s, c)
  {
  }

  lemma EntryAt(s: State, t: uint16)
    requires Inv(s) && t in s.pending
    ensures EntryInv(s, t)
  {
  }

  lemma DispatcherAt(s: State)
    requires Inv(s)
    ensures DispatcherInv(s)
  {
  }

  // The map never refers to a call that does not exist yet.
  lemma NoEntryYet(s: State)
    requires Inv(s)
    ensures forall t :: t in s.pending ==> s.pending[t] < |s.calls|
  {
    forall t | t in s.pending
      ensures s.pending[t] < |s.calls|
    {
      EntryAt(s, t);
    }
  }

  lemma ClaimStep(s: State, payload: seq<byte>, d: nat)
    requires Inv(s) && s.dispatcher.Ready? && d < |s.calls|
    ensures CallInv(Do(s, Dispatch(payload)), d)
  {
    hide Inv, TidAt, Decoding;
    InvAt(s, d);
    var r := Decoding(payload);
    if r.Ok? && r.value.tid in s.pending {
      EntryAt(s, r.value.tid);
      InvAt(s, s.pending[r.value.tid]);
    }
  }

  // One step, part by part.
  lemma EnterStep(s: State, c: nat, d: nat)
    requires Inv(s) && Enabled(s, Enter(c)) && d < |s.calls|
    ensures CallInv(Do(s, Enter(c)), d)
  {
    hide Inv, TidAt, Decoding;
    DispatcherAt(s);
    InvAt(s, c);
    InvAt(s, d);
  }

  lemma LeaveStep(s: State, c: nat, d: nat)
    requires Inv(s) && Enabled(s, Leave(c)) && d < |s.calls|
    ensures CallInv(Do(s, Leave(c)), d)
  {
    hide Inv, TidAt, Decoding;
    InvAt(s, d);
  }

  lemma NumberStep(s: State, c: nat, d: nat)
    requires Inv(s) && Enabled(s, Number(c)) && d < |s.calls|
    ensures CallInv(Do(s, Number(c)), d)
  {
    hide Inv, TidAt;
    InvAt(s, d);
    NumberedHasNoEntry(s, c);
  }

  predicate IsLocal(step: Step) {
    step.NewCall? || step.Send? || step.Receive? || step.TimeOut? || step.Deliver?
  }

  // Steps that leave the map alone.
  lemma LocalStep(s: State, step: Step, d: nat)
    requires Inv(s) && Enabled(s, step) && IsLocal(step) && d < |Do(s, step).calls|
    ensures CallInv(Do(s, step), d)
  {
    hide Inv, TidAt, Decoding;
    DispatcherAt(s);
    if d < |s.calls| {
      InvAt(s, d);
    } else {
      NoEntryYet(s);
    }
  }

  lemma NumberedHasNoEntry(s: State, c: nat)
    requires Inv(s) && c < |s.calls| && !Entered(s.calls[c])
    ensures forall t :: t in s.pending ==> s.pending[t] != c
  {
    forall t | t in s.pending
      ensures s.pending[t] != c
    {
      EntryAt(s, t);
    }
  }

  lemma CallStep(s: State, step: Step, d: nat)
    requires Inv(s) && Enabled(s, step) && d < |Do(s, step).calls|
    ensures CallInv(Do(s, step), d)
  {
    hide Inv, CallInv, Claimed;
    match step
    case Number(c) => NumberStep(s, c, d);
    case Enter(c) => EnterStep(s, c, d);
    case Leave(c) => LeaveStep(s, c, d);
    case Dispatch(payload) => ClaimStep(s, payload, d);
    case _ => LocalStep(s, step, d);
  }

  lemma EntryStep(s: State, step: Step, t: uint16)
    requires Entries(s) && Enabled(s, step) && t in Do(s, step).pending
    ensures EntryInv(Do(s, step), t)
  {
    hide TidAt, Decoding;
    assert t in s.pending ==> EntryInv(s, t);
  }

  lemma DispatcherStep(s: State, step: Step)
    requires Inv(s) && Enabled(s, step)
    ensures DispatcherInv(Do(s, step))
  {
    hide Inv, TidAt, Decoding, CallInv;
    DispatcherAt(s);
    match step
    case Dispatch(payload) => ClaimedTarget(s, payload);
    case Number(c) => HeldCall(s);
    case Enter(c) => HeldCall(s);
    case _ =>
  }

  // The dispatcher never holds a frame for a call that is not yet in the map.
  lemma HeldCall(s: State)
    requires Inv(s)
    ensures s.dispatcher.Holding? && s.dispatcher.call < |s.calls| ==>
      var p := s.calls[s.dispatcher.call].phase; !p.Starting? && !p.Skipping? && !p.Numbered?
  {
    if s.dispatcher.Holding? && s.dispatcher.call < |s.calls| {
      InvAt(s, s.dispatcher.call);
    }
  }

  lemma ClaimedTarget(s: State, payload: seq<byte>)
    requires Inv(s) && s.dispatcher.Ready?
    ensures DispatcherInv(Do(s, Dispatch(payload)))
  {
    hide Inv, TidAt, Decoding;
    var r := Decoding(payload);
    if r.Ok? && r.value.tid in s.pending {
      EntryAt(s, r.value.tid);
      InvAt(s, s.pending[r.value.tid]);
    }
  }

  lemma StepInv(s: State, step: Step)
    requires Inv(s) && Enabled(s, step)
    ensures Inv(Do(s, step))
  {
    hide CallInv, EntryInv, DispatcherInv, Do, Enabled;
    var t := Do(s, step);
    forall d | 0 <= d < |t.calls|
      ensures CallInv(t, d)
    {
      CallStep(s, step, d);
    }
    forall k | k in t.pending
      ensures EntryInv(t, k)
    {
      EntryStep(s, step, k);
    }
    DispatcherStep(s, step);
  }

  lemma {:induction false} RunInv(s: State, steps: seq<Step>, t: State)
    requires Inv(s) && Runs(s, steps, t)
    ensures Inv(t)
    decreases |steps|
  {
    hide Inv, Do, Enabled;
    if steps != [] {
      StepInv(s, steps[0]);
      RunInv(Do(s, steps[0]), steps[1..], t);
    }
  }

  // Results ------------------------------------------------------------------------------------

  // In every reachable state: the map only names identifiers of calls that are still waiting for their
  // answer, and their channels are empty; the dispatcher's send never blocks.
  lemma MapSafety(steps: seq<Step>, s: State)
    requires Runs(INIT, steps, s)
    ensures forall t :: t in s.pending ==>
      var c := s.pending[t];
      c < |s.calls| && InFlight(s.calls[c]) && s.calls[c].tid == t && s.calls[c].channel == []
    ensures s.dispatcher.Holding? ==> Enabled(s, Deliver)
  {
    hide Runs, CallInv, EntryInv, DispatcherInv, Inv;
    InitInv();
    RunInv(INIT, steps, s);
    forall t | t in s.pending
      ensures var c := s.pending[t];
        c < |s.calls| && InFlight(s.calls[c]) && s.calls[c].tid == t && s.calls[c].channel == []
    {
      EntryEmpty(s, t);
    }
    HeldEmpty(s);
  }

  lemma InitInv()
    ensures Inv(INIT)
  {
  }

  lemma EntryEmpty(s: State, t: uint16)
    requires Inv(s) && t in s.pending
    ensures var c := s.pending[t];
      c < |s.calls| && InFlight(s.calls[c]) && s.calls[c].tid == t && s.calls[c].channel == []
  {
    hide Inv, TidAt;
    EntryAt(s, t);
    InvAt(s, s.pending[t]);
  }

  lemma HeldEmpty(s: State)
    requires Inv(s)
    ensures s.dispatcher.Holding? ==> Enabled(s, Deliver)
  {
    hide Inv, TidAt;
    DispatcherAt(s);
    if s.dispatcher.Holding? {
      InvAt(s, s.dispatcher.call);
    }
  }

  predicate Awaiting(s: State, c: nat) {
    c < |s.calls| && (s.calls[c].phase.Sending? || s.calls[c].phase.Waiting?)
  }

  // Its map entry exists, or its frame is in the dispatcher's hands or was put into its channel.
  predicate Kept(s: State, c: nat) {
    c < |s.calls| && (HasEntry(s, c) || Held(s, c) || s.calls[c].delivered != [])
  }

  // Another call with the same identifier overwrites or removes the entry of this one.
  predicate Ousts(s: State, step: Step, c: nat) {
    && c < |s.calls| && HasEntry(s, c)
    && (step.Enter? || step.Leave?) && step.c != c && step.c < |s.calls| && s.calls[step.c].tid == s.calls[c].tid
  }

  ghost predicate NeverOusted(s: State, steps: seq<Step>, c: nat)
    decreases |steps|
  {
    steps == [] || (
      Enabled(s, steps[0]) && !Ousts(s, steps[0], c) && NeverOusted(Do(s, steps[0]), steps[1..], c))
  }

  // The call has not been entered in the map yet.
  predicate Before(s: State, c: nat) {
    c < |s.calls| ==> s.calls[c].phase.Starting? || s.calls[c].phase.Skipping? || s.calls[c].phase.Numbered?
  }

  predicate Over(s: State, c: nat) {
    c < |s.calls| && (s.calls[c].phase.Leaving? || s.calls[c].phase.Returned?)
  }

  lemma StageStep(s: State, step: Step, c: nat)
    requires Enabled(s, step)
    ensures Over(s, c) ==> Over(Do(s, step), c)
    ensures Awaiting(s, c) ==> Awaiting(Do(s, step), c) || Over(Do(s, step), c)
    ensures Before(s, c) && !(step == Enter(c)) ==> Before(Do(s, step), c)
    ensures Before(s, c) && step == Enter(c) ==> Awaiting(Do(s, step), c) && HasEntry(Do(s, step), c)
  {
    hide TidAt, Claimed;
  }

  lemma BeforeHasNoEntry(s: State, c: nat)
    requires Inv(s) && Before(s, c)
    ensures c < |s.calls| ==> !HasEntry(s, c)
  {
    hide TidAt;
    if c < |s.calls| {
      NumberedHasNoEntry(s, c);
    }
  }

  lemma KeptStep(s: State, step: Step, c: nat)
    requires Inv(s) && Enabled(s, step) && Awaiting(s, c) && Awaiting(Do(s, step), c)
    ensures Kept(Do(s, step), c) <==> Kept(s, c) && !Ousts(s, step, c)
  {
    hide Inv, TidAt, Decoding;
    InvAt(s, c);
    DispatcherAt(s);
    match step
    case Dispatch(payload) =>
      var r := Decoding(payload);
      if r.Ok? && r.value.tid in s.pending {
        EntryAt(s, r.value.tid);
      }
    case _ =>
  }

  lemma {:induction false} OverRun(s: State, steps: seq<Step>, t: State, c: nat)
    requires Over(s, c) && Runs(s, steps, t)
    ensures Over(t, c)
    decreases |steps|
  {
    hide Over, Do, Enabled;
    if steps != [] {
      StageStep(s, steps[0], c);
      OverRun(Do(s, steps[0]), steps[1..], t, c);
    }
  }

  lemma {:induction false} KeptRun(s: State, steps: seq<Step>, t: State, c: nat)
    requires Inv(s) && Runs(s, steps, t) && Awaiting(t, c)
    ensures Awaiting(s, c) || Before(s, c)
    ensures Awaiting(s, c) ==> (Kept(t, c) <==> Kept(s, c) && NeverOusted(s, steps, c))
    ensures Before(s, c) ==> (Kept(t, c) <==> NeverOusted(s, steps, c))
    decreases |steps|
  {
    hide Inv, Do, Enabled, HasEntry, Held;
    if Over(s, c) {
      OverRun(s, steps, t, c);
    }
    if steps != [] {
      StepInv(s, steps[0]);
      StageStep(s, steps[0], c);
      KeptRun(Do(s, steps[0]), steps[1..], t, c);
      if Before(s, c) {
        BeforeHasNoEntry(s, c);
      } else {
        KeptStep(s, steps[0], c);
      }
    }
  }

  // In every reachable state, for every call: at most one frame ever reaches it; a frame it returns is the
  // one it was sent and carries its own identifier; once it has returned, no entry of the map belongs to
  // it; and while it is being sent or waits, its entry exists, or its frame is in the dispatcher's hands
  // or in its channel, if and only if no other call with its identifier entered or left the map while
  // the entry was its own.
  lemma CallSafety(steps: seq<Step>, s: State, c: nat)
    requires Runs(INIT, steps, s) && c < |s.calls|
    ensures var k := s.calls[c];
      && |k.delivered| <= 1
      && (k.phase.Returned? && k.phase.end.Reply? ==>
        k.delivered == [k.phase.end.frame] && k.phase.end.frame.tid == k.tid)
      && (k.phase.Returned? ==> forall t :: t in s.pending ==> s.pending[t] != c)
      && (Awaiting(s, c) ==>
        (HasEntry(s, c) || Held(s, c) || k.channel != [] <==> NeverOusted(INIT, steps, c)))
  {
    hide Runs, Inv, TidAt, NeverOusted;
    InitInv();
    RunInv(INIT, steps, s);
    InvAt(s, c);
    if s.calls[c].phase.Returned? {
      NumberedHasNoEntry(s, c);
    }
    if Awaiting(s, c) {
      KeptRun(INIT, steps, s, c);
    }
  }

  // When identifiers differ --------------------------------------------------------------------------

  // Calls in flight at the same time have different identifiers.
  predicate Apart(s: State) {
    forall c, d :: 0 <= c < |s.calls| && 0 <= d < |s.calls| && c != d && InFlight(s.calls[c]) && InFlight(s.calls[d]) ==>
      s.calls[c].tid != s.calls[d].tid
  }

  // No call has been in flight while 65536 further numbers were taken from the counter.
  predicate Recent(s: State) {
    forall c :: 0 <= c < |s.calls| && InFlight(s.calls[c]) ==> s.adds < s.calls[c].order + 0x1_0000
  }

  ghost predicate StaysRecent(s: State, steps: seq<Step>)
    decreases |steps|
  {
    Recent(s) && (steps != [] ==> Enabled(s, steps[0]) && StaysRecent(Do(s, steps[0]), steps[1..]))
  }

  predicate OrderAt(s: State, c: nat)
    requires c < |s.calls|
  {
    InFlight(s.calls[c]) ==> s.calls[c].order <= s.adds && s.calls[c].tid == TidAt(s.calls[c].order)
  }

  predicate PairAt(s: State, c: nat, d: nat)
    requires c < |s.calls| && d < |s.calls|
  {
    c != d && InFlight(s.calls[c]) && InFlight(s.calls[d]) ==> s.calls[c].order != s.calls[d].order
  }

  // Every call in flight has a number of its own.
  predicate Ordered(s: State) {
    && (forall c :: 0 <= c < |s.calls| ==> OrderAt(s, c))
    && (forall c, d :: 0 <= c < |s.calls| && 0 <= d < |s.calls| ==> PairAt(s, c, d))
  }

  lemma OrderedStep(s: State, step: Step)
    requires Ordered(s) && Enabled(s, step)
    ensures Ordered(Do(s, step))
  {
    hide TidAt, Claimed, Do, Enabled;
    var t := Do(s, step);
    forall c | 0 <= c < |t.calls|
      ensures OrderAt(t, c)
    {
      OrderStep(s, step, c, c);
    }
    forall c, d | 0 <= c < |t.calls| && 0 <= d < |t.calls|
      ensures PairAt(t, c, d)
    {
      OrderStep(s, step, c, d);
    }
  }

  lemma OrderStep(s: State, step: Step, c: nat, d: nat)
    requires Ordered(s) && Enabled(s, step) && c < |Do(s, step).calls| && d < |Do(s, step).calls|
    ensures OrderAt(Do(s, step), c) && PairAt(Do(s, step), c, d)
  {
    hide TidAt, Claimed, Ordered;
    if c < |s.calls| && d < |s.calls| {
      OrderedAt(s, c, d);
    } else if c < |s.calls| {
      OrderedAt(s, c, c);
    }
  }

  lemma OrderedAt(s: State, c: nat, d: nat)
    requires Ordered(s) && c < |s.calls| && d < |s.calls|
    ensures OrderAt(s, c) && OrderAt(s, d) && PairAt(s, c, d)
  {
  }

  lemma LowBits(a: nat, b: nat)
    requires a < b < a + 0x1_0000
    ensures TidAt(a) != TidAt(b)
  {
  }

  lemma RecentApart(s: State)
    requires Ordered(s) && Recent(s)
    ensures Apart(s)
  {
    hide Ordered, TidAt;
    forall c, d | 0 <= c < |s.calls| && 0 <= d < |s.calls| && c != d && InFlight(s.calls[c]) && InFlight(s.calls[d])
      ensures s.calls[c].tid != s.calls[d].tid
    {
      OrderedAt(s, c, d);
      if s.calls[c].order < s.calls[d].order {
        LowBits(s.calls[c].order, s.calls[d].order);
      } else {
        LowBits(s.calls[d].order, s.calls[c].order);
      }
    }
  }

  lemma {:induction false} OrderedRun(s: State, steps: seq<Step>, t: State)
    requires Ordered(s) && Runs(s, steps, t)
    ensures Ordered(t)
    decreases |steps|
  {
    hide Ordered, Do, Enabled;
    if steps != [] {
      OrderedStep(s, steps[0]);
      OrderedRun(Do(s, steps[0]), steps[1..], t);
    }
  }

  // Calls in flight never share an identifier as long as none of them has been in flight while 65536 further
  // numbers were taken.
  lemma RecentNeverClashes(steps: seq<Step>, t: State)
    requires Runs(INIT, steps, t) && Recent(t)
    ensures Apart(t)
  {
    hide Ordered, Recent, Apart, Runs;
    InitOrdered();
    OrderedRun(INIT, steps, t);
    RecentApart(t);
  }

  lemma InitOrdered()
    ensures Ordered(INIT)
  {
  }

  lemma ApartNotOusted(s: State, step: Step, c: nat)
    requires Inv(s) && Apart(s) && Enabled(s, step)
    ensures !Ousts(s, step, c)
  {
    hide Inv, TidAt;
    if Ousts(s, step, c) {
      EntryAt(s, s.calls[c].tid);
    }
  }

  lemma {:induction false} RecentKeeps(s: State, steps: seq<Step>, t: State, c: nat)
    requires Inv(s) && Ordered(s) && Runs(s, steps, t) && StaysRecent(s, steps)
    ensures NeverOusted(s, steps, c)
    decreases |steps|
  {
    hide Inv, Ordered, Do, Enabled, Recent, Apart, Ousts;
    if steps != [] {
      RecentApart(s);
      ApartNotOusted(s, steps[0], c);
      StepInv(s, steps[0]);
      OrderedStep(s, steps[0]);
      RecentKeeps(Do(s, steps[0]), steps[1..], t, c);
    }
  }

  // In a run in which no call is ever in flight that long, a waiting call is never forgotten.
  lemma RecentNeverForgets(steps: seq<Step>, s: State, c: nat)
    requires Runs(INIT, steps, s) && StaysRecent(INIT, steps) && Awaiting(s, c)
    ensures HasEntry(s, c) || Held(s, c) || s.calls[c].channel != []
  {
    hide Runs, StaysRecent, NeverOusted, Inv, Ordered;
    InitInv();
    InitOrdered();
    RecentKeeps(INIT, steps, s, c);
    CallSafety(steps, s, c);
  }

  // When they clash --------------------------------------------------------------------------------

  // The call has been entered in the map, has no entry any more and has got nothing.
  ghost predicate Lost(s: State, d: nat) {
    && d < |s.calls|
    && (Entered(s.calls[d]) || s.calls[d].phase.Returned?)
    && (s.calls[d].phase.Leaving? || s.calls[d].phase.Returned? ==> !s.calls[d].phase.end.Reply?)
    && s.calls[d].delivered == [] && s.calls[d].channel == []
    && !Held(s, d)
    && (forall t :: t in s.pending ==> s.pending[t] != d)
  }

  lemma LostStep(s: State, step: Step, d: nat)
    requires Lost(s, d) && Enabled(s, step)
    ensures Lost(Do(s, step), d)
  {
    hide TidAt, Decoding;
  }

  lemma {:induction false} LostRun(s: State, steps: seq<Step>, t: State, d: nat)
    requires Lost(s, d) && Runs(s, steps, t)
    ensures Lost(t, d)
    decreases |steps|
  {
    hide Lost, Do, Enabled;
    if steps != [] {
      LostStep(s, steps[0], d);
      LostRun(Do(s, steps[0]), steps[1..], t, d);
    }
  }

  // Why calls in flight must not share an identifier. In any run: when another call with its identifier
  // enters the map, or leaves it, before the frame for this one is claimed, this one gets no frame in
  // any continuation.
  lemma SharedTidLosesEntry(before: seq<Step>, s: State, step: Step, c: nat, steps: seq<Step>, t: State)
    requires Runs(INIT, before, s) && Enabled(s, step) && c < |s.calls| && Entered(s.calls[c])
    requires (step.Enter? || step.Leave?) && step.c != c && s.calls[step.c].tid == s.calls[c].tid
    requires s.calls[c].delivered == [] && !Held(s, c)
    requires Runs(Do(s, step), steps, t)
    ensures c < |t.calls| && t.calls[c].delivered == []
    ensures t.calls[c].phase.Returned? ==> !t.calls[c].phase.end.Reply?
  {
    hide Runs, TidAt, Inv;
    InitInv();
    RunInv(INIT, before, s);
    InvAt(s, c);
    forall k | k in s.pending && s.pending[k] == c
      ensures k == s.calls[c].tid
    {
      EntryAt(s, k);
    }
    LostRun(Do(s, step), steps, t, c);
  }

  ghost predicate Reachable(s: State) {
    exists steps :: Runs(INIT, steps, s)
  }

  lemma {:induction false} RunsThen(s: State, steps: seq<Step>, t: State, step: Step)
    requires Runs(s, steps, t) && Enabled(t, step)
    ensures Runs(s, steps + [step], Do(t, step))
    decreases |steps|
  {
    hide Enabled, Do;
    if steps == [] {
      assert [] + [step] == [step] && [step][1..] == [];
      assert Runs(Do(s, step), [], Do(t, step));
    } else {
      RunsThen(Do(s, steps[0]), steps[1..], t, step);
      assert (steps + [step])[1..] == steps[1..] + [step];
    }
  }

  lemma Then(s: State, step: Step) returns (t: State)
    requires Reachable(s) && Enabled(s, step)
    ensures t == Do(s, step) && Reachable(t)
  {
    hide Runs, Do, Enabled;
    var steps :| Runs(INIT, steps, s);
    RunsThen(INIT, steps, s, step);
    t := Do(s, step);
  }

  // The first call waits and the others have only taken numbers.
  predicate Crowd(s: State, n: nat) {
    && s.adds == n + 1 && s.calls != [] && s.pending == map[2 := 0] && s.dispatcher == Ready
    && s.calls[0] == Call(Waiting, 1, 2, [], [])
  }

  lemma {:induction false} CrowdGathers(n: nat) returns (s: State)
    ensures Reachable(s) && Crowd(s, n)
  {
    hide Reachable;
    if n == 0 {
      s := FirstWaits();
    } else {
      s := CrowdGathers(n - 1);
      var d := |s.calls|;
      s := Then(s, NewCall);
      s := Then(s, Number(d));
    }
  }

  lemma FirstWaits() returns (s: State)
    ensures Reachable(s) && Crowd(s, 0)
  {
    hide Reachable;
    assert TidAt(1) == 2;
    InitReachable();
    s := Then(INIT, NewCall);
    s := Then(s, Number(0));
    s := Then(s, Enter(0));
    s := Then(s, Send(0, true));
  }

  lemma InitReachable()
    ensures Reachable(INIT)
  {
    assert Runs(INIT, [], INIT);
  }

  // Such a clash is reachable: the first call is still waiting when the counter has come round, and both
  // are in flight under one identifier when it leaves.
  lemma ClashReachable() returns (s: State, d: nat)
    ensures Reachable(s) && d != 0 && d < |s.calls| && s.calls[0].phase.Leaving? && s.calls[d].phase.Waiting?
    ensures s.calls[0].tid == s.calls[d].tid
    ensures s.calls[d].delivered == [] && s.calls[d].channel == [] && !Held(s, d)
  {
    hide Reachable;
    s := CrowdGathers(0xFFFF);
    d := |s.calls|;
    assert TidAt(0x1_0001) == 2;
    s := Then(s, NewCall);
    s := Then(s, Number(d));
    s := Then(s, Enter(d));
    s := Then(s, Send(d, true));
    s := Then(s, TimeOut(0));
  }
}
