// The line demultiplexer of the serial driver.
module Driver {
  import opened Prelude
  import opened Text

  datatype Event = Event(
    kind: string,
    params: seq<string>,
    fields: Option<map<string, string>>,
    data: Option<seq<byte>>,
    raw: string)

  // Parsers ------------------------------------------------------------------------------------

  function ParseEvent(kind: string, line: string): Event {
    Event(kind, Fields(TrimSpace(TrimPrefix(line, kind))), None, None, line)
  }

  // A datagram line; data that is missing or is not hexadecimal leaves the event without bytes.
  function ParseErxudp(line: string): Event {
    var fields := Fields(TrimPrefix(line, "ERXUDP "));
    Event("ERXUDP", fields, None, if |fields| < 9 then None else HexDecode(fields[8]), line)
  }

  // One "Key:Value" row; rows without a key are skipped, a repeated key takes the later value.
  function AddRow(m: map<string, string>, row: string): map<string, string> {
    var l := TrimSpace(row);
    var colon := Find(l, {':'});
    if l == "" || colon == 0 || colon == |l| then m
    else m[TrimSpace(l[..colon]) := TrimSpace(l[colon + 1..])]
  }

  function FieldMap(rows: seq<string>): map<string, string> {
    if rows == [] then map[] else AddRow(FieldMap(rows[..|rows| - 1]), rows[|rows| - 1])
  }

  function BlockEvent(lines: seq<string>): Event
    requires lines != []
  {
    Event("EPANDESC", [], Some(FieldMap(lines[1..])), None, Join(lines, "\n"))
  }

  method BuildEPANDESC(lines: seq<string>) returns (ev: Event)
    requires lines != []
    ensures ev == BlockEvent(lines)
  {
    var fields: map<string, string> := map[];
    var rows := lines[1..];
    for i := 0 to |rows|
      invariant fields == FieldMap(rows[..i])
    {
      assert rows[..i + 1][..i] == rows[..i];
      var l := TrimSpace(rows[i]);
      if l != "" {
        var colon := Find(l, {':'});
        if 0 < colon < |l| {
          var key := TrimSpace(l[..colon]);
          fields := fields[key := TrimSpace(l[colon + 1..])];
        }
      }
    }
    assert rows[..|rows|] == rows;
    ev := Event("EPANDESC", [], Some(fields), None, Join(lines, "\n"));
  }

  // Line classes -------------------------------------------------------------------------------

  predicate Indented(line: string) {
    " " <= line || "\t" <= line
  }

  predicate IsOk(line: string) {
    line == "OK" || "OK " <= line
  }

  predicate IsFail(line: string) {
    "FAIL " <= line
  }

  predicate IsNotice(line: string) {
    "EVENT " <= line || "ERXUDP " <= line || "ERXTCP " <= line || "ETIMER" <= line
  }

  // Lines that only make sense as an echo or a response.
  predicate IsPlain(line: string) {
    !IsOk(line) && !IsFail(line) && !IsNotice(line) && line != "EPANDESC"
  }

  function NoticeEvent(line: string): Event
    requires IsNotice(line)
  {
    if "EVENT " <= line then ParseEvent("EVENT", line)
    else if "ERXUDP " <= line then ParseErxudp(line)
    else ParseEvent(line[..Find(line, {' '})], line)
  }

  // The reader as a fold over lines ------------------------------------------------------------

  datatype Pending = Pending(cmd: string, resp: seq<string>)

  datatype Outcome = Outcome(cmd: string, ok: bool, fail: string, lines: seq<string>)

  // pending and block are the driver's fields; events and outcomes log everything pushed to the
  // event channel and everything signalled to commands.
  datatype Reader = Reader(
    pending: Option<Pending>,
    block: Option<seq<string>>,
    events: seq<Event>,
    outcomes: seq<Outcome>)

  predicate WellFormed(r: Reader) {
    r.block.Some? ==> r.block.value != []
  }

  function Push(r: Reader, ev: Event): Reader {
    r.(events := r.events + [ev])
  }

  function EndBlock(r: Reader): Reader
    requires WellFormed(r)
  {
    if r.block.None? then r else Push(r.(block := None), BlockEvent(r.block.value))
  }

  function Complete(r: Reader, ok: bool, fail: string): Reader {
    match r.pending
    case None => r
    case Some(p) => r.(pending := None, outcomes := r.outcomes + [Outcome(p.cmd, ok, fail, p.resp)])
  }

  function Issue(r: Reader, cmd: string): Reader {
    r.(pending := Some(Pending(cmd, [])))
  }

  // The call stops waiting; its deferred clean-up empties the slot.
  function Release(r: Reader): Reader {
    r.(pending := None)
  }

  function Attribute(r: Reader, line: string): Reader {
    match r.pending
    case None => r
    case Some(p) => if line == p.cmd then r else r.(pending := Some(Pending(p.cmd, p.resp + [line])))
  }

  function Route(r: Reader, line: string): Reader {
    if IsOk(line) then Complete(r, true, "")
    else if IsFail(line) then Complete(r, false, TrimSpace(line[5..]))
    else if line == "EPANDESC" then r.(block := Some([line]))
    else if IsNotice(line) then Push(r, NoticeEvent(line))
    else Attribute(r, line)
  }

  function Handle(r: Reader, line: string): (r': Reader)
    requires WellFormed(r)
    ensures WellFormed(r')
  {
    if r.block.Some? && Indented(line) then r.(block := Some(r.block.value + [line]))
    else Route(EndBlock(r), line)
  }

  function HandleAll(r: Reader, lines: seq<string>): (r': Reader)
    requires WellFormed(r)
    ensures WellFormed(r')
    decreases |lines|
  {
    if lines == [] then r else HandleAll(Handle(r, lines[0]), lines[1..])
  }

  // The reader while a call waits: it handles lines until the command is complete or no more arrive.
  function Awaited(r: Reader, lines: seq<string>): (r': Reader)
    requires WellFormed(r)
    ensures WellFormed(r')
    decreases |lines|
  {
    if r.pending.None? || lines == [] then r else Awaited(Handle(r, lines[0]), lines[1..])
  }

  lemma {:induction false} AwaitedSnoc(r: Reader, lines: seq<string>, line: string)
    requires WellFormed(r)
    ensures var q := Awaited(r, lines);
      Awaited(r, lines + [line]) == if q.pending.None? then q else Handle(q, line)
    decreases |lines|
  {
    hide Handle;
    if lines == [] {
      assert [] + [line] == [line] && [line][1..] == [];
      assert r.pending.Some? ==> Awaited(Handle(r, line), []) == Handle(r, line);
    } else if r.pending.Some? {
      AwaitedSnoc(Handle(r, lines[0]), lines[1..], line);
      assert (lines + [line])[1..] == lines[1..] + [line];
    }
  }

  lemma AwaitedNothing(r: Reader)
    requires WellFormed(r)
    ensures Awaited(r, []) == r
  {
  }

  // Once the command is complete, or the lines are used up, nothing more is handled.
  lemma {:induction false} AwaitedMore(r: Reader, lines: seq<string>, n: nat)
    requires WellFormed(r) && n <= |lines|
    requires n == |lines| || Awaited(r, lines[..n]).pending.None?
    ensures Awaited(r, lines) == Awaited(r, lines[..n])
    decreases |lines|
  {
    hide Handle;
    if n == |lines| {
      assert lines[..n] == lines;
    } else if r.pending.Some? && n > 0 {
      assert lines[..n][1..] == lines[1..][..n - 1];
      AwaitedMore(Handle(r, lines[0]), lines[1..], n - 1);
    }
  }

  // The result that was added.
  function Newly(before: seq<Outcome>, after: seq<Outcome>): Option<Outcome> {
    if |after| > |before| then Some(after[|before|]) else None
  }

  // What one line does to the command in flight: nothing, one more response line, or its end.
  lemma LineEffect(r: Reader, line: string)
    requires WellFormed(r) && r.pending.Some?
    ensures var q := Handle(r, line); var p := r.pending.value;
      || (q.pending == r.pending && q.outcomes == r.outcomes)
      || (q.pending == Some(Pending(p.cmd, p.resp + [line])) && q.outcomes == r.outcomes)
      || (q.pending.None? && exists ok, fail :: q.outcomes == r.outcomes + [Outcome(p.cmd, ok, fail, p.resp)])
  {
    hide BlockEvent, NoticeEvent, TrimSpace;
  }

  lemma {:induction false} HandleConcat(r: Reader, a: seq<string>, b: seq<string>)
    requires WellFormed(r)
    ensures HandleAll(r, a + b) == HandleAll(HandleAll(r, a), b)
    decreases |a|
  {
    hide Handle;
    if a == [] {
      assert a + b == b;
    } else {
      HandleConcat(Handle(r, a[0]), a[1..], b);
      assert (a + b)[1..] == a[1..] + b;
    }
  }

  // The event channel --------------------------------------------------------------------------

  // The last cap elements.
  function Newest<T>(s: seq<T>, cap: nat): (q: seq<T>)
    ensures |q| <= cap
  {
    if |s| <= cap then s else s[|s| - cap..]
  }

  lemma NewestAgain<T>(a: seq<T>, b: seq<T>, cap: nat)
    ensures Newest(Newest(a, cap) + b, cap) == Newest(a + b, cap)
  {
    hide Newest;
    if |a| > cap {
      var front, kept := a[..|a| - cap], a[|a| - cap..];
      NewestOf(a, cap);
      assert front + kept == a;
      NewestTail(front, kept + b, cap);
      assert a + b == front + (kept + b);
    } else {
      NewestOf(a, cap);
    }
  }

  lemma NewestOf<T>(a: seq<T>, cap: nat)
    ensures Newest(a, cap) == if |a| <= cap then a else a[|a| - cap..]
  {
  }

  lemma NewestTail<T>(a: seq<T>, b: seq<T>, cap: nat)
    requires |b| >= cap
    ensures Newest(a + b, cap) == Newest(b, cap)
  {
    hide Newest;
    NewestOf(a + b, cap);
    NewestOf(b, cap);
    TailOfTail(a, b, |b| - cap);
  }

  lemma TailOfTail<T>(a: seq<T>, b: seq<T>, n: nat)
    requires n <= |b|
    ensures (a + b)[|a| + n..] == b[n..]
  {
  }

  lemma NewestAll<T>(s: seq<T>, cap: nat)
    requires |s| <= cap
    ensures Newest(s + [], cap) == s
  {
    assert s + [] == s;
  }

  // The driver object --------------------------------------------------------------------------

  class Driver {
    const capacity: nat
    // the buffered channel of asynchronous events
    var events: seq<Event>
    var pending: Option<Pending>
    var epanBuf: Option<seq<string>>
    ghost var pushed: seq<Event>
    // the results sent to commands
    var outcomes: seq<Outcome>

    ghost function View(): Reader
      reads this
    {
      Reader(pending, epanBuf, pushed, outcomes)
    }

    ghost predicate Valid()
      reads this
    {
      WellFormed(View()) && capacity > 0 && |events| <= capacity
    }

    constructor (eventBuf: int)
      ensures Valid() && View() == Reader(None, None, [], []) && events == []
      ensures capacity == if eventBuf <= 0 then 32 else eventBuf
    {
      capacity := if eventBuf <= 0 then 32 else eventBuf;
      events, pending, epanBuf := [], None, None;
      pushed := [];
      outcomes := [];
    }

    // Drops the oldest event when the channel is full, so the new one always gets in.
    method PushEvent(ev: Event)
      requires Valid()
      modifies this`events, this`pushed
      ensures Valid() && View() == Push(old(View()), ev)
      ensures events == Newest(old(events) + [ev], capacity)
    {
      pushed := pushed + [ev];
      if |events| < capacity {
        events := events + [ev];
      } else {
        if events != [] {
          events := events[1..];
        }
        if |events| < capacity {
          events := events + [ev];
        }
      }
    }

    // Claims the slot for a command; fails when another command holds it.
    method Install(cmd: string) returns (busy: bool)
      requires Valid()
      modifies this`pending
      ensures Valid() && (busy <==> old(pending).Some?)
      ensures View() == if busy then old(View()) else Issue(old(View()), cmd)
    {
      busy := pending.Some?;
      if !busy {
        pending := Some(Pending(cmd, []));
      }
    }

    // The deferred clean-up of a call.
    method CleanUp()
      requires Valid()
      modifies this`pending
      ensures Valid() && View() == Release(old(View()))
    {
      pending := None;
    }

    // One call while nobody else issues commands and these lines arrive: it takes the slot, waits until its
    // command is complete or nothing more comes in time, and leaves the slot empty.
    method Command(cmd: string, lines: seq<string>) returns (r: Option<Outcome>, busy: bool)
      requires Valid()
      modifies this
      ensures Valid() && (busy <==> old(pending).Some?)
      ensures busy ==> View() == old(View()) && r == None
      ensures !busy ==>
        var q := Awaited(Issue(old(View()), cmd), lines);
        View() == Release(q) && r == Newly(old(outcomes), q.outcomes)
    {
      hide Handle, BlockEvent, Awaited;
      var before := |outcomes|;
      busy := Install(cmd);
      if busy {
        return None, true;
      }
      ghost var first := View();
      var n := 0;
      AwaitedNothing(first);
      assert lines[..0] == [];
      while n < |lines| && pending.Some?
        invariant Valid() && 0 <= n <= |lines|
        invariant View() == Awaited(first, lines[..n])
        invariant first == Issue(old(View()), cmd)
        invariant pending.Some? ==> outcomes == old(outcomes)
      {
        LineEffect(View(), lines[n]);
        AwaitedSnoc(first, lines[..n], lines[n]);
        assert lines[..n + 1] == lines[..n] + [lines[n]];
        HandleLine(lines[n]);
        n := n + 1;
      }
      AwaitedMore(first, lines, n);
      r := if |outcomes| > before then Some(outcomes[before]) else None;
      CleanUp();
    }

    method CompletePending(ok: bool, fail: string)
      requires Valid()
      modifies this`pending, this`outcomes
      ensures Valid() && View() == Complete(old(View()), ok, fail)
    {
      if pending.Some? {
        outcomes := outcomes + [Outcome(pending.value.cmd, ok, fail, pending.value.resp)];
        pending := None;
      }
    }

    // Only appends to the log, and the channel holds the newest of what it held and got.
    twostate predicate Queued()
      reads this
    {
      old(pushed) <= pushed
      && events == Newest(old(events) + pushed[|old(pushed)|..], capacity)
    }

    method HandleLine(line: string)
      requires Valid()
      modifies this
      ensures Valid() && View() == Handle(old(View()), line)
      ensures Queued()
    {
      hide Newest, BlockEvent, Route;
      NewestAll(events, capacity);
      if epanBuf.Some? {
        if Indented(line) {
          epanBuf := Some(epanBuf.value + [line]);
          assert pushed[|old(pushed)|..] == [];
          return;
        }
        var ev := BuildEPANDESC(epanBuf.value);
        epanBuf := None;
        PushEvent(ev);
      }
      ghost var first := pushed[|old(pushed)|..];
      ghost var mid := pushed;
      assert first == [] || (epanBuf.None? && old(epanBuf).Some? && first == [BlockEvent(old(epanBuf).value)]);
      assert events == Newest(old(events) + first, capacity);
      RouteLine(line);
      ghost var later := pushed[|mid|..];
      assert pushed[|old(pushed)|..] == first + later;
      NewestAgain(old(events) + first, later, capacity);
      assert old(events) + first + later == old(events) + (first + later);
    }

    // The dispatch on the kind of line.
    method RouteLine(line: string)
      requires Valid()
      modifies this
      ensures Valid() && View() == Route(old(View()), line)
      ensures Queued()
    {
      hide Newest, BlockEvent, ParseEvent, ParseErxudp, Find, TrimSpace;
      NewestAll(events, capacity);
      if IsOk(line) {
        CompletePending(true, "");
      } else if IsFail(line) {
        CompletePending(false, TrimSpace(line[5..]));
      } else if line == "EPANDESC" {
        epanBuf := Some([line]);
      } else if "EVENT " <= line {
        PushEvent(ParseEvent("EVENT", line));
      } else if "ERXUDP " <= line {
        PushEvent(ParseErxudp(line));
      } else if "ERXTCP " <= line || "ETIMER" <= line {
        PushEvent(ParseEvent(line[..Find(line, {' '})], line));
      } else if pending.Some? && line != pending.value.cmd {
        pending := Some(Pending(pending.value.cmd, pending.value.resp + [line]));
      }
      assert pushed == old(pushed) || pushed == old(pushed) + [NoticeEvent(line)];
      assert pushed[|old(pushed)|..] == [] || pushed[|old(pushed)|..] == [NoticeEvent(line)];
    }
  }
}
