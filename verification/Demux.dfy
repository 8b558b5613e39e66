// Events and scan blocks may cut into a command transcript anywhere; commands and event consumers
// still see what they would have seen alone.
module Demux {
  import opened Prelude
  import opened Text
  import opened Driver

  // What happens to the reader: a command is issued or given up, or the module sends something. A late
  // line is one the module still sends for a command that was given up.
  datatype Item =
    | Start(cmd: string)
    | GiveUp
    | Echo
    | Reply(line: string)
    | Finish(line: string)
    | Late(line: string)
    | Notice(line: string)
    | Beacon(rows: seq<string>)

  // How a command ends: with the module's last line, or by a time-out with lines that come too late.
  datatype End = Ended(line: string) | TimedOut(late: seq<string>)

  // One command with its response, in the module's own order.
  datatype Exchange = Exchange(cmd: string, echoed: bool, replies: seq<string>, end: End)

  function Block(rows: seq<string>): seq<string> {
    ["EPANDESC"] + rows
  }

  // The lines a sequence of items consists of, given the command in flight.
  function Apply(r: Reader, item: Item): (r': Reader)
    requires WellFormed(r)
    ensures WellFormed(r')
  {
    match item
    case Start(cmd) => Issue(r, cmd)
    case GiveUp => Release(r)
    case Late(line) => Handle(r, line)
    case Echo => if r.pending.Some? then Handle(r, r.pending.value.cmd) else r
    case Reply(line) => Handle(r, line)
    case Finish(line) => Handle(r, line)
    case Notice(line) => Handle(r, line)
    case Beacon(rows) => HandleAll(r, Block(rows))
  }

  function ApplyAll(r: Reader, items: seq<Item>): (r': Reader)
    requires WellFormed(r)
    ensures WellFormed(r')
    decreases |items|
  {
    if items == [] then r else ApplyAll(Apply(r, items[0]), items[1..])
  }

  predicate IsEnd(line: string) {
    IsOk(line) || IsFail(line)
  }

  // Commands follow one another; response lines and echoes match no event, OK or FAIL pattern and
  // responses differ from the echo; late lines come at any time.
  predicate Spoken(items: seq<Item>, cur: Option<string>)
    decreases |items|
  {
    items == [] ||
    var rest := items[1..];
    match items[0]
    case Start(cmd) => cur.None? && Spoken(rest, Some(cmd))
    case GiveUp => cur.Some? && Spoken(rest, None)
    case Echo => cur.Some? && IsPlain(cur.value) && Spoken(rest, cur)
    case Reply(line) => cur.Some? && IsPlain(line) && line != cur.value && Spoken(rest, cur)
    case Finish(line) => cur.Some? && IsEnd(line) && Spoken(rest, None)
    case Late(line) => (IsPlain(line) || IsEnd(line)) && Spoken(rest, cur)
    case Notice(line) => IsNotice(line) && Spoken(rest, cur)
    case Beacon(rows) => (forall i :: 0 <= i < |rows| ==> Indented(rows[i])) && Spoken(rest, cur)
  }

  // No line of a command that comes right after a scan block is indented.
  predicate Upright(items: seq<Item>, cur: Option<string>, open: bool)
    decreases |items|
  {
    items == [] ||
    var rest := items[1..];
    match items[0]
    case Start(cmd) => Upright(rest, Some(cmd), open)
    case GiveUp => Upright(rest, None, open)
    case Echo => !(open && cur.Some? && Indented(cur.value)) && Upright(rest, cur, false)
    case Reply(line) => !(open && Indented(line)) && Upright(rest, cur, false)
    case Finish(line) => Upright(rest, None, false)
    case Late(line) => !(open && Indented(line)) && Upright(rest, cur, false)
    case Notice(line) => Upright(rest, cur, false)
    case Beacon(rows) => Upright(rest, cur, true)
  }

  // A late line that comes while another command is in flight is a plain copy of that command's text.
  predicate Punctual(items: seq<Item>, cur: Option<string>)
    decreases |items|
  {
    items == [] || (
      && (items[0].Late? && cur.Some? ==> IsPlain(items[0].line) && items[0].line == cur.value)
      && Punctual(items[1..], NextCommand(items[0], cur)))
  }

  predicate Legal(items: seq<Item>, cur: Option<string>, open: bool) {
    Spoken(items, cur) && Upright(items, cur, open) && Punctual(items, cur)
  }

  // The effect of one item on the command in flight and on whether a block is open.
  function NextCommand(item: Item, cur: Option<string>): Option<string> {
    match item
    case Start(cmd) => Some(cmd)
    case GiveUp => None
    case Finish(_) => None
    case _ => cur
  }

  function NextOpen(item: Item, open: bool): bool {
    item.Beacon? || ((item.Start? || item.GiveUp?) && open)
  }

  lemma LegalCons(items: seq<Item>, cur: Option<string>, open: bool)
    requires items != []
    ensures Spoken(items, cur) <==> Spoken([items[0]], cur) && Spoken(items[1..], NextCommand(items[0], cur))
    ensures Upright(items, cur, open) <==>
      Upright([items[0]], cur, open) && Upright(items[1..], NextCommand(items[0], cur), NextOpen(items[0], open))
    ensures Punctual(items, cur) <==> Punctual([items[0]], cur) && Punctual(items[1..], NextCommand(items[0], cur))
  {
    SpokenCons(items, cur);
    UprightCons(items, cur, open);
    PunctualCons(items, cur);
  }

  lemma PunctualCons(items: seq<Item>, cur: Option<string>)
    requires items != []
    ensures Punctual(items, cur) <==> Punctual([items[0]], cur) && Punctual(items[1..], NextCommand(items[0], cur))
  {
    assert [items[0]][1..] == [];
    assert forall c :: Punctual([], c);
  }

  lemma SpokenCons(items: seq<Item>, cur: Option<string>)
    requires items != []
    ensures Spoken(items, cur) <==> Spoken([items[0]], cur) && Spoken(items[1..], NextCommand(items[0], cur))
  {
    assert [items[0]][1..] == [];
    assert forall c :: Spoken([], c);
  }

  lemma UprightCons(items: seq<Item>, cur: Option<string>, open: bool)
    requires items != []
    ensures Upright(items, cur, open) <==>
      Upright([items[0]], cur, open) && Upright(items[1..], NextCommand(items[0], cur), NextOpen(items[0], open))
  {
    assert [items[0]][1..] == [];
    assert forall c, o :: Upright([], c, o);
  }

  // The events and blocks of a transcript, in order.
  function Notices(items: seq<Item>): seq<Event> {
    if items == [] then []
    else
      match items[0]
      case Notice(line) => (if IsNotice(line) then [NoticeEvent(line)] else []) + Notices(items[1..])
      case Beacon(rows) => [BlockEvent(Block(rows))] + Notices(items[1..])
      case _ => Notices(items[1..])
  }

  // The transcript without its events and blocks.
  function Commands(items: seq<Item>): seq<Item> {
    if items == [] then []
    else if items[0].Notice? || items[0].Beacon? then Commands(items[1..])
    else [items[0]] + Commands(items[1..])
  }

  function Replies(lines: seq<string>): seq<Item> {
    if lines == [] then [] else [Reply(lines[0])] + Replies(lines[1..])
  }

  function Script(exs: seq<Exchange>): seq<Item> {
    if exs == [] then [] else Play(exs[0]) + Script(exs[1..])
  }

  function Play(e: Exchange): seq<Item> {
    [Start(e.cmd)] + EchoOf(e) + Replies(e.replies) + Ending(e.end)
  }

  function Ending(end: End): seq<Item> {
    match end
    case Ended(line) => [Finish(line)]
    case TimedOut(late) => [GiveUp] + Lates(late)
  }

  function Lates(lines: seq<string>): seq<Item> {
    if lines == [] then [] else [Late(lines[0])] + Lates(lines[1..])
  }

  // What the command call gets back.
  function Answer(cmd: string, end: string, lines: seq<string>): Outcome {
    if IsOk(end) then Outcome(cmd, true, "", lines)
    else Outcome(cmd, false, if IsFail(end) then TrimSpace(end[5..]) else "", lines)
  }

  // A command that times out gets nothing.
  function AnswerOf(e: Exchange): seq<Outcome> {
    match e.end
    case Ended(line) => [Answer(e.cmd, line, e.replies)]
    case TimedOut(_) => []
  }

  function ExchangeOutcomes(exs: seq<Exchange>): seq<Outcome> {
    if exs == [] then [] else AnswerOf(exs[0]) + ExchangeOutcomes(exs[1..])
  }

  // Outcomes of a command-only transcript, continuing from the command in flight.
  function Answers(items: seq<Item>, p: Option<Pending>): seq<Outcome>
    decreases |items|
  {
    if items == [] then []
    else
      match items[0]
      case Start(cmd) => Answers(items[1..], Some(Pending(cmd, [])))
      case Reply(line) =>
        Answers(items[1..], if p.Some? then Some(Pending(p.value.cmd, p.value.resp + [line])) else p)
      case Finish(line) =>
        (if p.Some? then [Answer(p.value.cmd, line, p.value.resp)] else []) + Answers(items[1..], None)
      case GiveUp => Answers(items[1..], None)
      case _ => Answers(items[1..], p)
  }

  // Events seen so far, counting a block that is still being collected.
  function Seen(r: Reader): seq<Event>
    requires WellFormed(r)
  {
    r.events + if r.block.Some? then [BlockEvent(r.block.value)] else []
  }

  function Current(r: Reader): Option<string> {
    if r.pending.Some? then Some(r.pending.value.cmd) else None
  }

  // Line classes are disjoint where it matters.
  lemma FirstCharacter(line: string)
    ensures line == "" || line[0] != 'O' ==> !IsOk(line)
    ensures line == "" || line[0] != 'F' ==> !IsFail(line)
    ensures line == "" || line[0] != 'E' ==> !IsNotice(line) && line != "EPANDESC"
    ensures line == "" || line[0] !in {' ', '\t'} ==> !Indented(line)
    ensures IsOk(line) ==> line[0] == 'O'
    ensures IsFail(line) ==> line[0] == 'F'
    ensures IsNotice(line) ==> line[0] == 'E'
  {
  }

  lemma NoticeOnly(line: string)
    requires IsNotice(line)
    ensures !IsOk(line) && !IsFail(line) && line != "EPANDESC" && !Indented(line)
  {
    hide *;
    FirstCharacter(line);
    HeaderIsNoNotice();
  }

  lemma HeaderIsNoNotice()
    ensures !IsNotice("EPANDESC") && "EPANDESC"[0] == 'E' && "OK"[0] == 'O'
  {
    assert "EPANDESC"[1] == 'P' && "EVENT "[1] == 'V' && "ERXUDP "[1] == 'R' && "ERXTCP "[1] == 'R' && "ETIMER"[1] == 'T';
  }

  lemma EndOnly(line: string)
    requires IsEnd(line)
    ensures !Indented(line) && !(IsOk(line) && IsFail(line))
  {
    hide IsOk, IsFail, Indented;
    FirstCharacter(line);
  }

  // A line that does not join the open block first closes it.
  lemma HandleUnindented(r: Reader, line: string)
    requires WellFormed(r) && !(r.block.Some? && Indented(line))
    ensures Handle(r, line) == Route(EndBlock(r), line)
    ensures EndBlock(r) == r.(block := None, events := Seen(r))
  {
    if r.block.None? {
      assert Seen(r) == r.events;
    }
  }

  lemma {:induction false} RowsJoinBlock(r: Reader, rows: seq<string>)
    requires WellFormed(r) && r.block.Some?
    requires forall i :: 0 <= i < |rows| ==> Indented(rows[i])
    ensures HandleAll(r, rows) == r.(block := Some(r.block.value + rows))
    decreases |rows|
  {
    if rows == [] {
      assert r.block.value + rows == r.block.value;
    } else {
      var r' := r.(block := Some(r.block.value + [rows[0]]));
      assert Handle(r, rows[0]) == r';
      RowsJoinBlock(r', rows[1..]);
      assert r.block.value + [rows[0]] + rows[1..] == r.block.value + rows;
    }
  }

  lemma BeaconStep(r: Reader, rows: seq<string>)
    requires WellFormed(r) && forall i :: 0 <= i < |rows| ==> Indented(rows[i])
    ensures HandleAll(r, Block(rows)) == r.(block := Some(Block(rows)), events := Seen(r))
  {
    hide Seen, Handle;
    var b := Block(rows);
    assert b[0] == "EPANDESC" && b[1..] == rows;
    FirstCharacter("EPANDESC");
    HeaderIsNoNotice();
    HandleUnindented(r, b[0]);
    HeaderStep(EndBlock(r));
    RowsJoinBlock(Handle(r, b[0]), rows);
  }

  lemma HeaderStep(r: Reader)
    ensures Route(r, "EPANDESC") == r.(block := Some(["EPANDESC"]))
  {
    FirstCharacter("EPANDESC");
    HeaderIsNoNotice();
  }

  // The effect of one legal item on the pending command, the outcomes and the events.
  lemma ItemStep(r: Reader, item: Item)
    requires WellFormed(r) && Legal([item], Current(r), r.block.Some?)
    ensures var r' := Apply(r, item);
      && r'.outcomes == r.outcomes + Answers([item], r.pending)
      && Seen(r') == Seen(r) + Notices([item])
      && r'.block.Some? == NextOpen(item, r.block.Some?)
      && r'.pending == NextPending(item, r.pending)
      && Current(r') == NextCommand(item, Current(r))
  {
    hide NoticeEvent, BlockEvent, Handle, HandleAll, TrimSpace;
    if !item.Beacon? {
      assert [item][1..] == [];
    }
    match item
    case Start(cmd) =>
    case Echo => HandleUnindented(r, r.pending.value.cmd);
    case Reply(line) => HandleUnindented(r, line);
    case Finish(line) => EndOnly(line); HandleUnindented(r, line);
    case GiveUp =>
    case Late(line) => LateStep(r, line);
    case Notice(line) => NoticeOnly(line); HandleUnindented(r, line);
    case Beacon(rows) => BeaconStep(r, rows);
  }

  // Without a command in flight a late line goes to nobody; otherwise it disturbs that command, unless it
  // passes for its echo.
  lemma LateStep(r: Reader, line: string)
    requires WellFormed(r) && (IsPlain(line) || IsEnd(line)) && !(r.block.Some? && Indented(line))
    ensures var r' := Handle(r, line);
      && r'.block.None? && Seen(r') == Seen(r)
      && (r.pending.None? ==> r'.pending.None? && r'.outcomes == r.outcomes)
      && (r.pending.Some? ==>
        (r'.pending == r.pending && r'.outcomes == r.outcomes <==> IsPlain(line) && line == r.pending.value.cmd))
  {
    hide TrimSpace, BlockEvent;
    HandleUnindented(r, line);
    assert r.pending.Some? ==> |r.pending.value.resp + [line]| == |r.pending.value.resp| + 1;
    if IsEnd(line) {
      EndOnly(line);
    }
  }

  function NextPending(item: Item, p: Option<Pending>): Option<Pending> {
    match item
    case Start(cmd) => Some(Pending(cmd, []))
    case Reply(line) => if p.Some? then Some(Pending(p.value.cmd, p.value.resp + [line])) else p
    case Finish(_) => None
    case GiveUp => None
    case _ => p
  }

  lemma AnswersCons(item: Item, items: seq<Item>, p: Option<Pending>)
    ensures Answers([item] + items, p) == Answers([item], p) + Answers(items, NextPending(item, p))
    ensures Notices([item] + items) == Notices([item]) + Notices(items)
  {
    OutcomesCons(item, items, p);
    NoticesCons(item, items);
  }

  lemma OutcomesCons(item: Item, items: seq<Item>, p: Option<Pending>)
    ensures Answers([item] + items, p) == Answers([item], p) + Answers(items, NextPending(item, p))
  {
    hide Answer;
    assert ([item] + items)[1..] == items && [item][1..] == [];
    assert Answers([], NextPending(item, p)) == [];
  }

  lemma NoticesCons(item: Item, items: seq<Item>)
    ensures Notices([item] + items) == Notices([item]) + Notices(items)
  {
    hide BlockEvent, NoticeEvent, IsNotice, Block;
    assert ([item] + items)[1..] == items && [item][1..] == [];
    assert Notices([]) == [];
  }

  // Demultiplexing from any reader state.
  lemma {:induction false} DemuxFrom(r: Reader, items: seq<Item>)
    requires WellFormed(r) && Legal(items, Current(r), r.block.Some?)
    ensures ApplyAll(r, items).outcomes == r.outcomes + Answers(items, r.pending)
    ensures Seen(ApplyAll(r, items)) == Seen(r) + Notices(items)
    decreases |items|
  {
    hide *;
    if items == [] {
      DemuxNothing(r);
      ApplyNothing(r);
    } else {
      var item, rest := items[0], items[1..];
      LegalParts(items, Current(r), r.block.Some?);
      LegalCons(items, Current(r), r.block.Some?);
      ItemStep(r, item);
      AnswersCons(item, rest, r.pending);
      assert [item] + rest == items;
      var r' := Apply(r, item);
      LegalWhole(rest, Current(r'), r'.block.Some?);
      DemuxFrom(r', rest);
      ApplyCons(r, item, rest);
    }
  }

  lemma LegalParts(items: seq<Item>, cur: Option<string>, open: bool)
    requires Legal(items, cur, open)
    ensures Spoken(items, cur) && Upright(items, cur, open) && Punctual(items, cur)
    ensures items != [] && Spoken([items[0]], cur) && Upright([items[0]], cur, open) && Punctual([items[0]], cur) ==>
      Legal([items[0]], cur, open)
  {
  }

  lemma LegalWhole(items: seq<Item>, cur: Option<string>, open: bool)
    requires Spoken(items, cur) && Upright(items, cur, open) && Punctual(items, cur)
    ensures Legal(items, cur, open)
  {
  }

  lemma DemuxNothing(r: Reader)
    requires WellFormed(r)
    ensures r.outcomes == r.outcomes + Answers([], r.pending)
    ensures Seen(r) == Seen(r) + Notices([])
  {
  }

  // Events do not influence what commands get.
  lemma {:induction false} AnswersOfCommands(items: seq<Item>, p: Option<Pending>)
    ensures Answers(items, p) == Answers(Commands(items), p)
    decreases |items|
  {
    if items != [] {
      hide Answers, Notices;
      var item, rest := items[0], items[1..];
      assert [item] + rest == items;
      AnswersCons(item, rest, p);
      AnswersOfCommands(rest, NextPending(item, p));
      if item.Notice? || item.Beacon? {
        SilentItem(item, p);
        assert [] + Answers(rest, p) == Answers(rest, p);
      } else {
        AnswersCons(item, Commands(rest), p);
      }
    }
  }

  lemma SilentItem(item: Item, p: Option<Pending>)
    requires !item.Finish?
    ensures Answers([item], p) == []
  {
    assert [item][1..] == [];
  }

  lemma RepliesCons(lines: seq<string>, items: seq<Item>)
    ensures lines == [] ==> Replies(lines) + items == items
    ensures lines != [] ==> Replies(lines) + items == [Reply(lines[0])] + (Replies(lines[1..]) + items)
  {
  }

  lemma NextReply(line: string, p: Pending)
    ensures NextPending(Reply(line), Some(p)) == Some(Pending(p.cmd, p.resp + [line]))
  {
  }

  lemma {:induction false} AnswersOfReplies(lines: seq<string>, items: seq<Item>, cmd: string, resp: seq<string>)
    ensures Answers(Replies(lines) + items, Some(Pending(cmd, resp))) == Answers(items, Some(Pending(cmd, resp + lines)))
    decreases |lines|
  {
    hide *;
    RepliesCons(lines, items);
    if lines == [] {
      assert resp + lines == resp;
    } else {
      var item, rest := Reply(lines[0]), Replies(lines[1..]) + items;
      AnswersCons(item, rest, Some(Pending(cmd, resp)));
      SilentItem(item, Some(Pending(cmd, resp)));
      NextReply(lines[0], Pending(cmd, resp));
      AnswersOfReplies(lines[1..], items, cmd, resp + [lines[0]]);
      assert resp + [lines[0]] + lines[1..] == resp + lines;
    }
  }

  lemma AnswersOfPlay(e: Exchange, items: seq<Item>)
    ensures Answers(Play(e) + items, None) == AnswerOf(e) + Answers(items, None)
  {
    hide *;
    var p := Some(Pending(e.cmd, []));
    var last := Ending(e.end) + items;
    PlayShape(e, items);
    StartCommand(e.cmd);
    AnswersCons(Start(e.cmd), EchoOf(e) + (Replies(e.replies) + last), None);
    SilentItem(Start(e.cmd), None);
    AnswersOfEcho(e, Replies(e.replies) + last);
    AnswersOfReplies(e.replies, last, e.cmd, []);
    assert [] + e.replies == e.replies;
    AnswersOfEnding(e, items);
  }

  function EchoOf(e: Exchange): seq<Item> {
    if e.echoed then [Echo] else []
  }

  lemma PlayShape(e: Exchange, items: seq<Item>)
    ensures Play(e) + items == [Start(e.cmd)] + (EchoOf(e) + (Replies(e.replies) + (Ending(e.end) + items)))
  {
    hide Replies, Ending;
  }

  lemma StartCommand(cmd: string)
    ensures NextPending(Start(cmd), None) == Some(Pending(cmd, []))
  {
  }

  lemma AnswersOfEcho(e: Exchange, body: seq<Item>)
    ensures Answers(EchoOf(e) + body, Some(Pending(e.cmd, []))) == Answers(body, Some(Pending(e.cmd, [])))
  {
    hide Answers;
    if e.echoed {
      AnswersCons(Echo, body, Some(Pending(e.cmd, [])));
      SilentItem(Echo, Some(Pending(e.cmd, [])));
    } else {
      assert EchoOf(e) + body == body;
    }
  }

  lemma AnswersOfEnding(e: Exchange, items: seq<Item>)
    ensures Answers(Ending(e.end) + items, Some(Pending(e.cmd, e.replies))) == AnswerOf(e) + Answers(items, None)
  {
    hide Answers, Answer, Lates;
    var p := Some(Pending(e.cmd, e.replies));
    match e.end
    case Ended(line) =>
      AnswersCons(Finish(line), items, p);
      FinishAnswer(line, p.value);
    case TimedOut(late) =>
      assert Ending(e.end) + items == [GiveUp] + (Lates(late) + items);
      AnswersCons(GiveUp, Lates(late) + items, p);
      SilentItem(GiveUp, p);
      AnswersOfLates(late, items);
  }

  lemma {:induction false} AnswersOfLates(lines: seq<string>, items: seq<Item>)
    ensures Answers(Lates(lines) + items, None) == Answers(items, None)
    decreases |lines|
  {
    hide Answers;
    if lines == [] {
      assert Lates(lines) + items == items;
    } else {
      var rest := Lates(lines[1..]) + items;
      assert Lates(lines) + items == [Late(lines[0])] + rest;
      AnswersCons(Late(lines[0]), rest, None);
      SilentItem(Late(lines[0]), None);
      AnswersOfLates(lines[1..], items);
    }
  }

  lemma FinishAnswer(end: string, p: Pending)
    ensures Answers([Finish(end)], Some(p)) == [Answer(p.cmd, end, p.resp)]
  {
    assert [Finish(end)][1..] == [];
  }

  lemma {:induction false} AnswersOfScript(exs: seq<Exchange>)
    ensures Answers(Script(exs), None) == ExchangeOutcomes(exs)
    decreases |exs|
  {
    if exs != [] {
      hide Answers, Play, AnswerOf;
      AnswersOfScript(exs[1..]);
      AnswersOfPlay(exs[0], Script(exs[1..]));
    }
  }

  // Main result. Whatever events and blocks are interleaved into a series of commands, of which any may
  // time out as long as its late lines come before the next command: each of the others receives exactly
  // its own response lines, in order, with its own terminator, and the events that come out are exactly
  // the interleaved ones, in order; only a block at the very end may still be waiting for the line that
  // closes it.
  lemma Demultiplexed(items: seq<Item>, exs: seq<Exchange>)
    requires Legal(items, None, false) && Commands(items) == Script(exs)
    ensures var r := ApplyAll(Reader(None, None, [], []), items);
      && r.outcomes == ExchangeOutcomes(exs)
      && Seen(r) == Notices(items)
      && (r.block.Some? ==> r.events == Notices(items)[..|Notices(items)| - 1])
      && (r.block.None? ==> r.events == Notices(items))
  {
    hide Answers, Notices, Legal, Script;
    var r0 := Reader(None, None, [], []);
    DemuxFrom(r0, items);
    AnswersOfCommands(items, None);
    AnswersOfScript(exs);
    assert [] + Notices(items) == Notices(items);
    assert [] + ExchangeOutcomes(exs) == ExchangeOutcomes(exs);
  }

  // The exact condition ------------------------------------------------------------------------------

  // The block, as it was when it had these lines or later, is still being collected or is event n.
  ghost predicate Keeps(r: Reader, n: nat, lines: seq<string>)
    requires WellFormed(r)
  {
    if |r.events| > n then exists b :: b != [] && lines <= b && r.events[n] == BlockEvent(b)
    else |r.events| == n && r.block.Some? && lines <= r.block.value
  }

  lemma HandleKeeps(r: Reader, line: string, n: nat, lines: seq<string>)
    requires WellFormed(r) && Keeps(r, n, lines)
    ensures Keeps(Handle(r, line), n, lines)
  {
    hide BlockEvent, NoticeEvent, TrimSpace;
    if |r.events| > n {
      var b :| b != [] && lines <= b && r.events[n] == BlockEvent(b);
      assert Handle(r, line).events[n] == BlockEvent(b);
    } else if !Indented(line) {
      assert Handle(r, line).events[n] == BlockEvent(r.block.value);
    }
  }

  lemma {:induction false} HandleAllKeeps(r: Reader, lines: seq<string>, n: nat, b: seq<string>)
    requires WellFormed(r) && Keeps(r, n, b)
    ensures Keeps(HandleAll(r, lines), n, b)
    decreases |lines|
  {
    hide Keeps, Handle;
    if lines != [] {
      HandleKeeps(r, lines[0], n, b);
      HandleAllKeeps(Handle(r, lines[0]), lines[1..], n, b);
    }
  }

  lemma ItemKeeps(r: Reader, item: Item, n: nat, b: seq<string>)
    requires WellFormed(r) && Keeps(r, n, b)
    ensures Keeps(Apply(r, item), n, b)
  {
    hide Handle, HandleAll, BlockEvent;
    match item
    case Start(_) =>
    case GiveUp =>
    case Echo => if r.pending.Some? { HandleKeeps(r, r.pending.value.cmd, n, b); }
    case Beacon(rows) => HandleAllKeeps(r, Block(rows), n, b);
    case Reply(line) => HandleKeeps(r, line, n, b);
    case Finish(line) => HandleKeeps(r, line, n, b);
    case Late(line) => HandleKeeps(r, line, n, b);
    case Notice(line) => HandleKeeps(r, line, n, b);
  }

  lemma {:induction false} TranscriptKeeps(r: Reader, items: seq<Item>, n: nat, b: seq<string>)
    requires WellFormed(r) && Keeps(r, n, b)
    ensures Keeps(ApplyAll(r, items), n, b)
    decreases |items|
  {
    hide Keeps, Apply;
    if items != [] {
      ItemKeeps(r, items[0], n, b);
      TranscriptKeeps(Apply(r, items[0]), items[1..], n, b);
    }
  }

  lemma {:induction false} JoinLonger(a: seq<string>, b: seq<string>)
    requires a != [] && b != []
    ensures |Join(a + b, "\n")| > |Join(a, "\n")|
    decreases |a|
  {
    assert (a + b)[1..] == a[1..] + b && (a + b)[0] == a[0];
    if |a| > 1 {
      JoinLonger(a[1..], b);
    }
  }

  lemma LongerBlock(a: seq<string>, line: string, b: seq<string>)
    requires a != [] && a + [line] <= b
    ensures BlockEvent(a).raw != BlockEvent(b).raw
  {
    hide Join;
    assert b == a + b[|a|..];
    JoinLonger(a, b[|a|..]);
  }

  // Once a line of a command has joined an open block, the events are wrong for good.
  lemma Spoilt(r: Reader, block: seq<string>, line: string, items: seq<Item>)
    requires WellFormed(r) && r.block == Some(block + [line]) && block != []
    ensures |Seen(ApplyAll(r, items))| > |r.events|
    ensures Seen(ApplyAll(r, items))[|r.events|] != BlockEvent(block)
  {
    hide BlockEvent, ApplyAll;
    var n := |r.events|;
    assert Keeps(r, n, block + [line]);
    TranscriptKeeps(r, items, n, block + [line]);
    var t := ApplyAll(r, items);
    var b := if |t.events| > n then var b :| b != [] && block + [line] <= b && t.events[n] == BlockEvent(b); b
             else t.block.value;
    assert Seen(t)[n] == BlockEvent(b);
    LongerBlock(block, line, b);
  }

  // Commands get what is theirs, and the events are exactly the ones that were sent.
  ghost predicate Separates(r: Reader, items: seq<Item>)
    requires WellFormed(r)
  {
    && ApplyAll(r, items).outcomes == r.outcomes + Answers(items, r.pending)
    && Seen(ApplyAll(r, items)) == Seen(r) + Notices(items)
  }

  // An indented line of a command joins the open block.
  lemma Swallowed(r: Reader, item: Item)
    requires WellFormed(r) && Spoken([item], Current(r)) && !Upright([item], Current(r), r.block.Some?)
    ensures r.block.Some? && exists line :: Apply(r, item) == r.(block := Some(r.block.value + [line]))
  {
    hide Route, EndBlock;
    assert [item][1..] == [];
    var line := if item.Echo? then r.pending.value.cmd else item.line;
    assert Apply(r, item) == r.(block := Some(r.block.value + [line]));
  }

  lemma SpoiltTranscript(r: Reader, item: Item, rest: seq<Item>)
    requires WellFormed(r) && Spoken([item], Current(r)) && !Upright([item], Current(r), r.block.Some?)
    ensures !Separates(r, [item] + rest)
  {
    hide Apply, ApplyAll, Upright, Spoken, Answers, Notices, BlockEvent;
    Swallowed(r, item);
    var line :| Apply(r, item) == r.(block := Some(r.block.value + [line]));
    ApplyCons(r, item, rest);
    Spoilt(Apply(r, item), r.block.value, line, rest);
    assert (Seen(r) + Notices([item] + rest))[|r.events|] == BlockEvent(r.block.value);
  }

  lemma SeparatesCons(r: Reader, item: Item, rest: seq<Item>)
    requires WellFormed(r) && Legal([item], Current(r), r.block.Some?)
    ensures Separates(r, [item] + rest) <==> Separates(Apply(r, item), rest)
  {
    hide Apply, ApplyAll, Answers, Notices, Seen, Legal, NextPending;
    ItemStep(r, item);
    AnswersCons(item, rest, r.pending);
    ApplyCons(r, item, rest);
    var r' := Apply(r, item);
    assert r'.outcomes + Answers(rest, r'.pending) == r.outcomes + Answers([item] + rest, r.pending);
    assert Seen(r') + Notices(rest) == Seen(r) + Notices([item] + rest);
  }

  // For every transcript with punctual late lines: in the end commands and events have been told apart if
  // and only if no line of a command that comes right after a scan block is indented.
  lemma {:induction false} SeparatesIff(r: Reader, items: seq<Item>)
    requires WellFormed(r) && Spoken(items, Current(r)) && Punctual(items, Current(r))
    ensures Separates(r, items) <==> Upright(items, Current(r), r.block.Some?)
    decreases |items|
  {
    hide *;
    if items == [] {
      NothingSeparates(r);
    } else {
      var item, rest := items[0], items[1..];
      assert items == [item] + rest;
      LegalCons(items, Current(r), r.block.Some?);
      if Upright([item], Current(r), r.block.Some?) {
        LegalWhole([item], Current(r), r.block.Some?);
        ItemStep(r, item);
        SeparatesCons(r, item, rest);
        SeparatesIff(Apply(r, item), rest);
      } else {
        SpoiltTranscript(r, item, rest);
      }
    }
  }

  lemma NothingSeparates(r: Reader)
    requires WellFormed(r)
    ensures Separates(r, []) && Upright([], Current(r), r.block.Some?)
  {
  }

  // At every moment the command in flight, the results and the events are what they would be if every
  // command and every event had been sent alone.
  ghost predicate Faithful(r: Reader, items: seq<Item>)
    requires WellFormed(r)
    decreases |items|
  {
    items == [] || (
      var r' := Apply(r, items[0]);
      && r'.pending == NextPending(items[0], r.pending)
      && r'.outcomes == r.outcomes + Answers([items[0]], r.pending)
      && Seen(r') == Seen(r) + Notices([items[0]])
      && Faithful(r', items[1..]))
  }

  lemma SwallowedUnfaithful(r: Reader, item: Item)
    requires WellFormed(r) && Spoken([item], Current(r)) && !Upright([item], Current(r), r.block.Some?)
    ensures Seen(Apply(r, item)) != Seen(r) + Notices([item])
  {
    hide Apply, Upright, Spoken, Notices, BlockEvent;
    Swallowed(r, item);
    var line :| Apply(r, item) == r.(block := Some(r.block.value + [line]));
    LongerBlock(r.block.value, line, r.block.value + [line]);
    assert Seen(Apply(r, item))[|r.events|] == BlockEvent(r.block.value + [line]);
    assert (Seen(r) + Notices([item]))[|r.events|] == BlockEvent(r.block.value);
  }

  lemma UnpunctualUnfaithful(r: Reader, item: Item)
    requires WellFormed(r) && Spoken([item], Current(r)) && Upright([item], Current(r), r.block.Some?)
    requires !Punctual([item], Current(r))
    ensures var r' := Apply(r, item);
      !(r'.pending == NextPending(item, r.pending) && r'.outcomes == r.outcomes + Answers([item], r.pending))
  {
    hide Handle, BlockEvent;
    assert [item][1..] == [] && Punctual([], NextCommand(item, Current(r)));
    LateStep(r, item.line);
    SilentItem(item, r.pending);
    assert r.outcomes + [] == r.outcomes;
  }

  // For every transcript, with late lines at any time and any indentation: at every moment everybody gets what
  // is theirs, if and only if no line of a command right after a scan block is indented and every late
  // line that arrives with a command in flight is a plain copy of that command's text.
  lemma {:induction false} FaithfulIff(r: Reader, items: seq<Item>)
    requires WellFormed(r) && Spoken(items, Current(r))
    ensures Faithful(r, items) <==> Upright(items, Current(r), r.block.Some?) && Punctual(items, Current(r))
    decreases |items|
  {
    hide *;
    if items == [] {
      NothingFaithful(r);
    } else {
      var item := items[0];
      LegalCons(items, Current(r), r.block.Some?);
      FaithfulCons(r, items);
      if !Upright([item], Current(r), r.block.Some?) {
        SwallowedUnfaithful(r, item);
      } else if !Punctual([item], Current(r)) {
        UnpunctualUnfaithful(r, item);
      } else {
        LegalWhole([item], Current(r), r.block.Some?);
        ItemStep(r, item);
        FaithfulIff(Apply(r, item), items[1..]);
      }
    }
  }

  lemma NothingFaithful(r: Reader)
    requires WellFormed(r)
    ensures Faithful(r, []) && Upright([], Current(r), r.block.Some?) && Punctual([], Current(r))
  {
  }

  lemma FaithfulCons(r: Reader, items: seq<Item>)
    requires WellFormed(r) && items != []
    ensures var r' := Apply(r, items[0]);
      Faithful(r, items) <==>
        && r'.pending == NextPending(items[0], r.pending)
        && r'.outcomes == r.outcomes + Answers([items[0]], r.pending)
        && Seen(r') == Seen(r) + Notices([items[0]])
        && Faithful(r', items[1..])
  {
    hide Apply, Answers, Notices, Seen;
  }

  // For example: a late terminator that arrives while the next command is in flight completes that command, with a
  // result that is not its own; its own terminator then goes to nobody.
  lemma LateEndMisattributed(a: string, b: string, late: string, end: string)
    requires IsEnd(late) && IsEnd(end)
    ensures ApplyAll(Reader(None, None, [], []), [Start(a), GiveUp, Start(b), Late(late), Finish(end)]).outcomes
      == [Answer(b, late, [])]
    ensures Answers([Start(b), Finish(end)], None) == [Answer(b, end, [])]
    ensures IsOk(late) && IsFail(end) ==> Answer(b, late, []) != Answer(b, end, [])
  {
    hide ApplyAll, Apply, TrimSpace;
    var r0 := Reader(None, None, [], []);
    var r3 := r0.(pending := Some(Pending(b, [])));
    var r4 := r0.(outcomes := [Answer(b, late, [])]);
    LateSteps(a, b, late, end);
    var items := [Start(a), GiveUp, Start(b), Late(late), Finish(end)];
    assert items == [Start(a)] + ([GiveUp] + ([Start(b)] + ([Late(late)] + ([Finish(end)] + []))));
    ApplyCons(r0, Start(a), [GiveUp] + ([Start(b)] + ([Late(late)] + ([Finish(end)] + []))));
    ApplyCons(Apply(r0, Start(a)), GiveUp, [Start(b)] + ([Late(late)] + ([Finish(end)] + [])));
    ApplyCons(r0, Start(b), [Late(late)] + ([Finish(end)] + []));
    ApplyCons(r3, Late(late), [Finish(end)] + []);
    ApplyCons(r4, Finish(end), []);
    ApplyNothing(r4);
    EndOnly(end);
    AnswersCons(Start(b), [Finish(end)], None);
    SilentItem(Start(b), None);
    FinishAnswer(end, Pending(b, []));
    assert [Start(b)] + [Finish(end)] == [Start(b), Finish(end)];
  }

  lemma LateSteps(a: string, b: string, late: string, end: string)
    requires IsEnd(late) && IsEnd(end)
    ensures var r0 := Reader(None, None, [], []);
      var r3 := r0.(pending := Some(Pending(b, [])));
      var r4 := r0.(outcomes := [Answer(b, late, [])]);
      && Apply(Apply(r0, Start(a)), GiveUp) == r0
      && Apply(r0, Start(b)) == r3
      && Apply(r3, Late(late)) == r4
      && Apply(r4, Finish(end)) == r4
  {
    hide TrimSpace;
    EndOnly(late);
    EndOnly(end);
  }

  // For example: the block swallows an indented response line, and the command ends without it.
  lemma IndentedReplySwallowed(cmd: string, rows: seq<string>, line: string)
    requires forall i :: 0 <= i < |rows| ==> Indented(rows[i])
    requires Indented(line)
    ensures var r := ApplyAll(Reader(None, None, [], []), [Start(cmd), Beacon(rows), Reply(line), Finish("OK")]);
      r.outcomes == [Outcome(cmd, true, "", [])] && r.events == [BlockEvent(Block(rows) + [line])]
  {
    hide ApplyAll, Apply, HandleAll, BlockEvent;
    var r0 := Reader(None, None, [], []);
    var r1 := r0.(pending := Some(Pending(cmd, [])));
    var r2 := r1.(block := Some(Block(rows)));
    var r3 := r1.(block := Some(Block(rows) + [line]));
    BeaconStep(r1, rows);
    SwallowSteps(r0, r1, r2, r3, cmd, rows, line);
    ApplyCons(r0, Start(cmd), [Beacon(rows), Reply(line), Finish("OK")]);
    ApplyCons(r1, Beacon(rows), [Reply(line), Finish("OK")]);
    ApplyCons(r2, Reply(line), [Finish("OK")]);
    ApplyCons(r3, Finish("OK"), []);
    ApplyNothing(Apply(r3, Finish("OK")));
    assert [Start(cmd)] + [Beacon(rows), Reply(line), Finish("OK")] == [Start(cmd), Beacon(rows), Reply(line), Finish("OK")];
    assert [Beacon(rows)] + [Reply(line), Finish("OK")] == [Beacon(rows), Reply(line), Finish("OK")];
    assert [Reply(line)] + [Finish("OK")] == [Reply(line), Finish("OK")];
    assert [Finish("OK")] + [] == [Finish("OK")];
  }

  lemma ApplyNothing(r: Reader)
    requires WellFormed(r)
    ensures ApplyAll(r, []) == r
  {
  }

  lemma SwallowSteps(r0: Reader, r1: Reader, r2: Reader, r3: Reader, cmd: string, rows: seq<string>, line: string)
    requires r0 == Reader(None, None, [], []) && r1 == r0.(pending := Some(Pending(cmd, [])))
    requires r2 == r1.(block := Some(Block(rows))) && r3 == r1.(block := Some(Block(rows) + [line]))
    requires WellFormed(r1) && HandleAll(r1, Block(rows)) == r1.(block := Some(Block(rows)), events := Seen(r1))
    requires Indented(line)
    ensures Apply(r0, Start(cmd)) == r1 && Apply(r1, Beacon(rows)) == r2 && Apply(r2, Reply(line)) == r3
    ensures Apply(r3, Finish("OK")) ==
      Reader(None, None, [BlockEvent(Block(rows) + [line])], [Outcome(cmd, true, "", [])])
  {
    hide HandleAll, BlockEvent;
    FirstCharacter("OK");
    HeaderIsNoNotice();
    HandleUnindented(r3, "OK");
  }

  lemma ApplyCons(r: Reader, item: Item, rest: seq<Item>)
    requires WellFormed(r)
    ensures ApplyAll(r, [item] + rest) == ApplyAll(Apply(r, item), rest)
  {
    assert ([item] + rest)[1..] == rest;
  }
}
