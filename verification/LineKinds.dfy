// What each kind of line does to the reader, by the text of the line.
module LineKinds {
  import opened Prelude
  import opened Text
  import opened Driver
  import Demux

  // The command in flight ends with this result.
  function Ends(r: Reader, ok: bool, fail: string): Reader
    requires r.pending.Some?
  {
    var p := r.pending.value;
    r.(pending := None, outcomes := r.outcomes + [Outcome(p.cmd, ok, fail, p.resp)])
  }

  // OK alone or with a value, as WOPT, ROPT and SKSREG answer, completes the command.
  lemma OkCompletes(r: Reader, v: string)
    requires WellFormed(r) && r.block.None? && r.pending.Some?
    ensures Handle(r, "OK") == Handle(r, "OK " + v) == Ends(r, true, "")
  {
    assert "OK " <= "OK " + v;
  }

  lemma FailCompletes(r: Reader, e: string)
    requires WellFormed(r) && r.block.None? && r.pending.Some?
    ensures Handle(r, "FAIL " + e) == Ends(r, false, TrimSpace(e))
  {
    hide TrimSpace;
    var line := "FAIL " + e;
    assert line[0] == 'F' && line[5..] == e;
    Demux.FirstCharacter(line);
  }

  // From any reader state, these lines and no others end a command.
  lemma OnlyTerminatorsComplete(r: Reader, line: string)
    requires WellFormed(r) && r.pending.Some?
    ensures Handle(r, line).pending.None? <==> line == "OK" || "OK " <= line || "FAIL " <= line
  {
    hide BlockEvent, NoticeEvent, TrimSpace;
    if r.block.Some? && Indented(line) {
      assert line[0] == ' ' || line[0] == '\t';
      assert line[0] != "OK"[0] && line[0] != "OK "[0] && line[0] != "FAIL "[0];
    }
  }

  // A line that is nothing special is the echo of the command in flight or one of its response lines.
  lemma OtherLinesAnswer(r: Reader, line: string)
    requires WellFormed(r) && r.block.None?
    requires line != "OK" && !("OK " <= line) && !("FAIL " <= line) && line != "EPANDESC"
    requires !("EVENT " <= line) && !("ERXUDP " <= line) && !("ERXTCP " <= line) && !("ETIMER" <= line)
    ensures Handle(r, line) ==
      if r.pending.None? || line == r.pending.value.cmd then r
      else r.(pending := Some(r.pending.value.(resp := r.pending.value.resp + [line])))
  {
  }

  // Scan blocks: a header opens one, lines that start with a space or a tab join it, and any other line
  // first emits it.
  lemma BlockLines(r: Reader, line: string)
    requires WellFormed(r)
    ensures r.block.None? ==> Handle(r, "EPANDESC") == r.(block := Some(["EPANDESC"]))
    ensures r.block.Some? && line != "" && (line[0] == ' ' || line[0] == '\t') ==>
      Handle(r, line) == r.(block := Some(r.block.value + [line]))
    ensures r.block.Some? && (line == "" || (line[0] != ' ' && line[0] != '\t')) ==>
      Handle(r, line) == Handle(r.(block := None, events := r.events + [BlockEvent(r.block.value)]), line)
  {
    hide BlockEvent, NoticeEvent, TrimSpace;
    Demux.FirstCharacter("EPANDESC");
    Demux.HeaderIsNoNotice();
    assert line != "" ==> (" " <= line <==> line[0] == ' ') && ("\t" <= line <==> line[0] == '\t');
  }

  // A notice line pushes one event with the kind and the words of the line, and changes nothing else.
  lemma NoticesPushed(r: Reader, ws: seq<string>)
    requires WellFormed(r) && r.block.None? && forall i :: 0 <= i < |ws| ==> IsWord(ws[i])
    ensures forall kind :: kind == "EVENT" || kind == "ERXTCP" || kind == "ETIMER" ==>
      var line := kind + " " + Join(ws, " ");
      Handle(r, line) == r.(events := r.events + [Event(kind, ws, None, None, line)])
  {
    hide ParseEvent, Handle;
    KindParsed("EVENT", ws);
    KindParsed("ERXTCP", ws);
    KindParsed("ETIMER", ws);
    EventHandled(r, Join(ws, " "));
    OtherNotices(r, Join(ws, " "));
  }

  lemma KindParsed(kind: string, ws: seq<string>)
    requires forall i :: 0 <= i < |ws| ==> IsWord(ws[i])
    ensures var line := kind + " " + Join(ws, " "); ParseEvent(kind, line) == Event(kind, ws, None, None, line)
  {
    hide Fields, TrimSpace, Join;
    var body := Join(ws, " ");
    var line := kind + " " + body;
    FieldsJoin(ws);
    BodyTrimmed(ws);
    TrimPadded(" ", body, "");
    assert " " + body + "" == " " + body && line == kind + (" " + body);
    assert kind <= line && line[|kind|..] == " " + body;
  }

  lemma BodyTrimmed(ws: seq<string>)
    requires forall i :: 0 <= i < |ws| ==> IsWord(ws[i])
    ensures Trimmed(Join(ws, " "))
  {
    if ws != [] {
      JoinTrimmed(ws);
    }
  }

  lemma EventHandled(r: Reader, body: string)
    requires WellFormed(r) && r.block.None?
    ensures var line := "EVENT" + " " + body; Handle(r, line) == r.(events := r.events + [ParseEvent("EVENT", line)])
  {
    hide ParseEvent;
    var line := "EVENT" + " " + body;
    assert "EVENT" + " " == "EVENT ";
    assert "EVENT " <= line && line[0] == 'E' && line[1] == 'V' && "EPANDESC"[1] == 'P';
    Demux.FirstCharacter(line);
  }

  lemma OtherNotices(r: Reader, body: string)
    requires WellFormed(r) && r.block.None?
    ensures forall kind :: kind == "ERXTCP" || kind == "ETIMER" ==>
      var line := kind + " " + body; Handle(r, line) == r.(events := r.events + [ParseEvent(kind, line)])
  {
    hide Handle, ParseEvent;
    OtherNotice(r, "ERXTCP", body);
    OtherNotice(r, "ETIMER", body);
  }

  lemma OtherNotice(r: Reader, kind: string, body: string)
    requires WellFormed(r) && r.block.None? && (kind == "ERXTCP" || kind == "ETIMER")
    ensures var line := kind + " " + body; Handle(r, line) == r.(events := r.events + [ParseEvent(kind, line)])
  {
    hide ParseEvent, FindFrom;
    var line := kind + " " + body;
    assert line == kind + (" " + body);
    FindAfter(kind, " " + body, {' '});
    assert |kind| == 6 && line[6] == ' ' && line[0] == 'E' && (line[1] == 'R' || line[1] == 'T');
    assert kind == "ERXTCP" ==> "ERXTCP" + " " == "ERXTCP " && "ERXTCP " <= line && line[3] == 'T';
    assert kind == "ETIMER" ==> "ETIMER" <= line;
    assert "EVENT "[1] == 'V' && "ERXUDP "[3] == 'U' && "EPANDESC"[1] == 'P';
    Demux.FirstCharacter(line);
  }

  // A datagram line does the same; its ninth word is the data, which has to be hexadecimal.
  lemma DatagramsPushed(r: Reader, ws: seq<string>)
    requires WellFormed(r) && r.block.None? && forall i :: 0 <= i < |ws| ==> IsWord(ws[i])
    ensures var line := "ERXUDP " + Join(ws, " ");
      Handle(r, line) == r.(events := r.events + [
        Event("ERXUDP", ws, None, if |ws| < 9 then None else HexDecode(ws[8]), line)])
  {
    hide ParseErxudp, Handle;
    DatagramParsed(ws);
    DatagramHandled(r, Join(ws, " "));
  }

  lemma DatagramParsed(ws: seq<string>)
    requires forall i :: 0 <= i < |ws| ==> IsWord(ws[i])
    ensures var line := "ERXUDP " + Join(ws, " ");
      ParseErxudp(line) == Event("ERXUDP", ws, None, if |ws| < 9 then None else HexDecode(ws[8]), line)
  {
    hide Fields, HexDecode, Join;
    var line := "ERXUDP " + Join(ws, " ");
    FieldsJoin(ws);
    assert "ERXUDP " <= line && line[7..] == Join(ws, " ");
  }

  lemma DatagramHandled(r: Reader, body: string)
    requires WellFormed(r) && r.block.None?
    ensures var line := "ERXUDP " + body; Handle(r, line) == r.(events := r.events + [ParseErxudp(line)])
  {
    hide ParseErxudp, ParseEvent;
    var line := "ERXUDP " + body;
    assert "ERXUDP " <= line;
    assert line[0] == 'E' && line[1] == 'R' && "EVENT "[1] == 'V' && "EPANDESC"[1] == 'P';
    Demux.FirstCharacter(line);
  }

  // Rows of a block that have no key are skipped.
  lemma RowsWithoutKey(m: map<string, string>, row: string)
    requires var l := TrimSpace(row); l == "" || l[0] == ':' || forall i :: 0 <= i < |l| ==> l[i] != ':'
    ensures AddRow(m, row) == m
  {
    hide TrimSpace, FindFrom;
    FindFirst(TrimSpace(row), 0, {':'});
  }
}
