// The active scan: reading beacons out of scan blocks and choosing the best one.
module Scan {
  import opened Prelude
  import opened Text
  import opened Driver
  import Demux

  datatype Descriptor = Descriptor(channel: byte, panId: uint16, addr: string, lqi: byte, pairId: string)

  datatype BadBeacon = NoFields | BadChannel | BadPanId | BadAddr

  function Get(m: map<string, string>, key: string): string {
    TrimSpace(if key in m then m[key] else "")
  }

  predicate IsAddr(s: string) {
    |s| == 16 && HexDecode(s).Some?
  }

  // A missing or unreadable link quality counts as zero.
  function Quality(s: string): byte {
    match ParseUint(s, 0x100)
    case None => 0
    case Some(v) => v
  }

  function ParseFields(m: map<string, string>): Result<Descriptor, BadBeacon> {
    var channel := ParseUint(Get(m, "Channel"), 0x100);
    var pan := ParseUint(Get(m, "Pan ID"), 0x1_0000);
    if channel.None? then Err(BadChannel)
    else if pan.None? then Err(BadPanId)
    else if !IsAddr(Get(m, "Addr")) then Err(BadAddr)
    else Ok(Descriptor(channel.value, pan.value, Get(m, "Addr"), Quality(Get(m, "LQI")), Get(m, "PairID")))
  }

  function ParseEPANDESC(ev: Event): Result<Descriptor, BadBeacon> {
    if ev.fields.None? then Err(NoFields) else ParseFields(ev.fields.value)
  }

  // Choosing -------------------------------------------------------------------------------------

  datatype ScanResult = Found(desc: Descriptor) | NoMeter | TimedOut

  predicate IsEnd(ev: Event) {
    ev.kind == "EVENT" && |ev.params| >= 1 && ev.params[0] == "22"
  }

  predicate IsBeacon(ev: Event) {
    ev.kind == "EPANDESC" && ParseEPANDESC(ev).Ok?
  }

  function Better(best: Option<Descriptor>, ev: Event): Option<Descriptor> {
    if IsBeacon(ev) && (best.None? || ParseEPANDESC(ev).value.lqi > best.value.lqi) then Some(ParseEPANDESC(ev).value)
    else best
  }

  // The events the scan takes from its channel, up to the end of the scan or the time-out.
  function Choose(best: Option<Descriptor>, evs: seq<Event>): ScanResult
    decreases |evs|
  {
    if evs == [] then (if best.Some? then Found(best.value) else TimedOut)
    else if IsEnd(evs[0]) then (if best.Some? then Found(best.value) else NoMeter)
    else Choose(Better(best, evs[0]), evs[1..])
  }

  // Number of events before the end of the scan.
  function EndOf(evs: seq<Event>): (n: nat)
    ensures n <= |evs|
  {
    if evs == [] || IsEnd(evs[0]) then 0 else 1 + EndOf(evs[1..])
  }

  // d was announced by event i, no later beacon is stronger and every earlier one is weaker.
  ghost predicate IsChoice(evs: seq<Event>, i: nat, d: Descriptor) {
    && i < EndOf(evs) && IsBeacon(evs[i]) && ParseEPANDESC(evs[i]).value == d
    && (forall j :: 0 <= j < EndOf(evs) && IsBeacon(evs[j]) ==> ParseEPANDESC(evs[j]).value.lqi <= d.lqi)
    && (forall j :: 0 <= j < i && IsBeacon(evs[j]) ==> ParseEPANDESC(evs[j]).value.lqi < d.lqi)
  }

  // The scan returns the earliest beacon of greatest link quality; it fails exactly when no readable
  // beacon came before the end, and tells a finished scan from one that ran out of time.
  lemma ScanChoice(evs: seq<Event>)
    ensures match Choose(None, evs)
      case Found(d) => exists i :: IsChoice(evs, i, d)
      case NoMeter => EndOf(evs) < |evs| && forall j :: 0 <= j < EndOf(evs) ==> !IsBeacon(evs[j])
      case TimedOut => EndOf(evs) == |evs| && forall j :: 0 <= j < |evs| ==> !IsBeacon(evs[j])
  {
    ChooseFrom(None, evs);
  }

  ghost predicate Beats(best: Option<Descriptor>, d: Descriptor) {
    best.None? || best.value.lqi < d.lqi
  }

  ghost predicate Undisturbed(best: Option<Descriptor>, evs: seq<Event>) {
    forall j :: 0 <= j < EndOf(evs) && IsBeacon(evs[j]) ==> !Beats(best, ParseEPANDESC(evs[j]).value)
  }

  // d is the best so far and stays it, or it is the choice among evs and beats the best so far.
  ghost predicate Accounted(best: Option<Descriptor>, evs: seq<Event>, d: Descriptor) {
    (best == Some(d) && Undisturbed(best, evs)) || (Beats(best, d) && exists i :: IsChoice(evs, i, d))
  }

  lemma {:induction false} ChooseFrom(best: Option<Descriptor>, evs: seq<Event>)
    ensures match Choose(best, evs)
      case Found(d) => Accounted(best, evs, d)
      case NoMeter => best.None? && EndOf(evs) < |evs| && forall j :: 0 <= j < EndOf(evs) ==> !IsBeacon(evs[j])
      case TimedOut => best.None? && EndOf(evs) == |evs| && forall j :: 0 <= j < |evs| ==> !IsBeacon(evs[j])
    decreases |evs|
  {
    hide IsBeacon, ParseEPANDESC, IsEnd, Accounted;
    if evs == [] || IsEnd(evs[0]) {
      NothingLeft(best, evs);
    } else {
      var rest := evs[1..];
      var best' := Better(best, evs[0]);
      ChooseFrom(best', rest);
      assert EndOf(evs) == 1 + EndOf(rest);
      assert forall j :: 1 <= j < |evs| ==> evs[j] == rest[j - 1];
      match Choose(best, evs)
      case Found(d) => FoundStep(best, evs, d);
      case _ =>
    }
  }

  lemma NothingLeft(best: Option<Descriptor>, evs: seq<Event>)
    requires EndOf(evs) == 0
    ensures best.Some? ==> Accounted(best, evs, best.value)
  {
  }

  lemma FoundStep(best: Option<Descriptor>, evs: seq<Event>, d: Descriptor)
    requires evs != [] && EndOf(evs) == 1 + EndOf(evs[1..])
    requires Accounted(Better(best, evs[0]), evs[1..], d)
    ensures Accounted(best, evs, d)
  {
    hide IsBeacon, ParseEPANDESC, EndOf;
    var rest := evs[1..];
    var best' := Better(best, evs[0]);
    assert forall j :: 1 <= j < |evs| ==> evs[j] == rest[j - 1];
    if best' == Some(d) && Undisturbed(best', rest) {
      if best' != best {
        HeadChoice(evs, d);
      } else {
        HeadPassed(best, evs);
      }
    } else {
      var i :| IsChoice(rest, i, d);
      TailChoice(best, evs, i, d);
    }
  }

  lemma HeadChoice(evs: seq<Event>, d: Descriptor)
    requires evs != [] && EndOf(evs) == 1 + EndOf(evs[1..])
    requires IsBeacon(evs[0]) && ParseEPANDESC(evs[0]).value == d && Undisturbed(Some(d), evs[1..])
    ensures IsChoice(evs, 0, d)
  {
    hide IsBeacon, ParseEPANDESC, EndOf;
    assert forall j :: 1 <= j < |evs| ==> evs[j] == evs[1..][j - 1];
  }

  lemma HeadPassed(best: Option<Descriptor>, evs: seq<Event>)
    requires evs != [] && EndOf(evs) == 1 + EndOf(evs[1..])
    requires best.Some? && Better(best, evs[0]) == best && Undisturbed(best, evs[1..])
    ensures Undisturbed(best, evs)
  {
    hide ParseEPANDESC, EndOf;
    assert forall j :: 1 <= j < |evs| ==> evs[j] == evs[1..][j - 1];
  }

  lemma TailChoice(best: Option<Descriptor>, evs: seq<Event>, i: nat, d: Descriptor)
    requires evs != [] && EndOf(evs) == 1 + EndOf(evs[1..])
    requires Beats(Better(best, evs[0]), d) && IsChoice(evs[1..], i, d)
    ensures Beats(best, d) && IsChoice(evs, i + 1, d)
  {
    hide ParseEPANDESC, EndOf;
    assert forall j :: 1 <= j < |evs| ==> evs[j] == evs[1..][j - 1];
  }

  // Reading rows back ----------------------------------------------------------------------------

  // A "Key:Value" row as the module may print it.
  datatype Row = Row(indent: string, key: string, pad: string, value: string)

  predicate GoodKey(key: string) {
    key != "" && Trimmed(key) && Free(key, {':'})
  }

  predicate GoodRow(r: Row) {
    && r.indent != "" && AllBlank(r.indent) && Indented(r.indent)
    && AllBlank(r.pad)
    && GoodKey(r.key)
    && Trimmed(r.value)
  }

  function RowText(r: Row): string {
    r.indent + r.key + ":" + r.pad + r.value
  }

  function RowTexts(rows: seq<Row>): (ls: seq<string>)
    ensures |ls| == |rows|
  {
    if rows == [] then [] else RowTexts(rows[..|rows| - 1]) + [RowText(rows[|rows| - 1])]
  }

  function MapOf(rows: seq<Row>): map<string, string> {
    if rows == [] then map[] else MapOf(rows[..|rows| - 1])[rows[|rows| - 1].key := rows[|rows| - 1].value]
  }

  lemma TrimmedCore(r: Row)
    requires GoodRow(r)
    ensures TrimSpace(RowText(r)) == if r.value == "" then r.key + ":" else r.key + ":" + r.pad + r.value
  {
    hide TrimSpace;
    if r.value == "" {
      TrimPadded(r.indent, r.key + ":", r.pad);
      assert RowText(r) == r.indent + (r.key + ":") + r.pad;
    } else {
      var core := r.key + ":" + r.pad + r.value;
      assert core[0] == r.key[0] && core[|core| - 1] == r.value[|r.value| - 1];
      TrimPadded(r.indent, core, "");
      assert RowText(r) == r.indent + core + "";
    }
  }

  lemma CutAtColon(m: map<string, string>, row: string, key: string, tail: string)
    requires TrimSpace(row) == key + ":" + tail && key != "" && Free(key, {':'})
    ensures AddRow(m, row) == m[TrimSpace(key) := TrimSpace(tail)]
  {
    hide TrimSpace, Find;
    var l := key + ":" + tail;
    assert l == key + (":" + tail);
    FindAfter(key, ":" + tail, {':'});
    assert l[|key| + 1..] == tail;
  }

  lemma RowReadBack(m: map<string, string>, r: Row)
    requires GoodRow(r)
    ensures AddRow(m, RowText(r)) == m[r.key := r.value]
  {
    hide TrimSpace, AddRow, RowText;
    TrimmedCore(r);
    TrimTrimmed(r.key);
    if r.value == "" {
      assert r.key + ":" + "" == r.key + ":";
      CutAtColon(m, RowText(r), r.key, "");
      TrimTrimmed("");
    } else {
      assert r.key + ":" + (r.pad + r.value) == r.key + ":" + r.pad + r.value;
      CutAtColon(m, RowText(r), r.key, r.pad + r.value);
      TrimPadded(r.pad, r.value, "");
      assert r.pad + r.value + "" == r.pad + r.value;
    }
  }

  lemma {:induction false} RowsReadBack(rows: seq<Row>)
    requires forall i :: 0 <= i < |rows| ==> GoodRow(rows[i])
    ensures FieldMap(RowTexts(rows)) == MapOf(rows)
    ensures forall i :: 0 <= i < |rows| ==> Indented(RowTexts(rows)[i])
  {
    hide GoodRow, AddRow;
    if rows != [] {
      var init, last := rows[..|rows| - 1], rows[|rows| - 1];
      RowsReadBack(init);
      RowReadBack(MapOf(init), last);
      var ls := RowTexts(rows);
      assert ls[..|ls| - 1] == RowTexts(init) && ls[|ls| - 1] == RowText(last);
      RowIndented(last);
    }
  }

  lemma RowIndented(r: Row)
    requires GoodRow(r)
    ensures Indented(RowText(r))
  {
    assert RowText(r)[0] == r.indent[0];
  }

  // Rows that spell out a descriptor, in any order and among any other rows.
  predicate Describes(m: map<string, string>, d: Descriptor) {
    && "Channel" in m && m["Channel"] == HexUpper(d.channel, 2)
    && "Pan ID" in m && m["Pan ID"] == HexUpper(d.panId, 4)
    && "Addr" in m && m["Addr"] == d.addr
    && "LQI" in m && m["LQI"] == HexUpper(d.lqi, 2)
    && (if "PairID" in m then m["PairID"] else "") == d.pairId
  }

  predicate GoodDescriptor(d: Descriptor) {
    IsAddr(d.addr) && Trimmed(d.pairId)
  }

  lemma NumberField(n: nat, width: nat)
    requires width > 0 && n < Pow16(width)
    ensures TrimSpace(HexUpper(n, width)) == HexUpper(n, width)
    ensures ParseUint(HexUpper(n, width), Pow16(width)) == Some(n)
  {
    hide HexUpper, TrimSpace, HexNat;
    var s := HexUpper(n, width);
    HexUpperValue(n, width);
    TrimPadded("", s, "");
    assert "" + s + "" == s;
  }

  lemma TrimTrimmed(s: string)
    requires Trimmed(s)
    ensures TrimSpace(s) == s
  {
    TrimPadded("", s, "");
    assert "" + s + "" == s;
  }

  lemma Widths()
    ensures Pow16(2) == 0x100 && Pow16(4) == 0x1_0000
  {
    assert Pow16(1) == 16;
  }

  lemma DescriptorReadBack(m: map<string, string>, d: Descriptor)
    requires Describes(m, d) && GoodDescriptor(d)
    ensures ParseFields(m) == Ok(d)
  {
    hide HexUpper, TrimSpace, ParseUint, HexDecode;
    Widths();
    NumberField(d.channel, 2);
    NumberField(d.panId, 4);
    NumberField(d.lqi, 2);
    HexDecodeShape(d.addr);
    TrimTrimmed(d.addr);
    TrimTrimmed(d.pairId);
  }

  // What a beacon is refused for, field by field.
  lemma RefusedBeacons(ev: Event)
    ensures ev.fields.None? ==> ParseEPANDESC(ev) == Err(NoFields)
    ensures ev.fields.Some? ==>
      var m := ev.fields.value;
      && ("Channel" !in m ==> ParseEPANDESC(ev) == Err(BadChannel))
      && ("Channel" in m && m["Channel"] == "21" ==>
        && ("Pan ID" !in m ==> ParseEPANDESC(ev) == Err(BadPanId))
        && ("Pan ID" in m && m["Pan ID"] == "8888" ==>
          && ("Addr" !in m ==> ParseEPANDESC(ev) == Err(BadAddr))))
  {
    hide TrimSpace, HexNat, HexDecode;
    NothingTrimmed();
    HexUpperPair();
    TrimTrimmed("21");
    TrimTrimmed("8888");
  }

  lemma NothingTrimmed()
    ensures TrimSpace("") == "" && ParseUint("", 0x100) == None && ParseUint("", 0x1_0000) == None
    ensures Trimmed("21") && Trimmed("8888")
  {
  }

  lemma HexUpperPair()
    ensures ParseUint("21", 0x100) == Some(0x21) && ParseUint("8888", 0x1_0000) == Some(0x8888)
  {
    assert "21"[..1] == "2" && "2"[..0] == "";
    assert "8888"[..3] == "888" && "888"[..2] == "88" && "88"[..1] == "8" && "8"[..0] == "";
    assert HexNat("8") == 8 && HexNat("88") == 0x88 && HexNat("888") == 0x888;
  }

  // Without a readable link quality below 256 a beacon counts as the weakest.
  lemma NoQuality(s: string)
    ensures s == "" || !AllHex(s) || HexNat(s) > 255 ==> Quality(s) == 0
    ensures s != "" && AllHex(s) && HexNat(s) <= 255 ==> Quality(s) == HexNat(s)
  {
    hide HexNat;
  }

  // The documented block.
  lemma DocumentedBlock()
    ensures ParseEPANDESC(BlockEvent(["EPANDESC", "  Channel:33", "  Channel Page:09", "  Pan ID:8888",
        "  Addr:001D129012341234", "  LQI:E1", "  PairID:12345678"]))
      == Ok(Descriptor(0x33, 0x8888, "001D129012341234", 0xE1, "12345678"))
  {
    hide *;
    var d := Descriptor(0x33, 0x8888, "001D129012341234", 0xE1, "12345678");
    DocumentedDescriptor();
    StandardBlock(d, "09");
    BeaconReadBack(Announcement(d, StandardRows(d, "09")));
    DocumentedLines(d);
    DocumentedEvent(d);
  }

  lemma DocumentedEvent(d: Descriptor)
    ensures AnnouncementEvent(Announcement(d, StandardRows(d, "09")))
      == BlockEvent(Demux.Block(RowTexts(StandardRows(d, "09"))))
  {
    hide BlockEvent;
  }

  lemma DocumentedDescriptor()
    ensures GoodDescriptor(Descriptor(0x33, 0x8888, "001D129012341234", 0xE1, "12345678")) && Trimmed("09")
  {
    hide HexDecode;
    var addr := "001D129012341234";
    assert AllHex(addr);
    HexDecodes(addr);
  }

  lemma {:induction false} RowTextsAre(rows: seq<Row>)
    ensures forall i :: 0 <= i < |rows| ==> RowTexts(rows)[i] == RowText(rows[i])
  {
    hide RowText;
    if rows != [] {
      RowTextsAre(rows[..|rows| - 1]);
    }
  }

  lemma DocumentedNumbers()
    ensures HexUpper(0x33, 2) == "33" && HexUpper(0x8888, 4) == "8888" && HexUpper(0xE1, 2) == "E1"
  {
    assert HexUpper(0x3, 1) == "3" && HexUpper(0xE, 1) == "E";
    assert HexUpper(0x8, 1) == "8" && HexUpper(0x88, 2) == "88" && HexUpper(0x888, 3) == "888";
  }

  lemma DocumentedRadio()
    ensures RowText(Row("  ", "Channel", "", "33")) == "  Channel:33"
    ensures RowText(Row("  ", "Pan ID", "", "8888")) == "  Pan ID:8888"
  {
  }

  lemma DocumentedPage()
    ensures RowText(Row("  ", "Channel Page", "", "09")) == "  Channel Page:09"
  {
  }

  lemma DocumentedAddress()
    ensures RowText(Row("  ", "Addr", "", "001D129012341234")) == "  Addr:001D129012341234"
  {
  }

  lemma DocumentedPair()
    ensures RowText(Row("  ", "LQI", "", "E1")) == "  LQI:E1"
    ensures RowText(Row("  ", "PairID", "", "12345678")) == "  PairID:12345678"
  {
  }

  lemma DocumentedLines(d: Descriptor)
    requires d == Descriptor(0x33, 0x8888, "001D129012341234", 0xE1, "12345678")
    ensures Demux.Block(RowTexts(StandardRows(d, "09")))
      == ["EPANDESC", "  Channel:33", "  Channel Page:09", "  Pan ID:8888",
        "  Addr:001D129012341234", "  LQI:E1", "  PairID:12345678"]
  {
    hide HexUpper, RowTexts, RowText;
    DocumentedNumbers();
    RowTextsAre(StandardRows(d, "09"));
    DocumentedRadio();
    DocumentedPage();
    DocumentedAddress();
    DocumentedPair();
    assert RowTexts(StandardRows(d, "09")) == ["  Channel:33", "  Channel Page:09", "  Pan ID:8888",
        "  Addr:001D129012341234", "  LQI:E1", "  PairID:12345678"];
  }

  // Whole scans ----------------------------------------------------------------------------------

  datatype Announcement = Announcement(desc: Descriptor, rows: seq<Row>)

  predicate GoodAnnouncement(a: Announcement) {
    && GoodDescriptor(a.desc)
    && (forall i :: 0 <= i < |a.rows| ==> GoodRow(a.rows[i]))
    && Describes(MapOf(a.rows), a.desc)
  }

  function AnnouncementEvent(a: Announcement): Event {
    BlockEvent(Demux.Block(RowTexts(a.rows)))
  }

  // The block the module prints.
  function StandardRows(d: Descriptor, page: string): seq<Row> {
    [Row("  ", "Channel", "", HexUpper(d.channel, 2)), Row("  ", "Channel Page", "", page),
     Row("  ", "Pan ID", "", HexUpper(d.panId, 4)), Row("  ", "Addr", "", d.addr),
     Row("  ", "LQI", "", HexUpper(d.lqi, 2)), Row("  ", "PairID", "", d.pairId)]
  }

  lemma StandardBlock(d: Descriptor, page: string)
    requires GoodDescriptor(d) && Trimmed(page)
    ensures GoodAnnouncement(Announcement(d, StandardRows(d, page)))
  {
    hide *;
    Widths();
    HexUpperValue(d.channel, 2);
    HexUpperValue(d.panId, 4);
    HexUpperValue(d.lqi, 2);
    AddrIsWord(d);
    FreeIsTrimmed(HexUpper(d.channel, 2));
    FreeIsTrimmed(HexUpper(d.panId, 4));
    FreeIsTrimmed(HexUpper(d.lqi, 2));
    FreeIsTrimmed(d.addr);
    StandardRowsGood(d, page);
    StandardDescribes(d, page);
    AnnouncementIsGood(Announcement(d, StandardRows(d, page)));
  }

  lemma AnnouncementIsGood(a: Announcement)
    requires GoodDescriptor(a.desc) && Describes(MapOf(a.rows), a.desc)
    requires forall i :: 0 <= i < |a.rows| ==> GoodRow(a.rows[i])
    ensures GoodAnnouncement(a)
  {
  }

  lemma AddrIsWord(d: Descriptor)
    requires GoodDescriptor(d)
    ensures Free(d.addr, BLANKS) && Trimmed(d.pairId)
  {
    hide HexDecode;
    HexDecodeShape(d.addr);
  }

  lemma FreeIsTrimmed(s: string)
    requires Free(s, BLANKS)
    ensures Trimmed(s)
  {
  }

  lemma StandardRowsGood(d: Descriptor, page: string)
    requires Trimmed(HexUpper(d.channel, 2)) && Trimmed(HexUpper(d.panId, 4)) && Trimmed(HexUpper(d.lqi, 2))
    requires Trimmed(d.addr) && Trimmed(page) && Trimmed(d.pairId)
    ensures forall i :: 0 <= i < |StandardRows(d, page)| ==> GoodRow(StandardRows(d, page)[i])
  {
    hide HexUpper, GoodRow, GoodKey;
    KeysGood();
    PlainRow("Channel", HexUpper(d.channel, 2));
    PlainRow("Channel Page", page);
    PlainRow("Pan ID", HexUpper(d.panId, 4));
    PlainRow("Addr", d.addr);
    PlainRow("LQI", HexUpper(d.lqi, 2));
    PlainRow("PairID", d.pairId);
  }

  lemma KeysGood()
    ensures GoodKey("Channel") && GoodKey("Channel Page") && GoodKey("Pan ID") && GoodKey("Addr")
    ensures GoodKey("LQI") && GoodKey("PairID")
  {
  }

  lemma PlainRow(key: string, value: string)
    requires GoodKey(key) && Trimmed(value)
    ensures GoodRow(Row("  ", key, "", value))
  {
  }

  lemma StandardDescribes(d: Descriptor, page: string)
    ensures Describes(MapOf(StandardRows(d, page)), d)
  {
    hide HexUpper, MapOf;
    StandardMap(StandardRows(d, page));
    assert "PairID"[2] != "Pan ID"[2];
  }

  lemma StandardMap(rows: seq<Row>)
    requires |rows| == 6
    ensures MapOf(rows) == map[rows[0].key := rows[0].value][rows[1].key := rows[1].value][rows[2].key := rows[2].value]
      [rows[3].key := rows[3].value][rows[4].key := rows[4].value][rows[5].key := rows[5].value]
  {
    hide MapOf;
    MapOfNone();
    MapOfSnoc(rows[..0], rows[0]);
    MapOfSnoc(rows[..1], rows[1]);
    MapOfSnoc(rows[..2], rows[2]);
    MapOfSnoc(rows[..3], rows[3]);
    MapOfSnoc(rows[..4], rows[4]);
    MapOfSnoc(rows[..5], rows[5]);
    assert rows[..0] == [];
    assert rows[..0] + [rows[0]] == rows[..1];
    assert rows[..1] + [rows[1]] == rows[..2];
    assert rows[..2] + [rows[2]] == rows[..3];
    assert rows[..3] + [rows[3]] == rows[..4];
    assert rows[..4] + [rows[4]] == rows[..5];
    assert rows[..5] + [rows[5]] == rows;
  }

  lemma MapOfNone()
    ensures MapOf([]) == map[]
  {
  }

  lemma MapOfSnoc(rows: seq<Row>, r: Row)
    ensures MapOf(rows + [r]) == MapOf(rows)[r.key := r.value]
  {
    assert (rows + [r])[..|rows|] == rows;
  }

  // Among event lines exactly those with code 22 end the scan, whatever words follow the code.
  lemma EndLine(code: string, words: seq<string>)
    requires IsWord(code) && forall i :: 0 <= i < |words| ==> IsWord(words[i])
    ensures var line := "EVENT " + Join([code] + words, " ");
      IsNotice(line) && (IsEnd(NoticeEvent(line)) <==> code == "22")
  {
    hide Join, IsWord, NoticeEvent;
    var ws := [code] + words;
    assert forall i :: 0 <= i < |ws| ==> IsWord(ws[i]);
    JoinTrimmed(ws);
    FieldsJoin(ws);
    EventLine(Join(ws, " "));
  }

  lemma EventLine(body: string)
    requires Trimmed(body)
    ensures var line := "EVENT " + body;
      IsNotice(line) && NoticeEvent(line) == Event("EVENT", Fields(body), None, None, line)
  {
    hide Fields, TrimSpace;
    var line := "EVENT " + body;
    TrimPadded(" ", body, "");
    assert " " + body + "" == " " + body;
    assert line == "EVENT" + (" " + body);
    assert TrimPrefix(line, "EVENT") == " " + body;
  }

  // A printed block is read back as the descriptor it announces.
  lemma BeaconReadBack(a: Announcement)
    requires GoodAnnouncement(a)
    ensures IsBeacon(AnnouncementEvent(a)) && ParseEPANDESC(AnnouncementEvent(a)) == Ok(a.desc)
    ensures !IsEnd(AnnouncementEvent(a))
  {
    hide FieldMap, RowTexts, MapOf, ParseFields, Join, Describes, GoodDescriptor;
    RowsReadBack(a.rows);
    DescriptorReadBack(MapOf(a.rows), a.desc);
    assert Demux.Block(RowTexts(a.rows))[1..] == RowTexts(a.rows);
    assert "EPANDESC"[1] != "EVENT"[1];
  }

  function ItemsOf(as_: seq<Announcement>): seq<Demux.Item> {
    if as_ == [] then [] else [Demux.Beacon(RowTexts(as_[0].rows))] + ItemsOf(as_[1..])
  }

  function EventsOf(as_: seq<Announcement>): (evs: seq<Event>)
    ensures |evs| == |as_|
  {
    if as_ == [] then [] else [AnnouncementEvent(as_[0])] + EventsOf(as_[1..])
  }

  lemma {:induction false} EventAt(as_: seq<Announcement>, i: nat)
    requires i < |as_|
    ensures EventsOf(as_)[i] == AnnouncementEvent(as_[i])
  {
    if i > 0 {
      EventAt(as_[1..], i - 1);
    }
  }

  lemma {:induction false} ScanItems(as_: seq<Announcement>, end: string, cur: Option<string>, open: bool)
    requires IsNotice(end)
    requires forall i :: 0 <= i < |as_| ==> GoodAnnouncement(as_[i])
    ensures Demux.Legal(ItemsOf(as_) + [Demux.Notice(end)], cur, open)
    ensures Demux.Notices(ItemsOf(as_) + [Demux.Notice(end)]) == EventsOf(as_) + [NoticeEvent(end)]
    decreases |as_|
  {
    hide RowTexts, GoodAnnouncement, NoticeEvent, BlockEvent, Demux.Spoken, Demux.Upright, Demux.Punctual;
    var items := ItemsOf(as_) + [Demux.Notice(end)];
    if as_ == [] {
      assert items == [Demux.Notice(end)] && items[1..] == [];
      LastNotice(end, cur, open);
    } else {
      ScanItems(as_[1..], end, cur, true);
      assert items[0] == Demux.Beacon(RowTexts(as_[0].rows));
      assert items[1..] == ItemsOf(as_[1..]) + [Demux.Notice(end)];
      RowsOf(as_[0]);
      BeaconLegal(RowTexts(as_[0].rows), cur, open);
      Demux.LegalCons(items, cur, open);
      assert EventsOf(as_) + [NoticeEvent(end)]
        == [AnnouncementEvent(as_[0])] + (EventsOf(as_[1..]) + [NoticeEvent(end)]);
    }
  }

  lemma LastNotice(end: string, cur: Option<string>, open: bool)
    requires IsNotice(end)
    ensures Demux.Spoken([Demux.Notice(end)], cur) && Demux.Upright([Demux.Notice(end)], cur, open)
    ensures Demux.Punctual([Demux.Notice(end)], cur)
  {
    assert [Demux.Notice(end)][1..] == [];
  }

  lemma BeaconLegal(rows: seq<string>, cur: Option<string>, open: bool)
    requires forall i :: 0 <= i < |rows| ==> Indented(rows[i])
    ensures Demux.Spoken([Demux.Beacon(rows)], cur) && Demux.Upright([Demux.Beacon(rows)], cur, open)
    ensures Demux.Punctual([Demux.Beacon(rows)], cur)
  {
    assert [Demux.Beacon(rows)][1..] == [];
  }

  lemma RowsOf(a: Announcement)
    requires GoodAnnouncement(a)
    ensures forall i :: 0 <= i < |RowTexts(a.rows)| ==> Indented(RowTexts(a.rows)[i])
  {
    hide GoodRow, Describes, MapOf;
    RowsReadBack(a.rows);
  }

  lemma {:induction false} EndOfScan(evs: seq<Event>, end: Event)
    requires IsEnd(end) && forall i :: 0 <= i < |evs| ==> !IsEnd(evs[i])
    ensures EndOf(evs + [end]) == |evs|
  {
    hide IsEnd;
    if evs == [] {
      assert evs + [end] == [end];
    } else {
      EndOfScan(evs[1..], end);
      assert (evs + [end])[1..] == evs[1..] + [end];
    }
  }

  // Main result. For any descriptors printed as scan blocks, with any further rows, followed by the
  // line that ends the scan: the demultiplexer turns the lines into exactly one event each, and the
  // scan over these events returns the earliest descriptor of greatest link quality; with no
  // descriptor at all it reports that no meter answered.
  lemma ScanFindsBest(r: Reader, as_: seq<Announcement>, end: string)
    requires WellFormed(r) && IsNotice(end) && IsEnd(NoticeEvent(end))
    requires forall i :: 0 <= i < |as_| ==> GoodAnnouncement(as_[i])
    ensures var evs := EventsOf(as_) + [NoticeEvent(end)];
      && Demux.ApplyAll(r, ItemsOf(as_) + [Demux.Notice(end)]).events == Demux.Seen(r) + evs
      && (as_ == [] <==> Choose(None, evs) == NoMeter)
      && (as_ != [] ==> exists i ::
        && 0 <= i < |as_| && Choose(None, evs) == Found(as_[i].desc)
        && (forall j :: 0 <= j < |as_| ==> as_[j].desc.lqi <= as_[i].desc.lqi)
        && (forall j :: 0 <= j < i ==> as_[j].desc.lqi < as_[i].desc.lqi))
  {
    hide *;
    var items := ItemsOf(as_) + [Demux.Notice(end)];
    var evs := EventsOf(as_) + [NoticeEvent(end)];
    ScanItems(as_, end, Demux.Current(r), r.block.Some?);
    Demux.DemuxFrom(r, items);
    BlockClosed(r, ItemsOf(as_), end);
    forall i | 0 <= i < |as_|
      ensures IsBeacon(evs[i]) && ParseEPANDESC(evs[i]) == Ok(as_[i].desc) && !IsEnd(evs[i])
    {
      EventAt(as_, i);
      BeaconReadBack(as_[i]);
    }
    BestOf(evs, as_);
  }

  lemma BestOf(evs: seq<Event>, as_: seq<Announcement>)
    requires |evs| == |as_| + 1 && IsEnd(evs[|as_|])
    requires forall i :: 0 <= i < |as_| ==>
      IsBeacon(evs[i]) && ParseEPANDESC(evs[i]) == Ok(as_[i].desc) && !IsEnd(evs[i])
    ensures as_ == [] <==> Choose(None, evs) == NoMeter
    ensures as_ != [] ==> exists i ::
      && 0 <= i < |as_| && Choose(None, evs) == Found(as_[i].desc)
      && (forall j :: 0 <= j < |as_| ==> as_[j].desc.lqi <= as_[i].desc.lqi)
      && (forall j :: 0 <= j < i ==> as_[j].desc.lqi < as_[i].desc.lqi)
  {
    hide IsEnd, IsBeacon, ParseEPANDESC, Choose, EndOf;
    var n := |as_|;
    assert evs[..n] + [evs[n]] == evs;
    EndOfScan(evs[..n], evs[n]);
    ScanChoice(evs);
    assert n > 0 ==> IsBeacon(evs[0]);
    match Choose(None, evs)
    case Found(d) =>
      var i: nat :| IsChoice(evs, i, d);
      assert as_[i].desc == d;
    case NoMeter =>
    case TimedOut =>
  }

  // A notice leaves no block open, so everything seen so far has been pushed.
  lemma {:induction false} BlockClosed(r: Reader, items: seq<Demux.Item>, end: string)
    requires WellFormed(r) && IsNotice(end)
    ensures var t := Demux.ApplyAll(r, items + [Demux.Notice(end)]);
      t.block.None? && Demux.Seen(t) == t.events
    decreases |items|
  {
    hide *;
    if items == [] {
      Demux.ApplyCons(r, Demux.Notice(end), []);
      Demux.ApplyNothing(Demux.Apply(r, Demux.Notice(end)));
      assert [] + [Demux.Notice(end)] == [Demux.Notice(end)] + [];
      NoticeCloses(r, end);
    } else {
      var rest := items[1..] + [Demux.Notice(end)];
      assert items + [Demux.Notice(end)] == [items[0]] + rest;
      Demux.ApplyCons(r, items[0], rest);
      BlockClosed(Demux.Apply(r, items[0]), items[1..], end);
    }
  }

  lemma NoticeCloses(r: Reader, end: string)
    requires WellFormed(r) && IsNotice(end)
    ensures var t := Demux.Apply(r, Demux.Notice(end)); t.block.None? && Demux.Seen(t) == t.events
  {
    hide NoticeEvent, BlockEvent, TrimSpace;
    Demux.NoticeOnly(end);
    Demux.HandleUnindented(r, end);
  }
}
