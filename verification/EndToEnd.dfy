// From raw serial reads to decoded frames: tokenizer, demultiplexer, datagram parser and frame
// decoder in one theorem.
module EndToEnd {
  import opened Prelude
  import opened Text
  import opened Tokenizer
  import opened Driver
  import Echonet
  import Udp

  // What the module sends, line by line: a datagram, or any other line, each with its line end.
  datatype Parcel =
    | Datagram(src: seq<byte>, sport: uint16, words: seq<string>, data: string, eol: string)
    | Other(line: string, eol: string)

  // A frame as the upper layers receive it.
  datatype Delivery = Delivery(src: seq<byte>, port: uint16, frame: Echonet.Frame)

  predicate IsErxudp(line: string) {
    "ERXUDP " <= line
  }

  // The six words of a datagram line that the parser passes over: destination, destination port,
  // sender link-layer address, secured, side and data length.
  function Fields9(p: Parcel): seq<string>
    requires p.Datagram? && Udp.IsIp(p.src) && |p.words| == 6
  {
    [Udp.FormatIPv6Upper(p.src), p.words[0], HexUpper(p.sport, 4), p.words[1], p.words[2], p.words[3],
     p.words[4], p.words[5], p.data]
  }

  // Datagram lines carry an encoded frame in hexadecimal, in upper or lower case.
  predicate Proper(p: Parcel) {
    match p
    case Datagram(src, _, words, data, _) =>
      && Udp.IsIp(src)
      && |words| == 6
      && (forall i :: 0 <= i < 6 ==> IsWord(words[i]) && |words[i]| <= 64)
      && HexDecode(data).Some?
      && Echonet.Decoding(HexDecode(data).value).Ok?
      && Echonet.Encoding(Echonet.Decoding(HexDecode(data).value).value) == HexDecode(data).value
    case Other(line, _) => line != "" && Free(line, EOL) && |line| < MAX_TOKEN && !IsErxudp(line)
  }

  function LineOf(p: Parcel): string
    requires Proper(p)
  {
    match p
    case Datagram(_, _, _, _, _) => "ERXUDP " + Join(Fields9(p), " ")
    case Other(line, _) => line
  }

  function FrameOf(p: Parcel): Echonet.Frame
    requires Proper(p) && p.Datagram?
  {
    Echonet.Decoding(HexDecode(p.data).value).value
  }

  // Any mix of CR and LF ends a line; only the last line of the stream may lack it.
  predicate Ended(ps: seq<Parcel>) {
    forall i :: 0 <= i < |ps| ==>
      (forall c :: c in ps[i].eol ==> c in EOL) && (i + 1 < |ps| ==> ps[i].eol != "")
  }

  predicate AllProper(ps: seq<Parcel>) {
    forall i :: 0 <= i < |ps| ==> Proper(ps[i])
  }

  function Stream(ps: seq<Parcel>): string
    requires AllProper(ps)
  {
    if ps == [] then "" else LineOf(ps[0]) + ps[0].eol + Stream(ps[1..])
  }

  function LinesOf(ps: seq<Parcel>): seq<string>
    requires AllProper(ps)
  {
    if ps == [] then [] else [LineOf(ps[0])] + LinesOf(ps[1..])
  }

  // The frames that should arrive.
  function Expected(ps: seq<Parcel>): seq<Delivery>
    requires AllProper(ps)
  {
    if ps == [] then []
    else (if ps[0].Datagram? then [Delivery(ps[0].src, ps[0].sport, FrameOf(ps[0]))] else []) + Expected(ps[1..])
  }

  // Dispatcher and meter client: an event becomes a datagram, a datagram a frame, or it is dropped.
  function DeliverOne(ev: Event, parseIp: string -> Option<seq<byte>>): seq<Delivery> {
    if ev.kind != "ERXUDP" then []
    else
      match Udp.ParseIncoming(ev, parseIp)
      case None => []
      case Some(inc) =>
        match Echonet.Decoding(inc.payload)
        case Err(_) => []
        case Ok(f) => [Delivery(inc.src, inc.port, f)]
  }

  function Deliver(evs: seq<Event>, parseIp: string -> Option<seq<byte>>): seq<Delivery> {
    if evs == [] then [] else DeliverOne(evs[0], parseIp) + Deliver(evs[1..], parseIp)
  }

  // Shape of datagram lines --------------------------------------------------------------------

  lemma DataIsWord(p: Parcel)
    requires Proper(p) && p.Datagram?
    ensures IsWord(p.data) && |p.data| <= 131094
  {
    hide HexDecode, Echonet.Encoding, Echonet.Decoding;
    HexDecodeShape(p.data);
    var b := HexDecode(p.data).value;
    Echonet.EncodeDecode(b);
    Echonet.EncodingBound(FrameOf(p));
  }

  lemma WordsOf(p: Parcel)
    requires Proper(p) && p.Datagram?
    ensures forall i :: 0 <= i < 9 ==> IsWord(Fields9(p)[i])
    ensures forall i :: 0 <= i < 8 ==> |Fields9(p)[i]| <= 64
  {
    hide Echonet.Encoding, Echonet.Decoding, HexDecode, HexUpper, Udp.FormatIPv6Upper;
    DataIsWord(p);
    Udp.IpRoundTrip(p.src);
    Udp.PortRoundTrip(p.sport);
  }

  lemma {:induction false} JoinBound(ws: seq<string>, bound: nat)
    requires ws != [] && forall i :: 0 <= i < |ws| - 1 ==> |ws[i]| <= bound
    ensures |Join(ws, " ")| <= (|ws| - 1) * (bound + 1) + |ws[|ws| - 1]|
  {
    if |ws| > 1 {
      JoinBound(ws[1..], bound);
      assert (|ws| - 1) * (bound + 1) == (|ws| - 2) * (bound + 1) + (bound + 1);
    }
  }

  lemma {:induction false} JoinFree(ws: seq<string>)
    requires forall i :: 0 <= i < |ws| ==> Free(ws[i], BLANKS)
    ensures Free(Join(ws, " "), EOL)
  {
    if ws != [] {
      hide Join;
      JoinFree(ws[1..]);
      JoinCons(ws);
      FreeOfBlanks(ws[0]);
    }
  }

  lemma JoinCons(ws: seq<string>)
    requires ws != []
    ensures Join(ws, " ") == if |ws| == 1 then ws[0] else ws[0] + " " + Join(ws[1..], " ")
  {
  }

  lemma FreeOfBlanks(w: string)
    requires Free(w, BLANKS)
    ensures Free(w, EOL)
  {
  }

  // Every line, with the longest possible frame in it, fits the token limit.
  lemma LineFits(p: Parcel)
    requires Proper(p)
    ensures 0 < |LineOf(p)| < MAX_TOKEN && Free(LineOf(p), EOL)
  {
    if p.Datagram? {
      hide Proper, Fields9, Join;
      WordsOf(p);
      DataIsWord(p);
      FieldsEnd(p);
      JoinBound(Fields9(p), 64);
      JoinFree(Fields9(p));
      assert Free("ERXUDP ", EOL);
    }
  }

  lemma FieldsEnd(p: Parcel)
    requires Proper(p) && p.Datagram?
    ensures |Fields9(p)| == 9 && Fields9(p)[8] == p.data
    ensures Fields9(p)[0] == Udp.FormatIPv6Upper(p.src) && Fields9(p)[2] == HexUpper(p.sport, 4)
  {
  }

  // Tokenizing the stream -----------------------------------------------------------------------

  lemma {:induction false} StreamLines(ps: seq<Parcel>)
    requires AllProper(ps) && Ended(ps)
    ensures Lines(Stream(ps)) == LinesOf(ps)
    decreases |ps|
  {
    hide Proper, LineOf, Lines;
    if ps == [] {
      NoLines();
    } else {
      var p, more := ps[0], ps[1..];
      LineFits(p);
      assert Ended(more) by {
        assert forall i :: 0 <= i < |more| ==> more[i] == ps[i + 1];
      }
      StreamLines(more);
      if p.eol != "" {
        LinesOfTerminated(LineOf(p), p.eol, Stream(more));
      } else {
        assert more == [];
        assert Stream(ps) == LineOf(p);
        OnlyLine(LineOf(p));
        assert LinesOf(ps) == [LineOf(p)] + [];
      }
    }
  }

  lemma NoLines()
    ensures Lines("") == []
  {
  }

  lemma OnlyLine(line: string)
    requires line != "" && Free(line, EOL)
    ensures Lines(line) == [line]
  {
    FindFirst(line, 0, EOL);
  }

  lemma {:induction false} LongRunInLine(s: string, i: nat)
    requires RunAt(s, i)
    ensures exists k :: 0 <= k < |Lines(s)| && |Lines(s)[k]| >= MAX_TOKEN
    decreases |s|
  {
    var n := Find(s, EOL);
    FindFirst(s, 0, EOL);
    if i <= n {
      assert n >= i + MAX_TOKEN;
      LeadingLine(s);
      assert |Lines(s)[0]| >= MAX_TOKEN;
    } else {
      hide Lines, Find;
      var t := s[n + 1..];
      assert RunAt(t, i - n - 1) by {
        assert forall x :: i - n - 1 <= x < |t| ==> t[x] == s[x + n + 1];
      }
      LongRunInLine(t, i - n - 1);
      var k :| 0 <= k < |Lines(t)| && |Lines(t)[k]| >= MAX_TOKEN;
      var d := if n > 0 then 1 else 0;
      LaterLine(s, t, d, k);
      assert |Lines(s)[k + d]| >= MAX_TOKEN;
    }
  }

  lemma {:induction false} LineOfParcel(ps: seq<Parcel>, k: nat)
    requires AllProper(ps) && k < |LinesOf(ps)|
    ensures |LinesOf(ps)[k]| < MAX_TOKEN
  {
    hide LineOf, Proper;
    LineFits(ps[0]);
    if k > 0 {
      LineOfParcel(ps[1..], k - 1);
      assert LinesOf(ps)[k] == LinesOf(ps[1..])[k - 1];
    }
  }

  lemma NoLongRun(ps: seq<Parcel>)
    requires AllProper(ps) && Ended(ps)
    ensures !HasLongRun(Stream(ps))
  {
    hide Lines, LinesOf, Stream, RunAt;
    StreamLines(ps);
    if HasLongRun(Stream(ps)) {
      var i :| RunAt(Stream(ps), i);
      LongRunStart(Stream(ps), i);
      LongRunInLine(Stream(ps), i);
      var k :| 0 <= k < |LinesOf(ps)| && |LinesOf(ps)[k]| >= MAX_TOKEN;
      LineOfParcel(ps, k);
    }
  }

  lemma LongRunStart(s: string, i: int)
    requires RunAt(s, i)
    ensures i >= 0
  {
  }

  // One line ------------------------------------------------------------------------------------

  lemma DatagramEvent(p: Parcel, parseIp: string -> Option<seq<byte>>)
    requires Proper(p) && p.Datagram? && Udp.ReadsFullForm(parseIp)
    ensures DeliverOne(ParseErxudp(LineOf(p)), parseIp) == [Delivery(p.src, p.sport, FrameOf(p))]
  {
    hide Fields9, Fields, Join, HexDecode, Echonet.Encoding, Echonet.Decoding, Udp.ParseFullIPv6,
      Udp.FormatIPv6Upper, Udp.PortOf, HexUpper, IsWord;
    var line := LineOf(p);
    WordsOf(p);
    FieldsEnd(p);
    assert TrimPrefix(line, "ERXUDP ") == Join(Fields9(p), " ");
    FieldsJoin(Fields9(p));
    Udp.IpRoundTrip(p.src);
    Udp.PortRoundTrip(p.sport);
    assert ParseErxudp(line).params == Fields9(p);
  }

  lemma DeliverConcat(a: seq<Event>, b: seq<Event>, parseIp: string -> Option<seq<byte>>)
    ensures Deliver(a + b, parseIp) == Deliver(a, parseIp) + Deliver(b, parseIp)
    decreases |a|
  {
    hide DeliverOne;
    if a == [] {
      assert a + b == b;
    } else {
      DeliverConcat(a[1..], b, parseIp);
      assert (a + b)[1..] == a[1..] + b;
      var x, y, z := DeliverOne(a[0], parseIp), Deliver(a[1..], parseIp), Deliver(b, parseIp);
      assert x + (y + z) == x + y + z;
    }
  }

  lemma DeliverSnoc(evs: seq<Event>, ev: Event, parseIp: string -> Option<seq<byte>>)
    ensures Deliver(evs + [ev], parseIp) == Deliver(evs, parseIp) + DeliverOne(ev, parseIp)
  {
    hide DeliverOne;
    DeliverConcat(evs, [ev], parseIp);
    assert Deliver([ev], parseIp) == DeliverOne(ev, parseIp) + [];
  }

  // Closing a scan block delivers nothing.
  lemma EndBlockDelivers(r: Reader, parseIp: string -> Option<seq<byte>>)
    requires WellFormed(r)
    ensures Deliver(EndBlock(r).events, parseIp) == Deliver(r.events, parseIp)
  {
    hide Deliver, FieldMap, Join;
    if r.block.Some? {
      DeliverSnoc(r.events, BlockEvent(r.block.value), parseIp);
      assert "EPANDESC"[1] != "ERXUDP"[1];
      assert DeliverOne(BlockEvent(r.block.value), parseIp) == [];
    }
  }

  // A datagram line gets through whatever command is pending and whatever block is open.
  lemma DatagramLine(r: Reader, line: string, parseIp: string -> Option<seq<byte>>)
    requires WellFormed(r) && IsErxudp(line)
    ensures Deliver(Handle(r, line).events, parseIp)
      == Deliver(r.events, parseIp) + DeliverOne(ParseErxudp(line), parseIp)
  {
    hide Deliver, DeliverOne, ParseErxudp, ParseEvent, BlockEvent;
    assert line[0] == 'E' && line[1] == 'R' && line[3] == 'U';
    assert !("EVENT " <= line);
    EndBlockDelivers(r, parseIp);
    DeliverSnoc(EndBlock(r).events, ParseErxudp(line), parseIp);
    assert NoticeEvent(line) == ParseErxudp(line);
    assert Handle(r, line) == Push(EndBlock(r), ParseErxudp(line));
  }

  lemma KindOfOther(line: string)
    requires IsNotice(line) && !IsErxudp(line)
    ensures NoticeEvent(line).kind != "ERXUDP"
  {
    hide ParseErxudp, Fields, TrimSpace, TrimPrefix;
    if "EVENT " <= line {
      assert "EVENT"[1] != "ERXUDP"[1];
    } else {
      var kind := line[..Find(line, {' '})];
      assert kind != "ERXUDP" by {
        assert "ERXUDP"[3] == 'U' && "ERXUDP"[1] == 'R';
        assert |kind| > 3 ==> kind[3] == line[3] && kind[1] == line[1];
        assert "ERXTCP " <= line ==> line[3] == 'T';
        assert "ETIMER" <= line ==> line[1] == 'T';
      }
    }
  }

  // No other line delivers anything.
  lemma OtherLine(r: Reader, line: string, parseIp: string -> Option<seq<byte>>)
    requires WellFormed(r) && !IsErxudp(line)
    ensures Deliver(Handle(r, line).events, parseIp) == Deliver(r.events, parseIp)
  {
    hide Deliver, NoticeEvent, BlockEvent, TrimSpace;
    EndBlockDelivers(r, parseIp);
    if IsNotice(line) {
      KindOfOther(line);
      DeliverSnoc(EndBlock(r).events, NoticeEvent(line), parseIp);
      assert DeliverOne(NoticeEvent(line), parseIp) == [];
      assert Deliver(EndBlock(r).events, parseIp) + [] == Deliver(EndBlock(r).events, parseIp);
    }
  }

  lemma NoParcels(r: Reader)
    requires WellFormed(r)
    ensures AllProper([]) && LinesOf([]) == [] && Expected([]) == [] && HandleAll(r, []) == r
  {
  }

  lemma ParcelCons(r: Reader, ps: seq<Parcel>)
    requires WellFormed(r) && AllProper(ps) && ps != []
    ensures Proper(ps[0]) && AllProper(ps[1..])
    ensures WellFormed(Handle(r, LineOf(ps[0])))
    ensures HandleAll(r, LinesOf(ps)) == HandleAll(Handle(r, LineOf(ps[0])), LinesOf(ps[1..]))
    ensures Expected(ps) ==
      (if ps[0].Datagram? then [Delivery(ps[0].src, ps[0].sport, FrameOf(ps[0]))] else []) + Expected(ps[1..])
  {
    hide LineOf, Proper, FrameOf, Handle;
    assert LinesOf(ps)[0] == LineOf(ps[0]) && LinesOf(ps)[1..] == LinesOf(ps[1..]);
  }

  lemma LineStarts(p: Parcel)
    requires Proper(p)
    ensures IsErxudp(LineOf(p)) <==> p.Datagram?
  {
  }

  // What the reader does: it handles a line, or a caller issues a command or gives one up in between.
  datatype Act = HandleLine(line: string) | IssueCommand(cmd: string) | GiveUp

  function Act1(r: Reader, act: Act): (r': Reader)
    requires WellFormed(r)
    ensures WellFormed(r')
  {
    match act
    case HandleLine(line) => Handle(r, line)
    case IssueCommand(cmd) => Issue(r, cmd)
    case GiveUp => Release(r)
  }

  function ActAll(r: Reader, acts: seq<Act>): (r': Reader)
    requires WellFormed(r)
    ensures WellFormed(r')
    decreases |acts|
  {
    if acts == [] then r else ActAll(Act1(r, acts[0]), acts[1..])
  }

  function LinesIn(acts: seq<Act>): seq<string> {
    if acts == [] then []
    else (if acts[0].HandleLine? then [acts[0].line] else []) + LinesIn(acts[1..])
  }

  // Commands issued and given up between the lines change nothing about what is delivered.
  lemma {:induction false} ActsDeliver(r: Reader, acts: seq<Act>, ps: seq<Parcel>, parseIp: string -> Option<seq<byte>>)
    requires WellFormed(r) && AllProper(ps) && LinesIn(acts) == LinesOf(ps) && Udp.ReadsFullForm(parseIp)
    ensures Deliver(ActAll(r, acts).events, parseIp) == Deliver(r.events, parseIp) + Expected(ps)
    decreases |acts|
  {
    hide *;
    if acts == [] {
      NoActs(r);
      NoLinesNoParcels(ps);
      NoParcels(r);
    } else if acts[0].HandleLine? {
      LinesInCons(acts);
      LinesOfCons(ps, acts[0].line, LinesIn(acts[1..]));
      ParcelCons(r, ps);
      LineStarts(ps[0]);
      ActCons(r, acts);
      if ps[0].Datagram? {
        DatagramLine(r, LineOf(ps[0]), parseIp);
        DatagramEvent(ps[0], parseIp);
      } else {
        OtherLine(r, LineOf(ps[0]), parseIp);
      }
      ActsDeliver(Act1(r, acts[0]), acts[1..], ps[1..], parseIp);
    } else {
      LinesInCons(acts);
      ActCons(r, acts);
      ActsDeliver(Act1(r, acts[0]), acts[1..], ps, parseIp);
    }
  }

  lemma NoActs(r: Reader)
    requires WellFormed(r)
    ensures LinesIn([]) == [] && ActAll(r, []) == r
  {
  }

  lemma NoLinesNoParcels(ps: seq<Parcel>)
    requires AllProper(ps) && LinesOf(ps) == []
    ensures ps == []
  {
  }

  lemma LinesInCons(acts: seq<Act>)
    requires acts != []
    ensures acts[0].HandleLine? ==> LinesIn(acts) == [acts[0].line] + LinesIn(acts[1..])
    ensures !acts[0].HandleLine? ==> LinesIn(acts) == LinesIn(acts[1..])
  {
  }

  lemma LinesOfCons(ps: seq<Parcel>, line: string, more: seq<string>)
    requires AllProper(ps) && LinesOf(ps) == [line] + more
    ensures ps != [] && Proper(ps[0]) && AllProper(ps[1..]) && LineOf(ps[0]) == line && LinesOf(ps[1..]) == more
  {
    hide LineOf, Proper;
    assert LinesOf(ps)[0] == line && LinesOf(ps)[1..] == more;
  }

  lemma ActCons(r: Reader, acts: seq<Act>)
    requires WellFormed(r) && acts != []
    ensures ActAll(r, acts) == ActAll(Act1(r, acts[0]), acts[1..])
    ensures acts[0].HandleLine? ==> Act1(r, acts[0]) == Handle(r, acts[0].line)
    ensures !acts[0].HandleLine? ==> Act1(r, acts[0]).events == r.events
  {
    hide Handle;
  }

  // Main result. Any list of datagrams carrying encoded frames, mixed with any other lines, each
  // line ended by any CR/LF mix and the whole stream cut into reads in any way, comes out as exactly
  // those frames, in order, each with its sender and source port, and no read ever fails for an
  // oversized line. Meanwhile callers may issue commands, and give them up, between any two lines.
  lemma FramesArrive(
      r: Reader, acts: seq<Act>, ps: seq<Parcel>, chunks: seq<string>, parseIp: string -> Option<seq<byte>>)
    requires WellFormed(r) && AllProper(ps) && Ended(ps)
    requires Flatten(chunks) == Stream(ps) && Fits(Scan("", false), chunks)
    requires LinesIn(acts) == ScanAll(Scan("", false), chunks).1
    requires Udp.ReadsFullForm(parseIp)
    ensures !ScanAll(Scan("", false), chunks).0
    ensures Deliver(ActAll(r, acts).events, parseIp) == Deliver(r.events, parseIp) + Expected(ps)
  {
    hide *;
    NoLongRun(ps);
    ChunkIndependence(chunks);
    StreamLines(ps);
    ActsDeliver(r, acts, ps, parseIp);
  }

  // A datagram for every encodable frame exists, so the theorem speaks about all of them.
  lemma EveryFrameTravels(src: seq<byte>, sport: uint16, words: seq<string>, f: Echonet.Frame, eol: string)
    requires Udp.IsIp(src) && |words| == 6 && forall i :: 0 <= i < 6 ==> IsWord(words[i]) && |words[i]| <= 64
    requires Echonet.Encodable(f)
    ensures var p := Datagram(src, sport, words, HexBytes(Echonet.Encoding(f)), eol);
      Proper(p) && FrameOf(p) == f
  {
    hide Echonet.Encoding, Echonet.Decoding, HexDecode, HexBytes;
    HexRoundTrip(Echonet.Encoding(f));
    Echonet.RoundTripIff(f);
  }
}
