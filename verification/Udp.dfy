// UDP over the serial link: the SKSENDTO command on the way out, ERXUDP events on the way in.
module Udp {
  import opened Prelude
  import opened Text
  import Driver
  import Echonet

  // IPv6 text ----------------------------------------------------------------------------------

  predicate IsIp(ip: seq<byte>) {
    |ip| == 16
  }

  // net.IP.To16: a 4-byte address becomes IPv4-mapped, other lengths are no address.
  function To16(ip: seq<byte>): (r: Option<seq<byte>>)
    ensures r.Some? ==> IsIp(r.value)
  {
    if |ip| == 16 then Some(ip)
    else if |ip| == 4 then Some([0, 0, 0, 0, 0, 0, 0, 0, 0, 0, 0xFF, 0xFF] + ip)
    else None
  }

  // Groups of four upper-case digits, never compressed.
  function GroupText(b: seq<byte>): (s: string)
    requires |b| > 0 && |b| % 2 == 0
    ensures |s| == 5 * (|b| / 2) - 1
  {
    if |b| == 2 then HexBytes(b) else HexBytes(b[..2]) + ":" + GroupText(b[2..])
  }

  function FormatIPv6Upper(ip: seq<byte>): (s: string)
    requires IsIp(ip)
    ensures |s| == 39
  {
    GroupText(ip)
  }

  // Reads n groups of exactly four digits.
  function ParseGroups(s: string, n: nat): Option<seq<byte>>
    requires n > 0
  {
    if |s| < 4 then None
    else
      match HexDecode(s[..4])
      case None => None
      case Some(head) =>
        if n == 1 then (if |s| == 4 then Some(head) else None)
        else if |s| == 4 || s[4] != ':' then None
        else
          match ParseGroups(s[5..], n - 1)
          case None => None
          case Some(tail) => Some(head + tail)
  }

  function ParseFullIPv6(s: string): Option<seq<byte>> {
    ParseGroups(s, 8)
  }

  // The library's address parser is a parameter of the model. All that is asked of it is that it
  // understands the full form of an IPv6 address.
  ghost predicate ReadsFullForm(parseIp: string -> Option<seq<byte>>) {
    forall s :: ParseFullIPv6(s).Some? ==> parseIp(s) == ParseFullIPv6(s)
  }

  lemma FirstGroup(b: seq<byte>)
    requires |b| > 2 && |b| % 2 == 0
    ensures var s := GroupText(b);
      s[..4] == HexBytes(b[..2]) && s[4] == ':' && s[5..] == GroupText(b[2..])
  {
    hide HexBytes;
    assert GroupText(b) == HexBytes(b[..2]) + ":" + GroupText(b[2..]);
  }

  lemma {:induction false} GroupRoundTrip(b: seq<byte>)
    requires |b| > 0 && |b| % 2 == 0
    ensures ParseGroups(GroupText(b), |b| / 2) == Some(b)
    ensures Free(GroupText(b), BLANKS)
    decreases |b|
  {
    hide HexBytes, HexDecode;
    var s := GroupText(b);
    if |b| == 2 {
      HexRoundTrip(b);
      assert s[..4] == s;
    } else {
      FirstGroup(b);
      GroupRoundTrip(b[2..]);
      HexRoundTrip(b[..2]);
      assert b[..2] + b[2..] == b;
    }
  }

  // The printed address can be read back and is one word.
  lemma IpRoundTrip(ip: seq<byte>)
    requires IsIp(ip)
    ensures ParseFullIPv6(FormatIPv6Upper(ip)) == Some(ip)
    ensures IsWord(FormatIPv6Upper(ip))
  {
    GroupRoundTrip(ip);
  }

  // Groups of four upper-case digits with colons in between.
  predicate Grouped(s: string) {
    forall i :: 0 <= i < |s| ==> if i % 5 == 4 then s[i] == ':' else s[i] in "0123456789ABCDEF"
  }

  lemma GroupedCons(first: string, rest: string)
    requires |first| == 4 && Grouped(first) && Grouped(rest)
    ensures Grouped(first + ":" + rest)
  {
    var s := first + ":" + rest;
    forall i | 0 <= i < |s|
      ensures if i % 5 == 4 then s[i] == ':' else s[i] in "0123456789ABCDEF"
    {
      if i < 4 {
        assert s[i] == first[i];
      } else if i > 4 {
        assert s[i] == rest[i - 5] && i % 5 == (i - 5) % 5;
      }
    }
  }

  lemma {:induction false} GroupsUpper(b: seq<byte>)
    requires |b| > 0 && |b| % 2 == 0
    ensures Grouped(GroupText(b))
    decreases |b|
  {
    hide HexBytes, Grouped;
    if |b| == 2 {
      BytesUpper(b);
    } else {
      BytesUpper(b[..2]);
      GroupsUpper(b[2..]);
      GroupedCons(HexBytes(b[..2]), GroupText(b[2..]));
    }
  }

  lemma BytesUpper(b: seq<byte>)
    requires |b| == 2
    ensures Grouped(HexBytes(b))
  {
    hide HexDigit;
    HexDigits(b[0] / 16, '0');
    HexDigits(b[0] % 16, '0');
    HexDigits(b[1] / 16, '0');
    HexDigits(b[1] % 16, '0');
    assert HexBytes(b) == [HexDigit(b[0] / 16), HexDigit(b[0] % 16)] + HexBytes(b[1..]);
    assert HexBytes(b[1..]) == [HexDigit(b[1] / 16), HexDigit(b[1] % 16)] + HexBytes(b[2..]);
  }

  // An address is printed as eight groups of four upper-case digits, never compressed.
  lemma AddressIsUpper(ip: seq<byte>)
    requires IsIp(ip)
    ensures |FormatIPv6Upper(ip)| == 39
    ensures forall i :: 0 <= i < 39 ==>
      if i % 5 == 4 then FormatIPv6Upper(ip)[i] == ':' else FormatIPv6Upper(ip)[i] in "0123456789ABCDEF"
  {
    hide GroupText;
    GroupsUpper(ip);
  }

  // Ports ----------------------------------------------------------------------------------------

  // The last four digits count; the empty text is zero.
  function PortOf(s: string): Option<uint16> {
    if AllHex(s) then Some(HexNat(s) % 0x1_0000) else None
  }

  method ParseHexU16(s: string) returns (r: Option<uint16>)
    ensures r == PortOf(s)
  {
    var v := 0;
    for i := 0 to |s|
      invariant AllHex(s[..i]) && v == HexNat(s[..i]) % 0x1_0000
    {
      match HexValue(s[i])
      case None => return None;
      case Some(d) =>
        assert s[..i + 1][..i] == s[..i];
        ShiftIn(HexNat(s[..i]), d);
        v := v * 0x10 % 0x1_0000 + d;
    }
    assert s[..|s|] == s;
    return Some(v);
  }

  lemma ShiftIn(a: nat, d: nat)
    requires d < 16
    ensures (a % 0x1_0000) * 0x10 % 0x1_0000 + d == (16 * a + d) % 0x1_0000
  {
    var q, m := a / 0x1_0000, a % 0x1_0000;
    var q', m' := m / 0x1000, m % 0x1000;
    Low16(m * 0x10, q', 16 * m');
    Low16(16 * a + d, 16 * q + q', 16 * m' + d);
  }

  // Each digit shifts the port by four bits, and the high bits fall out.
  lemma PortByDigits(s: string, c: char)
    ensures PortOf("") == Some(0)
    ensures PortOf(s + [c]).Some? <==> PortOf(s).Some? && HexValue(c).Some?
    ensures PortOf(s + [c]).Some? ==> PortOf(s + [c]).value == (PortOf(s).value * 16 + HexValue(c).value) % 0x1_0000
  {
    assert (s + [c])[..|s|] == s && (s + [c])[|s|] == c;
    assert AllHex(s + [c]) ==> forall i :: 0 <= i < |s| ==> HexValue((s + [c])[i]).Some? && (s + [c])[i] == s[i];
    if AllHex(s + [c]) {
      assert AllHex(s);
      var a, d := HexNat(s), HexValue(c).value;
      assert HexNat(s + [c]) == 16 * a + d;
      ShiftIn(a, d);
      Low16(16 * (a % 0x1_0000) + d, (16 * (a % 0x1_0000) + d) / 0x1_0000, (16 * (a % 0x1_0000) + d) % 0x1_0000);
      ShiftedLow(a, d);
    }
  }

  lemma ShiftedLow(a: nat, d: nat)
    requires d < 16
    ensures (16 * a + d) % 0x1_0000 == (a % 0x1_0000 * 16 + d) % 0x1_0000
  {
    var q, m := a / 0x1_0000, a % 0x1_0000;
    var k, r := (16 * m + d) / 0x1_0000, (16 * m + d) % 0x1_0000;
    Low16(16 * a + d, 16 * q + k, r);
  }

  lemma PortRoundTrip(port: uint16)
    ensures PortOf(HexUpper(port, 4)) == Some(port)
    ensures IsWord(HexUpper(port, 4))
  {
    hide HexUpper, HexNat;
    Pow16Four();
    HexUpperValue(port, 4);
  }

  // Sending --------------------------------------------------------------------------------------

  const MAX_PAYLOAD := 1232

  datatype SendError = EmptyPayload | PayloadTooLong | BadAddress

  function SendHeader(ip: seq<byte>, size: nat): string
    requires IsIp(ip)
  {
    "SKSENDTO 1 " + FormatIPv6Upper(ip) + " " + HexUpper(Echonet.PORT, 4) + " 1 0 " + HexUpper(size, 4) + " "
  }

  // The bytes written for a command: the line, its payload, CR LF.
  function Written(line: string, payload: seq<byte>): string {
    line + Chars(payload) + "\r\n"
  }

  method WriteCommand(line: string, payload: seq<byte>) returns (buf: string)
    ensures buf == Written(line, payload)
  {
    buf := line;
    buf := buf + Chars(payload);
    buf := buf + "\r\n";
  }

  // An IPv4 address in IPv6 form.
  function Mapped(dst: seq<byte>): seq<byte> {
    if |dst| == 4 then [0, 0, 0, 0, 0, 0, 0, 0, 0, 0, 0xFF, 0xFF, dst[0], dst[1], dst[2], dst[3]] else dst
  }

  method SendUDP(dst: seq<byte>, payload: seq<byte>) returns (r: Result<string, SendError>)
    ensures r.Ok? <==> 1 <= |payload| <= 1232 && (|dst| == 16 || |dst| == 4)
    ensures r.Ok? ==> r.value == Written(SendHeader(To16(dst).value, |payload|), payload)
    ensures r.Ok? ==> ReadSendTo(r.value) == Some(SendTo(Mapped(dst), 3610, payload, "\r\n"))
    ensures r.Err? ==>
      r.error == (if |payload| == 0 then EmptyPayload else if |payload| > 1232 then PayloadTooLong else BadAddress)
  {
    hide SendHeader, Written, ReadSendTo;
    if |payload| == 0 {
      return Err(EmptyPayload);
    }
    if |payload| > MAX_PAYLOAD {
      return Err(PayloadTooLong);
    }
    var ip := To16(dst);
    if ip.None? {
      return Err(BadAddress);
    }
    var buf := WriteCommand(SendHeader(ip.value, |payload|), payload);
    SendToFraming(ip.value, payload, "");
    assert ip.value == Mapped(dst);
    assert buf + "" == buf && "\r\n" + "" == "\r\n";
    return Ok(buf);
  }

  // A reader of the command, as the module has to do it: words up to a space each, then as many
  // raw bytes as the last word says.
  datatype SendTo = SendTo(ip: seq<byte>, port: nat, payload: seq<int>, rest: string)

  function TakeWords(s: string, n: nat): Option<(seq<string>, string)>
    decreases n
  {
    if n == 0 then Some(([], s))
    else
      var k := Find(s, {' '});
      if k == |s| then None
      else
        match TakeWords(s[k + 1..], n - 1)
        case None => None
        case Some((ws, rest)) => Some(([s[..k]] + ws, rest))
  }

  function ReadSendTo(s: string): Option<SendTo> {
    match TakeWords(s, 7)
    case None => None
    case Some((ws, rest)) => ReadArguments(ws, rest)
  }

  function ReadArguments(ws: seq<string>, rest: string): Option<SendTo> {
    if |ws| != 7 || ws[0] != "SKSENDTO" || ws[1] != "1" || ws[4] != "1" || ws[5] != "0" then None
    else if ParseFullIPv6(ws[2]).None? || !AllHex(ws[3]) || !AllHex(ws[6]) || |rest| < HexNat(ws[6]) then None
    else
      var n := HexNat(ws[6]);
      Some(SendTo(ParseFullIPv6(ws[2]).value, HexNat(ws[3]), Codes(rest[..n]), rest[n..]))
  }

  function Spaced(ws: seq<string>): string {
    if ws == [] then "" else ws[0] + " " + Spaced(ws[1..])
  }

  lemma {:induction false} TakeSpaced(ws: seq<string>, rest: string)
    requires forall i :: 0 <= i < |ws| ==> Free(ws[i], {' '})
    ensures TakeWords(Spaced(ws) + rest, |ws|) == Some((ws, rest))
    decreases |ws|
  {
    hide *;
    SpacedNil();
    TakeNone(rest);
    if ws == [] {
      assert "" + rest == rest;
    } else {
      var w, more := ws[0], ws[1..];
      TakeSpaced(more, rest);
      SpacedCons(w, more);
      assert [w] + more == ws;
      assert w + " " + Spaced(more) + rest == w + " " + (Spaced(more) + rest);
      TakeOne(w, Spaced(more) + rest, |more|);
    }
  }

  lemma TakeNone(s: string)
    ensures TakeWords(s, 0) == Some(([], s))
  {
  }

  lemma TakeOne(w: string, tail: string, n: nat)
    requires Free(w, {' '})
    ensures TakeWords(tail, n).Some? ==>
      TakeWords(w + " " + tail, n + 1) == Some(([w] + TakeWords(tail, n).value.0, TakeWords(tail, n).value.1))
  {
    hide Find;
    FindAfter(w, " " + tail, {' '});
    assert w + " " + tail == w + (" " + tail);
    assert (w + " " + tail)[|w| + 1..] == tail;
  }

  lemma SpacedCons(w: string, more: seq<string>)
    ensures Spaced([w] + more) == w + " " + Spaced(more)
  {
    assert ([w] + more)[1..] == more;
  }

  function HeaderWords(ip: seq<byte>, size: nat): seq<string>
    requires IsIp(ip)
  {
    ["SKSENDTO", "1", FormatIPv6Upper(ip), HexUpper(Echonet.PORT, 4), "1", "0", HexUpper(size, 4)]
  }

  lemma HeaderSpaced(ip: seq<byte>, size: nat)
    requires IsIp(ip)
    ensures SendHeader(ip, size) == Spaced(HeaderWords(ip, size))
  {
    hide HexUpper, FormatIPv6Upper, Spaced;
    var a, p, n := FormatIPv6Upper(ip), HexUpper(Echonet.PORT, 4), HexUpper(size, 4);
    SpacedCons(n, []);
    SpacedCons("0", [n]);
    SpacedCons("1", ["0", n]);
    SpacedCons(p, ["1", "0", n]);
    SpacedCons(a, [p, "1", "0", n]);
    SpacedCons("1", [a, p, "1", "0", n]);
    SpacedCons("SKSENDTO", ["1", a, p, "1", "0", n]);
    SpacedNil();
    assert [n] + [] == [n];
    assert ["0"] + [n] == ["0", n];
    assert ["1"] + ["0", n] == ["1", "0", n];
    assert [p] + ["1", "0", n] == [p, "1", "0", n];
    assert [a] + [p, "1", "0", n] == [a, p, "1", "0", n];
    assert ["1"] + [a, p, "1", "0", n] == ["1", a, p, "1", "0", n];
    assert ["SKSENDTO"] + ["1", a, p, "1", "0", n] == HeaderWords(ip, size);
    var t := p + " 1 0 " + n + " ";
    assert Spaced([p, "1", "0", n]) == t;
    assert SendHeader(ip, size) == "SKSENDTO 1 " + (a + " " + t);
    assert Spaced([a, p, "1", "0", n]) == a + " " + t;
    assert "SKSENDTO" + " " + ("1" + " " + (a + " " + t)) == "SKSENDTO 1 " + (a + " " + t);
  }

  lemma SpacedNil()
    ensures Spaced([]) == ""
  {
  }

  lemma HeaderWordsFree(ip: seq<byte>, size: nat)
    requires IsIp(ip) && size < 0x1_0000
    ensures forall i :: 0 <= i < 7 ==> Free(HeaderWords(ip, size)[i], {' '})
    ensures AllHex(HexUpper(size, 4)) && HexNat(HexUpper(size, 4)) == size
  {
    hide HexUpper, FormatIPv6Upper, HexNat;
    IpRoundTrip(ip);
    Pow16Four();
    HexUpperValue(size, 4);
    HexUpperValue(Echonet.PORT, 4);
  }

  lemma Pow16Four()
    ensures Pow16(4) == 0x1_0000
  {
    assert Pow16(2) == 0x100;
  }

  // The payload bytes and nothing else are recovered from what is written, whatever they are and
  // whatever follows; in particular the line end after the payload stays.
  lemma SendToFraming(ip: seq<byte>, payload: seq<byte>, more: string)
    requires IsIp(ip) && |payload| <= 1232
    ensures ReadSendTo(Written(SendHeader(ip, |payload|), payload) + more)
      == Some(SendTo(ip, 3610, payload, "\r\n" + more))
  {
    hide SendHeader, HeaderWords, TakeWords, Spaced, ParseFullIPv6, FormatIPv6Upper, HexUpper, HexNat;
    var size := |payload|;
    var rest := Chars(payload) + ("\r\n" + more);
    HeaderSpaced(ip, size);
    HeaderWordsFree(ip, size);
    HeaderWordsAre(ip, size);
    TakeSpaced(HeaderWords(ip, size), rest);
    assert Written(SendHeader(ip, size), payload) + more == Spaced(HeaderWords(ip, size)) + rest;
    IpRoundTrip(ip);
    PortText();
    assert rest[..size] == Chars(payload) && rest[size..] == "\r\n" + more;
    assert Codes(Chars(payload)) == payload;
  }

  lemma HeaderWordsAre(ip: seq<byte>, size: nat)
    requires IsIp(ip)
    ensures var ws := HeaderWords(ip, size);
      |ws| == 7 && ws[0] == "SKSENDTO" && ws[1] == "1" && ws[2] == FormatIPv6Upper(ip)
      && ws[3] == HexUpper(Echonet.PORT, 4) && ws[4] == "1" && ws[5] == "0" && ws[6] == HexUpper(size, 4)
  {
  }

  lemma PortText()
    ensures AllHex(HexUpper(Echonet.PORT, 4)) && HexNat(HexUpper(Echonet.PORT, 4)) == Echonet.PORT
  {
    Pow16Four();
    HexUpperValue(Echonet.PORT, 4);
  }

  // Hence no written command is a prefix of a different one.
  lemma SendToUnambiguous(ip: seq<byte>, a: seq<byte>, jp: seq<byte>, b: seq<byte>, more: string)
    requires IsIp(ip) && IsIp(jp) && |a| <= 1232 && |b| <= 1232
    requires Written(SendHeader(ip, |a|), a) + more == Written(SendHeader(jp, |b|), b)
    ensures ip == jp && a == b && more == ""
  {
    hide SendHeader, ReadSendTo, Written;
    SendToFraming(ip, a, more);
    SendToFraming(jp, b, "");
    assert Written(SendHeader(jp, |b|), b) + "" == Written(SendHeader(jp, |b|), b);
    assert "\r\n" + more == "\r\n" + "";
    assert |more| == 0;
  }

  // Receiving ------------------------------------------------------------------------------------

  datatype Incoming = Incoming(src: seq<byte>, port: uint16, payload: seq<byte>)

  function ParseIncoming(ev: Driver.Event, parseIp: string -> Option<seq<byte>>): Option<Incoming> {
    if |ev.params| < 9 then None
    else if parseIp(ev.params[0]).None? || PortOf(ev.params[2]).None? || ev.data.None? then None
    else Some(Incoming(parseIp(ev.params[0]).value, PortOf(ev.params[2]).value, ev.data.value))
  }
}
