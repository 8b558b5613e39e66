// ECHONET Lite frames (ECHONET Lite Specification, Part II, section 3.2).
module Echonet {
  import opened Prelude

  const EHD1: byte := 0x10
  const EHD2: byte := 0x81
  const ESV_GET: byte := 0x62

  // UDP port used by ECHONET Lite on both ends.
  const PORT: uint16 := 3610

  datatype Eoj = Eoj(group: byte, kind: byte, instance: byte)

  const CONTROLLER := Eoj(0x05, 0xFF, 0x01)
  const SMART_METER := Eoj(0x02, 0x88, 0x01)

  datatype Property = Property(epc: byte, edt: seq<byte>)

  datatype Frame = Frame(tid: uint16, seoj: Eoj, deoj: Eoj, esv: byte, props: seq<Property>)

  datatype DecodeError = TooShort | BadEHD | Truncated | PropOverflow

  // A big-endian pair of bytes.
  function Word(high: byte, low: byte): uint16 {
    var h: int := high;
    h * 0x100 + low
  }

  lemma WordBytes(high: byte, low: byte)
    ensures Word(high, low) / 0x100 == high && Word(high, low) % 0x100 == low
  {
  }

  // Layout -----------------------------------------------------------------------------------

  // The twelve bytes before the property list. The property count is cut to one byte.
  function Header(f: Frame): (h: seq<byte>)
    ensures |h| == 12
  {
    [EHD1, EHD2, f.tid / 0x100, f.tid % 0x100]
    + [f.seoj.group, f.seoj.kind, f.seoj.instance]
    + [f.deoj.group, f.deoj.kind, f.deoj.instance]
    + [f.esv, |f.props| % 0x100]
  }

  // One property; the data length is cut to one byte as well.
  function PropertyBytes(p: Property): seq<byte> {
    [p.epc, |p.edt| % 0x100] + p.edt
  }

  function PropertyList(ps: seq<Property>): seq<byte> {
    if ps == [] then [] else PropertyBytes(ps[0]) + PropertyList(ps[1..])
  }

  function Encoding(f: Frame): seq<byte> {
    Header(f) + PropertyList(f.props)
  }

  // Size computed before the buffer is allocated.
  function ListSize(ps: seq<Property>): nat {
    if ps == [] then 0 else 2 + |ps[0].edt| + ListSize(ps[1..])
  }

  // The counts fit their one-byte fields.
  predicate Encodable(f: Frame) {
    |f.props| <= 255 && forall i :: 0 <= i < |f.props| ==> |f.props[i].edt| <= 255
  }

  predicate ShortData(ps: seq<Property>) {
    forall i :: 0 <= i < |ps| ==> |ps[i].edt| <= 255
  }

  function Prepend(first: seq<Property>, r: Result<(seq<Property>, seq<byte>), DecodeError>):
    Result<(seq<Property>, seq<byte>), DecodeError>
  {
    match r
    case Err(e) => Err(e)
    case Ok((ps, rest)) => Ok((first + ps, rest))
  }

  // n properties from the front of b, and the bytes after them.
  function ParseProperties(b: seq<byte>, n: nat): Result<(seq<Property>, seq<byte>), DecodeError>
    decreases n
  {
    if n == 0 then Ok(([], b))
    else if |b| < 2 then Err(Truncated)
    else
      var pdc: nat := b[1];
      if |b| < 2 + pdc then Err(PropOverflow)
      else Prepend([Property(b[0], b[2..2 + pdc])], ParseProperties(b[2 + pdc..], n - 1))
  }

  function Decoding(b: seq<byte>): Result<Frame, DecodeError> {
    if |b| < 12 then Err(TooShort)
    else if b[0] != EHD1 || b[1] != EHD2 then Err(BadEHD)
    else
      match ParseProperties(b[12..], b[11])
      case Err(e) => Err(e)
      case Ok((ps, _)) =>
        Ok(Frame(Word(b[2], b[3]), Eoj(b[4], b[5], b[6]), Eoj(b[7], b[8], b[9]), b[10], ps))
  }

  // Laws -------------------------------------------------------------------------------------

  lemma ParseCons(p: Property, more: seq<Property>, tail: seq<byte>)
    requires |p.edt| <= 255
    ensures ParseProperties(PropertyList([p] + more) + tail, |more| + 1)
      == Prepend([p], ParseProperties(PropertyList(more) + tail, |more|))
  {
    hide PropertyList, Prepend;
    ListCons(p, more);
    var b := PropertyList([p] + more) + tail;
    var d := PropertyList(more) + tail;
    assert b == [p.epc, |p.edt|] + p.edt + d;
    assert b[2..2 + |p.edt|] == p.edt;
    assert b[2 + |p.edt|..] == d;
  }

  lemma ListCons(p: Property, more: seq<Property>)
    ensures PropertyList([p] + more) == PropertyBytes(p) + PropertyList(more)
  {
    assert ([p] + more)[1..] == more;
  }

  lemma {:induction false} ParseList(ps: seq<Property>, tail: seq<byte>)
    requires ShortData(ps)
    ensures ParseProperties(PropertyList(ps) + tail, |ps|) == Ok((ps, tail))
  {
    if ps == [] {
      assert PropertyList(ps) + tail == tail;
    } else {
      hide PropertyList, ParseProperties;
      var p, more := ps[0], ps[1..];
      ParseList(more, tail);
      assert [p] + more == ps;
      ParseCons(p, more, tail);
    }
  }

  lemma {:induction false} ParsedPrefix(b: seq<byte>, n: nat)
    requires ParseProperties(b, n).Ok?
    ensures var (ps, rest) := ParseProperties(b, n).value;
      |ps| == n && ShortData(ps) && b == PropertyList(ps) + rest
    decreases n
  {
    if n == 0 {
      assert [] + b == b;
    } else {
      hide PropertyList;
      var pdc: nat := b[1];
      var p := Property(b[0], b[2..2 + pdc]);
      var d := b[2 + pdc..];
      assert ParseProperties(b, n) == Prepend([p], ParseProperties(d, n - 1));
      ParsedPrefix(d, n - 1);
      ParsedCons(b, p, ParseProperties(d, n - 1).value.0, d, ParseProperties(d, n - 1).value.1);
    }
  }

  lemma ParsedCons(b: seq<byte>, p: Property, more: seq<Property>, d: seq<byte>, rest: seq<byte>)
    requires |p.edt| <= 255 && ShortData(more) && d == PropertyList(more) + rest
    requires b == [p.epc, |p.edt|] + p.edt + d
    ensures ShortData([p] + more) && b == PropertyList([p] + more) + rest
  {
    hide PropertyList;
    ListCons(p, more);
  }

  // Decoding undoes encoding, whatever bytes follow the frame.
  lemma DecodeEncode(f: Frame, tail: seq<byte>)
    requires Encodable(f)
    ensures Decoding(Encoding(f) + tail) == Ok(f)
  {
    hide PropertyList, ParseProperties;
    ParseList(f.props, tail);
    var b := Encoding(f) + tail;
    assert b[12..] == PropertyList(f.props) + tail;
    assert b[..12] == Header(f);
    assert forall i :: 0 <= i < 12 ==> b[i] == Header(f)[i];
  }

  // What is accepted starts with the encoding of what is returned.
  lemma EncodeDecode(b: seq<byte>)
    requires Decoding(b).Ok?
    ensures Encodable(Decoding(b).value)
    ensures Encoding(Decoding(b).value) <= b
  {
    hide Word, PropertyList, ParseProperties;
    var f := Decoding(b).value;
    ParsedPrefix(b[12..], b[11]);
    var (ps, rest) := ParseProperties(b[12..], b[11]).value;
    WordBytes(b[2], b[3]);
    assert b[..12] == Header(f);
    assert b == Header(f) + PropertyList(ps) + rest;
  }

  // The law holds exactly for frames whose counts fit one byte; Encode itself does not check.
  lemma RoundTripIff(f: Frame)
    ensures Decoding(Encoding(f)) == Ok(f) <==> Encodable(f)
  {
    if Encodable(f) {
      DecodeEncode(f, []);
      assert Encoding(f) + [] == Encoding(f);
    }
    if Decoding(Encoding(f)) == Ok(f) {
      EncodeDecode(Encoding(f));
    }
  }

  // Appended bytes never change an accepted result.
  lemma DecodeIgnoresTail(b: seq<byte>, tail: seq<byte>)
    requires Decoding(b).Ok?
    ensures Decoding(b + tail) == Decoding(b)
  {
    var f := Decoding(b).value;
    EncodeDecode(b);
    var rest := b[|Encoding(f)|..];
    assert b == Encoding(f) + rest;
    assert b + tail == Encoding(f) + (rest + tail);
    DecodeEncode(f, rest + tail);
  }

  // The accepted byte strings are the ones that start with the encoding of some frame, and that
  // frame is unique: no encoding is a prefix of the encoding of another frame.
  lemma AcceptedExactly(b: seq<byte>)
    ensures Decoding(b).Ok? <==> exists f :: Encodable(f) && Encoding(f) <= b
  {
    if Decoding(b).Ok? {
      EncodeDecode(b);
    }
    if f :| Encodable(f) && Encoding(f) <= b {
      DecodeEncode(f, b[|Encoding(f)|..]);
      assert Encoding(f) + b[|Encoding(f)|..] == b;
    }
  }

  lemma PrefixFree(f: Frame, g: Frame)
    requires Encodable(f) && Encodable(g) && Encoding(f) <= Encoding(g)
    ensures f == g
  {
    var tail := Encoding(g)[|Encoding(f)|..];
    assert Encoding(f) + tail == Encoding(g) == Encoding(g) + [];
    DecodeEncode(f, tail);
    DecodeEncode(g, []);
  }

  lemma {:induction false} ListSizeExact(ps: seq<Property>)
    ensures |PropertyList(ps)| == ListSize(ps)
    ensures ShortData(ps) ==> ListSize(ps) <= 257 * |ps|
  {
    if ps != [] {
      ListSizeExact(ps[1..]);
    }
  }

  // A frame is never longer than 12 + 255 * 257 bytes.
  lemma EncodingBound(f: Frame)
    requires Encodable(f)
    ensures |Encoding(f)| == 12 + ListSize(f.props) <= 65547
  {
    ListSizeExact(f.props);
  }

  lemma {:induction false} PropertyListConcat(a: seq<Property>, b: seq<Property>)
    ensures PropertyList(a + b) == PropertyList(a) + PropertyList(b)
  {
    hide *;
    ListNil();
    if a == [] {
      assert a + b == b;
    } else {
      var p, more := a[0], a[1..];
      PropertyListConcat(more, b);
      assert a == [p] + more && a + b == [p] + (more + b);
      ListCons(p, more);
      ListCons(p, more + b);
    }
  }

  lemma ListNil()
    ensures PropertyList([]) == []
  {
  }

  lemma ListSnoc(ps: seq<Property>, p: Property)
    ensures PropertyList(ps + [p]) == PropertyList(ps) + PropertyBytes(p)
  {
    PropertyListConcat(ps, [p]);
    assert PropertyList([p]) == PropertyBytes(p) + [];
  }

  // Bytes by offset --------------------------------------------------------------------------

  // The fixed part of an encoding, byte by byte.
  lemma HeaderByOffset(f: Frame)
    ensures var b := Encoding(f);
      && |b| >= 12 && b[0] == 0x10 && b[1] == 0x81
      && b[2] as int * 256 + b[3] as int == f.tid
      && b[4..7] == [f.seoj.group, f.seoj.kind, f.seoj.instance]
      && b[7..10] == [f.deoj.group, f.deoj.kind, f.deoj.instance]
      && b[10] == f.esv && b[11] == |f.props| % 256
  {
    hide PropertyList;
    var b := Encoding(f);
    assert b[..12] == Header(f);
    assert forall i :: 0 <= i < 12 ==> b[i] == Header(f)[i];
  }

  // Property number i of an encoding.
  lemma PropertyByOffset(f: Frame, i: nat)
    requires i < |f.props|
    ensures var b, o, p := Encoding(f), 12 + ListSize(f.props[..i]), f.props[i];
      && o + 2 + |p.edt| <= |b|
      && b[o] == p.epc && b[o + 1] == |p.edt| % 256 && b[o + 2..o + 2 + |p.edt|] == p.edt
  {
    hide PropertyList, ListSize;
    var front, p, back := f.props[..i], f.props[i], f.props[i + 1..];
    assert f.props == front + ([p] + back);
    PropertyListConcat(front, [p] + back);
    ListCons(p, back);
    ListSizeExact(front);
    var h, x, y := Header(f), PropertyList(front), PropertyList(back);
    assert Encoding(f) == (h + x) + PropertyBytes(p) + y;
    assert |h + x| == 12 + ListSize(front);
    assert Encoding(f)[|h + x|..|h + x| + |PropertyBytes(p)|] == PropertyBytes(p);
    assert PropertyBytes(p)[2..] == p.edt;
  }

  // What is read out of an accepted datagram, byte by byte, and what is refused and why.
  lemma AcceptedByOffset(b: seq<byte>)
    ensures |b| < 12 ==> Decoding(b) == Err(TooShort)
    ensures |b| >= 12 && (b[0] != 0x10 || b[1] != 0x81) ==> Decoding(b) == Err(BadEHD)
    ensures |b| >= 12 && b[0] == 0x10 && b[1] == 0x81 ==>
      Decoding(b).Ok? || Decoding(b) == Err(Truncated) || Decoding(b) == Err(PropOverflow)
    ensures Decoding(b).Ok? ==>
      var f := Decoding(b).value;
      && |b| >= 12 && f.tid == b[2] as int * 256 + b[3] as int
      && [f.seoj.group, f.seoj.kind, f.seoj.instance] == b[4..7]
      && [f.deoj.group, f.deoj.kind, f.deoj.instance] == b[7..10]
      && f.esv == b[10] && |f.props| == b[11]
      && forall i :: 0 <= i < |f.props| ==> PropertyAt(b, 12 + ListSize(f.props[..i]), f.props[i])
  {
    hide ParseProperties, Encoding, PropertyList, ListSize;
    if |b| >= 12 {
      OnlyListErrors(b);
    }
    if Decoding(b).Ok? {
      var f := Decoding(b).value;
      EncodeDecode(b);
      HeaderByOffset(f);
      var e := Encoding(f);
      assert forall i :: 0 <= i < |e| ==> b[i] == e[i];
      assert b[4..7] == e[4..7] && b[7..10] == e[7..10];
      forall i | 0 <= i < |f.props|
        ensures PropertyAt(b, 12 + ListSize(f.props[..i]), f.props[i])
      {
        PropertyByOffset(f, i);
        var o, n := 12 + ListSize(f.props[..i]), |f.props[i].edt|;
        assert b[o + 2..o + 2 + n] == e[o + 2..o + 2 + n];
      }
    }
  }

  predicate PropertyAt(b: seq<byte>, o: nat, p: Property) {
    o + 2 + |p.edt| <= |b| && b[o] == p.epc && b[o + 1] == |p.edt| && b[o + 2..o + 2 + |p.edt|] == p.edt
  }

  lemma OnlyListErrors(b: seq<byte>)
    requires |b| >= 12
    ensures ParseProperties(b[12..], b[11]).Err? ==>
      ParseProperties(b[12..], b[11]).error == Truncated || ParseProperties(b[12..], b[11]).error == PropOverflow
  {
    ListErrors(b[12..], b[11]);
  }

  // After some whole properties, fewer than announced: what is left is too short for code and length, or for
  // the data.
  lemma {:induction false} ListRefused(ps: seq<Property>, rest: seq<byte>, n: nat)
    requires ShortData(ps) && n > |ps|
    ensures |rest| < 2 ==> ParseProperties(PropertyList(ps) + rest, n) == Err(Truncated)
    ensures |rest| >= 2 && |rest| - 2 < rest[1] as int ==> ParseProperties(PropertyList(ps) + rest, n) == Err(PropOverflow)
    decreases |ps|
  {
    if ps == [] {
      assert PropertyList(ps) + rest == rest;
    } else {
      hide PropertyList, Prepend;
      var p, more := ps[0], ps[1..];
      ListRefused(more, rest, n - 1);
      ListCons(p, more);
      assert [p] + more == ps;
      var b, d := PropertyList(ps) + rest, PropertyList(more) + rest;
      assert b == [p.epc, |p.edt|] + p.edt + d;
      assert b[2..2 + |p.edt|] == p.edt && b[2 + |p.edt|..] == d;
      PrependError([p], Truncated);
      PrependError([p], PropOverflow);
    }
  }

  // A datagram that announces more properties than it holds.
  lemma RefusedByList(b: seq<byte>, ps: seq<Property>, rest: seq<byte>)
    requires |b| >= 12 && b[0] == 0x10 && b[1] == 0x81 && b[12..] == PropertyList(ps) + rest
    requires ShortData(ps) && |ps| < b[11] as int
    ensures |rest| < 2 ==> Decoding(b) == Err(Truncated)
    ensures |rest| >= 2 && |rest| - 2 < rest[1] as int ==> Decoding(b) == Err(PropOverflow)
  {
    hide ParseProperties, PropertyList, Word;
    ListRefused(ps, rest, b[11]);
  }

  lemma {:induction false} ListErrors(b: seq<byte>, n: nat)
    ensures ParseProperties(b, n).Err? ==>
      ParseProperties(b, n).error == Truncated || ParseProperties(b, n).error == PropOverflow
    decreases n
  {
    if n > 0 && |b| >= 2 {
      var pdc: nat := b[1];
      if |b| >= 2 + pdc {
        ListErrors(b[2 + pdc..], n - 1);
      }
    }
  }

  // The code ---------------------------------------------------------------------------------

  // The buffer ends up exactly as long as the size that was computed for it.
  method Encode(f: Frame) returns (buf: seq<byte>)
    ensures buf == Encoding(f)
    ensures |buf| == 12 + ListSize(f.props)
  {
    hide PropertyList;
    ListSizeExact(f.props);
    buf := Header(f);
    assert f.props[..0] == [];
    ListNil();
    for i := 0 to |f.props|
      invariant buf == Header(f) + PropertyList(f.props[..i])
    {
      var p := f.props[i];
      ListSnoc(f.props[..i], p);
      assert f.props[..i + 1] == f.props[..i] + [p];
      buf := buf + [p.epc, |p.edt| % 0x100];
      buf := buf + p.edt;
    }
    assert f.props[..|f.props|] == f.props;
  }

  method Decode(b: seq<byte>) returns (r: Result<Frame, DecodeError>)
    ensures r == Decoding(b)
  {
    if |b| < 12 {
      return Err(TooShort);
    }
    if b[0] != EHD1 || b[1] != EHD2 {
      return Err(BadEHD);
    }
    hide Prepend, ParseProperties, Word;
    var opc: nat := b[11];
    var props: seq<Property> := [];
    var off := 12;
    PrependNone(ParseProperties(b[12..], opc));
    for i := 0 to opc
      invariant 12 <= off <= |b|
      invariant ParseProperties(b[12..], opc) == Prepend(props, ParseProperties(b[off..], opc - i))
    {
      ghost var d := b[off..];
      ParseStep(d, opc - i);
      if off + 2 > |b| {
        PrependError(props, Truncated);
        return Err(Truncated);
      }
      var epc := b[off];
      var pdc: nat := b[off + 1];
      off := off + 2;
      if off + pdc > |b| {
        PrependError(props, PropOverflow);
        return Err(PropOverflow);
      }
      var edt := b[off..off + pdc];
      off := off + pdc;
      assert d[2..2 + pdc] == edt && d[2 + pdc..] == b[off..];
      PrependMore(props, Property(epc, edt), ParseProperties(b[off..], opc - i - 1));
      props := props + [Property(epc, edt)];
    }
    ParseNone(b[off..]);
    PrependOk(props, b[off..]);
    r := Ok(Frame(Word(b[2], b[3]), Eoj(b[4], b[5], b[6]), Eoj(b[7], b[8], b[9]), b[10], props));
  }

  lemma ParseNone(d: seq<byte>)
    ensures ParseProperties(d, 0) == Ok(([], d))
  {
  }

  lemma ParseStep(d: seq<byte>, n: nat)
    requires n > 0
    ensures |d| < 2 ==> ParseProperties(d, n) == Err(Truncated)
    ensures |d| >= 2 ==> var pdc: nat := d[1];
      && (|d| < 2 + pdc ==> ParseProperties(d, n) == Err(PropOverflow))
      && (|d| >= 2 + pdc ==>
        ParseProperties(d, n) == Prepend([Property(d[0], d[2..2 + pdc])], ParseProperties(d[2 + pdc..], n - 1)))
  {
  }

  lemma PrependError(first: seq<Property>, e: DecodeError)
    ensures Prepend(first, Err(e)) == Err(e)
  {
  }

  lemma PrependOk(first: seq<Property>, rest: seq<byte>)
    ensures Prepend(first, Ok(([], rest))) == Ok((first, rest))
  {
    assert first + [] == first;
  }

  lemma PrependNone(r: Result<(seq<Property>, seq<byte>), DecodeError>)
    ensures Prepend([], r) == r
  {
    if r.Ok? {
      assert [] + r.value.0 == r.value.0;
    }
  }

  lemma PrependMore(done: seq<Property>, p: Property, r: Result<(seq<Property>, seq<byte>), DecodeError>)
    ensures Prepend(done, Prepend([p], r)) == Prepend(done + [p], r)
  {
    if r.Ok? {
      assert done + ([p] + r.value.0) == done + [p] + r.value.0;
    }
  }

  // Requests ---------------------------------------------------------------------------------

  function GetRequest(tid: uint16, dest: Eoj, epcs: seq<byte>): Frame {
    Frame(tid, CONTROLLER, dest, ESV_GET, seq(|epcs|, i requires 0 <= i < |epcs| => Property(epcs[i], [])))
  }

  method NewGetRequest(tid: uint16, dest: Eoj, epcs: seq<byte>) returns (f: Frame)
    ensures f == GetRequest(tid, dest, epcs)
    ensures f.tid == tid && f.deoj == dest && f.seoj == Eoj(0x05, 0xFF, 0x01) && f.esv == 0x62
    ensures |f.props| == |epcs| && forall i :: 0 <= i < |epcs| ==> f.props[i] == Property(epcs[i], [])
  {
    var props := new Property[|epcs|];
    for i := 0 to |epcs|
      invariant forall k :: 0 <= k < i ==> props[k] == Property(epcs[k], [])
    {
      props[i] := Property(epcs[i], []);
    }
    f := Frame(tid, CONTROLLER, dest, ESV_GET, props[..]);
    assert f.props == GetRequest(tid, dest, epcs).props;
  }

  // A request reaches the meter as it was built exactly when it names at most 255 properties;
  // it takes two bytes for each of them.
  lemma RequestRoundTrip(tid: uint16, dest: Eoj, epcs: seq<byte>)
    ensures Decoding(Encoding(GetRequest(tid, dest, epcs))) == Ok(GetRequest(tid, dest, epcs)) <==> |epcs| <= 255
    ensures |Encoding(GetRequest(tid, dest, epcs))| == 12 + 2 * |epcs|
  {
    var f := GetRequest(tid, dest, epcs);
    RoundTripIff(f);
    ListSizeExact(f.props);
    EmptyDataSize(f.props);
  }

  // The bytes of a request with 1 to 255 codes: header, identifier, the controller as source, the
  // destination, the Get service, and two bytes for each code.
  lemma RequestBytes(tid: uint16, dest: Eoj, epcs: seq<byte>)
    requires |epcs| <= 255
    ensures IsRequest(Encoding(GetRequest(tid, dest, epcs)), tid, [dest.group, dest.kind, dest.instance], epcs)
  {
    hide Encoding, ListSize;
    var f := GetRequest(tid, dest, epcs);
    HeaderByOffset(f);
    RequestRoundTrip(tid, dest, epcs);
    forall i | 0 <= i < |epcs|
      ensures var b := Encoding(f); 13 + 2 * i < |b| && b[12 + 2 * i] == epcs[i] && b[13 + 2 * i] == 0
    {
      EmptyDataSize(f.props[..i]);
      PropertyByOffset(f, i);
    }
  }

  predicate IsRequest(b: seq<byte>, tid: uint16, dest: seq<byte>, epcs: seq<byte>) {
    && |b| == 12 + 2 * |epcs|
    && b[0] == 0x10 && b[1] == 0x81
    && b[2] as int * 256 + b[3] as int == tid
    && b[4..7] == [0x05, 0xFF, 0x01]
    && b[7..10] == dest
    && b[10] == 0x62 && b[11] == |epcs|
    && (forall i :: 0 <= i < |epcs| ==> b[12 + 2 * i] == epcs[i] && b[13 + 2 * i] == 0)
  }

  lemma {:induction false} EmptyDataSize(ps: seq<Property>)
    requires forall i :: 0 <= i < |ps| ==> ps[i].edt == []
    ensures ListSize(ps) == 2 * |ps|
  {
    if ps != [] {
      EmptyDataSize(ps[1..]);
    }
  }
}
