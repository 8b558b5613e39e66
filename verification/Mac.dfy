// Link-layer address to link-local IPv6 address (modified EUI-64, Appendix A of RFC 4291).
module Mac {
  import opened Prelude
  import opened Text
  import Udp

  datatype MacError = BadLength | BadHex

  // Inverts the universal/local bit, the second lowest one.
  function FlipUL(b: byte): byte {
    if (b / 2) % 2 == 1 then b - 2 else b + 2
  }

  // The prefix fe80::/64, then the address with that bit of its first byte inverted.
  function LinkLocal(mac: seq<byte>): (ip: seq<byte>)
    requires |mac| == 8
    ensures Udp.IsIp(ip)
  {
    [0xFE, 0x80, 0, 0, 0, 0, 0, 0, FlipUL(mac[0])] + mac[1..]
  }

  // The link-layer address a link-local address was made from.
  function MacOf(ip: seq<byte>): (mac: seq<byte>)
    requires Udp.IsIp(ip)
    ensures |mac| == 8
  {
    [FlipUL(ip[8])] + ip[9..]
  }

  function IpOf(addrHex: string): (r: Option<seq<byte>>)
    ensures r.Some? ==> Udp.IsIp(r.value)
  {
    var mac := HexDecode(TrimSpace(addrHex));
    if |TrimSpace(addrHex)| == 16 && mac.Some? && |mac.value| == 8 then Some(LinkLocal(mac.value)) else None
  }

  // On 8-bit words this is the exclusive or with 0x02 of the code.
  lemma FlipIsXor(b: bv8)
    ensures b ^ 0x02 == if (b / 2) % 2 == 1 then b - 2 else b + 2
  {
  }

  method MacToLinkLocalIPv6(addrHex: string) returns (r: Result<seq<byte>, MacError>)
    ensures r.Ok? <==> |TrimSpace(addrHex)| == 16 && HexDecode(TrimSpace(addrHex)).Some?
    ensures r.Ok? <==> IpOf(addrHex).Some?
    ensures r.Ok? ==> IpOf(addrHex) == Some(r.value)
    ensures r.Err? ==> r.error == if |TrimSpace(addrHex)| == 16 then BadHex else BadLength
  {
    hide HexDecode, TrimSpace;
    var addr := TrimSpace(addrHex);
    if |addr| != 16 {
      return Err(BadLength);
    }
    var mac := HexDecode(addr);
    if mac.None? {
      return Err(BadHex);
    }
    HexDecodeShape(addr);
    var ip := new byte[16](i => 0);
    ip[0] := 0xFE;
    ip[1] := 0x80;
    for i := 0 to 8
      invariant ip[0] == 0xFE && ip[1] == 0x80
      invariant forall k :: 2 <= k < 8 ==> ip[k] == 0
      invariant forall k :: 0 <= k < i ==> ip[8 + k] == mac.value[k]
    {
      ip[8 + i] := mac.value[i];
    }
    ip[8] := if (ip[8] / 2) % 2 == 1 then ip[8] - 2 else ip[8] + 2;
    assert ip[..] == LinkLocal(mac.value);
    return Ok(ip[..]);
  }

  // Nothing of the address is lost, and one bit of it is all that changes.
  lemma LinkLocalKeepsMac(mac: seq<byte>)
    requires |mac| == 8
    ensures MacOf(LinkLocal(mac)) == mac
    ensures LinkLocal(mac)[9..] == mac[1..] && LinkLocal(mac)[8] == FlipUL(mac[0])
    ensures var a: int, b: int := mac[0], LinkLocal(mac)[8]; b == (if (a / 2) % 2 == 1 then a - 2 else a + 2)
    ensures LinkLocal(mac)[..8] == [0xFE, 0x80, 0, 0, 0, 0, 0, 0]
  {
    assert MacOf(LinkLocal(mac))[1..] == mac[1..];
    assert mac == [mac[0]] + mac[1..];
  }

  function JoinLine(ip: seq<byte>): string
    requires Udp.IsIp(ip)
  {
    "SKJOIN " + Udp.FormatIPv6Upper(ip)
  }

  // The join command names the device: different addresses give different commands, and the
  // address can be read back from the command.
  lemma JoinCommandNamesDevice(mac: seq<byte>)
    requires |mac| == 8
    ensures var ip := Udp.ParseFullIPv6(JoinLine(LinkLocal(mac))[7..]);
      ip.Some? && Udp.IsIp(ip.value) && MacOf(ip.value) == mac
  {
    hide Udp.ParseFullIPv6, Udp.FormatIPv6Upper, LinkLocal, MacOf;
    LinkLocalKeepsMac(mac);
    Udp.IpRoundTrip(LinkLocal(mac));
    assert JoinLine(LinkLocal(mac))[7..] == Udp.FormatIPv6Upper(LinkLocal(mac));
  }
}
