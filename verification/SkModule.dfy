// The commands as the module takes them: a log of commands is replayed on its registers.
module SkModule {
  import opened Prelude
  import opened Text
  import Udp

  // A command with its result.
  datatype Issued = Issued(line: string, ok: bool)

  // A scan with its channel mask and duration, and whether hexadecimal reception had been asked for by then.
  datatype ScanRequest = ScanRequest(mask: nat, duration: nat, hexAsked: bool)

  datatype Registers = Registers(
    wopt: bool, ropt: bool, password: Option<string>, rbid: Option<string>, scan: Option<ScanRequest>,
    s2: Option<nat>, s3: Option<nat>, joined: Option<seq<byte>>)

  const BLANK := Registers(false, false, None, None, None, None, None, None)

  // The arguments of a scan: mask in hexadecimal, duration in decimal, and a zero.
  function ReadScan(m: Registers, args: seq<string>): Option<ScanRequest> {
    if |args| != 3 || !AllHex(args[0]) || !AllDecimal(args[1]) || args[2] != "0" then None
    else Some(ScanRequest(HexNat(args[0]), DecimalNat(args[1]), m.wopt && m.ropt))
  }

  // An accepted command.
  function Accept(m: Registers, line: string): Registers {
    if line == "SKRESET" then BLANK
    else if "SKSETPWD C " <= line then m.(password := Some(line[11..]))
    else if "SKSETRBID " <= line then m.(rbid := Some(line[10..]))
    else if "SKSCAN 2 " <= line then m.(scan := ReadScan(m, Fields(line[9..])))
    else if "SKSREG S2 " <= line then m.(s2 := ParseUint(line[10..], 0x100))
    else if "SKSREG S3 " <= line then m.(s3 := ParseUint(line[10..], 0x1_0000))
    else if "SKJOIN " <= line then m.(joined := Udp.ParseFullIPv6(line[7..]))
    else m
  }

  // The two mode commands are requests whatever the answer; any other command that is refused does nothing.
  function Note(m: Registers, e: Issued): Registers {
    if e.line == "WOPT 01" then m.(wopt := true)
    else if e.line == "ROPT 01" then m.(ropt := true)
    else if e.ok then Accept(m, e.line) else m
  }

  function Replay(log: seq<Issued>): Registers {
    if log == [] then BLANK else Note(Replay(log[..|log| - 1]), log[|log| - 1])
  }

  // The nine commands of a connection by name, in order; only the answers to the second and third are free.
  predicate JoinSequence(log: seq<Issued>) {
    && |log| == 9
    && log[0].line == "SKRESET" && log[1].line == "WOPT 01" && log[2].line == "ROPT 01"
    && "SKSETPWD C " <= log[3].line && "SKSETRBID " <= log[4].line && "SKSCAN 2 " <= log[5].line
    && "SKSREG S2 " <= log[6].line && "SKSREG S3 " <= log[7].line && "SKJOIN " <= log[8].line
    && log[0].ok && forall i :: 3 <= i < 9 ==> log[i].ok
  }

  lemma ReplayNext(log: seq<Issued>, n: nat)
    requires n < |log|
    ensures Replay(log[..n + 1]) == Note(Replay(log[..n]), log[n])
    ensures Replay(log[..0]) == BLANK
  {
    hide Note;
    assert log[..n + 1][..n] == log[..n];
  }

  lemma ReplayNine(log: seq<Issued>)
    requires |log| == 9
    ensures Replay(log) ==
      Note(Note(Note(Note(Note(Note(Note(Note(Note(BLANK,
        log[0]), log[1]), log[2]), log[3]), log[4]), log[5]), log[6]), log[7]), log[8])
  {
    hide Note, Replay;
    ReplayNext(log, 0);
    ReplayNext(log, 1);
    ReplayNext(log, 2);
    ReplayNext(log, 3);
    ReplayNext(log, 4);
    ReplayNext(log, 5);
    ReplayNext(log, 6);
    ReplayNext(log, 7);
    ReplayNext(log, 8);
    assert log[..9] == log;
  }

  lemma NoteReset(m: Registers, e: Issued)
    requires e == Issued("SKRESET", true)
    ensures Note(m, e) == BLANK
  {
    assert e.line[0] == 'S' && "WOPT 01"[0] == 'W' && "ROPT 01"[0] == 'R';
  }

  lemma NoteModes(m: Registers, e: Issued, f: Issued)
    requires e.line == "WOPT 01" && f.line == "ROPT 01"
    ensures Note(Note(m, e), f) == m.(wopt := true, ropt := true)
  {
    assert f.line[0] == 'R' && "WOPT 01"[0] == 'W';
  }

  // A command that starts like this is neither a mode command nor a reset.
  lemma Settles(m: Registers, e: Issued)
    requires e.ok && |e.line| >= 5 && e.line[0] == 'S' && e.line[2] != 'R'
    ensures Note(m, e) == Accept(m, e.line)
    ensures e.line != "SKRESET"
  {
    assert "WOPT 01"[0] == 'W' && "ROPT 01"[0] == 'R' && "SKRESET"[2] == 'R';
  }

  lemma NoteCredentials(m: Registers, e: Issued, f: Issued, password: string, rbid: string)
    requires e == Issued("SKSETPWD C " + password, true) && f == Issued("SKSETRBID " + rbid, true)
    ensures Note(Note(m, e), f) == m.(password := Some(password), rbid := Some(rbid))
  {
    hide Note;
    var m' := m.(password := Some(password));
    Settles(m, e);
    assert "SKSETPWD C " <= e.line && e.line[11..] == password;
    Settles(m', f);
    assert f.line[5] == 'R' && "SKSETPWD C "[5] == 'P';
    assert "SKSETRBID " <= f.line && f.line[10..] == rbid;
  }

  lemma NoteScan(m: Registers, e: Issued, mask: uint32, duration: nat)
    requires e == Issued("SKSCAN 2 " + HexUpper(mask, 8) + " " + Decimal(duration) + " 0", true)
    ensures Note(m, e) == m.(scan := Some(ScanRequest(mask, duration, m.wopt && m.ropt)))
  {
    hide Note, Fields, HexUpper, Decimal, HexNat, DecimalNat;
    var h, d := HexUpper(mask, 8), Decimal(duration);
    ScanArguments(h, d, mask, duration);
    assert e.line == "SKSCAN 2 " + (h + " " + d + " 0");
    Settles(m, e);
    assert e.line[3] == 'C' && "SKSETPWD C "[3] == 'E' && "SKSETRBID "[3] == 'E';
    assert "SKSCAN 2 " <= e.line && e.line[9..] == h + " " + d + " 0";
  }

  lemma ScanArguments(h: string, d: string, mask: uint32, duration: nat)
    requires h == HexUpper(mask, 8) && d == Decimal(duration)
    ensures Fields(h + " " + d + " 0") == [h, d, "0"]
    ensures AllHex(h) && HexNat(h) == mask && AllDecimal(d) && DecimalNat(d) == duration
  {
    hide Fields, HexUpper, Decimal, HexNat, DecimalNat;
    assert Pow16(2) == 0x100 && Pow16(4) == 0x1_0000 && Pow16(6) == 0x100_0000;
    HexUpperValue(mask, 8);
    DecimalValue(duration);
    assert IsWord("0");
    FieldsJoin([h, d, "0"]);
    assert ["0"][1..] == [] && [d, "0"][1..] == ["0"] && [h, d, "0"][1..] == [d, "0"];
    assert Join([d, "0"], " ") == d + " " + "0";
    assert Join([h, d, "0"], " ") == h + " " + (d + " " + "0") == h + " " + d + " 0";
  }

  lemma NoteChannel(m: Registers, e: Issued, channel: byte)
    requires e == Issued("SKSREG S2 " + HexUpper(channel, 2), true)
    ensures Note(m, e) == m.(s2 := Some(channel))
  {
    hide Note, HexUpper, HexNat;
    RegisterText(channel, 2);
    Settles(m, e);
    assert e.line[3] == 'R' && "SKSETPWD C "[3] == 'E' && "SKSETRBID "[3] == 'E' && "SKSCAN 2 "[3] == 'C';
    assert "SKSREG S2 " <= e.line && e.line[10..] == HexUpper(channel, 2);
  }

  lemma NotePan(m: Registers, e: Issued, pan: uint16)
    requires e == Issued("SKSREG S3 " + HexUpper(pan, 4), true)
    ensures Note(m, e) == m.(s3 := Some(pan))
  {
    hide Note, HexUpper, HexNat;
    RegisterText(pan, 4);
    Settles(m, e);
    assert e.line[3] == 'R' && "SKSETPWD C "[3] == 'E' && "SKSETRBID "[3] == 'E' && "SKSCAN 2 "[3] == 'C';
    assert e.line[8] == '3' && "SKSREG S2 "[8] == '2';
    assert "SKSREG S3 " <= e.line && e.line[10..] == HexUpper(pan, 4);
  }

  lemma RegisterText(n: nat, width: nat)
    requires (width == 2 && n < 0x100) || (width == 4 && n < 0x1_0000)
    ensures ParseUint(HexUpper(n, width), if width == 2 then 0x100 else 0x1_0000) == Some(n)
  {
    hide HexUpper, HexNat;
    assert Pow16(2) == 0x100 && Pow16(4) == 0x1_0000;
    HexUpperValue(n, width);
  }

  lemma NoteJoin(m: Registers, e: Issued, ip: seq<byte>)
    requires Udp.IsIp(ip) && e == Issued("SKJOIN " + Udp.FormatIPv6Upper(ip), true)
    ensures Note(m, e) == m.(joined := Some(ip))
  {
    hide Note, Udp.FormatIPv6Upper, Udp.ParseFullIPv6;
    Udp.IpRoundTrip(ip);
    Settles(m, e);
    assert e.line[2] == 'J' && "SKSETPWD C "[2] == 'S' && "SKSETRBID "[2] == 'S' && "SKSCAN 2 "[2] == 'S';
    assert "SKSREG S2 "[2] == 'S' && "SKSREG S3 "[2] == 'S';
    assert "SKJOIN " <= e.line && e.line[7..] == Udp.FormatIPv6Upper(ip);
  }
}
