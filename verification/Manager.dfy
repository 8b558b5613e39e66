// The connection manager as an object: its fields and the methods that change them. Each method is also
// shown to be what the steps of the Supervisor module do to the same fields when nobody interferes.
module Manager {
  import opened Prelude
  import opened Text
  import opened Driver
  import opened Scan
  import opened Mac
  import opened SkModule
  import opened Supervisor
  import Udp

  // What the fields of the manager hold: state, session, whether connectedCh is closed, and the contents
  // of the channels from the dispatcher, if there is one.
  datatype Fields = Fields(
    conn: Conn, session: Option<Session>, announced: bool,
    scan: Option<seq<Event>>, join: Option<seq<Event>>, loss: Option<seq<Event>>)

  function BoxOf(f: Fields, p: Purpose): Option<seq<Event>> {
    match p
    case ForScan => f.scan
    case ForJoin => f.join
    case ForLoss => f.loss
  }

  function WithBox(f: Fields, p: Purpose, box: Option<seq<Event>>): Fields {
    match p
    case ForScan => f.(scan := box)
    case ForJoin => f.(join := box)
    case ForLoss => f.(loss := box)
  }

  // A send that gives up when the channel is full.
  function Added<T>(items: seq<T>, cap: nat, x: T): seq<T> {
    if |items| < cap then items + [x] else items
  }

  // An event is offered to a channel if there is one.
  function Notified(f: Fields, p: Purpose, ev: Event): Fields {
    match BoxOf(f, p)
    case None => f
    case Some(items) => WithBox(f, p, Some(Added(items, Cap(p), ev)))
  }

  function NotifiedAll(f: Fields, ps: seq<Purpose>, ev: Event): Fields
    decreases |ps|
  {
    if ps == [] then f else NotifiedAll(Notified(f, ps[0], ev), ps[1..], ev)
  }

  // What a datagram does to the incoming queue.
  function Received(items: seq<Udp.Incoming>, ev: Event, parseIp: string -> Option<seq<byte>>): seq<Udp.Incoming> {
    var inc := Udp.ParseIncoming(ev, parseIp);
    if ev.kind == "ERXUDP" && inc.Some? then Added(items, INCOMING_CAP, inc.value) else items
  }

  const INCOMING_CAP: nat := 32

  // The next event for a purpose, and what comes after it.
  function FirstFor(p: Purpose, evs: seq<Event>): Option<(Event, seq<Event>)> {
    if evs == [] then None
    else if p in Routes(evs[0]) then Some((evs[0], evs[1..]))
    else FirstFor(p, evs[1..])
  }

  // A scan only looks at events that are forwarded to it.
  lemma {:induction false} ChooseFirst(best: Option<Descriptor>, evs: seq<Event>)
    ensures match FirstFor(ForScan, evs)
      case None => Choose(best, evs) == Choose(best, [])
      case Some((ev, rest)) => Choose(best, evs) == Choose(best, [ev] + rest)
    decreases |evs|
  {
    hide Routes, IsEnd, IsBeacon, ParseEPANDESC;
    if evs != [] {
      if ForScan in Routes(evs[0]) {
        assert evs == [evs[0]] + evs[1..];
      } else {
        NotForScan(evs[0]);
        ChooseFirst(best, evs[1..]);
      }
    }
  }

  lemma NotForScan(ev: Event)
    requires ForScan !in Routes(ev)
    ensures !IsEnd(ev) && !IsBeacon(ev)
  {
    hide ParseEPANDESC;
  }

  // All answers but those to WOPT and ROPT are OK, the scan finds a beacon, and the first outcome of the join
  // is a success.
  predicate Connects(answers: seq<bool>, scan: seq<Event>, join: seq<Event>) {
    && (forall k :: 0 <= k < 9 && k != 1 && k != 2 ==> AnswerAt(answers, k))
    && Choose(None, scan).Found?
    && JoinSucceeds(join)
  }

  predicate JoinSucceeds(join: seq<Event>) {
    FirstFor(ForJoin, join).Some? && Joined(FirstFor(ForJoin, join).value.0)
  }

  predicate AnswerAt(answers: seq<bool>, k: nat) {
    k < |answers| && answers[k]
  }

  // The session is that of the chosen beacon, and the commands were those of the script for it.
  predicate Followed(cfg: Config, log: seq<Issued>, scan: seq<Event>, s: Session) {
    && Choose(None, scan).Found?
    && Aimed(Choose(None, scan).desc, s.meterIp)
    && Went(log, Script(cfg, Choose(None, scan).desc, s.meterIp))
    && s == SessionOf(Choose(None, scan).desc, s.meterIp)
  }

  // The object -----------------------------------------------------------------------------------

  // A channel that only ever gets closed.
  class Gate {
    var closed: bool

    constructor ()
      ensures !closed
    {
      closed := false;
    }
  }

  // A bounded channel of events.
  class Mailbox {
    const cap: nat
    var items: seq<Event>

    constructor (cap: nat)
      ensures this.cap == cap && items == []
    {
      this.cap := cap;
      items := [];
    }

    method Offer(ev: Event)
      modifies this
      ensures items == Added(old(items), cap, ev)
    {
      if |items| < cap {
        items := items + [ev];
      }
    }

    method Take() returns (ev: Event)
      requires items != []
      modifies this
      ensures ev == old(items)[0] && items == old(items)[1..]
    {
      ev := items[0];
      items := items[1..];
    }
  }

  // The module as connectOnce sees it: it answers the k-th command with OK or not. A command that is
  // not answered times out, which is the same to connectOnce.
  class Modem {
    const answers: seq<bool>
    var log: seq<Issued>

    constructor (answers: seq<bool>)
      ensures this.answers == answers && log == []
    {
      this.answers := answers;
      log := [];
    }

    method Command(line: string) returns (ok: bool)
      modifies this
      ensures ok == AnswerAt(answers, |old(log)|) && log == old(log) + [Issued(line, ok)]
    {
      ok := |log| < |answers| && answers[|log|];
      log := log + [Issued(line, ok)];
    }
  }

  class Manager {
    const cfg: Config
    var conn: Conn
    var session: Option<Session>
    var connectedCh: Gate
    var scanCh: Mailbox?
    var joinCh: Mailbox?
    var lossCh: Mailbox?
    var incoming: seq<Udp.Incoming>

    ghost predicate Valid()
      reads this
    {
      && (scanCh != null ==> scanCh.cap == Cap(ForScan) && scanCh != joinCh && scanCh != lossCh)
      && (joinCh != null ==> joinCh.cap == Cap(ForJoin) && joinCh != lossCh)
      && (lossCh != null ==> lossCh.cap == Cap(ForLoss))
    }

    // The dispatcher's channels.
    function Boxes(): set<object>
      reads this
    {
      (if scanCh == null then {} else {scanCh})
      + (if joinCh == null then {} else {joinCh})
      + (if lossCh == null then {} else {lossCh})
    }

    ghost function View(): Fields
      reads this, connectedCh, Boxes()
    {
      Fields(conn, session, connectedCh.closed,
             if scanCh == null then None else Some(scanCh.items),
             if joinCh == null then None else Some(joinCh.items),
             if lossCh == null then None else Some(lossCh.items))
    }

    // The scan settings have defaults; they apply where the configured value is zero.
    constructor (cfg: Config)
      ensures Valid() && View() == Fields(Disconnected, None, false, None, None, None)
      ensures incoming == [] && fresh(connectedCh)
      ensures this.cfg == Config(cfg.rbid, cfg.password,
                                 if cfg.mask == 0 then 0xFFFF_FFFF else cfg.mask,
                                 if cfg.duration == 0 then 6 else cfg.duration)
    {
      this.cfg := Config(cfg.rbid, cfg.password,
                         if cfg.mask == 0 then 0xFFFF_FFFF else cfg.mask,
                         if cfg.duration == 0 then 6 else cfg.duration);
      conn, session, incoming := Disconnected, None, [];
      scanCh, joinCh, lossCh := null, null, null;
      connectedCh := new Gate();
    }

    // Closing a closed channel would panic, so the channel must still be open.
    method InstallSession(s: Session)
      requires Valid() && !View().announced
      modifies this`session, connectedCh
      ensures Valid() && View() == old(View()).(session := Some(s), announced := true)
    {
      session := Some(s);
      connectedCh.closed := true;
    }

    // The closed channel stays closed for whoever captured it.
    method ClearSession()
      requires Valid()
      modifies this`session, this`connectedCh
      ensures Valid() && View() == old(View()).(session := None, announced := false)
      ensures fresh(connectedCh) && old(connectedCh).closed == old(connectedCh.closed)
    {
      session := None;
      connectedCh := new Gate();
    }

    // Reports whether observers are told.
    method SetState(c: Conn) returns (told: bool)
      requires Valid()
      modifies this`conn
      ensures Valid() && View() == old(View()).(conn := c) && told == (old(conn) != c)
    {
      told := conn != c;
      conn := c;
    }

    method Subscribe(p: Purpose)
      requires Valid()
      modifies this`scanCh, this`joinCh, this`lossCh
      ensures Valid() && View() == WithBox(old(View()), p, Some([]))
      ensures fresh(Boxes() - old(Boxes()))
      ensures p == ForScan ==> scanCh.cap == 16
      ensures p == ForJoin ==> joinCh.cap == 1
      ensures p == ForLoss ==> lossCh.cap == 1
    {
      var box := new Mailbox(Cap(p));
      match p
      case ForScan => scanCh := box;
      case ForJoin => joinCh := box;
      case ForLoss => lossCh := box;
    }

    method Unsubscribe(p: Purpose)
      requires Valid()
      modifies this`scanCh, this`joinCh, this`lossCh
      ensures Valid() && View() == WithBox(old(View()), p, None)
      ensures Boxes() <= old(Boxes())
    {
      match p
      case ForScan => scanCh := null;
      case ForJoin => joinCh := null;
      case ForLoss => lossCh := null;
    }

    method Notify(p: Purpose, ev: Event)
      requires Valid()
      modifies Boxes()
      ensures Valid() && View() == Notified(old(View()), p, ev)
    {
      var box := match p case ForScan => scanCh case ForJoin => joinCh case ForLoss => lossCh;
      if box != null {
        box.Offer(ev);
      }
    }

    // One event from the driver, or the end of its events: the channels it is routed to get it, in order,
    // and a readable datagram goes to the incoming queue if that has room.
    method Dispatch(ev: Event, parseIp: string -> Option<seq<byte>>)
      requires Valid()
      modifies this`incoming, Boxes()
      ensures Valid() && View() == NotifiedAll(old(View()), Routes(ev), ev)
      ensures incoming == Received(old(incoming), ev, parseIp)
      ensures var inc := Udp.ParseIncoming(ev, parseIp);
        incoming == old(incoming) + if ev.kind == "ERXUDP" && inc.Some? && |old(incoming)| < 32 then [inc.value] else []
    {
      hide Udp.ParseIncoming, Notified;
      KindsDiffer();
      NotifiedSteps(View(), ev);
      if ev == GONE {
        Notify(ForLoss, ev);
      } else if ev.kind == "ERXUDP" {
        var inc := Udp.ParseIncoming(ev, parseIp);
        if inc.Some? && |incoming| < INCOMING_CAP {
          incoming := incoming + [inc.value];
        }
      } else if ev.kind == "EPANDESC" {
        Notify(ForScan, ev);
      } else if ev.kind == "EVENT" && |ev.params| >= 1 {
        var code := ev.params[0];
        if code == "22" {
          Notify(ForScan, ev);
        } else if code == "24" {
          Notify(ForJoin, ev);
          Notify(ForLoss, ev);
        } else if code == "25" {
          Notify(ForJoin, ev);
        } else if code == "27" || code == "28" || code == "29" {
          Notify(ForLoss, ev);
        }
      }
    }

    // Waits on a channel while these events arrive: the first one that is routed to it, and what is left.
    method Listen(p: Purpose, evs: seq<Event>, parseIp: string -> Option<seq<byte>>)
        returns (r: Option<Event>, rest: seq<Event>)
      requires Valid() && OnlyBox(View(), p)
      modifies this`incoming, Boxes()
      ensures Valid() && View() == old(View())
      ensures match FirstFor(p, evs)
        case None => r.None? && rest == []
        case Some((ev, more)) => r == Some(ev) && rest == more
    {
      hide Udp.ParseIncoming, Routes, NotifiedAll;
      var box := match p case ForScan => scanCh case ForJoin => joinCh case ForLoss => lossCh;
      for i := 0 to |evs|
        invariant Valid() && View() == old(View()) && FirstFor(p, evs) == FirstFor(p, evs[i..])
      {
        OneNotified(View(), p, evs[i]);
        assert evs[i..][0] == evs[i] && evs[i..][1..] == evs[i + 1..];
        Dispatch(evs[i], parseIp);
        if box.items != [] {
          var ev := box.Take();
          return Some(ev), evs[i + 1..];
        }
      }
      return None, [];
    }

    // SKSCAN and the loop over the scan channel, while these events arrive; None if SKSCAN fails.
    method ActiveScan(modem: Modem, arriving: seq<Event>, parseIp: string -> Option<seq<byte>>)
        returns (r: Option<ScanResult>)
      requires Valid() && NoBoxes(View())
      modifies this, modem
      ensures Valid() && View() == old(View()) && connectedCh == old(connectedCh)
      ensures modem.log == old(modem.log) + [Issued(ScanLine(cfg), AnswerAt(modem.answers, |old(modem.log)|))]
      ensures r == if AnswerAt(modem.answers, |old(modem.log)|) then Some(Choose(None, arriving)) else None
    {
      hide Udp.ParseIncoming, Routes, ParseEPANDESC, ScanLine, IsEnd;
      Subscribe(ForScan);
      var ok := modem.Command(ScanLine(cfg));
      if !ok {
        Unsubscribe(ForScan);
        return None;
      }
      var found: Option<Descriptor> := None;
      var rest := arriving;
      var waiting := true;
      while waiting
        invariant Valid() && OnlyBox(View(), ForScan) && View() == WithBox(old(View()), ForScan, Some([]))
        invariant connectedCh == old(connectedCh) && fresh(Boxes())
        invariant modem.log == old(modem.log) + [Issued(ScanLine(cfg), true)]
        invariant Choose(None, arriving) == Choose(found, rest)
        invariant !waiting ==> rest == []
        decreases waiting, |rest|
      {
        ChooseFirst(found, rest);
        FirstShorter(ForScan, rest);
        var ev;
        ev, rest := Listen(ForScan, rest, parseIp);
        if ev.None? {
          waiting := false;
          continue;
        }
        ChooseStep(found, ev.value, rest);
        if IsEnd(ev.value) {
          Unsubscribe(ForScan);
          return Some(if found.Some? then Found(found.value) else NoMeter);
        }
        found := Better(found, ev.value);
      }
      ChooseNothing(found);
      Unsubscribe(ForScan);
      return Some(if found.Some? then Found(found.value) else ScanResult.TimedOut);
    }

    // SKJOIN and the wait for its outcome, while these events arrive.
    method DoJoin(modem: Modem, ip: seq<byte>, arriving: seq<Event>, parseIp: string -> Option<seq<byte>>)
        returns (joined: bool)
      requires Valid() && NoBoxes(View()) && Udp.IsIp(ip)
      modifies this, modem
      ensures Valid() && View() == old(View()) && connectedCh == old(connectedCh)
      ensures modem.log == old(modem.log) + [Issued(JoinLine(ip), AnswerAt(modem.answers, |old(modem.log)|))]
      ensures joined <==> AnswerAt(modem.answers, |old(modem.log)|) && JoinSucceeds(arriving)
    {
      hide Udp.ParseIncoming, Routes, JoinLine, Joined, FirstFor;
      Subscribe(ForJoin);
      var ok := modem.Command(JoinLine(ip));
      if !ok {
        Unsubscribe(ForJoin);
        return false;
      }
      var ev, _ := Listen(ForJoin, arriving, parseIp);
      Unsubscribe(ForJoin);
      return ev.Some? && Joined(ev.value);
    }

    // The whole join sequence; the events are those that arrive during the scan and during the join. It
    // succeeds exactly under Connects, and then it has issued the nine commands of the script for the
    // chosen beacon and nothing else.
    method ConnectOnce(modem: Modem, scan: seq<Event>, join: seq<Event>, parseIp: string -> Option<seq<byte>>)
        returns (r: Option<Session>)
      requires Valid() && NoBoxes(View()) && modem.log == []
      modifies this, modem
      ensures Valid() && View() == old(View()).(conn := conn) && connectedCh == old(connectedCh)
      ensures r.Some? <==> Connects(modem.answers, scan, join)
      ensures r.Some? ==> conn == Joining && Followed(cfg, modem.log, scan, r.value)
      ensures r.Some? ==> JoinSequence(modem.log) && ReadsBack(Replay(modem.log), cfg, r.value)
    {
      hide Replay, ReadsBack, JoinSequence;
      hide Choose, Joined, IpOf, Udp.IsIp, Udp.ParseIncoming, ScanLine, JoinLine, SetupLines, TuneLines, Went;
      hide JoinSucceeds, HexDecode, TrimSpace, Script;
      var told := SetState(Initializing);
      var ok := Prepare(modem);
      if !ok {
        return None;
      }
      told := SetState(Scanning);
      ghost var before := modem.log;
      var scanned := ActiveScan(modem, scan, parseIp);
      if scanned.None? || !scanned.value.Found? {
        return None;
      }
      WentSnoc(before, SetupLines(cfg), ScanLine(cfg), true);
      var d := scanned.value.desc;
      ok := TuneTo(modem, d);
      if !ok {
        return None;
      }
      ChosenHasAddress(scan, d);
      var made := MacToLinkLocalIPv6(d.addr);
      if made.Err? {
        return None;
      }
      var ip := made.value;
      told := SetState(Joining);
      before := modem.log;
      ok := DoJoin(modem, ip, join, parseIp);
      if !ok {
        return None;
      }
      ScriptEnds(before, cfg, d, ip);
      ScriptReadsBack(cfg, d, ip, modem.log);
      return Some(SessionOf(d, ip));
    }

    // SKRESET, WOPT, ROPT, SKSETPWD and SKSETRBID.
    method Prepare(modem: Modem) returns (ok: bool)
      requires modem.log == []
      modifies modem
      ensures ok <==> AnswerAt(modem.answers, 0) && AnswerAt(modem.answers, 3) && AnswerAt(modem.answers, 4)
      ensures ok ==> Went(modem.log, SetupLines(cfg)) && |modem.log| == 5
    {
      ok := modem.Command("SKRESET");
      if !ok {
        return false;
      }
      ok := modem.Command("WOPT 01");
      ok := modem.Command("ROPT 01");
      ok := modem.Command("SKSETPWD C " + cfg.password);
      if !ok {
        return false;
      }
      ok := modem.Command("SKSETRBID " + cfg.rbid);
    }

    // SKSREG S2 and SKSREG S3.
    method TuneTo(modem: Modem, d: Descriptor) returns (ok: bool)
      requires Went(modem.log, UpToScan(cfg)) && |modem.log| == 6
      modifies modem
      ensures ok <==> AnswerAt(modem.answers, 6) && AnswerAt(modem.answers, 7)
      ensures ok ==> Went(modem.log, UpToScan(cfg) + TuneLines(d)) && |modem.log| == 8
    {
      hide UpToScan, HexUpper, Went, AnswerAt;
      ghost var before := modem.log;
      var channel := "SKSREG S2 " + HexUpper(d.channel, 2);
      ok := modem.Command(channel);
      if !ok {
        return false;
      }
      WentSnoc(before, UpToScan(cfg), channel, ok);
      before := modem.log;
      var pan := "SKSREG S3 " + HexUpper(d.panId, 4);
      ok := modem.Command(pan);
      if ok {
        WentSnoc(before, UpToScan(cfg) + [channel], pan, ok);
        assert UpToScan(cfg) + [channel] + [pan] == UpToScan(cfg) + TuneLines(d);
      }
    }

    // The reason to disconnect among the events that arrive, or None if the wait is cancelled.
    method WaitForDisconnect(arriving: seq<Event>, parseIp: string -> Option<seq<byte>>) returns (r: Option<Event>)
      requires Valid() && NoBoxes(View())
      modifies this
      ensures Valid() && View() == old(View()) && connectedCh == old(connectedCh)
      ensures r == match FirstFor(ForLoss, arriving) case None => None case Some((ev, _)) => Some(ev)
    {
      hide Udp.ParseIncoming, Routes, FirstFor;
      Subscribe(ForLoss);
      var rest;
      r, rest := Listen(ForLoss, arriving, parseIp);
      Unsubscribe(ForLoss);
    }

    // One pass of the loop of Run; the events are those that arrive during the scan, during the join and while
    // the connection is up. The result is None if the attempt failed, and otherwise whether to go on.
    // Whoever captured the channel before a connection finds it closed, and the next one is open again, so
    // the loop never closes a channel twice.
    method RunOnce(
        modem: Modem, scan: seq<Event>, join: seq<Event>, later: seq<Event>, parseIp: string -> Option<seq<byte>>)
        returns (r: Option<bool>)
      requires Valid() && NoBoxes(View()) && !View().announced && modem.log == []
      modifies this, connectedCh, modem
      ensures Valid() && NoBoxes(View()) && !View().announced
      ensures r.Some? <==> Connects(modem.answers, scan, join)
      ensures r.None? ==> connectedCh == old(connectedCh) && session == old(session)
      ensures r.Some? ==> conn == Reconnecting && session.None? && fresh(connectedCh) && old(connectedCh).closed
      ensures r.Some? ==> r.value == FirstFor(ForLoss, later).Some?
    {
      hide Connects, FirstFor, Udp.ParseIncoming;
      var sess := ConnectOnce(modem, scan, join, parseIp);
      if sess.None? {
        return None;
      }
      InstallSession(sess.value);
      var told := SetState(Connected);
      var reason := WaitForDisconnect(later, parseIp);
      ClearSession();
      told := SetState(Reconnecting);
      return Some(reason.Some?);
    }
  }

  lemma ScriptEnds(log: seq<Issued>, cfg: Config, d: Descriptor, ip: seq<byte>)
    requires Udp.IsIp(ip) && Went(log, UpToScan(cfg) + TuneLines(d))
    ensures Went(log + [Issued(JoinLine(ip), true)], Script(cfg, d, ip))
  {
    hide Went, UpToScan, TuneLines, JoinLine;
    WentSnoc(log, UpToScan(cfg) + TuneLines(d), JoinLine(ip), true);
  }

  predicate NoBoxes(f: Fields) {
    f.scan.None? && f.join.None? && f.loss.None?
  }

  // The channel for p is the only one, and empty.
  predicate OnlyBox(f: Fields, p: Purpose) {
    f == WithBox(WithBox(WithBox(WithBox(f, ForScan, None), ForJoin, None), ForLoss, None), p, Some([]))
  }

  lemma OneNotified(f: Fields, p: Purpose, ev: Event)
    requires OnlyBox(f, p)
    ensures NotifiedAll(f, Routes(ev), ev) == if p in Routes(ev) then WithBox(f, p, Some([ev])) else f
  {
    NotifiedSteps(f, ev);
    assert [] + [ev] == [ev];
  }

  lemma {:induction false} FirstShorter(p: Purpose, evs: seq<Event>)
    ensures FirstFor(p, evs).Some? ==> |FirstFor(p, evs).value.1| < |evs|
  {
    hide Routes;
    if evs != [] {
      FirstShorter(p, evs[1..]);
    }
  }

  lemma ChooseStep(best: Option<Descriptor>, ev: Event, rest: seq<Event>)
    ensures Choose(best, [ev] + rest) ==
      if IsEnd(ev) then (if best.Some? then Found(best.value) else NoMeter) else Choose(Better(best, ev), rest)
  {
    hide IsEnd, Better;
    assert ([ev] + rest)[1..] == rest;
  }

  lemma ChooseNothing(best: Option<Descriptor>)
    ensures Choose(best, []) == if best.Some? then Found(best.value) else ScanResult.TimedOut
  {
  }


  function AddedAll(items: seq<Event>, cap: nat, evs: seq<Event>): seq<Event>
    decreases |evs|
  {
    if evs == [] then items else AddedAll(Added(items, cap, evs[0]), cap, evs[1..])
  }

  // A channel of capacity one keeps the first event offered to it: later outcomes of a join, and later
  // reasons for a disconnect, do not replace it.
  lemma {:induction false} FirstOfferStays(items: seq<Event>, evs: seq<Event>)
    requires |items| <= 1
    ensures AddedAll(items, 1, evs) == if items == [] && evs != [] then [evs[0]] else items
    decreases |evs|
  {
    if evs != [] {
      FirstOfferStays(Added(items, 1, evs[0]), evs[1..]);
    }
  }

  lemma KindsDiffer()
    ensures "ERXUDP" != "EPANDESC" && "ERXUDP" != "EVENT" && "EPANDESC" != "EVENT" && GONE.kind == ""
  {
    assert "EPANDESC"[1] != "EVENT"[1];
  }

  lemma NotifiedSteps(f: Fields, ev: Event)
    ensures NotifiedAll(f, [], ev) == f
    ensures forall p :: NotifiedAll(f, [p], ev) == Notified(f, p, ev)
    ensures forall p, q :: NotifiedAll(f, [p, q], ev) == Notified(Notified(f, p, ev), q, ev)
  {
    hide Notified;
    forall p, q
      ensures NotifiedAll(f, [p], ev) == Notified(f, p, ev)
      ensures NotifiedAll(f, [p, q], ev) == Notified(Notified(f, p, ev), q, ev)
    {
      assert [p][1..] == [] && [p, q][1..] == [q] && [q][1..] == [];
      var g := Notified(f, p, ev);
      assert NotifiedAll(f, [p, q], ev) == NotifiedAll(g, [q], ev) == NotifiedAll(Notified(g, q, ev), [], ev);
    }
  }

  // The steps of the supervisor -------------------------------------------------------------------

  // What the fields hold in a state of the transition system.
  ghost function FieldsOf(s: State): Fields
    requires Sound(s)
  {
    assert SlotInv(s, ForScan) && SlotInv(s, ForJoin) && SlotInv(s, ForLoss);
    Fields(s.conn, if s.session.Some? then Some(s.installed[s.session.value].session) else None,
           s.gates[|s.gates| - 1] > 0, Queue(s, ForScan), Queue(s, ForJoin), Queue(s, ForLoss))
  }

  function Queue(s: State, p: Purpose): Option<seq<Event>>
    requires SlotOf(s, p).Some? ==> SlotOf(s, p).value < |s.chans|
  {
    if SlotOf(s, p).None? then None else Some(s.chans[SlotOf(s, p).value].queue)
  }

  ghost predicate Sound(s: State) {
    && s.gates != []
    && (s.session.Some? ==> s.session.value < |s.installed|)
    && (forall p :: SlotInv(s, p))
  }

  lemma InvSound(s: State)
    requires Inv(s)
    ensures Sound(s)
  {
    hide AttemptInv, RecordsInv, WaitersInv, ChanInv, HandlerInv;
  }

  // Setting the session and closing connectedCh are the two steps after a join.
  lemma InstallIsSteps(s: State)
    requires Sound(s) && s.sup.Storing?
    ensures var t := Advanced(Advanced(s));
      && Reaches(s, [Advance, Advance], t) && t.sup.Marking? && Sound(t)
      && FieldsOf(t) == FieldsOf(s).(session := Some(SessionOf(s.sup.d, s.sup.ip)), announced := true)
  {
    hide SessionOf;
    TwoAdvances(s);
    var t := Advanced(Advanced(s));
    forall p ensures SlotInv(t, p) && Queue(t, p) == Queue(s, p) {
      assert SlotInv(s, p);
    }
  }

  // Clearing the session and replacing connectedCh are the two steps after a disconnect.
  lemma ClearIsSteps(s: State)
    requires Sound(s) && s.sup.Dropping?
    ensures var t := Advanced(Advanced(s));
      && Reaches(s, [Advance, Advance], t) && t.sup.Noting? && Sound(t)
      && FieldsOf(t) == FieldsOf(s).(session := None, announced := false)
  {
    TwoAdvances(s);
    var t := Advanced(Advanced(s));
    forall p ensures SlotInv(t, p) && Queue(t, p) == Queue(s, p) {
      assert SlotInv(s, p);
    }
  }

  lemma TwoAdvances(s: State)
    requires s.gates != [] && (s.sup.Storing? || s.sup.Dropping?)
    ensures Advances(s.sup) && Advances(Advanced(s).sup) && Advanced(s).gates != []
    ensures Reaches(s, [Advance, Advance], Advanced(Advanced(s)))
  {
    hide SessionOf;
    var t := Advanced(Advanced(s));
    DoAdvance(s);
    DoAdvance(Advanced(s));
    Chained(Advanced(s), Advance, [], t);
    Chained(s, Advance, [Advance] + [], t);
    assert [Advance] + ([Advance] + []) == [Advance, Advance];
  }

  predicate Marks(sup: Supervising) {
    sup.Ready? || sup.ScanMark? || sup.JoinMark? || sup.Marking? || sup.Noting?
  }

  // The steps that set the state set nothing else.
  lemma MarkIsStep(s: State)
    requires Sound(s) && Marks(s.sup)
    ensures Advances(s.sup) && Sound(Advanced(s))
    ensures FieldsOf(Advanced(s)) == FieldsOf(s).(conn := Advanced(s).conn)
  {
    var t := Advanced(s);
    forall p ensures SlotInv(t, p) && Queue(t, p) == Queue(s, p) {
      assert SlotInv(s, p);
    }
  }

  // The channel a step opens, or closes.
  function Opens(sup: Supervising): Option<Purpose> {
    if sup.ScanOpen? then Some(ForScan) else if sup.JoinOpen? then Some(ForJoin)
    else if sup.Arming? then Some(ForLoss) else None
  }

  function Shuts(sup: Supervising): Option<Purpose> {
    if sup.ScanClose? then Some(ForScan) else if sup.JoinClose? then Some(ForJoin)
    else if sup.Disarming? then Some(ForLoss) else None
  }

  lemma SubscribeIsStep(s: State)
    requires Sound(s) && Opens(s.sup).Some?
    ensures Advances(s.sup) && Sound(Advanced(s))
    ensures FieldsOf(Advanced(s)) == WithBox(FieldsOf(s), Opens(s.sup).value, Some([]))
  {
    var t := Advanced(s);
    forall p ensures SlotInv(t, p) && (Some(p) != Opens(s.sup) ==> Queue(t, p) == Queue(s, p)) {
      assert SlotInv(s, p);
    }
  }

  lemma UnsubscribeIsStep(s: State)
    requires Sound(s) && Shuts(s.sup).Some?
    ensures Advances(s.sup) && Sound(Advanced(s))
    ensures FieldsOf(Advanced(s)) == WithBox(FieldsOf(s), Shuts(s.sup).value, None)
  {
    var t := Advanced(s);
    forall p ensures SlotInv(t, p) && (Some(p) != Shuts(s.sup) ==> Queue(t, p) == Queue(s, p)) {
      assert SlotInv(s, p);
    }
  }

  // Looking a channel up and sending to it is one notification.
  lemma NotifyIsSteps(s: State, ev: Event, p: Purpose, todo: seq<Purpose>) returns (steps: seq<Step>, t: State)
    requires Sound(s) && s.handler == Routing(ev, [p] + todo)
    ensures Reaches(s, steps, t) && Sound(t) && t.handler == Dispatched(ev, todo)
    ensures FieldsOf(t) == Notified(FieldsOf(s), p, ev)
  {
    hide Reaches, Dispatched, Offer;
    assert ([p] + todo)[1..] == todo;
    assert SlotInv(s, p);
    var s1 := Do(s, LookUp);
    Unsent(s, s1);
    if SlotOf(s, p).None? {
      steps, t := [LookUp] + [], s1;
      Chained(s, LookUp, [], t);
    } else {
      t := Do(s1, Send);
      steps := [LookUp] + ([Send] + []);
      Chained(s1, Send, [], t);
      Chained(s, LookUp, [Send] + [], t);
      SendOffers(s1, p, ev);
    }
  }

  lemma Unsent(s: State, t: State)
    requires Sound(s) && t == s.(handler := t.handler)
    ensures Sound(t) && FieldsOf(t) == FieldsOf(s)
  {
    forall p ensures SlotInv(t, p) && Queue(t, p) == Queue(s, p) {
      assert SlotInv(s, p);
    }
  }

  lemma SendOffers(s: State, p: Purpose, ev: Event)
    requires Sound(s) && s.handler.Sending? && s.handler.ev == ev && SlotOf(s, p) == Some(s.handler.ch)
    ensures Enabled(s, Send) && Sound(Do(s, Send))
    ensures FieldsOf(Do(s, Send)) == Notified(FieldsOf(s), p, ev)
  {
    hide Dispatched;
    assert SlotInv(s, p);
    var t := Do(s, Send);
    forall q
      ensures SlotInv(t, q)
      ensures Queue(t, q) == if q == p then Some(Added(Queue(s, p).value, Cap(p), ev)) else Queue(s, q)
    {
      assert SlotInv(s, q);
    }
  }

  lemma {:induction false} NotifyAllIsSteps(s: State, ev: Event, todo: seq<Purpose>) returns (steps: seq<Step>, t: State)
    requires Sound(s) && s.handler == Dispatched(ev, todo)
    ensures Reaches(s, steps, t) && Sound(t) && t.handler == Dispatched(ev, [])
    ensures FieldsOf(t) == NotifiedAll(FieldsOf(s), todo, ev)
    decreases |todo|
  {
    hide Reaches, Sound, FieldsOf, Notified;
    if todo == [] {
      steps, t := [], s;
      ReachesNothing(s);
    } else {
      assert [todo[0]] + todo[1..] == todo;
      var first, s1 := NotifyIsSteps(s, ev, todo[0], todo[1..]);
      var more;
      more, t := NotifyAllIsSteps(s1, ev, todo[1..]);
      steps := first + more;
      ReachesJoin(s, first, s1, more, t);
    }
  }

  lemma HandleSteps(s: State, ev: Event) returns (steps: seq<Step>, t: State)
    requires Sound(s) && s.handler == Idle
    ensures Reaches(s, steps, t) && Sound(t) && t.handler == (if ev == GONE then Ended else Idle)
    ensures FieldsOf(t) == NotifiedAll(FieldsOf(s), Routes(ev), ev)
  {
    hide Reaches, Sound, FieldsOf, NotifiedAll, Routes;
    var s1 := s.(handler := Dispatched(ev, Routes(ev)));
    Unsent(s, s1);
    var more;
    more, t := NotifyAllIsSteps(s1, ev, Routes(ev));
    assert Enabled(s, Handle(ev)) && Do(s, Handle(ev)) == s1;
    steps := [Handle(ev)] + more;
    HandleFirst(s, ev, s1, more, t);
  }

  lemma ReachableSound(cfg: Config, before: seq<Step>, s: State)
    requires Reaches(Init(cfg), before, s)
    ensures Sound(s)
  {
    hide *;
    InitInv(cfg);
    RunInv(Init(cfg), before, s);
    InvSound(s);
  }

  // One event handled without interference, in any reachable state: the dispatcher's steps do to the channels
  // exactly what Manager.Dispatch does.
  lemma DispatchIsSteps(cfg: Config, before: seq<Step>, s: State, ev: Event) returns (steps: seq<Step>, t: State)
    requires Reaches(Init(cfg), before, s) && s.handler == Idle
    ensures Sound(s) && Sound(t)
    ensures Reaches(s, steps, t) && t.handler == (if ev == GONE then Ended else Idle)
    ensures FieldsOf(t) == NotifiedAll(FieldsOf(s), Routes(ev), ev)
  {
    hide *;
    ReachableSound(cfg, before, s);
    steps, t := HandleSteps(s, ev);
  }

  // In any reachable state, the supervisor's own steps do to the fields exactly what the methods of the object
  // do: two of them install a session, two clear it, and single ones set the state, open a channel and
  // close it. Commands, time-outs, cancellation and waiters leave the fields alone.
  lemma MethodsAreSteps(cfg: Config, before: seq<Step>, s: State)
    requires Reaches(Init(cfg), before, s)
    ensures Sound(s)
    ensures s.sup.Storing? ==> exists t ::
      && Reaches(s, [Advance, Advance], t) && t.sup.Marking? && Sound(t)
      && FieldsOf(t) == FieldsOf(s).(session := Some(SessionOf(s.sup.d, s.sup.ip)), announced := true)
    ensures s.sup.Dropping? ==> exists t ::
      && Reaches(s, [Advance, Advance], t) && t.sup.Noting? && Sound(t)
      && FieldsOf(t) == FieldsOf(s).(session := None, announced := false)
    ensures forall step :: Enabled(s, step) ==>
      && Sound(Do(s, step))
      && (step == Advance && Marks(s.sup) ==> FieldsOf(Do(s, step)) == FieldsOf(s).(conn := Do(s, step).conn))
      && (step == Advance && Opens(s.sup).Some? ==>
        FieldsOf(Do(s, step)) == WithBox(FieldsOf(s), Opens(s.sup).value, Some([])))
      && (step == Advance && Shuts(s.sup).Some? ==>
        FieldsOf(Do(s, step)) == WithBox(FieldsOf(s), Shuts(s.sup).value, None))
      && (step.Command? || step.TimeOut? || step.Cancel? || IsWaiterStep(step) ==> FieldsOf(Do(s, step)) == FieldsOf(s))
  {
    hide *;
    ReachableSound(cfg, before, s);
    if s.sup.Storing? {
      InstallIsSteps(s);
    }
    if s.sup.Dropping? {
      ClearIsSteps(s);
    }
    forall step | Enabled(s, step)
      ensures Sound(Do(s, step))
      ensures step == Advance && Marks(s.sup) ==> FieldsOf(Do(s, step)) == FieldsOf(s).(conn := Do(s, step).conn)
      ensures step == Advance && Opens(s.sup).Some? ==>
        FieldsOf(Do(s, step)) == WithBox(FieldsOf(s), Opens(s.sup).value, Some([]))
      ensures step == Advance && Shuts(s.sup).Some? ==>
        FieldsOf(Do(s, step)) == WithBox(FieldsOf(s), Shuts(s.sup).value, None)
      ensures step.Command? || step.TimeOut? || step.Cancel? || IsWaiterStep(step) ==> FieldsOf(Do(s, step)) == FieldsOf(s)
    {
      ReachableAfter(cfg, before, s, step);
      if step == Advance {
        AdvanceFields(s);
      }
      if step.Command? || step.TimeOut? || step.Cancel? || IsWaiterStep(step) {
        QuietStep(s, step);
      }
    }
  }

  lemma ReachableAfter(cfg: Config, before: seq<Step>, s: State, step: Step)
    requires Reaches(Init(cfg), before, s) && Enabled(s, step)
    ensures Sound(Do(s, step))
  {
    hide *;
    InitInv(cfg);
    RunInv(Init(cfg), before, s);
    StepInv(s, step);
    InvSound(Do(s, step));
  }

  lemma AdvanceFields(s: State)
    requires Sound(s) && Enabled(s, Advance) && Sound(Do(s, Advance))
    ensures Marks(s.sup) ==> FieldsOf(Do(s, Advance)) == FieldsOf(s).(conn := Do(s, Advance).conn)
    ensures Opens(s.sup).Some? ==> FieldsOf(Do(s, Advance)) == WithBox(FieldsOf(s), Opens(s.sup).value, Some([]))
    ensures Shuts(s.sup).Some? ==> FieldsOf(Do(s, Advance)) == WithBox(FieldsOf(s), Shuts(s.sup).value, None)
  {
    hide *;
    DoAdvance(s);
    if Marks(s.sup) {
      MarkIsStep(s);
    }
    if Opens(s.sup).Some? {
      SubscribeIsStep(s);
    }
    if Shuts(s.sup).Some? {
      UnsubscribeIsStep(s);
    }
  }

  // The other steps of supervisor and waiters leave the fields alone.
  lemma QuietStep(s: State, step: Step)
    requires Sound(s) && Enabled(s, step) && Sound(Do(s, step))
    requires step.Command? || step.TimeOut? || step.Cancel? || IsWaiterStep(step)
    ensures FieldsOf(Do(s, step)) == FieldsOf(s)
  {
    hide Routes, Choose, LineOf, Mac.IpOf;
    assert SlotInv(s, ForScan) && SlotInv(s, ForJoin) && SlotInv(s, ForLoss);
  }

  lemma HandleFirst(s: State, ev: Event, s1: State, more: seq<Step>, t: State)
    requires Enabled(s, Handle(ev)) && Do(s, Handle(ev)) == s1 && Reaches(s1, more, t)
    ensures Reaches(s, [Handle(ev)] + more, t)
  {
    assert ([Handle(ev)] + more)[1..] == more;
  }
}
