// The connection supervisor, the dispatcher of driver events and any number of callers waiting for a
// connection. Every step is one critical section, one channel operation or one command, so runs are
// all the interleavings; time-outs and cancellation are steps that may happen at any moment.
module Supervisor {
  import opened Prelude
  import opened Text
  import opened Driver
  import opened Scan
  import opened SkModule
  import Mac
  import Udp

  datatype Config = Config(rbid: string, password: string, mask: uint32, duration: nat)

  datatype Session = Session(meterIp: seq<byte>, panId: nat, channel: nat, meterMac: string)

  datatype Conn = Disconnected | Initializing | Scanning | Joining | Connected | Reconnecting

  // The commands ---------------------------------------------------------------------------------

  function SetupLines(cfg: Config): (ls: seq<string>)
    ensures |ls| == 5
  {
    ["SKRESET", "WOPT 01", "ROPT 01", "SKSETPWD C " + cfg.password, "SKSETRBID " + cfg.rbid]
  }

  function ScanLine(cfg: Config): string {
    "SKSCAN 2 " + HexUpper(cfg.mask, 8) + " " + Decimal(cfg.duration) + " 0"
  }

  function TuneLines(d: Descriptor): (ls: seq<string>)
    ensures |ls| == 2
  {
    ["SKSREG S2 " + HexUpper(d.channel, 2), "SKSREG S3 " + HexUpper(d.panId, 4)]
  }

  function UpToScan(cfg: Config): seq<string> {
    SetupLines(cfg) + [ScanLine(cfg)]
  }

  // Every command of one successful attempt, in order.
  function Script(cfg: Config, d: Descriptor, ip: seq<byte>): seq<string>
    requires Udp.IsIp(ip)
  {
    UpToScan(cfg) + TuneLines(d) + [Mac.JoinLine(ip)]
  }

  // State ----------------------------------------------------------------------------------------

  // What a channel from the dispatcher to the supervisor is for.
  datatype Purpose = ForScan | ForJoin | ForLoss

  // sent logs every event put into the channel.
  datatype Chan = Chan(purpose: Purpose, queue: seq<Event>, sent: seq<Event>)

  function Cap(p: Purpose): nat {
    if p.ForScan? then 16 else 1
  }

  // Stands for the closing of the driver's event channel.
  const GONE := Event("", [], None, None, "")

  // Which channels an event is offered to, in order.
  function Routes(ev: Event): seq<Purpose> {
    if ev == GONE then [ForLoss]
    else if ev.kind == "EPANDESC" then [ForScan]
    else if ev.kind != "EVENT" || |ev.params| < 1 then []
    else if ev.params[0] == "22" then [ForScan]
    else if ev.params[0] == "24" then [ForJoin, ForLoss]
    else if ev.params[0] == "25" then [ForJoin]
    else if ev.params[0] == "27" || ev.params[0] == "28" || ev.params[0] == "29" then [ForLoss]
    else []
  }

  predicate Joined(ev: Event) {
    |ev.params| >= 1 && ev.params[0] == "25"
  }

  // One pass through the join sequence: the commands with their results, the scan channel and what
  // was taken from it, the join channel.
  datatype Attempt = Attempt(log: seq<Issued>, scan: nat, heard: seq<Event>, join: nat)

  datatype Supervising =
    | Ready                     // top of the loop
    | Setup(n: nat)             // before the n-th fixed command
    | ScanMark | ScanOpen | ScanCommand | Collecting | ScanClose(found: Option<Descriptor>)
    | Tune(d: Descriptor, n: nat)
    | JoinMark(d: Descriptor, ip: seq<byte>)
    | JoinOpen(d: Descriptor, ip: seq<byte>)
    | JoinCommand(d: Descriptor, ip: seq<byte>)
    | JoinWait(d: Descriptor, ip: seq<byte>)
    | JoinClose(d: Descriptor, ip: seq<byte>, joined: bool)
    | Storing(d: Descriptor, ip: seq<byte>) // before the session is set
    | Announcing                // before connectedCh is closed
    | Marking | Arming | Up
    | Disarming(cancelled: bool)
    | Dropping(cancelled: bool) // before the session is cleared
    | Renewing(cancelled: bool) // before connectedCh is replaced
    | Noting(cancelled: bool)
    | BackingOff | Stopped

  datatype Dispatching =
    | Idle
    | Routing(ev: Event, todo: seq<Purpose>)             // before the channel is looked up
    | Sending(ev: Event, ch: nat, todo: seq<Purpose>)    // before the send
    | Ended

  datatype Waiter = Reading | Missed | Blocked(gate: nat) | Got(k: nat) | GaveUp

  // A session with the attempt that earned it.
  datatype Connection = Connection(session: Session, d: Descriptor, ip: seq<byte>, attempt: Attempt)

  // session refers to a member of installed; gates counts how often each connectedCh ever made was
  // closed, and the last one is the current one.
  datatype State = State(
    cfg: Config, sup: Supervising, conn: Conn, attempt: Attempt,
    scanCh: Option<nat>, joinCh: Option<nat>, lossCh: Option<nat>, chans: seq<Chan>,
    handler: Dispatching, session: Option<nat>, gates: seq<nat>, waiters: seq<Waiter>,
    installed: seq<Connection>)

  const NOTHING := Attempt([], 0, [], 0)

  function Init(cfg: Config): State {
    State(cfg, Ready, Disconnected, NOTHING, None, None, None, [], Idle, None, [0], [], [])
  }

  // Steps ----------------------------------------------------------------------------------------

  datatype Step =
    | Advance | Command(ok: bool) | Take | TimeOut | Cancel
    | Handle(ev: Event) | LookUp | Send
    | NewWaiter | Read(w: nat) | Capture(w: nat) | Wake(w: nat) | Quit(w: nat)

  function SlotOf(s: State, p: Purpose): Option<nat> {
    match p
    case ForScan => s.scanCh
    case ForJoin => s.joinCh
    case ForLoss => s.lossCh
  }

  predicate Commanding(sup: Supervising) {
    (sup.Setup? && sup.n < 5) || sup.ScanCommand? || (sup.Tune? && sup.n < 2)
    || (sup.JoinCommand? && Udp.IsIp(sup.ip))
  }

  // The channel the supervisor is receiving from.
  function Listening(s: State): Option<nat> {
    if s.sup.Collecting? then Some(s.attempt.scan)
    else if s.sup.JoinWait? then Some(s.attempt.join)
    else if s.sup.Up? then s.lossCh
    else None
  }

  predicate Advances(sup: Supervising) {
    !Commanding(sup) && !sup.Setup? && !sup.Tune? && !sup.JoinCommand?
    && !sup.Collecting? && !sup.JoinWait? && !sup.Up? && !sup.Stopped?
  }

  predicate Enabled(s: State, step: Step) {
    match step
    case Advance => Advances(s.sup) && s.gates != []
    case Command(_) => Commanding(s.sup)
    case Take => var ch := Listening(s); ch.Some? && ch.value < |s.chans| && s.chans[ch.value].queue != []
    case TimeOut => s.sup.Collecting? || s.sup.JoinWait?
    case Cancel => s.sup.Ready? || s.sup.BackingOff? || s.sup.Up?
    case Handle(_) => s.handler.Idle?
    case LookUp => s.handler.Routing? && s.handler.todo != []
    case Send => s.handler.Sending? && s.handler.ch < |s.chans|
    case NewWaiter => true
    case Read(w) => w < |s.waiters| && s.waiters[w].Reading?
    case Capture(w) => w < |s.waiters| && s.waiters[w].Missed? && s.gates != []
    case Wake(w) =>
      w < |s.waiters| && s.waiters[w].Blocked? && s.waiters[w].gate < |s.gates| && s.gates[s.waiters[w].gate] > 0
    case Quit(w) => w < |s.waiters| && s.waiters[w].Blocked?
  }

  function Opened(s: State, p: Purpose): State {
    s.(chans := s.chans + [Chan(p, [], [])])
  }

  function CloseGate(gates: seq<nat>): seq<nat>
    requires gates != []
  {
    gates[|gates| - 1 := gates[|gates| - 1] + 1]
  }

  function FoundIn(evs: seq<Event>): Option<Descriptor> {
    match Choose(None, evs)
    case Found(d) => Some(d)
    case _ => None
  }

  function SessionOf(d: Descriptor, ip: seq<byte>): Session {
    Session(ip, d.panId, d.channel, d.addr)
  }

  // The supervisor's steps that touch only its own and the shared fields.
  function Advanced(s: State): State
    requires Advances(s.sup) && s.gates != []
  {
    match s.sup
    case Ready => s.(sup := Setup(0), conn := Initializing, attempt := NOTHING)
    case ScanMark => s.(sup := ScanOpen, conn := Scanning)
    case ScanOpen =>
      Opened(s, ForScan).(sup := ScanCommand, scanCh := Some(|s.chans|), attempt := s.attempt.(scan := |s.chans|))
    case ScanClose(found) =>
      s.(sup := if found.Some? then Tune(found.value, 0) else BackingOff, scanCh := None)
    case JoinMark(d, ip) => s.(sup := JoinOpen(d, ip), conn := Joining)
    case JoinOpen(d, ip) =>
      Opened(s, ForJoin).(sup := JoinCommand(d, ip), joinCh := Some(|s.chans|), attempt := s.attempt.(join := |s.chans|))
    case JoinClose(d, ip, joined) => s.(sup := if joined then Storing(d, ip) else BackingOff, joinCh := None)
    case Storing(d, ip) =>
      s.(sup := Announcing, session := Some(|s.installed|),
         installed := s.installed + [Connection(SessionOf(d, ip), d, ip, s.attempt)])
    case Announcing => s.(sup := Marking, gates := CloseGate(s.gates))
    case Marking => s.(sup := Arming, conn := Connected)
    case Arming => Opened(s, ForLoss).(sup := Up, lossCh := Some(|s.chans|))
    case Disarming(c) => s.(sup := Dropping(c), lossCh := None)
    case Dropping(c) => s.(sup := Renewing(c), session := None)
    case Renewing(c) => s.(sup := Noting(c), gates := s.gates + [0])
    case Noting(c) => s.(sup := if c then Stopped else Ready, conn := Reconnecting)
    case BackingOff => s.(sup := Ready)
  }

  function LineOf(cfg: Config, sup: Supervising): string
    requires Commanding(sup)
  {
    match sup
    case Setup(n) => SetupLines(cfg)[n]
    case ScanCommand => ScanLine(cfg)
    case Tune(d, n) => TuneLines(d)[n]
    case JoinCommand(_, ip) => Mac.JoinLine(ip)
  }

  // The second and third command may fail; any other failure ends the attempt, after the deferred
  // clean-up.
  function AfterCommand(sup: Supervising, ok: bool): Supervising
    requires Commanding(sup)
  {
    match sup
    case Setup(n) => if !ok && n != 1 && n != 2 then BackingOff else if n < 4 then Setup(n + 1) else ScanMark
    case ScanCommand => if ok then Collecting else ScanClose(None)
    case Tune(d, n) =>
      if !ok then BackingOff else if n == 0 then Tune(d, 1)
      else (match Mac.IpOf(d.addr) case None => BackingOff case Some(ip) => JoinMark(d, ip))
    case JoinCommand(d, ip) => if ok then JoinWait(d, ip) else JoinClose(d, ip, false)
  }

  function Commanded(s: State, ok: bool): State
    requires Commanding(s.sup)
  {
    s.(sup := AfterCommand(s.sup, ok),
       attempt := s.attempt.(log := s.attempt.log + [Issued(LineOf(s.cfg, s.sup), ok)]))
  }

  function AfterTake(s: State, ev: Event): State
    requires s.sup.Collecting? || s.sup.JoinWait? || s.sup.Up?
  {
    match s.sup
    case Collecting =>
      var heard := s.attempt.heard + [ev];
      s.(sup := if IsEnd(ev) then ScanClose(FoundIn(heard)) else Collecting, attempt := s.attempt.(heard := heard))
    case JoinWait(d, ip) => s.(sup := JoinClose(d, ip, Joined(ev)))
    case Up => s.(sup := Disarming(false))
  }

  function Taken(s: State): State
    requires Enabled(s, Take)
  {
    var ch := Listening(s).value;
    var c := s.chans[ch];
    AfterTake(s, c.queue[0]).(chans := s.chans[ch := c.(queue := c.queue[1..])])
  }

  // After one channel the dispatcher goes on to the next; it ends with the driver's event channel.
  function Dispatched(ev: Event, todo: seq<Purpose>): Dispatching {
    if todo != [] then Routing(ev, todo) else if ev == GONE then Ended else Idle
  }

  // A send that gives up when the channel is full.
  function Offer(c: Chan, ev: Event): Chan {
    if |c.queue| < Cap(c.purpose) then c.(queue := c.queue + [ev], sent := c.sent + [ev]) else c
  }

  function WithWaiter(s: State, w: nat, x: Waiter): State
    requires w < |s.waiters|
  {
    s.(waiters := s.waiters[w := x])
  }

  function Do(s: State, step: Step): State
    requires Enabled(s, step)
  {
    match step
    case Advance => Advanced(s)
    case Command(ok) => Commanded(s, ok)
    case Take => Taken(s)
    case TimeOut =>
      if s.sup.Collecting? then s.(sup := ScanClose(FoundIn(s.attempt.heard)))
      else s.(sup := JoinClose(s.sup.d, s.sup.ip, false))
    case Cancel => s.(sup := if s.sup.Up? then Disarming(true) else Stopped)
    case Handle(ev) => s.(handler := Dispatched(ev, Routes(ev)))
    case LookUp =>
      var (ev, todo) := (s.handler.ev, s.handler.todo);
      var slot := SlotOf(s, todo[0]);
      s.(handler := if slot.None? then Dispatched(ev, todo[1..]) else Sending(ev, slot.value, todo[1..]))
    case Send =>
      var (ev, ch, todo) := (s.handler.ev, s.handler.ch, s.handler.todo);
      s.(chans := s.chans[ch := Offer(s.chans[ch], ev)], handler := Dispatched(ev, todo))
    case NewWaiter => s.(waiters := s.waiters + [Reading])
    case Read(w) => WithWaiter(s, w, if s.session.Some? then Got(s.session.value) else Missed)
    case Capture(w) => WithWaiter(s, w, Blocked(|s.gates| - 1))
    case Wake(w) => WithWaiter(s, w, Reading)
    case Quit(w) => WithWaiter(s, w, GaveUp)
  }

  ghost predicate Reaches(s: State, steps: seq<Step>, t: State)
    decreases |steps|
  {
    if steps == [] then s == t else Enabled(s, steps[0]) && Reaches(Do(s, steps[0]), steps[1..], t)
  }

  predicate IsWaiterStep(step: Step) {
    step.NewWaiter? || step.Read? || step.Capture? || step.Wake? || step.Quit?
  }

  // Where the supervisor stands and what the shared fields hold --------------------------------------

  predicate Stored(sup: Supervising) {
    sup.Announcing? || sup.Marking? || sup.Arming? || sup.Up? || sup.Disarming? || sup.Dropping?
  }

  // Between the closing of connectedCh and its replacement.
  predicate Announced(sup: Supervising) {
    sup.Marking? || sup.Arming? || sup.Up? || sup.Disarming? || sup.Dropping? || sup.Renewing?
  }

  predicate ListensForScan(sup: Supervising) {
    sup.ScanCommand? || sup.Collecting? || sup.ScanClose?
  }

  predicate ListensForJoin(sup: Supervising) {
    sup.JoinCommand? || sup.JoinWait? || sup.JoinClose?
  }

  predicate ListensForLoss(sup: Supervising) {
    sup.Up? || sup.Disarming?
  }

  predicate Shows(sup: Supervising, conn: Conn) {
    match sup
    case Setup(_) => conn == Initializing
    case ScanMark => conn == Initializing
    case ScanOpen | ScanCommand | Collecting | ScanClose(_) | Tune(_, _) | JoinMark(_, _) => conn == Scanning
    case JoinOpen(_, _) | JoinCommand(_, _) | JoinWait(_, _) | JoinClose(_, _, _) => conn == Joining
    case Storing(_, _) | Announcing | Marking => conn == Joining
    case Arming | Up | Disarming(_) | Dropping(_) | Renewing(_) | Noting(_) => conn == Connected
    case Ready | BackingOff | Stopped => true
  }

  predicate FrameInv(s: State) {
    && Shows(s.sup, s.conn)
    && s.session == (if Stored(s.sup) && s.installed != [] then Some(|s.installed| - 1) else None)
    && (Stored(s.sup) ==> s.installed != [])
    && s.scanCh == (if ListensForScan(s.sup) then Some(s.attempt.scan) else None)
    && s.joinCh == (if ListensForJoin(s.sup) then Some(s.attempt.join) else None)
    && (s.lossCh.Some? <==> ListensForLoss(s.sup))
  }

  predicate GateInv(s: State) {
    && s.gates != []
    && (forall i :: 0 <= i < |s.gates| - 1 ==> s.gates[i] == 1)
    && s.gates[|s.gates| - 1] == (if Announced(s.sup) then 1 else 0)
  }

  // Contents of the channels.
  predicate ChanInv(c: Chan) {
    && |c.queue| <= |c.sent|
    && c.queue == c.sent[|c.sent| - |c.queue|..]
    && (forall i :: 0 <= i < |c.sent| ==> c.purpose in Routes(c.sent[i]))
  }

  predicate SlotInv(s: State, p: Purpose) {
    SlotOf(s, p).Some? ==> SlotOf(s, p).value < |s.chans| && s.chans[SlotOf(s, p).value].purpose == p
  }

  predicate HandlerInv(s: State) {
    match s.handler
    case Routing(ev, todo) => forall p :: p in todo ==> p in Routes(ev)
    case Sending(ev, ch, todo) =>
      && ch < |s.chans|
      && s.chans[ch].purpose in Routes(ev)
      && (forall p :: p in todo ==> p in Routes(ev))
    case _ => true
  }

  ghost predicate ChansInv(s: State) {
    && (forall i :: 0 <= i < |s.chans| ==> ChanInv(s.chans[i]))
    && (forall p :: SlotInv(s, p))
    && HandlerInv(s)
  }

  // What an attempt has done ---------------------------------------------------------------------

  // These commands were issued, in this order; all but WOPT and ROPT succeeded.
  predicate Went(log: seq<Issued>, lines: seq<string>) {
    && |log| == |lines|
    && (forall i :: 0 <= i < |log| ==> log[i].line == lines[i] && (log[i].ok || i == 1 || i == 2))
  }

  // d is the choice among what came out of the scan channel of this attempt.
  predicate Chosen(chans: seq<Chan>, a: Attempt, d: Descriptor) {
    && a.scan < |chans| && chans[a.scan].purpose == ForScan
    && a.heard <= chans[a.scan].sent
    && Choose(None, a.heard) == Found(d)
  }

  // The first event that entered the join channel of this attempt was a success.
  predicate Accepted(chans: seq<Chan>, a: Attempt) {
    && a.join < |chans| && chans[a.join].purpose == ForJoin
    && chans[a.join].sent != [] && Joined(chans[a.join].sent[0])
  }

  predicate Fresh(chans: seq<Chan>, ch: nat, p: Purpose) {
    ch < |chans| && chans[ch].purpose == p && chans[ch].queue == chans[ch].sent
  }

  predicate Unheard(chans: seq<Chan>, a: Attempt) {
    a.scan < |chans| && chans[a.scan].purpose == ForScan && a.heard + chans[a.scan].queue == chans[a.scan].sent
  }

  predicate Aimed(d: Descriptor, ip: seq<byte>) {
    Udp.IsIp(ip) && Mac.IpOf(d.addr) == Some(ip)
  }

  predicate AttemptInv(s: State) {
    var a := s.attempt;
    match s.sup
    case Setup(n) => n < 5 && Went(a.log, SetupLines(s.cfg)[..n]) && a.heard == []
    case ScanMark => Went(a.log, SetupLines(s.cfg)) && a.heard == []
    case ScanOpen => Went(a.log, SetupLines(s.cfg)) && a.heard == []
    case ScanCommand => Went(a.log, SetupLines(s.cfg)) && Unheard(s.chans, a)
    case Collecting => Went(a.log, UpToScan(s.cfg)) && Unheard(s.chans, a)
    case ScanClose(found) => found.Some? ==> Went(a.log, UpToScan(s.cfg)) && Chosen(s.chans, a, found.value)
    case Tune(d, n) => n < 2 && Went(a.log, UpToScan(s.cfg) + TuneLines(d)[..n]) && Chosen(s.chans, a, d)
    case JoinMark(d, ip) => Went(a.log, UpToScan(s.cfg) + TuneLines(d)) && Chosen(s.chans, a, d) && Aimed(d, ip)
    case JoinOpen(d, ip) => Went(a.log, UpToScan(s.cfg) + TuneLines(d)) && Chosen(s.chans, a, d) && Aimed(d, ip)
    case JoinCommand(d, ip) =>
      && Went(a.log, UpToScan(s.cfg) + TuneLines(d)) && Chosen(s.chans, a, d) && Aimed(d, ip)
      && Fresh(s.chans, a.join, ForJoin)
    case JoinWait(d, ip) =>
      && Aimed(d, ip) && Went(a.log, Script(s.cfg, d, ip)) && Chosen(s.chans, a, d) && Fresh(s.chans, a.join, ForJoin)
    case JoinClose(d, ip, joined) =>
      joined ==> Aimed(d, ip) && Went(a.log, Script(s.cfg, d, ip)) && Chosen(s.chans, a, d) && Accepted(s.chans, a)
    case Storing(d, ip) =>
      Aimed(d, ip) && Went(a.log, Script(s.cfg, d, ip)) && Chosen(s.chans, a, d) && Accepted(s.chans, a)
    case _ => true
  }

  predicate Earned(cfg: Config, chans: seq<Chan>, k: Connection) {
    && Aimed(k.d, k.ip)
    && Went(k.attempt.log, Script(cfg, k.d, k.ip))
    && Chosen(chans, k.attempt, k.d)
    && Accepted(chans, k.attempt)
    && k.session == SessionOf(k.d, k.ip)
  }

  ghost predicate RecordsInv(s: State) {
    forall k :: 0 <= k < |s.installed| ==> Earned(s.cfg, s.chans, s.installed[k])
  }

  predicate WaiterInv(s: State, x: Waiter) {
    (x.Blocked? ==> x.gate < |s.gates|) && (x.Got? ==> x.k < |s.installed|)
  }

  ghost predicate WaitersInv(s: State) {
    forall w :: 0 <= w < |s.waiters| ==> WaiterInv(s, s.waiters[w])
  }

  ghost predicate Inv(s: State) {
    FrameInv(s) && GateInv(s) && ChansInv(s) && AttemptInv(s) && RecordsInv(s) && WaitersInv(s)
  }

  // The invariant is kept --------------------------------------------------------------------------

  lemma InitInv(cfg: Config)
    ensures Inv(Init(cfg))
  {
  }

  lemma WaiterStep(s: State, step: Step)
    requires Inv(s) && Enabled(s, step) && IsWaiterStep(step)
    ensures Inv(Do(s, step))
  {
    hide AttemptInv, Earned, ChanInv, Routes;
    var t := Do(s, step);
    assert AttemptInv(s) == AttemptInv(t) by {
      hide *;
      OnlyWaiters(s, step);
      SameAttempt(s, t);
    }
    forall p ensures SlotInv(t, p) {
      assert SlotInv(s, p);
    }
  }

  lemma OnlyWaiters(s: State, step: Step)
    requires Enabled(s, step) && IsWaiterStep(step)
    ensures Do(s, step) == s.(waiters := Do(s, step).waiters)
  {
  }

  lemma SameAttempt(s: State, t: State)
    requires t.cfg == s.cfg && t.sup == s.sup && t.attempt == s.attempt && t.chans == s.chans
    ensures AttemptInv(s) == AttemptInv(t)
  {
    hide Went, Chosen, Accepted, Fresh, Unheard, Aimed, Script, UpToScan, TuneLines, SetupLines;
  }

  // Channels are never taken away and what entered one stays on record.
  predicate Grows(a: seq<Chan>, b: seq<Chan>) {
    && |a| <= |b|
    && (forall i :: 0 <= i < |a| ==> b[i].purpose == a[i].purpose && a[i].sent <= b[i].sent)
  }

  lemma GrowsChosen(a: seq<Chan>, b: seq<Chan>, x: Attempt, d: Descriptor)
    requires Grows(a, b)
    ensures Chosen(a, x, d) ==> Chosen(b, x, d)
    ensures Accepted(a, x) ==> Accepted(b, x)
  {
    hide Choose;
  }

  lemma GrowsEarned(s: State, t: State)
    requires Grows(s.chans, t.chans) && t.cfg == s.cfg && s.installed <= t.installed && RecordsInv(s)
    ensures forall k :: 0 <= k < |s.installed| ==> Earned(t.cfg, t.chans, t.installed[k])
  {
    hide Chosen, Accepted, Went, Aimed, Script, Grows;
    forall k | 0 <= k < |s.installed|
      ensures Earned(t.cfg, t.chans, t.installed[k])
    {
      assert Earned(s.cfg, s.chans, s.installed[k]);
      GrowsChosen(s.chans, t.chans, s.installed[k].attempt, s.installed[k].d);
    }
  }

  // Only new channels and the fields of the supervisor change in its own steps.
  lemma AdvanceShape(s: State)
    requires Advances(s.sup) && s.gates != []
    ensures var t := Advanced(s);
      && t.cfg == s.cfg && t.handler == s.handler && t.waiters == s.waiters
      && |s.gates| <= |t.gates| && s.installed <= t.installed
      && (t.chans == s.chans || exists p :: t.chans == s.chans + [Chan(p, [], [])])
      && (!s.sup.Storing? ==> t.installed == s.installed)
  {
  }

  lemma AdvanceFrame(s: State)
    requires FrameInv(s) && Enabled(s, Advance)
    ensures FrameInv(Advanced(s))
  {
    hide SessionOf;
  }

  lemma AdvanceGate(s: State)
    requires GateInv(s) && Enabled(s, Advance)
    ensures GateInv(Advanced(s))
  {
    hide SessionOf;
    var t := Advanced(s);
    assert forall i :: 0 <= i < |s.gates| - 1 ==> s.gates[i] == 1;
    assert forall i :: 0 <= i < |t.gates| - 1 ==> t.gates[i] == 1;
  }

  lemma AdvanceAttempt(s: State)
    requires Inv(s) && Enabled(s, Advance)
    ensures AttemptInv(Advanced(s))
  {
    hide ChansInv, RecordsInv, WaitersInv, FrameInv, GateInv, SessionOf, Script, UpToScan, TuneLines, SetupLines;
    hide Choose, Udp.IsIp, Mac.IpOf;
    var t := Advanced(s);
    if s.sup.Ready? {
      assert SetupLines(s.cfg)[..0] == [];
    }
    if s.sup.ScanClose? {
      ScanCloseAttempt(s);
    }
    if s.sup.JoinOpen? {
      GrowsChosen(s.chans, t.chans, s.attempt, s.sup.d);
    }
  }

  lemma ScanCloseAttempt(s: State)
    requires AttemptInv(s) && s.sup.ScanClose? && s.gates != []
    ensures AttemptInv(Advanced(s))
  {
    hide UpToScan, Chosen;
    if s.sup.found.Some? {
      assert UpToScan(s.cfg) + TuneLines(s.sup.found.value)[..0] == UpToScan(s.cfg);
    }
  }

  lemma AdvanceSlots(s: State)
    requires ChansInv(s) && Enabled(s, Advance)
    ensures forall p :: SlotInv(Advanced(s), p)
  {
    hide SessionOf, ChanInv, HandlerInv;
    forall p ensures SlotInv(Advanced(s), p) {
      assert SlotInv(s, p);
    }
  }

  lemma AdvanceChans(s: State)
    requires ChansInv(s) && Enabled(s, Advance)
    ensures ChansInv(Advanced(s)) && Grows(s.chans, Advanced(s).chans)
  {
    hide Routes, SlotInv, Advanced;
    var t := Advanced(s);
    AdvanceShape(s);
    AdvanceSlots(s);
    assert forall i :: 0 <= i < |s.chans| ==> ChanInv(s.chans[i]) && t.chans[i] == s.chans[i];
  }

  lemma StoreRecord(s: State)
    requires Inv(s) && s.sup.Storing? && s.gates != []
    ensures RecordsInv(Advanced(s))
  {
    hide Chosen, Accepted, Went, Aimed, Script, FrameInv, GateInv, ChansInv, WaitersInv;
    var t := Advanced(s);
    forall k | 0 <= k < |t.installed|
      ensures Earned(t.cfg, t.chans, t.installed[k])
    {
      assert k < |s.installed| ==> Earned(s.cfg, s.chans, s.installed[k]);
    }
  }

  lemma AdvanceInv(s: State)
    requires Inv(s) && Enabled(s, Advance)
    ensures Inv(Do(s, Advance))
  {
    hide FrameInv, GateInv, ChansInv, AttemptInv, Earned, Advanced, Grows;
    var t := Advanced(s);
    AdvanceFrame(s);
    AdvanceGate(s);
    AdvanceAttempt(s);
    AdvanceChans(s);
    AdvanceShape(s);
    GrowsEarned(s, t);
    if s.sup.Storing? {
      StoreRecord(s);
    }
    assert forall w :: 0 <= w < |t.waiters| ==> WaiterInv(s, s.waiters[w]);
  }

  lemma WentSnoc(log: seq<Issued>, lines: seq<string>, line: string, ok: bool)
    requires Went(log, lines) && (ok || |lines| == 1 || |lines| == 2)
    ensures Went(log + [Issued(line, ok)], lines + [line])
  {
  }

  // The chosen beacon always has an address the join command can be built from.
  lemma ChosenHasAddress(evs: seq<Event>, d: Descriptor)
    requires Choose(None, evs) == Found(d)
    ensures Mac.IpOf(d.addr).Some? && IsAddr(d.addr)
  {
    hide *;
    ScanChoice(evs);
    var i: nat :| IsChoice(evs, i, d);
    ChoiceAddr(evs, i, d);
    AddrHasIp(d.addr);
  }

  lemma ChoiceAddr(evs: seq<Event>, i: nat, d: Descriptor)
    requires IsChoice(evs, i, d)
    ensures IsAddr(d.addr)
  {
    hide TrimSpace, ParseUint, IsAddr, Quality;
  }

  lemma AddrHasIp(addr: string)
    requires IsAddr(addr)
    ensures Mac.IpOf(addr).Some?
  {
    hide HexDecode, TrimSpace;
    HexDecodeShape(addr);
    TrimTrimmed(addr);
  }

  lemma SetupCommand(s: State, ok: bool)
    requires s.sup.Setup? && s.sup.n < 5 && AttemptInv(s)
    ensures AttemptInv(Commanded(s, ok))
  {
    hide SetupLines, Went;
    var n := s.sup.n;
    var lines := SetupLines(s.cfg);
    assert lines[..n] + [lines[n]] == lines[..n + 1];
    assert lines[..5] == lines;
    if ok || n == 1 || n == 2 {
      WentSnoc(s.attempt.log, lines[..n], lines[n], ok);
    }
  }

  lemma ScanStart(s: State, ok: bool)
    requires s.sup.ScanCommand? && AttemptInv(s)
    ensures AttemptInv(Commanded(s, ok))
  {
    hide SetupLines, ScanLine, Went;
    if ok {
      WentSnoc(s.attempt.log, SetupLines(s.cfg), ScanLine(s.cfg), ok);
    }
  }

  lemma TuneCommand(s: State, ok: bool)
    requires s.sup.Tune? && s.sup.n < 2 && AttemptInv(s)
    ensures AttemptInv(Commanded(s, ok))
  {
    hide TuneLines, UpToScan, Went, Choose, Mac.IpOf, Udp.IsIp;
    var n, d := s.sup.n, s.sup.d;
    var lines := UpToScan(s.cfg) + TuneLines(d)[..n];
    assert lines + [TuneLines(d)[n]] == UpToScan(s.cfg) + TuneLines(d)[..n + 1];
    assert TuneLines(d)[..2] == TuneLines(d);
    if ok {
      WentSnoc(s.attempt.log, lines, TuneLines(d)[n], ok);
    }
  }

  lemma JoinStart(s: State, ok: bool)
    requires s.sup.JoinCommand? && AttemptInv(s)
    ensures Udp.IsIp(s.sup.ip)
    ensures AttemptInv(Commanded(s, ok))
  {
    hide TuneLines, UpToScan, Went, Choose, Mac.JoinLine, Mac.IpOf, Udp.IsIp;
    if ok {
      WentSnoc(s.attempt.log, UpToScan(s.cfg) + TuneLines(s.sup.d), Mac.JoinLine(s.sup.ip), ok);
    }
  }

  lemma CommandAttempt(s: State, ok: bool)
    requires AttemptInv(s) && Commanding(s.sup)
    ensures AttemptInv(Commanded(s, ok))
  {
    hide AttemptInv, Commanded;
    match s.sup
    case Setup(_) => SetupCommand(s, ok);
    case ScanCommand => ScanStart(s, ok);
    case Tune(_, _) => TuneCommand(s, ok);
    case JoinCommand(_, _) => JoinStart(s, ok);
  }

  // A command changes nothing but the position and the log of the attempt.
  lemma CommandShape(s: State, ok: bool)
    requires Commanding(s.sup)
    ensures var t := Commanded(s, ok);
      && t == s.(sup := t.sup, attempt := t.attempt)
      && t.attempt.scan == s.attempt.scan && t.attempt.join == s.attempt.join
  {
  }

  lemma CommandFrame(s: State, ok: bool)
    requires Inv(s) && Commanding(s.sup)
    ensures FrameInv(Commanded(s, ok)) && GateInv(Commanded(s, ok))
  {
    hide AttemptInv, ChansInv, RecordsInv, WaitersInv, LineOf, Mac.IpOf, Udp.IsIp;
  }

  lemma CommandInv(s: State, ok: bool)
    requires Inv(s) && Enabled(s, Command(ok))
    ensures Inv(Do(s, Command(ok)))
  {
    hide FrameInv, GateInv, AttemptInv, Earned, Commanded, ChanInv, Routes;
    CommandFrame(s, ok);
    CommandAttempt(s, ok);
    CommandShape(s, ok);
    forall p ensures SlotInv(Commanded(s, ok), p) {
      assert SlotInv(s, p);
    }
  }

  lemma SupervisorMoves(s: State, t: State)
    requires Inv(s) && t == s.(sup := t.sup) && FrameInv(t) && GateInv(t) && AttemptInv(t)
    ensures Inv(t)
  {
    hide Earned, ChanInv, Routes, FrameInv, GateInv, AttemptInv;
    forall p ensures SlotInv(t, p) {
      assert SlotInv(s, p);
    }
    assert forall w :: 0 <= w < |s.waiters| ==> WaiterInv(s, s.waiters[w]);
  }

  lemma TimeOutInv(s: State)
    requires Inv(s) && Enabled(s, TimeOut)
    ensures Inv(Do(s, TimeOut))
  {
    hide ChansInv, RecordsInv, WaitersInv, Went, Choose, UpToScan, Script, Aimed, SetupLines, TuneLines;
    SupervisorMoves(s, Do(s, TimeOut));
  }

  lemma CancelInv(s: State)
    requires Inv(s) && Enabled(s, Cancel)
    ensures Inv(Do(s, Cancel))
  {
    hide ChansInv, RecordsInv, WaitersInv, Went, Choose, UpToScan, Script, Aimed, SetupLines, TuneLines;
    SupervisorMoves(s, Do(s, Cancel));
  }

  // Receiving and sending ------------------------------------------------------------------------

  lemma QueueTail(c: Chan)
    requires ChanInv(c) && c.queue != []
    ensures ChanInv(c.(queue := c.queue[1..]))
  {
    hide Routes;
  }

  lemma TakeCollects(s: State)
    requires AttemptInv(s) && s.sup.Collecting? && Enabled(s, Take)
    ensures AttemptInv(Taken(s))
  {
    hide Went, UpToScan, Choose, IsEnd;
    var c := s.chans[s.attempt.scan];
    var heard := s.attempt.heard;
    assert heard + c.queue == (heard + [c.queue[0]]) + c.queue[1..];
  }

  lemma TakeOutcome(s: State)
    requires AttemptInv(s) && (s.sup.JoinWait? || s.sup.Up?) && Enabled(s, Take)
    ensures AttemptInv(Taken(s))
  {
    hide Went, Script, Choose, Udp.IsIp, Mac.IpOf, Joined;
  }

  lemma TakeShape(s: State)
    requires Enabled(s, Take)
    ensures var t := Taken(s);
      && t == s.(sup := t.sup, attempt := t.attempt, chans := t.chans)
      && Grows(s.chans, t.chans) && |t.chans| == |s.chans|
      && t.attempt.scan == s.attempt.scan && t.attempt.join == s.attempt.join
  {
    hide Choose, IsEnd, Joined;
  }

  lemma TakeFrame(s: State)
    requires Inv(s) && Enabled(s, Take)
    ensures FrameInv(Taken(s)) && GateInv(Taken(s))
  {
    hide AttemptInv, ChansInv, RecordsInv, WaitersInv, Choose, IsEnd, Joined;
  }

  lemma TakeChans(s: State)
    requires Inv(s) && Enabled(s, Take)
    ensures ChansInv(Taken(s))
  {
    hide ChanInv, Routes, AttemptInv, RecordsInv, WaitersInv, GateInv, FrameInv, Choose, IsEnd, Joined;
    var t := Taken(s);
    var ch := Listening(s).value;
    forall i | 0 <= i < |t.chans|
      ensures ChanInv(t.chans[i])
    {
      assert ChanInv(s.chans[i]);
      if i == ch {
        QueueTail(s.chans[i]);
      }
    }
    forall p ensures SlotInv(t, p) {
      assert SlotInv(s, p);
    }
  }

  lemma TakeInv(s: State)
    requires Inv(s) && Enabled(s, Take)
    ensures Inv(Do(s, Take))
  {
    hide FrameInv, GateInv, AttemptInv, Earned, Taken, ChansInv, Grows;
    var t := Taken(s);
    TakeShape(s);
    TakeFrame(s);
    TakeChans(s);
    GrowsEarned(s, t);
    TakeAttempt(s);
    assert forall w :: 0 <= w < |t.waiters| ==> WaiterInv(s, s.waiters[w]);
  }

  lemma TakeAttempt(s: State)
    requires AttemptInv(s) && Enabled(s, Take)
    ensures AttemptInv(Taken(s))
  {
    hide AttemptInv, Taken;
    if s.sup.Collecting? {
      TakeCollects(s);
    } else {
      TakeOutcome(s);
    }
  }

  lemma OfferKeeps(c: Chan, ev: Event)
    requires ChanInv(c) && c.purpose in Routes(ev)
    ensures ChanInv(Offer(c, ev)) && Offer(c, ev).purpose == c.purpose && c.sent <= Offer(c, ev).sent
    ensures c.queue == c.sent ==> Offer(c, ev).queue == Offer(c, ev).sent
    ensures forall heard :: heard + c.queue == c.sent ==> heard + Offer(c, ev).queue == Offer(c, ev).sent
  {
    hide Routes;
    forall heard | heard + c.queue == c.sent
      ensures heard + Offer(c, ev).queue == Offer(c, ev).sent
    {
      assert heard + (c.queue + [ev]) == heard + c.queue + [ev];
    }
  }

  lemma SendGrows(s: State)
    requires Inv(s) && Enabled(s, Send)
    ensures var t := Do(s, Send);
      && t == s.(chans := t.chans, handler := t.handler)
      && Grows(s.chans, t.chans) && |t.chans| == |s.chans|
  {
    hide Routes, AttemptInv, FrameInv, GateInv, RecordsInv, WaitersInv;
  }

  lemma SendAttempt(s: State)
    requires Inv(s) && Enabled(s, Send)
    ensures AttemptInv(Do(s, Send))
  {
    hide Inv, Do, Grows, ChanInv, Offer, Routes, Went, Choose, Aimed, Script, UpToScan, SetupLines, TuneLines, AttemptInv;
    var t := Do(s, Send);
    SendGrows(s);
    SendFacts(s);
    ChannelsCarry(s, t);
  }

  lemma SendFacts(s: State)
    requires Inv(s) && Enabled(s, Send)
    ensures var t := Do(s, Send);
      && AttemptInv(s)
      && (Unheard(s.chans, s.attempt) ==> Unheard(t.chans, s.attempt))
      && (Fresh(s.chans, s.attempt.join, ForJoin) ==> Fresh(t.chans, s.attempt.join, ForJoin))
  {
    hide Offer, Routes, FrameInv, GateInv, RecordsInv, WaitersInv, AttemptInv, ChanInv;
    assert ChanInv(s.chans[s.handler.ch]);
    OfferKeeps(s.chans[s.handler.ch], s.handler.ev);
  }

  // What is known about an attempt only needs these facts about the channels.
  lemma ChannelsCarry(s: State, t: State)
    requires t == s.(chans := t.chans, handler := t.handler) && AttemptInv(s) && Grows(s.chans, t.chans)
    requires Unheard(s.chans, s.attempt) ==> Unheard(t.chans, s.attempt)
    requires Fresh(s.chans, s.attempt.join, ForJoin) ==> Fresh(t.chans, s.attempt.join, ForJoin)
    ensures AttemptInv(t)
  {
    hide Grows, Unheard, Fresh, Went, Chosen, Accepted, Aimed, Script, UpToScan, SetupLines, TuneLines;
    forall d {
      GrowsChosen(s.chans, t.chans, s.attempt, d);
    }
  }

  lemma SendChans(s: State)
    requires Inv(s) && Enabled(s, Send)
    ensures ChansInv(Do(s, Send))
  {
    hide ChanInv, Routes, AttemptInv, RecordsInv, WaitersInv, GateInv, FrameInv, Offer;
    var t := Do(s, Send);
    var ch := s.handler.ch;
    assert ChanInv(s.chans[ch]);
    OfferKeeps(s.chans[ch], s.handler.ev);
    forall i | 0 <= i < |t.chans|
      ensures ChanInv(t.chans[i])
    {
      assert ChanInv(s.chans[i]);
    }
    forall p ensures SlotInv(t, p) {
      assert SlotInv(s, p);
    }
  }

  lemma SendInv(s: State)
    requires Inv(s) && Enabled(s, Send)
    ensures Inv(Do(s, Send))
  {
    hide Do, ChansInv, AttemptInv, Earned, Grows;
    SendGrows(s);
    SendAttempt(s);
    SendChans(s);
    GrowsEarned(s, Do(s, Send));
    assert forall w :: 0 <= w < |s.waiters| ==> WaiterInv(s, s.waiters[w]);
  }

  lemma RouteInv(s: State, step: Step)
    requires Inv(s) && Enabled(s, step) && (step.Handle? || step.LookUp?)
    ensures Inv(Do(s, step))
  {
    hide ChanInv, Routes, AttemptInv, Earned, FrameInv, GateInv;
    var t := Do(s, step);
    assert t == s.(handler := t.handler);
    forall p ensures SlotInv(t, p) {
      assert SlotInv(s, p);
    }
    SameAttempt(s, t);
    SameFrame(s, t);
    RouteHandler(s, step);
  }

  lemma RouteHandler(s: State, step: Step)
    requires Inv(s) && Enabled(s, step) && (step.Handle? || step.LookUp?)
    ensures HandlerInv(Do(s, step))
  {
    hide Routes, AttemptInv, RecordsInv, WaitersInv, FrameInv, GateInv, ChanInv;
    if step.LookUp? {
      var todo := s.handler.todo;
      assert todo[0] in todo && forall p :: p in todo[1..] ==> p in todo;
      assert SlotInv(s, todo[0]);
    }
  }

  lemma SameFrame(s: State, t: State)
    requires t == s.(handler := t.handler)
    ensures FrameInv(s) == FrameInv(t) && GateInv(s) == GateInv(t)
  {
  }

  lemma StepInv(s: State, step: Step)
    requires Inv(s) && Enabled(s, step)
    ensures Inv(Do(s, step)) && Do(s, step).cfg == s.cfg
  {
    hide Inv, Do, Enabled;
    StepCfg(s, step);
    match step
    case Advance => AdvanceInv(s);
    case Command(ok) => CommandInv(s, ok);
    case Take => TakeInv(s);
    case TimeOut => TimeOutInv(s);
    case Cancel => CancelInv(s);
    case Handle(_) => RouteInv(s, step);
    case LookUp => RouteInv(s, step);
    case Send => SendInv(s);
    case _ => WaiterStep(s, step);
  }

  lemma StepCfg(s: State, step: Step)
    requires Enabled(s, step)
    ensures Do(s, step).cfg == s.cfg
  {
  }

  lemma {:induction false} RunInv(s: State, steps: seq<Step>, t: State)
    requires Inv(s) && Reaches(s, steps, t)
    ensures Inv(t) && t.cfg == s.cfg
    decreases |steps|
  {
    hide Inv, Do, Enabled;
    if steps != [] {
      StepInv(s, steps[0]);
      RunInv(Do(s, steps[0]), steps[1..], t);
    }
  }

  // Results --------------------------------------------------------------------------------------

  // Every session ever installed was earned within one attempt: its commands were issued in order and
  // all but WOPT and ROPT succeeded; its beacon is the earliest strongest one of what came out of that
  // attempt's own scan channel; the first event that entered that attempt's own join channel was
  // EVENT 25; and channel, PAN and addresses of the session are those of the beacon.
  lemma SessionsAreEarned(cfg: Config, steps: seq<Step>, t: State, k: nat)
    requires Reaches(Init(cfg), steps, t) && k < |t.installed|
    ensures var c := t.installed[k];
      && Aimed(c.d, c.ip)
      && c.session == Session(c.ip, c.d.panId, c.d.channel, c.d.addr)
      && |c.attempt.log| == 9
      && (forall i :: 0 <= i < 9 ==>
        c.attempt.log[i].line == Script(cfg, c.d, c.ip)[i] && (c.attempt.log[i].ok || i == 1 || i == 2))
      && (exists i :: IsChoice(c.attempt.heard, i, c.d))
      && c.attempt.scan < |t.chans| && c.attempt.heard <= t.chans[c.attempt.scan].sent
      && c.attempt.join < |t.chans|
      && t.chans[c.attempt.join].sent != [] && IsSuccess(t.chans[c.attempt.join].sent[0])
  {
    hide Reaches, Inv, IsChoice, Choose, Mac.IpOf, Udp.IsIp, Script, IsSuccess;
    InitInv(cfg);
    RunInv(Init(cfg), steps, t);
    RecordAt(t, k);
    var c := t.installed[k];
    ScriptLength(cfg, c.d, c.ip);
    ScanChoice(c.attempt.heard);
    OutcomesOnly(t, c.attempt.join, 0);
  }

  // What the module holds, in terms of its registers, is what was configured and what the beacon said.
  predicate ReadsBack(m: Registers, cfg: Config, s: Session) {
    && m.wopt && m.ropt
    && m.password == Some(cfg.password) && m.rbid == Some(cfg.rbid)
    && m.scan == Some(ScanRequest(cfg.mask, cfg.duration, true))
    && m.s2 == Some(s.channel) && m.s3 == Some(s.panId)
    && m.joined == Some(s.meterIp)
  }

  // Replaying the accepted commands of an attempt on a module gives the configured credentials and scan, the
  // channel in register S2, the PAN in S3 and the address that was joined; hexadecimal reception was
  // asked for before the scan.
  lemma ScriptReadsBack(cfg: Config, d: Descriptor, ip: seq<byte>, log: seq<Issued>)
    requires Udp.IsIp(ip) && Went(log, Script(cfg, d, ip))
    ensures JoinSequence(log) && ReadsBack(Replay(log), cfg, SessionOf(d, ip))
  {
    hide JoinSequence, Replay, ScanLine, Mac.JoinLine, HexUpper, Note;
    ReplayNine(log);
    var m1 := Note(BLANK, log[0]);
    NoteReset(BLANK, log[0]);
    NoteModes(m1, log[1], log[2]);
    var m3 := Note(Note(m1, log[1]), log[2]);
    NoteCredentials(m3, log[3], log[4], cfg.password, cfg.rbid);
    var m5 := Note(Note(m3, log[3]), log[4]);
    ScanText(cfg);
    NoteScan(m5, log[5], cfg.mask, cfg.duration);
    var m6 := Note(m5, log[5]);
    NoteChannel(m6, log[6], d.channel);
    var m7 := Note(m6, log[6]);
    NotePan(m7, log[7], d.panId);
    var m8 := Note(m7, log[7]);
    JoinText(ip);
    NoteJoin(m8, log[8], ip);
    InSequence(log, cfg.password, cfg.rbid, ScanLine(cfg), HexUpper(d.channel, 2), HexUpper(d.panId, 4), Mac.JoinLine(ip));
  }

  lemma InSequence(log: seq<Issued>, password: string, rbid: string, scan: string, s2: string, s3: string, join: string)
    requires |log| == 9 && log[0] == Issued("SKRESET", true) && log[1].line == "WOPT 01" && log[2].line == "ROPT 01"
    requires log[3] == Issued("SKSETPWD C " + password, true) && log[4] == Issued("SKSETRBID " + rbid, true)
    requires log[5] == Issued(scan, true) && "SKSCAN 2 " <= scan
    requires log[6] == Issued("SKSREG S2 " + s2, true) && log[7] == Issued("SKSREG S3 " + s3, true)
    requires log[8] == Issued(join, true) && "SKJOIN " <= join
    ensures JoinSequence(log)
  {
  }

  lemma ScanText(cfg: Config)
    ensures ScanLine(cfg) == "SKSCAN 2 " + HexUpper(cfg.mask, 8) + " " + Decimal(cfg.duration) + " 0"
    ensures "SKSCAN 2 " <= ScanLine(cfg)
  {
    hide HexUpper, Decimal;
  }

  lemma JoinText(ip: seq<byte>)
    requires Udp.IsIp(ip)
    ensures Mac.JoinLine(ip) == "SKJOIN " + Udp.FormatIPv6Upper(ip)
    ensures "SKJOIN " <= Mac.JoinLine(ip)
  {
    hide Udp.FormatIPv6Upper;
  }

  // So it is for every session ever installed.
  lemma SessionsReadBack(cfg: Config, steps: seq<Step>, t: State, k: nat)
    requires Reaches(Init(cfg), steps, t) && k < |t.installed|
    ensures JoinSequence(t.installed[k].attempt.log)
    ensures ReadsBack(Replay(t.installed[k].attempt.log), cfg, t.installed[k].session)
  {
    hide JoinSequence, Reaches, Inv, Chosen, Accepted, Mac.IpOf, Udp.IsIp, Script, Replay, ReadsBack, Went;
    InitInv(cfg);
    RunInv(Init(cfg), steps, t);
    RecordAt(t, k);
    var c := t.installed[k];
    ScriptReadsBack(cfg, c.d, c.ip, c.attempt.log);
  }

  predicate IsSuccess(ev: Event) {
    ev.kind == "EVENT" && |ev.params| >= 1 && ev.params[0] == "25"
  }

  lemma RecordAt(s: State, k: nat)
    requires Inv(s) && k < |s.installed|
    ensures Earned(s.cfg, s.chans, s.installed[k])
  {
    hide Earned;
  }

  lemma ScriptLength(cfg: Config, d: Descriptor, ip: seq<byte>)
    requires Udp.IsIp(ip)
    ensures |Script(cfg, d, ip)| == 9
  {
  }

  // What enters a join channel is an EVENT 24 or 25, so its first parameter is there to be read.
  lemma OutcomesOnly(s: State, ch: nat, i: nat)
    requires Inv(s) && ch < |s.chans| && s.chans[ch].purpose == ForJoin && i < |s.chans[ch].sent|
    ensures var ev := s.chans[ch].sent[i];
      ev.kind == "EVENT" && |ev.params| >= 1 && (ev.params[0] == "24" || ev.params[0] == "25")
    ensures Joined(s.chans[ch].sent[i]) <==> IsSuccess(s.chans[ch].sent[i])
  {
    hide FrameInv, GateInv, AttemptInv, RecordsInv, WaitersInv;
    assert ChanInv(s.chans[ch]);
    JoinRoutes(s.chans[ch].sent[i]);
  }

  lemma JoinRoutes(ev: Event)
    requires ForJoin in Routes(ev)
    ensures ev.kind == "EVENT" && |ev.params| >= 1 && (ev.params[0] == "24" || ev.params[0] == "25")
  {
  }

  // A session is set exactly from its installation to its removal; all that time the state shown is
  // Joining or Connected, and the session is the one installed last.
  lemma SessionState(cfg: Config, steps: seq<Step>, t: State)
    requires Reaches(Init(cfg), steps, t)
    ensures t.session.Some? <==> Stored(t.sup)
    ensures t.session.Some? ==> t.session.value == |t.installed| - 1 && (t.conn == Joining || t.conn == Connected)
  {
    hide Reaches, ChansInv, AttemptInv, RecordsInv, WaitersInv, GateInv;
    InitInv(cfg);
    RunInv(Init(cfg), steps, t);
  }

  // The state that is shown, phase by phase.
  lemma StatesShown(cfg: Config, steps: seq<Step>, s: State)
    requires Reaches(Init(cfg), steps, s)
    ensures s.sup.Setup? || s.sup.ScanMark? ==> s.conn == Initializing
    ensures s.sup.ScanOpen? || ListensForScan(s.sup) || s.sup.Tune? || s.sup.JoinMark? ==> s.conn == Scanning
    ensures s.sup.JoinOpen? || ListensForJoin(s.sup) || s.sup.Storing? || s.sup.Announcing? || s.sup.Marking? ==>
      s.conn == Joining
    ensures s.sup.Arming? || s.sup.Up? || s.sup.Disarming? || s.sup.Dropping? || s.sup.Renewing? || s.sup.Noting? ==>
      s.conn == Connected
    ensures s.sup.Noting? && Enabled(s, Advance) ==> Do(s, Advance).conn == Reconnecting
  {
    hide Reaches, ChansInv, AttemptInv, RecordsInv, WaitersInv, GateInv;
    InitInv(cfg);
    RunInv(Init(cfg), steps, s);
  }

  // The chosen beacon always yields an address, so tuning is always followed by the join.
  lemma TuningLeadsToJoin(cfg: Config, steps: seq<Step>, t: State)
    requires Reaches(Init(cfg), steps, t) && t.sup.Tune? && t.sup.n == 1
    ensures Do(t, Command(true)).sup.JoinMark?
  {
    hide Reaches, FrameInv, GateInv, ChansInv, RecordsInv, WaitersInv, Choose, Mac.IpOf, Went, UpToScan;
    InitInv(cfg);
    RunInv(Init(cfg), steps, t);
    ChosenHasAddress(t.attempt.heard, t.sup.d);
  }

  // Where an attempt fails: a mandatory command, the scan or the join.
  predicate Fails(s: State, step: Step) {
    || (step == Command(false) && ((s.sup.Setup? && s.sup.n != 1 && s.sup.n != 2) || s.sup.Tune?))
    || (step == Advance && s.sup == ScanClose(None))
    || (step == Advance && s.sup.JoinClose? && !s.sup.joined)
  }

  predicate Attempting(conn: Conn) {
    conn == Initializing || conn == Scanning || conn == Joining
  }

  // The back-off is entered only when an attempt fails, with no session and before any announcement. After
  // a disconnect the supervisor starts the next attempt at once.
  lemma BackOffOnlyAfterFailure(cfg: Config, steps: seq<Step>, s: State, step: Step)
    requires Reaches(Init(cfg), steps, s) && Enabled(s, step) && !s.sup.BackingOff?
    ensures Do(s, step).sup.BackingOff? <==> Fails(s, step)
    ensures Do(s, step).sup.BackingOff? ==> s.session.None? && Attempting(s.conn)
    ensures s.sup == Noting(false) && step == Advance ==> Do(s, step).sup == Ready
  {
    hide Reaches, Inv;
    InitInv(cfg);
    RunInv(Init(cfg), steps, s);
    if s.sup.Tune? && s.sup.n == 1 {
      TuningLeadsToJoin(cfg, steps, s);
    }
    FailsWhere(s, step);
  }

  lemma FailsWhere(s: State, step: Step)
    requires Inv(s) && Enabled(s, step) && !s.sup.BackingOff?
    requires s.sup.Tune? && s.sup.n == 1 ==> Do(s, Command(true)).sup.JoinMark?
    ensures Do(s, step).sup.BackingOff? <==> Fails(s, step)
    ensures Do(s, step).sup.BackingOff? ==> s.session.None? && Attempting(s.conn)
    ensures s.sup == Noting(false) && step == Advance ==> Do(s, step).sup == Ready
  {
    hide ChansInv, RecordsInv, WaitersInv, GateInv, Routes, Choose, IsEnd, Joined, Went, Chosen, Accepted, Script, UpToScan;
    hide SetupLines, TuneLines, Mac.IpOf, Udp.IsIp, Offer, LineOf, SessionOf;
    assert FrameInv(s);
  }

  // Waiters --------------------------------------------------------------------------------------

  // No lost wake-up: no connectedCh is ever closed twice; a channel a waiter has captured is closed or
  // still the current one; once a connection is announced, and until its channel is replaced, every
  // blocked waiter can wake; and whoever returns a session returns one that was installed.
  lemma NoLostWakeup(cfg: Config, steps: seq<Step>, t: State, w: nat)
    requires Reaches(Init(cfg), steps, t)
    ensures forall i :: 0 <= i < |t.gates| ==> t.gates[i] <= 1
    ensures t.gates != [] && (t.gates[|t.gates| - 1] == 1 <==> Announced(t.sup))
    ensures w < |t.waiters| && t.waiters[w].Blocked? ==>
      && t.waiters[w].gate < |t.gates|
      && (t.waiters[w].gate == |t.gates| - 1 || t.gates[t.waiters[w].gate] == 1)
      && (Announced(t.sup) ==> Enabled(t, Wake(w)))
    ensures w < |t.waiters| && t.waiters[w].Got? ==> t.waiters[w].k < |t.installed|
  {
    hide Reaches, FrameInv, ChansInv, AttemptInv, RecordsInv;
    InitInv(cfg);
    RunInv(Init(cfg), steps, t);
    assert w < |t.waiters| ==> WaiterInv(t, t.waiters[w]);
  }

  // Steps of its own that a waiter has left while the connection stays.
  function Rank(x: Waiter): nat {
    match x
    case Missed => 3
    case Blocked(_) => 2
    case Reading => 1
    case _ => 0
  }

  predicate OwnStep(step: Step, w: nat) {
    step == Read(w) || step == Capture(w) || step == Wake(w) || step == Quit(w)
  }

  function OwnSteps(steps: seq<Step>, w: nat): nat {
    if steps == [] then 0 else (if OwnStep(steps[0], w) then 1 else 0) + OwnSteps(steps[1..], w)
  }

  // The connection is announced and not yet dropped.
  predicate Serving(s: State) {
    Announced(s.sup) && Stored(s.sup)
  }

  ghost predicate StaysUp(s: State, steps: seq<Step>)
    decreases |steps|
  {
    Serving(s) && (steps != [] ==> Enabled(s, steps[0]) && StaysUp(Do(s, steps[0]), steps[1..]))
  }

  lemma ServingStep(s: State, step: Step, w: nat)
    requires Inv(s) && Serving(s) && Enabled(s, step) && Serving(Do(s, step)) && w < |s.waiters|
    ensures var t := Do(s, step);
      && w < |t.waiters|
      && t.session == s.session && s.session.Some?
      && Rank(t.waiters[w]) + (if OwnStep(step, w) then 1 else 0) <= Rank(s.waiters[w])
      && (t.waiters[w] == s.waiters[w] || (t.waiters[w].Got? ==> t.waiters[w].k == s.session.value))
  {
    hide ChansInv, AttemptInv, RecordsInv, GateInv, WaitersInv, Choose, IsEnd, Routes;
    if IsWaiterStep(step) {
      OnlyWaiters(s, step);
    }
  }

  lemma {:induction false} ServedFrom(s: State, steps: seq<Step>, t: State, w: nat)
    requires Inv(s) && Reaches(s, steps, t) && StaysUp(s, steps) && w < |s.waiters|
    ensures w < |t.waiters| && OwnSteps(steps, w) + Rank(t.waiters[w]) <= Rank(s.waiters[w]) <= 3
    ensures Rank(t.waiters[w]) > 0 ==> exists step :: OwnStep(step, w) && step != Quit(w) && Enabled(t, step)
    ensures t.session == s.session && s.session.Some?
    ensures t.waiters[w] == s.waiters[w] || (t.waiters[w].Got? ==> t.waiters[w].k == s.session.value)
    decreases |steps|
  {
    hide Inv, Do, Enabled, Serving;
    if steps == [] {
      ServingNext(s, w);
    } else {
      var s' := Do(s, steps[0]);
      ServingStep(s, steps[0], w);
      StepInv(s, steps[0]);
      ServedFrom(s', steps[1..], t, w);
    }
  }

  // While a connection stays up, a waiter takes at most three steps of its own, whatever else happens;
  // until it has finished one of them is enabled; and the session it gets is the one installed.
  lemma WaiterServed(cfg: Config, before: seq<Step>, s: State, steps: seq<Step>, t: State, w: nat)
    requires Reaches(Init(cfg), before, s) && w < |s.waiters|
    requires Reaches(s, steps, t) && StaysUp(s, steps)
    ensures w < |t.waiters| && OwnSteps(steps, w) + Rank(t.waiters[w]) <= 3
    ensures Rank(t.waiters[w]) > 0 ==> exists step :: OwnStep(step, w) && step != Quit(w) && Enabled(t, step)
    ensures t.waiters[w] == s.waiters[w] || (t.waiters[w].Got? ==> s.session == Some(t.waiters[w].k))
  {
    hide *;
    InitInv(cfg);
    RunInv(Init(cfg), before, s);
    ServedFrom(s, steps, t, w);
  }

  lemma ServingNext(s: State, w: nat)
    requires Inv(s) && Serving(s) && w < |s.waiters|
    ensures s.session.Some?
    ensures Rank(s.waiters[w]) > 0 ==> exists step :: OwnStep(step, w) && step != Quit(w) && Enabled(s, step)
  {
    hide ChansInv, AttemptInv, RecordsInv;
    assert WaiterInv(s, s.waiters[w]);
    var step := match s.waiters[w]
      case Missed => Capture(w)
      case Blocked(_) => Wake(w)
      case _ => Read(w);
    assert Rank(s.waiters[w]) > 0 ==> OwnStep(step, w) && Enabled(s, step);
  }

  // Forwarding -----------------------------------------------------------------------------------

  predicate ListensFor(sup: Supervising, p: Purpose) {
    match p
    case ForScan => ListensForScan(sup)
    case ForJoin => ListensForJoin(sup)
    case ForLoss => ListensForLoss(sup)
  }

  // An event is forwarded exactly if the supervisor is waiting for that kind of event when its channel
  // is looked up; otherwise it is dropped and nothing else changes. So a disconnect is reported if and
  // only if the supervisor is inside waitForDisconnect.
  lemma ForwardedIff(cfg: Config, steps: seq<Step>, s: State)
    requires Reaches(Init(cfg), steps, s) && Enabled(s, LookUp)
    ensures var t := Do(s, LookUp); var p := s.handler.todo[0];
      && (t.handler.Sending? <==> ListensFor(s.sup, p))
      && t == s.(handler := t.handler)
      && (t.handler.Sending? ==> Enabled(t, Send) && t.chans[t.handler.ch].purpose == p)
  {
    hide Reaches, AttemptInv, RecordsInv, WaitersInv, GateInv, ChanInv, Routes;
    InitInv(cfg);
    RunInv(Init(cfg), steps, s);
    assert SlotInv(s, s.handler.todo[0]);
  }

  predicate IsUp(sup: Supervising) {
    sup.Up?
  }

  // The reason to disconnect has arrived.
  predicate Told(s: State, ch: nat) {
    s.sup.Up? && s.lossCh == Some(ch) && ch < |s.chans| && s.chans[ch].queue != []
  }

  lemma ToldStep(s: State, step: Step, ch: nat)
    requires Told(s, ch) && Enabled(s, step) && IsUp(Do(s, step).sup)
    ensures Told(Do(s, step), ch)
  {
    hide Advanced, Routes, Choose, IsEnd, Joined, LineOf;
  }

  lemma {:induction false} ToldRun(s: State, steps: seq<Step>, t: State, ch: nat)
    requires Told(s, ch) && Reaches(s, steps, t) && Stays(s, steps, IsUp)
    ensures Told(t, ch)
    decreases |steps|
  {
    hide Told, Do, Enabled, IsUp;
    if steps != [] {
      StaysNext(s, steps, IsUp);
      ToldStep(s, steps[0], ch);
      ToldRun(Do(s, steps[0]), steps[1..], t, ch);
    }
  }

  lemma ToldTakes(t: State, ch: nat)
    requires Told(t, ch)
    ensures Enabled(t, Take) && Do(t, Take).sup == Disarming(false)
  {
    hide Advanced, Commanded, Routes;
  }

  // A disconnect that was forwarded is acted on: once it is sent, and as long as the supervisor is still up, it
  // can take it, and that ends the connection.
  lemma LossIsActedOn(cfg: Config, before: seq<Step>, s: State, steps: seq<Step>, t: State)
    requires Reaches(Init(cfg), before, s) && s.sup.Up? && s.handler.Sending? && s.lossCh == Some(s.handler.ch)
    requires Enabled(s, Send) && Reaches(Do(s, Send), steps, t) && Stays(Do(s, Send), steps, IsUp)
    ensures Enabled(t, Take) && Do(t, Take).sup == Disarming(false)
  {
    hide Reaches, Inv, Stays, Do, Told;
    InitInv(cfg);
    RunInv(Init(cfg), before, s);
    SendTells(s);
    ToldRun(Do(s, Send), steps, t, s.handler.ch);
    ToldTakes(t, s.handler.ch);
  }

  lemma SendTells(s: State)
    requires Inv(s) && s.sup.Up? && s.handler.Sending? && s.lossCh == Some(s.handler.ch) && Enabled(s, Send)
    ensures Told(Do(s, Send), s.handler.ch)
  {
    hide ChanInv, HandlerInv, Routes, AttemptInv, RecordsInv, WaitersInv, GateInv, FrameInv, Advanced, Commanded, Taken;
    assert SlotInv(s, ForLoss);
  }

  // Which events reach whom, code by code; everything else reaches nobody.
  lemma RoutesByCode(ev: Event)
    ensures ev.kind == "EPANDESC" ==> Routes(ev) == [ForScan]
    ensures ev.kind == "EVENT" && |ev.params| >= 1 ==>
      && (ForScan in Routes(ev) <==> ev.params[0] == "22")
      && (ForJoin in Routes(ev) <==> ev.params[0] == "24" || ev.params[0] == "25")
      && (ForLoss in Routes(ev) <==>
        ev.params[0] == "24" || ev.params[0] == "27" || ev.params[0] == "28" || ev.params[0] == "29")
    ensures ev.kind != "EPANDESC" && !(ev.kind == "EVENT" && |ev.params| >= 1) && ev.kind != "" ==> Routes(ev) == []
    ensures Routes(GONE) == [ForLoss]
  {
    assert "EPANDESC"[1] != "EVENT"[1];
  }

  predicate IsLoss(ev: Event) {
    && ev.kind == "EVENT" && |ev.params| >= 1
    && (ev.params[0] == "24" || ev.params[0] == "27" || ev.params[0] == "28" || ev.params[0] == "29")
  }

  // EVENT 24, 27, 28 or 29, handled while the supervisor is up, ends the connection: after the dispatcher's
  // steps the supervisor can take it, and stops being up.
  lemma LossEndsConnection(cfg: Config, before: seq<Step>, s: State, ev: Event) returns (steps: seq<Step>, t: State)
    requires Reaches(Init(cfg), before, s) && s.sup.Up? && s.handler == Idle && IsLoss(ev)
    ensures Reaches(s, steps, t)
    ensures forall i :: 0 <= i < |steps| ==> steps[i] == Handle(ev) || steps[i] == LookUp || steps[i] == Send
    ensures Enabled(t, Take) && Do(t, Take).sup == Disarming(false)
  {
    hide Reaches, Inv, Routes, Do, Enabled, Told;
    InitInv(cfg);
    RunInv(Init(cfg), before, s);
    LossRoutes(ev);
    UpChannel(s);
    var ch := s.lossCh.value;
    var s1 := s.(handler := Routing(ev, Routes(ev)));
    var s2 := s.(handler := Routing(ev, [ForLoss]));
    t := LossSent(s2, ev, ch);
    ToldTakes(t, ch);
    HandleLoss(s, ev, s1, s2);
    var tail := [LookUp] + ([Send] + []);
    if Routes(ev) == [ForLoss] {
      steps := [Handle(ev)] + tail;
      Chained(s, Handle(ev), tail, t);
    } else {
      steps := [Handle(ev)] + ([LookUp] + tail);
      Chained(s1, LookUp, tail, t);
      Chained(s, Handle(ev), [LookUp] + tail, t);
    }
  }

  lemma LossRoutes(ev: Event)
    requires IsLoss(ev)
    ensures Routes(ev) == [ForLoss] || Routes(ev) == [ForJoin, ForLoss]
    ensures ev != GONE
  {
    assert "EPANDESC"[1] != "EVENT"[1];
  }

  lemma UpChannel(s: State)
    requires Inv(s) && s.sup.Up?
    ensures s.lossCh.Some? && s.lossCh.value < |s.chans| && s.chans[s.lossCh.value].purpose == ForLoss && s.joinCh.None?
  {
    hide AttemptInv, RecordsInv, WaitersInv, GateInv, ChanInv, HandlerInv;
    assert SlotInv(s, ForLoss);
  }

  lemma HandleLoss(s: State, ev: Event, s1: State, s2: State)
    requires s.handler == Idle && s.joinCh.None?
    requires s1 == s.(handler := Routing(ev, Routes(ev))) && s2 == s.(handler := Routing(ev, [ForLoss]))
    requires Routes(ev) == [ForLoss] || Routes(ev) == [ForJoin, ForLoss]
    ensures Enabled(s, Handle(ev)) && Do(s, Handle(ev)) == s1
    ensures Routes(ev) == [ForJoin, ForLoss] ==> Enabled(s1, LookUp) && Do(s1, LookUp) == s2
  {
    hide Routes, Advanced, Commanded, Taken;
    assert [ForJoin, ForLoss][1..] == [ForLoss];
  }

  lemma LossSent(s: State, ev: Event, ch: nat) returns (t: State)
    requires s.handler == Routing(ev, [ForLoss]) && s.lossCh == Some(ch) && ch < |s.chans| && s.sup.Up?
    requires s.chans[ch].purpose == ForLoss
    ensures Reaches(s, [LookUp] + ([Send] + []), t) && Told(t, ch)
  {
    hide Reaches, Routes, Advanced, Commanded, Taken;
    var s1 := s.(handler := Sending(ev, ch, []));
    assert [ForLoss][1..] == [];
    assert Do(s, LookUp) == s1;
    t := Do(s1, Send);
    Chained(s1, Send, [], t);
    Chained(s, LookUp, [Send] + [], t);
  }

  // One join channel per session -------------------------------------------------------------------

  predicate Using(sup: Supervising) {
    ListensForJoin(sup) || sup.Storing?
  }

  predicate ChannelBefore(s: State, k: nat)
    requires k < |s.installed|
  {
    && s.installed[k].attempt.join < |s.chans|
    && (Using(s.sup) ==> s.installed[k].attempt.join < s.attempt.join)
    && (k > 0 ==> s.installed[k - 1].attempt.join < s.installed[k].attempt.join)
  }

  ghost predicate OwnInv(s: State) {
    && (Using(s.sup) ==> s.attempt.join < |s.chans|)
    && (forall k :: 0 <= k < |s.installed| ==> ChannelBefore(s, k))
  }

  lemma UsingAdvance(s: State)
    requires Enabled(s, Advance)
    ensures var t := Advanced(s);
      && |s.chans| <= |t.chans|
      && (if s.sup.Storing? then
            |t.installed| == |s.installed| + 1 && t.installed[..|s.installed|] == s.installed
            && t.installed[|s.installed|].attempt == s.attempt && !Using(t.sup)
          else t.installed == s.installed)
      && (Using(t.sup) ==> if s.sup.JoinOpen? then t.attempt.join == |s.chans| && |t.chans| == |s.chans| + 1
                           else Using(s.sup) && t.attempt.join == s.attempt.join)
  {
    hide SessionOf;
  }

  lemma UsingOther(s: State, step: Step)
    requires Enabled(s, step) && !step.Advance?
    ensures var t := Do(s, step);
      && |s.chans| <= |t.chans| && t.installed == s.installed
      && (Using(t.sup) ==> Using(s.sup) && t.attempt.join == s.attempt.join)
  {
    hide Advanced, Routes, Choose, IsEnd, Joined, Mac.IpOf, Udp.IsIp, LineOf, Offer;
  }

  lemma OwnStepInv(s: State, step: Step)
    requires OwnInv(s) && Enabled(s, step)
    ensures OwnInv(Do(s, step))
  {
    hide Do, Enabled, Advanced;
    var t := Do(s, step);
    if step.Advance? {
      UsingAdvance(s);
      DoAdvance(s);
    } else {
      UsingOther(s, step);
    }
    forall k | 0 <= k < |t.installed|
      ensures ChannelBefore(t, k)
    {
      assert k < |s.installed| ==> ChannelBefore(s, k) && t.installed[k] == s.installed[k];
      assert k > 0 ==> ChannelBefore(s, k - 1) && t.installed[k - 1] == s.installed[k - 1];
    }
  }

  lemma DoAdvance(s: State)
    requires Enabled(s, Advance)
    ensures Do(s, Advance) == Advanced(s)
  {
    hide Advanced;
  }

  lemma {:induction false} OwnRun(s: State, steps: seq<Step>, t: State)
    requires OwnInv(s) && Reaches(s, steps, t)
    ensures OwnInv(t)
    decreases |steps|
  {
    hide OwnInv, Do, Enabled;
    if steps != [] {
      OwnStepInv(s, steps[0]);
      OwnRun(Do(s, steps[0]), steps[1..], t);
    }
  }

  lemma {:induction false} LaterChannel(s: State, i: nat, j: nat)
    requires OwnInv(s) && i < j < |s.installed|
    ensures s.installed[i].attempt.join < s.installed[j].attempt.join
  {
    assert ChannelBefore(s, j);
    if i < j - 1 {
      LaterChannel(s, i, j - 1);
    }
  }

  // No success is counted twice: different sessions come from different join channels, the later one
  // from the later channel.
  lemma OneJoinPerSession(cfg: Config, steps: seq<Step>, t: State, i: nat, j: nat)
    requires Reaches(Init(cfg), steps, t) && i < j < |t.installed|
    ensures t.installed[i].attempt.join < t.installed[j].attempt.join
  {
    hide Reaches;
    OwnRun(Init(cfg), steps, t);
    LaterChannel(t, i, j);
  }

  // Which event decides a join -----------------------------------------------------------------------

  // The supervisor is somewhere in these phases all along.
  ghost predicate Stays(s: State, steps: seq<Step>, within: Supervising -> bool)
    decreases |steps|
  {
    within(s.sup) && (steps != [] ==> Enabled(s, steps[0]) && Stays(Do(s, steps[0]), steps[1..], within))
  }

  predicate AwaitsOutcome(sup: Supervising) {
    sup.JoinCommand? || sup.JoinWait?
  }

  predicate LooksUp(s: State, step: Step, p: Purpose) {
    step.LookUp? && s.handler.Routing? && s.handler.todo != [] && s.handler.todo[0] == p
  }

  // The event of the first lookup for this purpose in the run.
  ghost function FirstLooked(s: State, steps: seq<Step>, p: Purpose): Option<Event>
    decreases |steps|
  {
    if steps == [] || !Enabled(s, steps[0]) then None
    else if LooksUp(s, steps[0], p) then Some(s.handler.ev)
    else FirstLooked(Do(s, steps[0]), steps[1..], p)
  }

  // The channel of the join holds what entered it; the first event looked up is on its way or came first.
  predicate Traces(s: State, ch: nat, first: Option<Event>, d: Descriptor, ip: seq<byte>) {
    && (s.sup == JoinCommand(d, ip) || s.sup == JoinWait(d, ip))
    && s.joinCh == Some(ch) && s.attempt.join == ch && Fresh(s.chans, ch, ForJoin)
    && (match first
        case None => s.chans[ch].sent == [] && !(s.handler.Sending? && s.handler.ch == ch)
        case Some(ev) =>
          || (s.chans[ch].sent == [] && s.handler.Sending? && s.handler.ch == ch && s.handler.ev == ev)
          || (s.chans[ch].sent != [] && s.chans[ch].sent[0] == ev))
  }

  function Firstly(first: Option<Event>, s: State, step: Step): Option<Event> {
    if first.None? && LooksUp(s, step, ForJoin) then Some(s.handler.ev) else first
  }

  lemma TracesStep(s: State, step: Step, ch: nat, first: Option<Event>, d: Descriptor, ip: seq<byte>)
    requires ChansInv(s) && Traces(s, ch, first, d, ip) && Enabled(s, step) && AwaitsOutcome(Do(s, step).sup)
    ensures Traces(Do(s, step), ch, Firstly(first, s, step), d, ip)
  {
    hide ChanInv, HandlerInv, Routes, Choose, IsEnd, Joined, LineOf, Udp.IsIp, Advanced;
    assert SlotInv(s, ForScan) && SlotInv(s, ForLoss);
  }

  lemma {:induction false} TracesRun(
      s: State, steps: seq<Step>, t: State, ch: nat, first: Option<Event>, d: Descriptor, ip: seq<byte>)
    requires Inv(s) && Reaches(s, steps, t) && Stays(s, steps, AwaitsOutcome) && Traces(s, ch, first, d, ip)
    ensures Traces(t, ch, if first.Some? then first else FirstLooked(s, steps, ForJoin), d, ip)
    decreases |steps|
  {
    hide Inv, Do, Enabled, Traces, AwaitsOutcome, ChansInv;
    if steps != [] {
      StepInv(s, steps[0]);
      ChansOf(s);
      StaysNext(s, steps, AwaitsOutcome);
      TracesStep(s, steps[0], ch, first, d, ip);
      TracesRun(Do(s, steps[0]), steps[1..], t, ch, Firstly(first, s, steps[0]), d, ip);
    }
  }

  lemma ChansOf(s: State)
    requires Inv(s)
    ensures ChansInv(s)
  {
    hide ChansInv;
  }

  lemma StaysNext(s: State, steps: seq<Step>, within: Supervising -> bool)
    requires steps != [] && Stays(s, steps, within) && Enabled(s, steps[0])
    ensures within(Do(s, steps[0]).sup) && Stays(Do(s, steps[0]), steps[1..], within)
  {
    hide Do, Enabled;
  }

  // A join counts an event as its outcome if and only if it is the first one looked up for a join after its
  // channel was opened, whether or not SKJOIN had been sent by then: while the supervisor waits, there is
  // something to take exactly if there was such a lookup whose send is through, and what it takes is that
  // event.
  lemma FirstLookedUpDecides(cfg: Config, before: seq<Step>, s: State, steps: seq<Step>, t: State)
    requires Reaches(Init(cfg), before, s) && s.sup.JoinOpen? && Enabled(s, Advance)
    requires var s1 := Do(s, Advance); Reaches(s1, steps, t) && Stays(s1, steps, AwaitsOutcome)
    requires t.sup.JoinWait?
    ensures match FirstLooked(Do(s, Advance), steps, ForJoin)
      case None => !Enabled(t, Take)
      case Some(ev) =>
        if Enabled(t, Take) then Do(t, Take).sup == JoinClose(s.sup.d, s.sup.ip, Joined(ev))
        else t.handler.Sending? && t.handler.ev == ev && t.joinCh == Some(t.handler.ch)
  {
    hide Reaches, Inv, Stays, FirstLooked, Do, Traces;
    InitInv(cfg);
    RunInv(Init(cfg), before, s);
    StepInv(s, Advance);
    OpensTracing(s);
    TracesRun(Do(s, Advance), steps, t, |s.chans|, None, s.sup.d, s.sup.ip);
    TakesFirst(t, |s.chans|, FirstLooked(Do(s, Advance), steps, ForJoin), s.sup.d, s.sup.ip);
  }

  lemma OpensTracing(s: State)
    requires Inv(s) && s.sup.JoinOpen? && Enabled(s, Advance)
    ensures Traces(Do(s, Advance), |s.chans|, None, s.sup.d, s.sup.ip)
  {
    hide ChanInv, Routes, AttemptInv, RecordsInv, WaitersInv, GateInv, FrameInv, Commanded, Taken;
  }

  lemma TakesFirst(t: State, ch: nat, first: Option<Event>, d: Descriptor, ip: seq<byte>)
    requires Traces(t, ch, first, d, ip) && t.sup.JoinWait?
    ensures match first
      case None => !Enabled(t, Take)
      case Some(ev) =>
        if Enabled(t, Take) then Do(t, Take).sup == JoinClose(d, ip, Joined(ev))
        else t.handler.Sending? && t.handler.ev == ev && t.joinCh == Some(t.handler.ch)
  {
    hide Advanced, Commanded, Joined, Routes, Choose, IsEnd;
  }

  // For example, from every reachable state in which a join is about to begin: an EVENT 25 that is handled
  // before SKJOIN is even issued installs the session.
  lemma EarlySuccessCounts(cfg: Config, before: seq<Step>, s: State) returns (t: State)
    requires Reaches(Init(cfg), before, s) && s.sup.JoinOpen? && s.handler == Idle
    ensures Reaches(s, [Advance, Handle(JOIN_OK), LookUp, Send, Command(true), Take, Advance, Advance], t)
    ensures t.sup == Announcing && |t.installed| == |s.installed| + 1
    ensures t.installed[|s.installed|].session == SessionOf(s.sup.d, s.sup.ip)
  {
    hide Reaches, Inv, Routes, Joined, SessionOf, Udp.IsIp, Do, Enabled;
    InitInv(cfg);
    RunInv(Init(cfg), before, s);
    JoinMayStart(s);
    JoinOkRoutes();
    var s1, s4 := EarlyDelivery(s);
    t := CountsThen(s4, |s.chans|, s.sup.d, s.sup.ip);
    Prefixed(s, s4, t);
  }

  lemma JoinMayStart(s: State)
    requires Inv(s) && s.sup.JoinOpen?
    ensures s.gates != [] && Udp.IsIp(s.sup.ip)
  {
    hide ChansInv, RecordsInv, WaitersInv, FrameInv, Went, Chosen, Mac.IpOf;
  }

  lemma JoinOkRoutes()
    ensures Routes(JOIN_OK) == [ForJoin] && JOIN_OK != GONE && Joined(JOIN_OK)
  {
  }

  lemma EarlyDelivery(s: State) returns (s1: State, s4: State)
    requires s.sup.JoinOpen? && s.handler == Idle && s.gates != []
    requires Routes(JOIN_OK) == [ForJoin] && JOIN_OK != GONE
    ensures s1 == Opened(s, ForJoin).(
      sup := JoinCommand(s.sup.d, s.sup.ip), joinCh := Some(|s.chans|), attempt := s.attempt.(join := |s.chans|))
    ensures s4 == s1.(chans := s.chans + [Chan(ForJoin, [JOIN_OK], [JOIN_OK])])
    ensures Reaches(s, [Advance] + ([Handle(JOIN_OK)] + ([LookUp] + ([Send] + []))), s4)
  {
    hide Routes, Reaches, Commanded, Taken;
    s1 := Do(s, Advance);
    var s2 := s1.(handler := Routing(JOIN_OK, [ForJoin]));
    var s3 := s1.(handler := Sending(JOIN_OK, |s.chans|, []));
    s4 := s1.(chans := s.chans + [Chan(ForJoin, [JOIN_OK], [JOIN_OK])]);
    assert [ForJoin][1..] == [] && [] + [JOIN_OK] == [JOIN_OK];
    assert s1.chans[|s.chans|] == Chan(ForJoin, [], []);
    assert s1.chans[|s.chans| := Chan(ForJoin, [JOIN_OK], [JOIN_OK])] == s4.chans;
    assert Do(s1, Handle(JOIN_OK)) == s2 && Do(s2, LookUp) == s3 && Do(s3, Send) == s4;
    Chained(s3, Send, [], s4);
    Chained(s2, LookUp, [Send] + [], s4);
    Chained(s1, Handle(JOIN_OK), [LookUp] + ([Send] + []), s4);
    Chained(s, Advance, [Handle(JOIN_OK)] + ([LookUp] + ([Send] + [])), s4);
  }

  lemma CountsThen(s: State, ch: nat, d: Descriptor, ip: seq<byte>) returns (t: State)
    requires s.sup == JoinCommand(d, ip) && Udp.IsIp(ip) && s.attempt.join == ch && s.gates != [] && Joined(JOIN_OK)
    requires ch < |s.chans| && s.chans[ch] == Chan(ForJoin, [JOIN_OK], [JOIN_OK])
    ensures Reaches(s, [Command(true)] + ([Take] + ([Advance] + ([Advance] + []))), t)
    ensures t.sup == Announcing && |t.installed| == |s.installed| + 1
    ensures t.installed[|s.installed|].session == SessionOf(d, ip)
  {
    hide Reaches, LineOf, Udp.IsIp, Joined, SessionOf, Routes;
    var s1 := Do(s, Command(true));
    var s2 := Do(s1, Take);
    var s3 := Do(s2, Advance);
    t := Do(s3, Advance);
    Chained(s3, Advance, [], t);
    Chained(s2, Advance, [Advance] + [], t);
    Chained(s1, Take, [Advance] + ([Advance] + []), t);
    Chained(s, Command(true), [Take] + ([Advance] + ([Advance] + [])), t);
  }

  lemma Prefixed(s: State, m: State, t: State)
    requires Reaches(s, [Advance] + ([Handle(JOIN_OK)] + ([LookUp] + ([Send] + []))), m)
    requires Reaches(m, [Command(true)] + ([Take] + ([Advance] + ([Advance] + []))), t)
    ensures Reaches(s, [Advance, Handle(JOIN_OK), LookUp, Send, Command(true), Take, Advance, Advance], t)
  {
    hide Reaches;
    var a := [Advance] + ([Handle(JOIN_OK)] + ([LookUp] + ([Send] + [])));
    var b := [Command(true)] + ([Take] + ([Advance] + ([Advance] + [])));
    ReachesJoin(s, a, m, b, t);
    assert a + b == [Advance, Handle(JOIN_OK), LookUp, Send, Command(true), Take, Advance, Advance];
  }

  lemma {:induction false} ReachesJoin(s: State, a: seq<Step>, m: State, b: seq<Step>, t: State)
    requires Reaches(s, a, m) && Reaches(m, b, t)
    ensures Reaches(s, a + b, t)
    decreases |a|
  {
    hide Do, Enabled;
    if a == [] {
      assert a + b == b;
    } else {
      ReachesJoin(Do(s, a[0]), a[1..], m, b, t);
      assert (a + b)[1..] == a[1..] + b && (a + b)[0] == a[0];
    }
  }

  // A run that connects ----------------------------------------------------------------------------

  lemma {:induction false} ReachesThen(s: State, steps: seq<Step>, t: State, step: Step)
    requires Reaches(s, steps, t) && Enabled(t, step)
    ensures Reaches(s, steps + [step], Do(t, step))
    decreases |steps|
  {
    hide Enabled, Do;
    if steps == [] {
      assert [] + [step] == [step] && [step][1..] == [];
      assert Reaches(Do(s, step), [], Do(t, step));
    } else {
      ReachesThen(Do(s, steps[0]), steps[1..], t, step);
      assert (steps + [step])[1..] == steps[1..] + [step];
    }
  }

  ghost predicate Reachable(cfg: Config, s: State) {
    exists steps :: Reaches(Init(cfg), steps, s)
  }

  lemma Then(cfg: Config, s: State, step: Step) returns (t: State)
    requires Reachable(cfg, s) && Enabled(s, step)
    ensures t == Do(s, step) && Reachable(cfg, t)
  {
    hide Reaches, Do, Enabled;
    var steps :| Reaches(Init(cfg), steps, s);
    ReachesThen(Init(cfg), steps, s, step);
    t := Do(s, step);
  }

  // The dispatcher is idle, and the supervisor waits at channel ch.
  predicate Awaits(s: State, p: Purpose, ch: nat) {
    && s.handler == Idle && s.gates != []
    && SlotOf(s, p) == Some(ch) && Listening(s) == Some(ch) && ch < |s.chans| && s.chans[ch] == Chan(p, [], s.chans[ch].sent)
  }

  lemma SetupSucceeds(cfg: Config) returns (t: State)
    ensures Reachable(cfg, t) && t.sup == ScanMark && t.handler == Idle && t.gates != [] && t.attempt.heard == []
  {
    hide Reaches, LineOf;
    t := Init(cfg);
    assert Reaches(t, [], t) by {
      hide *;
      ReachesNothing(t);
    }
    t := Then(cfg, t, Advance);
    t := Then(cfg, t, Command(true));
    t := Then(cfg, t, Command(true));
    t := Then(cfg, t, Command(true));
    t := Then(cfg, t, Command(true));
    t := Then(cfg, t, Command(true));
  }

  lemma ReachesNothing(s: State)
    ensures Reaches(s, [], s)
  {
  }

  lemma ScanStarts(cfg: Config, s: State) returns (t: State, ch: nat)
    requires Reachable(cfg, s) && s.sup == ScanMark && s.handler == Idle && s.gates != [] && s.attempt.heard == []
    ensures Reachable(cfg, t) && t.sup == Collecting && Awaits(t, ForScan, ch) && t.attempt.heard == []
  {
    hide Reachable, LineOf;
    t := Then(cfg, s, Advance);
    t := Then(cfg, t, Advance);
    t := Then(cfg, t, Command(true));
    ch := t.attempt.scan;
  }

  lemma Delivers(cfg: Config, s: State, ev: Event, p: Purpose, ch: nat) returns (t: State)
    requires Reachable(cfg, s) && Awaits(s, p, ch) && Routes(ev) == [p] && ev != GONE
    requires s.sup.Collecting? || s.sup.JoinWait? || s.sup.Up?
    ensures Reachable(cfg, t) && t == AfterTake(s, ev).(chans := t.chans)
    ensures |t.chans| == |s.chans| && t.chans[ch] == Chan(p, [], t.chans[ch].sent)
  {
    hide Reachable, Routes, AfterTake;
    t := Then(cfg, s, Handle(ev));
    t := Then(cfg, t, LookUp);
    t := Then(cfg, t, Send);
    assert t.chans[ch].queue == [ev] && t == s.(chans := t.chans);
    var u := Then(cfg, t, Take);
    TakeIsAfterTake(s, t, ch, ev);
    t := u;
  }

  lemma TakeIsAfterTake(s: State, t: State, ch: nat, ev: Event)
    requires t == s.(chans := t.chans) && |t.chans| == |s.chans|
    requires Enabled(t, Take) && Listening(t) == Some(ch) && t.chans[ch].queue == [ev]
    requires s.sup.Collecting? || s.sup.JoinWait? || s.sup.Up?
    ensures var u := Do(t, Take); u == AfterTake(s, ev).(chans := u.chans) && |u.chans| == |s.chans|
    ensures Do(t, Take).chans[ch] == Chan(t.chans[ch].purpose, [], t.chans[ch].sent)
  {
    hide IsEnd, Joined, Choose;
    assert [ev][1..] == [];
  }

  lemma JoinStarts(cfg: Config, s: State, d: Descriptor) returns (t: State, ip: seq<byte>, ch: nat)
    requires Reachable(cfg, s) && s.sup == ScanClose(Some(d)) && s.handler == Idle && s.gates != []
    requires Mac.IpOf(d.addr).Some?
    ensures Reachable(cfg, t) && t.sup == JoinWait(d, ip) && Awaits(t, ForJoin, ch) && Mac.IpOf(d.addr) == Some(ip)
  {
    hide Reachable, LineOf, Mac.IpOf, Udp.IsIp;
    ip := Mac.IpOf(d.addr).value;
    t := Then(cfg, s, Advance);
    t := Then(cfg, t, Command(true));
    t := Then(cfg, t, Command(true));
    t := Then(cfg, t, Advance);
    t := Then(cfg, t, Advance);
    t := Then(cfg, t, Command(true));
    ch := t.attempt.join;
  }

  lemma Installs(cfg: Config, s: State, d: Descriptor, ip: seq<byte>) returns (t: State)
    requires Reachable(cfg, s) && s.sup == JoinClose(d, ip, true) && s.gates != []
    ensures Reachable(cfg, t) && t.sup == Marking && t.handler == s.handler && t.gates != []
    ensures t.installed != [] && t.installed[|t.installed| - 1].session == SessionOf(d, ip)
  {
    hide Reachable, SessionOf;
    t := Then(cfg, s, Advance);
    t := Then(cfg, t, Advance);
    t := Then(cfg, t, Advance);
  }

  const SCAN_END := Event("EVENT", ["22"], None, None, "EVENT 22")
  const JOIN_OK := Event("EVENT", ["25"], None, None, "EVENT 25")
  const JOIN_LOST := Event("EVENT", ["29"], None, None, "EVENT 29")

  // For every readable beacon there is a run that ends with the session of that beacon installed.
  lemma CanConnect(cfg: Config, beacon: Event) returns (t: State)
    requires IsBeacon(beacon)
    ensures Reachable(cfg, t) && t.sup == Marking && t.handler == Idle && t.gates != []
    ensures var d := ParseEPANDESC(beacon).value;
      && Mac.IpOf(d.addr).Some? && t.installed != []
      && t.installed[|t.installed| - 1].session == SessionOf(d, Mac.IpOf(d.addr).value)
  {
    hide Reachable, Choose, ParseEPANDESC, Mac.IpOf, Routes, Joined, Better, Awaits, SessionOf;
    var d := ParseEPANDESC(beacon).value;
    var heard := [beacon] + [SCAN_END];
    OneBeacon(beacon);
    ChosenHasAddress(heard, d);
    Kinds(beacon);
    t := SetupSucceeds(cfg);
    var ch: nat;
    t, ch := ScanStarts(cfg, t);
    AwaitsShape(t, ForScan, ch);
    assert [] + [beacon] == [beacon];
    var u := Delivers(cfg, t, beacon, ForScan, ch);
    StillAwaits(t, u, ForScan, ch);
    var v := Delivers(cfg, u, SCAN_END, ForScan, ch);
    var ip: seq<byte>;
    t, ip, ch := JoinStarts(cfg, v, d);
    AwaitsShape(t, ForJoin, ch);
    u := Delivers(cfg, t, JOIN_OK, ForJoin, ch);
    t := Installs(cfg, u, d, ip);
  }

  lemma AwaitsShape(s: State, p: Purpose, ch: nat)
    requires Awaits(s, p, ch)
    ensures s.handler == Idle && s.gates != []
  {
  }

  lemma StillAwaits(s: State, t: State, p: Purpose, ch: nat)
    requires Awaits(s, p, ch) && t == s.(chans := t.chans, attempt := t.attempt) && t.attempt.scan == s.attempt.scan
    requires t.attempt.join == s.attempt.join
    requires |t.chans| == |s.chans| && t.chans[ch] == Chan(p, [], t.chans[ch].sent)
    ensures Awaits(t, p, ch)
  {
  }

  lemma Kinds(beacon: Event)
    requires IsBeacon(beacon)
    ensures beacon.kind == "EPANDESC" && !IsEnd(beacon) && beacon != GONE
    ensures Routes(beacon) == [ForScan] && Routes(SCAN_END) == [ForScan] && IsEnd(SCAN_END)
    ensures Routes(JOIN_OK) == [ForJoin] && Joined(JOIN_OK)
  {
    hide ParseEPANDESC;
    assert "EPANDESC"[1] != "EVENT"[1];
  }

  lemma OneBeacon(beacon: Event)
    requires IsBeacon(beacon)
    ensures Choose(None, [beacon] + [SCAN_END]) == Found(ParseEPANDESC(beacon).value)
  {
    hide ParseEPANDESC, Routes;
    Kinds(beacon);
    var evs := [beacon] + [SCAN_END];
    assert evs[1..] == [SCAN_END];
  }

  // A disconnect that arrives while the new connection is being noted is lost: in such a run the
  // supervisor ends up waiting for a disconnect that has already been handled.
  lemma DisconnectCanBeLost(cfg: Config, beacon: Event) returns (s: State, t: State)
    requires IsBeacon(beacon)
    ensures Reachable(cfg, s) && s.session.Some? && Enabled(s, Handle(JOIN_LOST))
    ensures Reaches(s, [Handle(JOIN_LOST), LookUp, Advance, Advance], t)
    ensures t.sup == Up && t.handler == Idle && !Enabled(t, Take)
  {
    hide *;
    s := CanConnect(cfg, beacon);
    ReachableFrame(cfg, s);
    LossRoute();
    LookedUp(s);
    var s2 := s.(handler := Idle);
    var s3 := s2.(sup := Arming, conn := Connected);
    t := Opened(s3, ForLoss).(sup := Up, lossCh := Some(|s3.chans|));
    Armed(s2, s3, t);
    Chained(s3, Advance, [], t);
    Chained(s2, Advance, [Advance] + [], t);
    Chained(s.(handler := Routing(JOIN_LOST, [ForLoss])), LookUp, [Advance] + ([Advance] + []), t);
    Chained(s, Handle(JOIN_LOST), [LookUp] + ([Advance] + ([Advance] + [])), t);
    assert [Handle(JOIN_LOST)] + ([LookUp] + ([Advance] + ([Advance] + [])))
      == [Handle(JOIN_LOST), LookUp, Advance, Advance];
  }

  lemma LookedUp(s: State)
    requires s.handler == Idle && s.lossCh.None? && Routes(JOIN_LOST) == [ForLoss] && JOIN_LOST != GONE
    ensures Enabled(s, Handle(JOIN_LOST))
    ensures var s1 := s.(handler := Routing(JOIN_LOST, [ForLoss]));
      Do(s, Handle(JOIN_LOST)) == s1 && Enabled(s1, LookUp) && Do(s1, LookUp) == s.(handler := Idle)
  {
    hide Routes, Advanced, Commanded, Taken;
    assert [ForLoss][1..] == [];
  }

  lemma Armed(s2: State, s3: State, t: State)
    requires s2.sup == Marking && s2.gates != [] && s3 == s2.(sup := Arming, conn := Connected)
    requires t == Opened(s3, ForLoss).(sup := Up, lossCh := Some(|s3.chans|))
    ensures Enabled(s2, Advance) && Do(s2, Advance) == s3
    ensures Enabled(s3, Advance) && Do(s3, Advance) == t
    ensures t.sup == Up && !Enabled(t, Take) && t.handler == s2.handler
  {
    hide Commanded, Taken;
  }

  lemma Chained(s: State, step: Step, more: seq<Step>, t: State)
    requires Enabled(s, step) && (if more == [] then t == Do(s, step) else Reaches(Do(s, step), more, t))
    ensures Reaches(s, [step] + more, t)
  {
    assert ([step] + more)[1..] == more;
  }

  lemma LossRoute()
    ensures Routes(JOIN_LOST) == [ForLoss] && JOIN_LOST != GONE
  {
  }

  lemma ReachableFrame(cfg: Config, s: State)
    requires Reachable(cfg, s) && s.sup == Marking
    ensures s.session.Some? && s.lossCh.None?
  {
    hide Reaches, ChansInv, AttemptInv, RecordsInv, WaitersInv, GateInv;
    var steps :| Reaches(Init(cfg), steps, s);
    InitInv(cfg);
    RunInv(Init(cfg), steps, s);
  }
}
