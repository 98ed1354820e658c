/** The event-driven sampling server and its clients as one transition system.  Whole records
    travel on each connection (module Framing says when bytes behave that way).  Fields marked
    "history" are never read by a branch: they record what happened so that properties of a
    whole run can be stated. */
module AdcNetwork {
  import opened Wrappers
  import opened DataGrams

  type Fd = nat
  type ConnId = nat

  const MAX_EPOLL_EVENTS := 10
  const ADC_READ_SIZE := 4

  datatype Flags = Flags(err: bool, hup: bool, readable: bool) {
    predicate Broken() { err || hup || !readable }
  }

  /** One entry of the array epoll_wait fills.  raisedFor is history: the connection the
      descriptor denoted when the event was raised. */
  datatype Event = Event(fd: Fd, flags: Flags, raisedFor: ConnId)

  datatype ServerEnd = Queued | Open(fd: Fd) | Closed

  /** What the kernel of a client that has gone does about the connection: a reply to it provokes
      a reset, which takes its time to arrive. */
  datatype PeerReset = NoReset | ResetDue | ResetArrived

  datatype Fate = Replied(reply: DataGram) | WriteFailed(reply: DataGram) | Refused

  /** History of one request the server has read: the clock reading it used, the index of the
      device read made for it, and what became of the reply. */
  datatype Entry = Entry(request: DataGram, clock: Option<TimeT>, adc: Option<nat>, fate: Fate)

  /** History of one device read: s3cadc_get_adc on this channel returned ret and stored value,
      while the server handled the given request of the given connection. */
  datatype AdcRead = AdcRead(channel: U8, ret: int, value: U32, conn: ConnId, request: nat)

  datatype Conn = Conn(
    client: nat,
    clientOpen: bool,
    server: ServerEnd,
    peer: PeerReset,
    inbox: seq<DataGram>,       // delivered to the server, unread
    outbox: seq<DataGram>,      // delivered to the client, unread
    sent: seq<DataGram>,        // history: requests, in the order written
    ledger: seq<Entry>,         // history: requests the server has read
    processed: seq<DataGram>)   // history: replies the client has read

  datatype Client = Client(conn: Option<ConnId>, channel: U8)

  datatype World = World(
    listenFd: Fd,
    listenOpen: bool,
    reserved: set<Fd>,          // descriptors the process holds for itself, listenFd among them
    devices: set<U8>,           // channels below nadcs that have a device
    fdOf: map<Fd, ConnId>,      // accepted descriptors still open
    interest: set<Fd>,          // accepted descriptors in the epoll set
    ready: set<Fd>,             // edges not yet returned by epoll_wait
    batch: seq<Event>,          // events returned and not yet handled
    draining: bool,             // inside the accept loop
    backlog: seq<ConnId>,
    conns: seq<Conn>,
    clients: seq<Client>,
    adcLog: seq<AdcRead>)       // history

  /** The system before any client connects: clients 0, 1, ... with their initial channels. */
  function Start(listenFd: Fd, others: set<Fd>, devices: set<U8>, channels: seq<U8>): World {
    World(listenFd, true, others + {listenFd}, devices, map[], {}, {}, [], false, [], [],
          seq(|channels|, i requires 0 <= i < |channels| => Client(None, channels[i])), [])
  }

  // ---------------------------------------------------------------- replies

  /** get_time (adcnetwork.c, 282-299). */
  function GetTime(g: DataGram, clock: Option<TimeT>): DataGram {
    match clock
    case None => g.(valid := 0)
    case Some(t) => g.(valid := 1, sampleTime := t)
  }

  datatype AdcResult = AdcResult(ret: int, value: U32)

  /** The record written back for a request that is not refused. */
  function Answer(request: DataGram, adc: AdcResult, clock: Option<TimeT>): DataGram {
    if request.kind == TYPE_GETTIME then GetTime(request, clock)
    else if request.kind != TYPE_GETDATA || adc.ret != ADC_READ_SIZE then request.(valid := 0)
    else GetTime(request, clock).(data := adc.value)
  }

  // ------------------------------------------------------- environment steps

  datatype EnvStep =
    | Connect(client: nat)
    | Drop(client: nat, abortive: bool)        // abort or close by the client; an abortive one resets
    | Send(client: nat, request: DataGram)
    | ClientRead(client: nat)
    | Reset(conn: ConnId)                      // the reset a reply has provoked arrives
    | SetChannel(client: nat, channel: U8)

  /** A change on a connection the server has registered raises an edge for its descriptor. */
  function Edge(w: World, conn: Conn): set<Fd> {
    if conn.server.Open? && conn.server.fd in w.interest then w.ready + {conn.server.fd} else w.ready
  }

  predicate Attached(w: World, c: nat) {
    c < |w.clients| && w.clients[c].conn.Some? && w.clients[c].conn.value < |w.conns|
  }

  function ApplyEnv(w: World, e: EnvStep): World {
    match e
    case Connect(c) =>
      if c < |w.clients| && w.clients[c].conn.None? && w.listenOpen then
        w.(conns := w.conns + [Conn(c, true, Queued, NoReset, [], [], [], [], [])],
           clients := w.clients[c := w.clients[c].(conn := Some(|w.conns|))],
           backlog := w.backlog + [|w.conns|],
           ready := w.ready + {w.listenFd})
      else w
    case Drop(c, abortive) =>
      if Attached(w, c) then
        var id := w.clients[c].conn.value;
        w.(conns := w.conns[id := w.conns[id].(clientOpen := false, peer := if abortive then ResetArrived else w.conns[id].peer)],
           clients := w.clients[c := w.clients[c].(conn := None)],
           ready := Edge(w, w.conns[id]))
      else w
    case Send(c, request) =>
      // a write to a connection the server has closed is reset by the kernel
      if Attached(w, c) && !w.conns[w.clients[c].conn.value].server.Closed? then
        var id := w.clients[c].conn.value;
        var conn := w.conns[id];
        w.(conns := w.conns[id := conn.(inbox := conn.inbox + [request], sent := conn.sent + [request])],
           ready := Edge(w, conn))
      else w
    case ClientRead(c) =>
      if Attached(w, c) && w.conns[w.clients[c].conn.value].outbox != [] then
        var id := w.clients[c].conn.value;
        var conn := w.conns[id];
        w.(conns := w.conns[id := conn.(outbox := conn.outbox[1..], processed := conn.processed + [conn.outbox[0]])])
      else w
    case Reset(id) =>
      if id < |w.conns| && w.conns[id].peer.ResetDue?
      then w.(conns := w.conns[id := w.conns[id].(peer := ResetArrived)], ready := Edge(w, w.conns[id]))
      else w
    case SetChannel(c, channel) =>
      if c < |w.clients| then w.(clients := w.clients[c := w.clients[c].(channel := channel)]) else w
  }

  // ------------------------------------------------------------ server steps

  datatype AcceptOutcome =
    | Accepted(fd: Fd)
    | NonblockFailed(fd: Fd)
    | CtlFailed(fd: Fd)
    | AcceptFailed

  /** What the kernel gives one handler: the device read, the clock, whether write works, and
      whether read fails where it can. */
  datatype Oracle = Oracle(adc: AdcResult, clock: Option<TimeT>, writeWorks: bool, readFails: bool)

  datatype ServerStep =
    | Wait(events: seq<Event>)      // epoll_wait returns
    | ServeConn(oracle: Oracle)     // one event of an accepted descriptor, start to finish
    | BeginDrain                    // an event of the listening descriptor
    | Accept(outcome: AcceptOutcome)
    | ListenBroken                  // an error event of the listening descriptor

  predicate Distinct(events: seq<Event>) {
    forall i, j :: 0 <= i < j < |events| ==> events[i].fd != events[j].fd
  }

  predicate WasReset(w: World, fd: Fd) {
    fd in w.fdOf && w.fdOf[fd] < |w.conns| && w.conns[w.fdOf[fd]].peer.ResetArrived?
  }

  /** The kernel reports each descriptor at most once per wait, and only those with an edge; a
      connection that was reset is reported as broken. */
  predicate CanWait(w: World, events: seq<Event>) {
    && w.batch == [] && !w.draining
    && 1 <= |events| <= MAX_EPOLL_EVENTS
    && Distinct(events)
    && forall i :: 0 <= i < |events| ==>
         && events[i].fd in w.ready
         && (events[i].fd != w.listenFd ==> events[i].fd in w.fdOf && events[i].raisedFor == w.fdOf[events[i].fd])
         && (WasReset(w, events[i].fd) ==> events[i].flags.Broken())
  }

  function Fds(events: seq<Event>): set<Fd> {
    set e | e in events :: e.fd
  }

  /** The head of the batch denotes an accepted descriptor that is open. */
  predicate HeadIsConn(w: World) {
    && !w.draining && w.batch != [] && w.batch[0].fd != w.listenFd
    && w.batch[0].fd in w.fdOf && w.fdOf[w.batch[0].fd] < |w.conns|
  }

  predicate HeadIsListen(w: World) {
    !w.draining && w.batch != [] && w.batch[0].fd == w.listenFd
  }

  /** Closing a descriptor takes it out of the fd table and out of the epoll set. */
  function CloseFd(w: World, fd: Fd): World
    requires fd in w.fdOf && w.fdOf[fd] < |w.conns|
  {
    var id := w.fdOf[fd];
    w.(fdOf := w.fdOf - {fd}, interest := w.interest - {fd}, ready := w.ready - {fd},
       conns := w.conns[id := w.conns[id].(server := Closed)])
  }

  predicate Refuses(w: World, request: DataGram) {
    request.kind == TYPE_GETDATA && request.channel !in w.devices
  }

  /** The oldest request is read and refused: no reply. */
  function RefuseRequest(w: World, id: ConnId): World
    requires id < |w.conns| && w.conns[id].inbox != []
  {
    var conn := w.conns[id];
    w.(conns := w.conns[id := conn.(
         inbox := conn.inbox[1..],
         ledger := conn.ledger + [Entry(conn.inbox[0], None, None, Refused)])])
  }

  /** A write that works, to a client that has gone, makes a reset due. */
  function AfterWrite(conn: Conn, works: bool): PeerReset {
    if works && !conn.clientOpen && conn.peer.NoReset? then ResetDue else conn.peer
  }

  /** The oldest request is read and answered, after a device read if it asks for data. */
  function AnswerRequest(w: World, id: ConnId, o: Oracle): World
    requires id < |w.conns| && w.conns[id].inbox != []
  {
    var conn := w.conns[id];
    var request := conn.inbox[0];
    var samples := request.kind == TYPE_GETDATA;
    var reply := Answer(request, o.adc, o.clock);
    var delivered := o.writeWorks && conn.clientOpen;
    var entry := Entry(request, o.clock, if samples then Some(|w.adcLog|) else None,
                       if delivered then Replied(reply) else WriteFailed(reply));
    w.(adcLog := w.adcLog + if samples then [AdcRead(request.channel, o.adc.ret, o.adc.value, id, |conn.ledger|)] else [],
       conns := w.conns[id := conn.(
         inbox := conn.inbox[1..],
         ledger := conn.ledger + [entry],
         peer := AfterWrite(conn, o.writeWorks),
         outbox := conn.outbox + if delivered then [reply] else [])])
  }

  function TakeRequest(w: World, fd: Fd, o: Oracle): World
    requires fd in w.fdOf && w.fdOf[fd] < |w.conns| && w.conns[w.fdOf[fd]].inbox != []
  {
    if Refuses(w, w.conns[w.fdOf[fd]].inbox[0]) then RefuseRequest(CloseFd(w, fd), w.fdOf[fd])
    else AnswerRequest(w, w.fdOf[fd], o)
  }

  /** read returns -1; the zeroed record is then handled as a request of unknown type. */
  function AnswerBlank(w: World, fd: Fd, o: Oracle): World
    requires fd in w.fdOf && w.fdOf[fd] < |w.conns|
  {
    var conn := w.conns[w.fdOf[fd]];
    w.(conns := w.conns[w.fdOf[fd] := conn.(
         peer := AfterWrite(conn, o.writeWorks),
         outbox := conn.outbox + if o.writeWorks && conn.clientOpen then [BLANK] else [])])
  }

  /** The connection was reset after epoll_wait returned, so that the edge of that is still
      pending and the flags of the event at hand do not show it. */
  predicate ResetSince(w: World, fd: Fd, o: Oracle)
    requires fd in w.fdOf && w.fdOf[fd] < |w.conns|
  {
    o.readFails && WasReset(w, fd) && fd in w.ready
  }

  function Serve(w: World, o: Oracle): World
    requires HeadIsConn(w)
  {
    var ev := w.batch[0];
    var conn := w.conns[w.fdOf[ev.fd]];
    var v := w.(batch := w.batch[1..]);
    if ev.flags.Broken() then CloseFd(v, ev.fd)
    else if ResetSince(v, ev.fd, o) then AnswerBlank(v, ev.fd, o)
    else if conn.inbox != [] then TakeRequest(v, ev.fd, o)
    else if !conn.clientOpen then CloseFd(v, ev.fd)
    else AnswerBlank(v, ev.fd, o)
  }

  predicate FreeFd(w: World, fd: Fd) {
    fd !in w.reserved && fd !in w.fdOf
  }

  /** accept fails on an empty backlog and never returns a descriptor in use. */
  function Resolve(w: World, outcome: AcceptOutcome): AcceptOutcome {
    if outcome.AcceptFailed? || w.backlog == [] || w.backlog[0] >= |w.conns| || !FreeFd(w, outcome.fd)
    then AcceptFailed else outcome
  }

  function AcceptOne(w: World, outcome: AcceptOutcome): World {
    match Resolve(w, outcome)
    case AcceptFailed => w.(draining := false)
    case Accepted(fd) =>
      var id := w.backlog[0];
      var conn := w.conns[id];
      w.(backlog := w.backlog[1..],
         fdOf := w.fdOf[fd := id],
         interest := w.interest + {fd},
         // registering a descriptor that is already readable raises an edge at once
         ready := if conn.inbox != [] || !conn.clientOpen then w.ready + {fd} else w.ready,
         conns := w.conns[id := conn.(server := Open(fd))])
    case _ =>
      var id := w.backlog[0];
      w.(backlog := w.backlog[1..], draining := false, conns := w.conns[id := w.conns[id].(server := Closed)])
  }

  function ApplyServer(w: World, s: ServerStep): World {
    match s
    case Wait(events) => if CanWait(w, events) then w.(batch := events, ready := w.ready - Fds(events)) else w
    case ServeConn(o) => if HeadIsConn(w) then Serve(w, o) else w
    case BeginDrain =>
      if HeadIsListen(w) && !w.batch[0].flags.Broken() then w.(batch := w.batch[1..], draining := true) else w
    case Accept(outcome) => if w.draining then AcceptOne(w, outcome) else w
    case ListenBroken =>
      // close(listen_fd) and break out of the event loop: the rest of the batch is forgotten,
      // and connections still in the backlog are reset
      if HeadIsListen(w) && w.batch[0].flags.Broken() then
        w.(batch := [], listenOpen := false, ready := w.ready - {w.listenFd}, backlog := [],
           conns := seq(|w.conns|, i requires 0 <= i < |w.conns| =>
                      if w.conns[i].server.Queued? then w.conns[i].(server := Closed) else w.conns[i]))
      else w
  }

  // -------------------------------------------------------------------- runs

  datatype Step = Env(env: EnvStep) | Server(server: ServerStep)

  function Next(w: World, step: Step): World {
    match step
    case Env(e) => ApplyEnv(w, e)
    case Server(s) => ApplyServer(w, s)
  }

  function Exec(w: World, steps: seq<Step>): World
    decreases |steps|
  {
    if steps == [] then w else Next(Exec(w, steps[..|steps| - 1]), steps[|steps| - 1])
  }

  /** fd has an event in the batch still to be handled. */
  predicate Batched(batch: seq<Event>, fd: Fd) {
    exists j :: 0 <= j < |batch| && batch[j].fd == fd
  }

  // ------------------------------------------------------------ client side

  /** The signal the next readData of client c emits, if a reply is there to read. */
  function NextEmission(w: World, c: nat): Option<Emission> {
    if Attached(w, c) && w.conns[w.clients[c].conn.value].outbox != [] then
      Some(ProcessData(w.conns[w.clients[c].conn.value].outbox[0], w.clients[c].channel))
    else None
  }
}
