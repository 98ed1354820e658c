/** What every step of the protocol keeps. */
module AdcInvariants {
  import opened Wrappers
  import opened DataGrams
  import opened AdcNetwork

  // ------------------------------------------------- descriptors and batches

  /** Connections and descriptors name each other, and the epoll set holds exactly the accepted
      descriptors that are open. */
  ghost predicate FdInv(w: World) {
    && w.listenFd in w.reserved
    && (forall fd :: fd in w.fdOf ==> fd !in w.reserved && w.fdOf[fd] < |w.conns| && w.conns[w.fdOf[fd]].server == Open(fd))
    && (forall id :: 0 <= id < |w.conns| && w.conns[id].server.Open? ==>
          w.conns[id].server.fd in w.fdOf && w.fdOf[w.conns[id].server.fd] == id)
    && w.interest == w.fdOf.Keys
    && w.ready <= w.interest + {w.listenFd}
  }

  ghost predicate BacklogInv(w: World) {
    && (forall i :: 0 <= i < |w.backlog| ==> w.backlog[i] < |w.conns| && w.conns[w.backlog[i]].server == Queued)
    && (forall i, j :: 0 <= i < j < |w.backlog| ==> w.backlog[i] != w.backlog[j])
    && (forall id :: 0 <= id < |w.conns| && w.conns[id].server == Queued ==> id in w.backlog)
  }

  ghost predicate ClientInv(w: World) {
    && (forall c :: 0 <= c < |w.clients| && w.clients[c].conn.Some? ==>
          && w.clients[c].conn.value < |w.conns|
          && w.conns[w.clients[c].conn.value].client == c
          && w.conns[w.clients[c].conn.value].clientOpen)
    && (forall id :: 0 <= id < |w.conns| && w.conns[id].clientOpen ==>
          && w.conns[id].client < |w.clients| && w.clients[w.conns[id].client].conn == Some(id)
          && w.conns[id].peer.NoReset?)
  }

  /** Every event still to be handled denotes the connection it was raised for. */
  ghost predicate BatchInv(w: World) {
    && Distinct(w.batch)
    && forall j :: 0 <= j < |w.batch| && w.batch[j].fd != w.listenFd ==>
         w.batch[j].fd in w.fdOf && w.fdOf[w.batch[j].fd] == w.batch[j].raisedFor
  }

  // ---------------------------------------------------- requests and replies

  /** The replies delivered so far, in the order they were written. */
  function Replies(ledger: seq<Entry>): seq<DataGram>
    decreases |ledger|
  {
    if ledger == [] then [] else
      var last := ledger[|ledger| - 1];
      Replies(ledger[..|ledger| - 1]) + if last.fate.Replied? then [last.fate.reply] else []
  }

  /** How many replies a failed write lost. */
  function Lost(ledger: seq<Entry>): nat
    decreases |ledger|
  {
    if ledger == [] then 0 else
      Lost(ledger[..|ledger| - 1]) + if ledger[|ledger| - 1].fate.WriteFailed? then 1 else 0
  }

  /** The server reads requests in the order sent, the client reads replies in the order
      written, and only a connection the server has closed ends in a refusal. */
  ghost predicate QueueInv(conn: Conn) {
    && |conn.ledger| <= |conn.sent|
    && conn.inbox == conn.sent[|conn.ledger|..]
    && (forall k :: 0 <= k < |conn.ledger| ==> conn.ledger[k].request == conn.sent[k])
    && conn.processed + conn.outbox == Replies(conn.ledger)
    && (forall k :: 0 <= k < |conn.ledger| && conn.ledger[k].fate.Refused? ==> conn.server == Closed && k == |conn.ledger| - 1)
    && (conn.server == Queued ==> conn.ledger == [])
  }

  /** The k-th entry of connection id is backed by the device log. */
  ghost predicate EntryOk(devices: set<U8>, log: seq<AdcRead>, id: ConnId, k: nat, e: Entry) {
    if e.fate.Refused? then e.request.kind == TYPE_GETDATA && e.request.channel !in devices
    else if e.request.kind == TYPE_GETDATA then
      && e.request.channel in devices
      && e.adc.Some? && e.adc.value < |log|
      && log[e.adc.value].channel == e.request.channel
      && log[e.adc.value].conn == id && log[e.adc.value].request == k
      && e.fate.reply == Answer(e.request, AdcResult(log[e.adc.value].ret, log[e.adc.value].value), e.clock)
    else e.fate.reply == Answer(e.request, AdcResult(0, 0), e.clock)
  }

  ghost predicate ConnInv(devices: set<U8>, log: seq<AdcRead>, id: ConnId, conn: Conn) {
    && QueueInv(conn)
    && forall k :: 0 <= k < |conn.ledger| ==> EntryOk(devices, log, id, k, conn.ledger[k])
  }

  ghost predicate LedgerInv(w: World) {
    forall id :: 0 <= id < |w.conns| ==> ConnInv(w.devices, w.adcLog, id, w.conns[id])
  }

  // ----------------------------------------------------------------- wakeups

  /** Edges of fd not yet handled: one waiting for epoll_wait, one in the batch. */
  function Edges(ready: set<Fd>, batch: seq<Event>, fd: Fd): nat {
    (if fd in ready then 1 else 0) + if Batched(batch, fd) then 1 else 0
  }

  /** While the client end is open, each edge of a connection stands for an unread request. */
  ghost predicate EdgeInv(w: World) {
    forall id :: 0 <= id < |w.conns| && w.conns[id].server.Open? && w.conns[id].clientOpen ==>
      Edges(w.ready, w.batch, w.conns[id].server.fd) <= |w.conns[id].inbox|
  }

  ghost predicate Inv(w: World) {
    FdInv(w) && BacklogInv(w) && ClientInv(w) && BatchInv(w) && LedgerInv(w) && EdgeInv(w)
  }

  lemma StartInv(listenFd: Fd, others: set<Fd>, devices: set<U8>, channels: seq<U8>)
    ensures Inv(Start(listenFd, others, devices, channels))
  {
  }

  // ---------------------------------------------------------- environment steps

  lemma ConnectKeepsFds(w: World, c: nat)
    requires FdInv(w)
    ensures FdInv(ApplyEnv(w, Connect(c)))
  {
  }

  /** The server's descriptors and its ends of the connections are the same. */
  ghost predicate SameEnds(w: World, v: World) {
    && |v.conns| == |w.conns| && (forall id :: 0 <= id < |w.conns| ==> v.conns[id].server == w.conns[id].server)
    && v.listenFd == w.listenFd && v.reserved == w.reserved && v.fdOf == w.fdOf && v.interest == w.interest
    && v.ready <= w.ready + w.interest && v.backlog == w.backlog
  }

  lemma SameEndsKeepFds(w: World, v: World)
    requires FdInv(w) && SameEnds(w, v)
    ensures FdInv(v)
  {
  }

  /** Only connecting touches the server ends of connections. */
  lemma EnvKeepsServerEnds(w: World, e: EnvStep)
    requires !e.Connect?
    ensures SameEnds(w, ApplyEnv(w, e))
  {
  }

  lemma EnvKeepsFds(w: World, e: EnvStep)
    requires FdInv(w)
    ensures FdInv(ApplyEnv(w, e))
  {
    if e.Connect? {
      ConnectKeepsFds(w, e.client);
    } else {
      EnvKeepsServerEnds(w, e);
      SameEndsKeepFds(w, ApplyEnv(w, e));
    }
  }

  lemma ConnectKeepsBacklog(w: World, c: nat)
    requires BacklogInv(w)
    ensures BacklogInv(ApplyEnv(w, Connect(c)))
  {
  }

  lemma EnvKeepsBacklog(w: World, e: EnvStep)
    requires BacklogInv(w)
    ensures BacklogInv(ApplyEnv(w, e))
  {
    if e.Connect? {
      ConnectKeepsBacklog(w, e.client);
    } else {
      EnvKeepsServerEnds(w, e);
    }
  }

  lemma EnvKeepsBatch(w: World, e: EnvStep)
    requires BatchInv(w)
    ensures BatchInv(ApplyEnv(w, e))
  {
  }

  lemma ConnectKeepsClients(w: World, c: nat)
    requires ClientInv(w)
    ensures ClientInv(ApplyEnv(w, Connect(c)))
  {
  }

  lemma DropKeepsClients(w: World, c: nat, abortive: bool)
    requires ClientInv(w)
    ensures ClientInv(ApplyEnv(w, Drop(c, abortive)))
  {
  }

  lemma SameClientsKeep(w: World, v: World)
    requires ClientInv(w) && v.clients == w.clients && |v.conns| == |w.conns|
    requires forall id :: 0 <= id < |w.conns| ==>
      && v.conns[id].client == w.conns[id].client && v.conns[id].clientOpen == w.conns[id].clientOpen
      && (w.conns[id].peer.NoReset? ==> v.conns[id].peer.NoReset?)
    ensures ClientInv(v)
  {
  }

  lemma SendKeepsClients(w: World, c: nat, request: DataGram)
    requires ClientInv(w)
    ensures ClientInv(ApplyEnv(w, Send(c, request)))
  {
    SameClientsKeep(w, ApplyEnv(w, Send(c, request)));
  }

  lemma ReadKeepsClients(w: World, c: nat)
    requires ClientInv(w)
    ensures ClientInv(ApplyEnv(w, ClientRead(c)))
  {
    SameClientsKeep(w, ApplyEnv(w, ClientRead(c)));
  }

  lemma ResetKeepsClients(w: World, id: ConnId)
    requires ClientInv(w)
    ensures ClientInv(ApplyEnv(w, Reset(id)))
  {
    SameClientsKeep(w, ApplyEnv(w, Reset(id)));
  }

  lemma EnvKeepsClients(w: World, e: EnvStep)
    requires ClientInv(w)
    ensures ClientInv(ApplyEnv(w, e))
  {
    match e
    case Connect(c) => ConnectKeepsClients(w, c);
    case Drop(c, abortive) => DropKeepsClients(w, c, abortive);
    case Send(c, request) => SendKeepsClients(w, c, request);
    case ClientRead(c) => ReadKeepsClients(w, c);
    case Reset(id) => ResetKeepsClients(w, id);
    case SetChannel(_, _) =>
  }

  lemma OneConnKeepsLedgers(w: World, v: World, id: ConnId)
    requires LedgerInv(w) && id < |w.conns| == |v.conns| && v.conns == w.conns[id := v.conns[id]]
    requires v.devices == w.devices && v.adcLog == w.adcLog && ConnInv(w.devices, w.adcLog, id, v.conns[id])
    ensures LedgerInv(v)
  {
  }

  /** A request sent, a reply read, and the end of a connection leave its ledger as it was. */
  lemma SendKeepsConn(devices: set<U8>, log: seq<AdcRead>, id: ConnId, conn: Conn, request: DataGram)
    requires ConnInv(devices, log, id, conn)
    ensures ConnInv(devices, log, id, conn.(inbox := conn.inbox + [request], sent := conn.sent + [request]))
  {
  }

  lemma ReadKeepsConn(devices: set<U8>, log: seq<AdcRead>, id: ConnId, conn: Conn)
    requires ConnInv(devices, log, id, conn) && conn.outbox != []
    ensures ConnInv(devices, log, id, conn.(outbox := conn.outbox[1..], processed := conn.processed + [conn.outbox[0]]))
  {
    assert conn.processed + [conn.outbox[0]] + conn.outbox[1..] == conn.processed + conn.outbox;
  }

  lemma ConnectKeepsLedgers(w: World, c: nat)
    requires LedgerInv(w)
    ensures LedgerInv(ApplyEnv(w, Connect(c)))
  {
  }

  lemma EnvKeepsLedgers(w: World, e: EnvStep)
    requires LedgerInv(w)
    ensures LedgerInv(ApplyEnv(w, e))
  {
    var v := ApplyEnv(w, e);
    match e
    case Connect(c) => ConnectKeepsLedgers(w, c);
    case Drop(c, _) => if Attached(w, c) { OneConnKeepsLedgers(w, v, w.clients[c].conn.value); }
    case Send(c, request) =>
      if Attached(w, c) && v != w {
        var id := w.clients[c].conn.value;
        SendKeepsConn(w.devices, w.adcLog, id, w.conns[id], request);
        OneConnKeepsLedgers(w, v, id);
      }
    case ClientRead(c) =>
      if Attached(w, c) && v != w {
        var id := w.clients[c].conn.value;
        ReadKeepsConn(w.devices, w.adcLog, id, w.conns[id]);
        OneConnKeepsLedgers(w, v, id);
      }
    case Reset(id) => if v != w { OneConnKeepsLedgers(w, v, id); }
    case SetChannel(_, _) =>
  }

  lemma EnvKeepsEdges(w: World, e: EnvStep)
    requires FdInv(w) && ClientInv(w) && EdgeInv(w)
    ensures EdgeInv(ApplyEnv(w, e))
  {
  }

  lemma WaitKeepsFds(w: World, events: seq<Event>)
    requires FdInv(w) && BacklogInv(w) && ClientInv(w) && BatchInv(w) && LedgerInv(w)
    ensures var v := ApplyServer(w, Wait(events)); FdInv(v) && BacklogInv(v) && ClientInv(v) && BatchInv(v) && LedgerInv(v)
  {
  }

  /** epoll_wait moves edges into the batch and makes none. */
  lemma WaitKeepsEdges(w: World, events: seq<Event>)
    requires EdgeInv(w)
    ensures EdgeInv(ApplyServer(w, Wait(events)))
  {
    var v := ApplyServer(w, Wait(events));
    forall fd ensures Edges(v.ready, v.batch, fd) <= Edges(w.ready, w.batch, fd) {
    }
  }

  lemma WaitKeeps(w: World, events: seq<Event>)
    requires Inv(w)
    ensures Inv(ApplyServer(w, Wait(events)))
  {
    WaitKeepsFds(w, events);
    WaitKeepsEdges(w, events);
  }

  lemma CloseKeepsFds(w: World, fd: Fd)
    requires FdInv(w) && BacklogInv(w) && fd in w.fdOf
    ensures FdInv(CloseFd(w, fd)) && BacklogInv(CloseFd(w, fd))
  {
  }

  lemma CloseKeepsConns(w: World, fd: Fd)
    requires FdInv(w) && ClientInv(w) && LedgerInv(w) && fd in w.fdOf
    ensures ClientInv(CloseFd(w, fd)) && LedgerInv(CloseFd(w, fd))
  {
  }

  /** Taking the head event off the batch uses up one edge of its descriptor, and no other
      event of the batch names that descriptor. */
  lemma PopBatch(w: World)
    requires BatchInv(w) && w.batch != []
    ensures var v := w.(batch := w.batch[1..]); var fd := w.batch[0].fd;
      && BatchInv(v) && !Batched(v.batch, fd)
      && forall f :: Edges(w.ready, w.batch, f) == Edges(v.ready, v.batch, f) + if f == fd then 1 else 0
  {
    var v := w.(batch := w.batch[1..]);
    forall f ensures Batched(w.batch, f) == (Batched(v.batch, f) || f == w.batch[0].fd) {
      if Batched(w.batch, f) {
        var j :| 0 <= j < |w.batch| && w.batch[j].fd == f;
        assert j > 0 ==> v.batch[j - 1].fd == f;
      }
      if Batched(v.batch, f) {
        var j :| 0 <= j < |v.batch| && v.batch[j].fd == f;
        assert w.batch[j + 1].fd == f;
      }
    }
  }

  lemma CloseKeepsEvents(w: World, fd: Fd)
    requires FdInv(w) && BatchInv(w) && EdgeInv(w) && fd in w.fdOf && !Batched(w.batch, fd)
    ensures BatchInv(CloseFd(w, fd)) && EdgeInv(CloseFd(w, fd))
  {
    var v := CloseFd(w, fd);
    forall j | 0 <= j < |v.batch| && v.batch[j].fd != v.listenFd ensures v.batch[j].fd in v.fdOf {
      assert w.batch[j].fd != fd;
    }
  }

  lemma CloseKeeps(w: World, fd: Fd)
    requires Inv(w) && fd in w.fdOf && !Batched(w.batch, fd)
    ensures Inv(CloseFd(w, fd))
  {
    CloseKeepsFds(w, fd);
    CloseKeepsConns(w, fd);
    CloseKeepsEvents(w, fd);
  }

  // A handler changes one connection and may extend the device log.

  lemma RepliesAppend(ledger: seq<Entry>, e: Entry)
    ensures Replies(ledger + [e]) == Replies(ledger) + if e.fate.Replied? then [e.fate.reply] else []
    ensures Lost(ledger + [e]) == Lost(ledger) + if e.fate.WriteFailed? then 1 else 0
  {
    assert (ledger + [e])[..|ledger|] == ledger;
  }

  lemma EntryAppended(conn: Conn, e: Entry, server: ServerEnd, peer: PeerReset)
    requires QueueInv(conn) && conn.inbox != [] && e.request == conn.inbox[0]
    requires forall k :: 0 <= k < |conn.ledger| ==> !conn.ledger[k].fate.Refused?
    requires server != Queued && (e.fate.Refused? ==> server == Closed)
    ensures QueueInv(conn.(inbox := conn.inbox[1..], ledger := conn.ledger + [e], server := server, peer := peer,
                           outbox := conn.outbox + if e.fate.Replied? then [e.fate.reply] else []))
  {
    RepliesAppend(conn.ledger, e);
  }

  lemma RefuseKeepsLedgers(w: World, id: ConnId)
    requires LedgerInv(w) && id < |w.conns| && w.conns[id].server.Closed? && w.conns[id].inbox != []
    requires Refuses(w, w.conns[id].inbox[0])
    requires forall k :: 0 <= k < |w.conns[id].ledger| ==> !w.conns[id].ledger[k].fate.Refused?
    ensures LedgerInv(RefuseRequest(w, id))
  {
    EntryAppended(w.conns[id], Entry(w.conns[id].inbox[0], None, None, Refused), Closed, w.conns[id].peer);
    assert w.conns[id].outbox + [] == w.conns[id].outbox;
    var v := RefuseRequest(w, id);
    forall i | 0 <= i < |v.conns| ensures ConnInv(v.devices, v.adcLog, i, v.conns[i]) {
      assert i != id ==> v.conns[i] == w.conns[i];
    }
  }

  lemma RefuseKeepsRest(w: World, id: ConnId)
    requires FdInv(w) && BacklogInv(w) && ClientInv(w) && BatchInv(w) && EdgeInv(w)
    requires id < |w.conns| && w.conns[id].server.Closed? && w.conns[id].inbox != []
    ensures var v := RefuseRequest(w, id); FdInv(v) && BacklogInv(v) && ClientInv(v) && BatchInv(v) && EdgeInv(v)
  {
  }

  lemma AnswerKeepsConn(w: World, id: ConnId, o: Oracle)
    requires LedgerInv(w) && id < |w.conns| && w.conns[id].server.Open? && w.conns[id].inbox != []
    requires !Refuses(w, w.conns[id].inbox[0])
    ensures var v := AnswerRequest(w, id, o); ConnInv(v.devices, v.adcLog, id, v.conns[id])
  {
    var v := AnswerRequest(w, id, o);
    EntryAppended(w.conns[id], v.conns[id].ledger[|w.conns[id].ledger|], w.conns[id].server, v.conns[id].peer);
    assert v.conns[id].server == w.conns[id].server;
  }

  lemma AnswerKeepsLedgers(w: World, id: ConnId, o: Oracle)
    requires LedgerInv(w) && id < |w.conns| && w.conns[id].server.Open? && w.conns[id].inbox != []
    requires !Refuses(w, w.conns[id].inbox[0])
    ensures LedgerInv(AnswerRequest(w, id, o))
  {
    var v := AnswerRequest(w, id, o);
    AnswerKeepsConn(w, id, o);
    forall i | 0 <= i < |v.conns| && i != id ensures ConnInv(v.devices, v.adcLog, i, v.conns[i]) {
      assert v.conns[i] == w.conns[i];
    }
  }

  lemma AnswerKeepsRest(w: World, id: ConnId, o: Oracle)
    requires FdInv(w) && BacklogInv(w) && ClientInv(w) && BatchInv(w)
    requires id < |w.conns| && w.conns[id].inbox != []
    ensures var v := AnswerRequest(w, id, o); FdInv(v) && BacklogInv(v) && ClientInv(v) && BatchInv(v)
  {
  }

  lemma AnswerKeeps(w: World, fd: Fd, o: Oracle)
    requires Inv(w) && fd in w.fdOf && w.conns[w.fdOf[fd]].inbox != [] && !Refuses(w, w.conns[w.fdOf[fd]].inbox[0])
    requires w.conns[w.fdOf[fd]].clientOpen ==> Edges(w.ready, w.batch, fd) < |w.conns[w.fdOf[fd]].inbox|
    ensures Inv(AnswerRequest(w, w.fdOf[fd], o))
  {
    var id := w.fdOf[fd];
    AnswerKeepsRest(w, id, o);
    AnswerKeepsLedgers(w, id, o);
  }

  /** With the head event taken off, its descriptor has fewer edges than unread requests. */
  lemma PopKeeps(w: World)
    requires Inv(w) && HeadIsConn(w)
    ensures var v := w.(batch := w.batch[1..]); var fd := w.batch[0].fd; var conn := w.conns[w.fdOf[fd]];
      && Inv(v) && !Batched(v.batch, fd) && conn.server == Open(fd)
      && (conn.clientOpen ==> Edges(v.ready, v.batch, fd) < |conn.inbox|)
  {
    PopBatch(w);
    assert w.conns[w.fdOf[w.batch[0].fd]].server == Open(w.batch[0].fd);
  }

  /** A blank reply to a client that has gone changes nothing. */
  lemma BlankReachesNobody(w: World, fd: Fd, o: Oracle)
    requires fd in w.fdOf && w.fdOf[fd] < |w.conns| && !w.conns[w.fdOf[fd]].clientOpen && WasReset(w, fd)
    ensures AnswerBlank(w, fd, o) == w
  {
    var conn := w.conns[w.fdOf[fd]];
    assert conn.outbox + [] == conn.outbox;
    assert w.conns[w.fdOf[fd] := conn] == w.conns;
  }

  /** The handler of one event keeps the invariant.  In particular a read without data on an
      open connection does not happen. */
  lemma ServeKeeps(w: World, o: Oracle)
    requires Inv(w) && HeadIsConn(w)
    ensures Inv(Serve(w, o))
  {
    var fd := w.batch[0].fd;
    var conn := w.conns[w.fdOf[fd]];
    var v := w.(batch := w.batch[1..]);
    PopKeeps(w);
    if w.batch[0].flags.Broken() {
      CloseKeeps(v, fd);
    } else if ResetSince(v, fd, o) {
      BlankReachesNobody(v, fd, o);
    } else if conn.inbox == [] && !conn.clientOpen {
      CloseKeeps(v, fd);
    } else if conn.inbox != [] {
      if Refuses(v, conn.inbox[0]) {
        CloseKeeps(v, fd);
        RefuseKeepsLedgers(CloseFd(v, fd), w.fdOf[fd]);
        RefuseKeepsRest(CloseFd(v, fd), w.fdOf[fd]);
      } else {
        AnswerKeeps(v, fd, o);
      }
    }
  }

  lemma BeginDrainKeeps(w: World)
    requires Inv(w)
    ensures Inv(ApplyServer(w, BeginDrain))
  {
    if w.batch != [] {
      PopBatch(w);
    }
  }

  lemma ListenBrokenKeepsFds(w: World)
    requires FdInv(w) && BacklogInv(w) && EdgeInv(w)
    ensures var v := ApplyServer(w, ListenBroken); FdInv(v) && BacklogInv(v) && EdgeInv(v)
  {
  }

  lemma ListenBrokenKeepsConns(w: World)
    requires ClientInv(w) && BatchInv(w) && LedgerInv(w)
    ensures var v := ApplyServer(w, ListenBroken); ClientInv(v) && BatchInv(v) && LedgerInv(v)
  {
  }

  lemma AcceptedKeepsFds(w: World, fd: Fd)
    requires FdInv(w) && BacklogInv(w) && Resolve(w, Accepted(fd)) == Accepted(fd)
    ensures FdInv(AcceptOne(w, Accepted(fd)))
  {
    assert w.conns[w.backlog[0]].server == Queued;
  }

  lemma AcceptKeepsFds(w: World, outcome: AcceptOutcome)
    requires FdInv(w) && BacklogInv(w)
    ensures FdInv(AcceptOne(w, outcome))
  {
    if Resolve(w, outcome).Accepted? {
      AcceptedKeepsFds(w, outcome.fd);
    }
  }

  lemma AcceptKeepsBacklog(w: World, outcome: AcceptOutcome)
    requires BacklogInv(w)
    ensures BacklogInv(AcceptOne(w, outcome))
  {
  }

  lemma AcceptKeepsClients(w: World, outcome: AcceptOutcome)
    requires ClientInv(w)
    ensures ClientInv(AcceptOne(w, outcome))
  {
  }

  lemma AcceptKeepsLedgers(w: World, outcome: AcceptOutcome)
    requires LedgerInv(w) && BacklogInv(w)
    ensures LedgerInv(AcceptOne(w, outcome))
  {
    if w.backlog != [] {
      assert w.conns[w.backlog[0]].server == Queued;
    }
  }

  /** accept never hands out a descriptor an event of the batch still names, so the events
      behind it in the batch keep their meaning. */
  lemma AcceptKeepsEvents(w: World, outcome: AcceptOutcome)
    requires FdInv(w) && BatchInv(w)
    ensures BatchInv(AcceptOne(w, outcome))
    ensures Resolve(w, outcome).Accepted? ==> Edges(w.ready, w.batch, outcome.fd) == 0
  {
  }

  lemma AcceptKeepsEdges(w: World, outcome: AcceptOutcome)
    requires FdInv(w) && EdgeInv(w)
    requires Resolve(w, outcome).Accepted? ==> Edges(w.ready, w.batch, outcome.fd) == 0
    ensures EdgeInv(AcceptOne(w, outcome))
  {
  }

  lemma AcceptKeeps(w: World, outcome: AcceptOutcome)
    requires Inv(w)
    ensures Inv(AcceptOne(w, outcome))
  {
    AcceptKeepsFds(w, outcome);
    AcceptKeepsBacklog(w, outcome);
    AcceptKeepsClients(w, outcome);
    AcceptKeepsLedgers(w, outcome);
    AcceptKeepsEvents(w, outcome);
    AcceptKeepsEdges(w, outcome);
  }

  lemma EnvKeeps(w: World, e: EnvStep)
    requires Inv(w)
    ensures Inv(ApplyEnv(w, e))
  {
    EnvKeepsFds(w, e);
    EnvKeepsBacklog(w, e);
    EnvKeepsBatch(w, e);
    EnvKeepsClients(w, e);
    EnvKeepsLedgers(w, e);
    EnvKeepsEdges(w, e);
  }

  lemma NextKeeps(w: World, step: Step)
    requires Inv(w)
    ensures Inv(Next(w, step))
  {
    match step
    case Env(e) => EnvKeeps(w, e);
    case Server(s) =>
      match s {
        case Wait(events) => WaitKeeps(w, events);
        case ServeConn(o) => if HeadIsConn(w) { ServeKeeps(w, o); }
        case BeginDrain => BeginDrainKeeps(w);
        case Accept(outcome) => AcceptKeeps(w, outcome);
        case ListenBroken => ListenBrokenKeepsFds(w); ListenBrokenKeepsConns(w);
      }
  }

  lemma {:induction false} RunKeeps(w: World, steps: seq<Step>)
    requires Inv(w)
    ensures Inv(Exec(w, steps))
    decreases |steps|
  {
    if steps == [] {
    } else {
      RunKeeps(w, steps[..|steps| - 1]);
      NextKeeps(Exec(w, steps[..|steps| - 1]), steps[|steps| - 1]);
    }
  }
}
