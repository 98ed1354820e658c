/** Properties of every run of the server and its clients. */
module AdcTheorems {
  import opened Wrappers
  import opened DataGrams
  import opened AdcNetwork
  import opened AdcInvariants

  /** A state some run reaches: any initial configuration, any steps in any order. */
  ghost predicate Reachable(w: World) {
    exists listenFd, others, devices, channels, steps ::
      w == Exec(Start(listenFd, others, devices, channels), steps)
  }

  lemma ReachableInv(w: World)
    requires Reachable(w)
    ensures Inv(w)
  {
    var listenFd, others, devices, channels, steps :|
      w == Exec(Start(listenFd, others, devices, channels), steps);
    StartInv(listenFd, others, devices, channels);
    RunKeeps(Start(listenFd, others, devices, channels), steps);
  }

  lemma ReachableNext(w: World, step: Step)
    requires Reachable(w)
    ensures Reachable(Next(w, step))
  {
    var listenFd, others, devices, channels, steps :|
      w == Exec(Start(listenFd, others, devices, channels), steps);
    var start := Start(listenFd, others, devices, channels);
    assert (steps + [step])[..|steps|] == steps;
    assert Next(w, step) == Exec(start, steps + [step]);
  }

  // ---------------------------------------------------- descriptors and batches

  /** A handler changes its own connection only, and the descriptor table at most by closing
      its own descriptor. */
  ghost predicate OwnConnOnly(w: World, v: World, fd: Fd, id: ConnId) {
    && |v.conns| == |w.conns|
    && (forall i :: 0 <= i < |w.conns| && i != id ==> v.conns[i] == w.conns[i])
    && (v.fdOf == w.fdOf || v.fdOf == w.fdOf - {fd})
    && (v.ready == w.ready || v.ready == w.ready - {fd})
    && v.backlog == w.backlog && v.draining == w.draining
  }

  lemma TakeOwnConnOnly(w: World, fd: Fd, o: Oracle)
    requires fd in w.fdOf && w.fdOf[fd] < |w.conns| && w.conns[w.fdOf[fd]].inbox != []
    ensures OwnConnOnly(w, TakeRequest(w, fd, o), fd, w.fdOf[fd])
  {
  }

  lemma ServeOwnConnOnly(w: World, o: Oracle)
    requires HeadIsConn(w)
    ensures OwnConnOnly(w, Serve(w, o), w.batch[0].fd, w.fdOf[w.batch[0].fd])
    ensures Serve(w, o).batch == w.batch[1..] && Serve(w, o).listenFd == w.listenFd
  {
    var v := w.(batch := w.batch[1..]);
    if !w.batch[0].flags.Broken() && !ResetSince(v, w.batch[0].fd, o) && w.conns[w.fdOf[w.batch[0].fd]].inbox != [] {
      TakeOwnConnOnly(v, w.batch[0].fd, o);
    }
  }

  /** Batch safety: whatever earlier events of the batch closed and accepted, the event handled
      next acts on the connection it was raised for and on no other. */
  lemma BatchSafety(w: World, o: Oracle)
    requires Reachable(w) && HeadIsConn(w)
    ensures OwnConnOnly(w, Serve(w, o), w.batch[0].fd, w.batch[0].raisedFor)
  {
    ReachableInv(w);
    ServeOwnConnOnly(w, o);
  }

  /** Descriptor reuse: a descriptor accept hands out has no event left in the batch and no edge
      pending, even if it was closed and reused within this very batch. */
  lemma AcceptIsFresh(w: World, outcome: AcceptOutcome)
    requires Reachable(w) && Resolve(w, outcome).Accepted?
    ensures outcome.fd !in w.fdOf && outcome.fd !in w.interest && Edges(w.ready, w.batch, outcome.fd) == 0
  {
    ReachableInv(w);
    AcceptKeepsEvents(w, outcome);
  }

  /** The accepted descriptors still open are exactly those in the epoll set, and each belongs
      to exactly one connection. */
  lemma InterestSet(w: World, fd: Fd)
    requires Reachable(w)
    ensures fd in w.interest <==> exists id :: 0 <= id < |w.conns| && w.conns[id].server == Open(fd)
    ensures forall i, j :: 0 <= i < j < |w.conns| && w.conns[i].server.Open? ==> w.conns[i].server != w.conns[j].server
  {
    ReachableInv(w);
  }

  /** A read made for an event finds a request or the end of the stream, unless the client has
      reset the connection since epoll_wait returned.  The zeroed record the code then answers
      reaches nobody: nothing changes but that the event is used up. */
  lemma ReadsNeverStarve(w: World, o: Oracle)
    requires Reachable(w) && HeadIsConn(w)
    ensures w.conns[w.fdOf[w.batch[0].fd]].inbox != [] || !w.conns[w.fdOf[w.batch[0].fd]].clientOpen
    ensures !w.batch[0].flags.Broken() && ResetSince(w, w.batch[0].fd, o) ==> Serve(w, o) == w.(batch := w.batch[1..])
  {
    ReachableInv(w);
    PopBatch(w);
    if ResetSince(w, w.batch[0].fd, o) {
      BlankReachesNobody(w.(batch := w.batch[1..]), w.batch[0].fd, o);
    }
  }

  // ------------------------------------------------------ what one handler does

  /** What a reply may say about its request, given the clock and device reads it came from.  The
      types are 1 for the time and 2 for a sample, and a full device read is four bytes. */
  ghost predicate Answers(request: DataGram, reply: DataGram, adc: AdcResult, clock: Option<TimeT>) {
    && reply.kind == request.kind && reply.channel == request.channel
    && reply.valid in {0, 1}
    && (reply.valid == 1 <==> clock.Some? && (request.kind == 1 || (request.kind == 2 && adc.ret == 4)))
    && (reply.valid == 1 ==> reply.sampleTime == clock.value)
    && (reply.valid == 1 && request.kind == 2 ==> reply.data == adc.value)
    && (request.kind != 2 || adc.ret != 4 ==> reply.data == request.data)
    && (reply.valid == 0 ==> reply.sampleTime == request.sampleTime)
  }

  lemma AnswerAnswers(request: DataGram, adc: AdcResult, clock: Option<TimeT>)
    ensures Answers(request, Answer(request, adc, clock), adc, clock)
  {
  }

  /** A device read is full if it fills the data field of the record. */
  lemma FullReadFillsField(g: DataGram)
    ensures ADC_READ_SIZE == |Word(g.data)| == 4
  {
  }

  /** A request for a sample, with the clock read as t: a device read that returned four bytes gives
      the value and the time in a valid record, and any other return an invalid one. */
  lemma SampleAnswered(request: DataGram, ret: int, value: U32, t: TimeT)
    requires request.kind == 2
    ensures ret == 4 ==> Answer(request, AdcResult(ret, value), Some(t)) == DataGram(1, 2, t, value, request.channel)
    ensures ret != 4 ==> Answer(request, AdcResult(ret, value), Some(t)) == request.(valid := 0)
  {
  }

  /** The event at hand brings a request to be read. */
  predicate TakesRequest(w: World, o: Oracle)
    requires HeadIsConn(w)
  {
    && !w.batch[0].flags.Broken() && !ResetSince(w, w.batch[0].fd, o)
    && w.conns[w.fdOf[w.batch[0].fd]].inbox != []
  }

  /** A request for a sample of a channel without a device; the type is 2. */
  predicate AsksInVain(w: World, request: DataGram) {
    request.kind == 2 && request.channel !in w.devices
  }

  /** The four ways a handler can go. */
  lemma ServeCases(w: World, o: Oracle)
    requires Inv(w) && HeadIsConn(w)
    ensures var fd, v := w.batch[0].fd, w.(batch := w.batch[1..]); var id := w.fdOf[fd]; var conn := w.conns[id];
      && conn.server == Open(fd)
      && (TakesRequest(w, o) && AsksInVain(w, conn.inbox[0]) ==> Serve(w, o) == RefuseRequest(CloseFd(v, fd), id))
      && (TakesRequest(w, o) && !AsksInVain(w, conn.inbox[0]) ==> Serve(w, o) == AnswerRequest(v, id, o))
      && (!TakesRequest(w, o) && !w.batch[0].flags.Broken() && ResetSince(w, fd, o) ==> Serve(w, o) == v)
      && (!TakesRequest(w, o) && (w.batch[0].flags.Broken() || !ResetSince(w, fd, o)) ==> Serve(w, o) == CloseFd(v, fd))
  {
    PopBatch(w);
    if ResetSince(w, w.batch[0].fd, o) {
      BlankReachesNobody(w.(batch := w.batch[1..]), w.batch[0].fd, o);
    }
  }

  /** Exactly when the handler of an event closes its connection: on an error, at the end of the
      stream, and on a request for a channel without a device. */
  lemma ClosedExactly(w: World, o: Oracle)
    requires Reachable(w) && HeadIsConn(w)
    ensures var fd := w.batch[0].fd; var conn := w.conns[w.fdOf[fd]]; var v := Serve(w, o);
      (v.conns[w.fdOf[fd]].server.Closed? <==> fd !in v.fdOf) &&
      (v.conns[w.fdOf[fd]].server.Closed? <==>
         || w.batch[0].flags.Broken()
         || (!ResetSince(w, fd, o) && conn.inbox == [])
         || (TakesRequest(w, o) && AsksInVain(w, conn.inbox[0])))
  {
    ReachableInv(w);
    ServeCases(w, o);
  }

  lemma AnsweredQueues(w: World, id: ConnId, o: Oracle)
    requires id < |w.conns| && w.conns[id].inbox != []
    ensures var conn, after := w.conns[id], AnswerRequest(w, id, o).conns[id];
      && after.inbox == conn.inbox[1..] && |after.ledger| == |conn.ledger| + 1
      && after.client == conn.client && after.clientOpen == conn.clientOpen
      && after.sent == conn.sent && after.processed == conn.processed
      && (if o.writeWorks && conn.clientOpen
          then |after.outbox| == |conn.outbox| + 1 && after.outbox[..|conn.outbox|] == conn.outbox
               && Answers(conn.inbox[0], after.outbox[|conn.outbox|], o.adc, o.clock)
          else after.outbox == conn.outbox)
  {
    AnswerAnswers(w.conns[id].inbox[0], o.adc, o.clock);
  }

  /** What the handler does to the queues of its connection: it takes the oldest request if there is
      one, and puts one reply behind the others exactly if the request is not in vain, the write
      works and the client is there; the reply answers the request with the device and clock reads
      of this handler. */
  lemma RepliedExactly(w: World, o: Oracle)
    requires Reachable(w) && HeadIsConn(w)
    ensures var id := w.fdOf[w.batch[0].fd]; var conn, after := w.conns[id], Serve(w, o).conns[id];
      && (TakesRequest(w, o) ==> after.inbox == conn.inbox[1..] && |after.ledger| == |conn.ledger| + 1)
      && (!TakesRequest(w, o) ==> after.inbox == conn.inbox && after.ledger == conn.ledger)
      && after.client == conn.client && after.clientOpen == conn.clientOpen
      && after.sent == conn.sent && after.processed == conn.processed
      && (if TakesRequest(w, o) && !AsksInVain(w, conn.inbox[0]) && o.writeWorks && conn.clientOpen
          then |after.outbox| == |conn.outbox| + 1 && after.outbox[..|conn.outbox|] == conn.outbox
               && Answers(conn.inbox[0], after.outbox[|conn.outbox|], o.adc, o.clock)
          else after.outbox == conn.outbox)
  {
    ReachableInv(w);
    ServeCases(w, o);
    if TakesRequest(w, o) && !AsksInVain(w, w.conns[w.fdOf[w.batch[0].fd]].inbox[0]) {
      AnsweredQueues(w.(batch := w.batch[1..]), w.fdOf[w.batch[0].fd], o);
    }
  }

  /** The handler reads a device exactly if it takes a request for a sample of a channel that has
      one, and then once, on that channel. */
  lemma SampledExactly(w: World, o: Oracle)
    requires Reachable(w) && HeadIsConn(w)
    ensures var id := w.fdOf[w.batch[0].fd]; var conn := w.conns[id];
      Serve(w, o).adcLog == w.adcLog +
        if TakesRequest(w, o) && conn.inbox[0].kind == 2 && conn.inbox[0].channel in w.devices
        then [AdcRead(conn.inbox[0].channel, o.adc.ret, o.adc.value, id, |conn.ledger|)] else []
  {
    ReachableInv(w);
    ServeCases(w, o);
    assert w.adcLog + [] == w.adcLog;
  }

  /** What one accept call does. */
  lemma AcceptedExactly(w: World, outcome: AcceptOutcome)
    requires Reachable(w) && w.draining
    ensures var v := AcceptOne(w, outcome);
      && (outcome.AcceptFailed? || w.backlog == [] || !FreeFd(w, outcome.fd) ==> v == w.(draining := false))
      && (!(outcome.AcceptFailed? || w.backlog == [] || !FreeFd(w, outcome.fd)) ==>
            var id := w.backlog[0];
            && id < |w.conns| == |v.conns|
            && var conn := w.conns[id];
            && v.backlog == w.backlog[1..]
            && (v.draining <==> outcome.Accepted?)
            && v.conns[id] == conn.(server := if outcome.Accepted? then Open(outcome.fd) else Closed)
            && v.interest == (if outcome.Accepted? then w.interest + {outcome.fd} else w.interest)
            && (outcome.fd in v.ready <==> outcome.Accepted? && (conn.inbox != [] || !conn.clientOpen)))
  {
    ReachableInv(w);
  }

  /** An error of the listening socket closes it, resets the connections still waiting, forgets the
      events left in the batch, and leaves accepted connections as they are. */
  lemma ListenErrorExactly(w: World)
    requires HeadIsListen(w) && w.batch[0].flags.Broken()
    ensures var v := ApplyServer(w, ListenBroken);
      && !v.listenOpen && v.batch == [] && v.backlog == []
      && v.ready == w.ready - {w.listenFd} && v.fdOf == w.fdOf && v.interest == w.interest
      && |v.conns| == |w.conns|
      && (forall id :: 0 <= id < |w.conns| ==>
            v.conns[id] == if w.conns[id].server.Queued? then w.conns[id].(server := Closed) else w.conns[id])
  {
  }

  /** From then on no connection is made or accepted in any run. */
  lemma {:induction false} NoneAfterListenError(w: World, steps: seq<Step>)
    requires !w.listenOpen && w.backlog == []
    ensures var v := Exec(w, steps); !v.listenOpen && v.backlog == [] && |v.conns| == |w.conns| && v.fdOf.Keys <= w.fdOf.Keys
    decreases |steps|
  {
    if steps == [] {
    } else {
      NoneAfterListenError(w, steps[..|steps| - 1]);
      NextMakesNone(Exec(w, steps[..|steps| - 1]), steps[|steps| - 1]);
    }
  }

  lemma NextMakesNone(w: World, step: Step)
    requires !w.listenOpen && w.backlog == []
    ensures var v := Next(w, step); !v.listenOpen && v.backlog == [] && |v.conns| == |w.conns| && v.fdOf.Keys <= w.fdOf.Keys
  {
    match step
    case Env(e) =>
    case Server(s) =>
      if s.ServeConn? && HeadIsConn(w) {
        ServeOwnConnOnly(w, s.oracle);
        ServeKeepsListenOpen(w, s.oracle);
      }
  }

  lemma ServeKeepsListenOpen(w: World, o: Oracle)
    requires HeadIsConn(w)
    ensures Serve(w, o).listenOpen == w.listenOpen
  {
  }

  // ----------------------------------------------------------- FIFO and valid

  lemma {:induction false} RepliesCount(ledger: seq<Entry>)
    ensures |Replies(ledger)| + Lost(ledger) <= |ledger|
    ensures (forall k :: 0 <= k < |ledger| ==> !ledger[k].fate.Refused?) ==> |Replies(ledger)| + Lost(ledger) == |ledger|
    decreases |ledger|
  {
    if ledger == [] {
    } else {
      RepliesCount(ledger[..|ledger| - 1]);
    }
  }

  /** No undelivered reply comes before a delivered one. */
  ghost predicate NoGap(ledger: seq<Entry>) {
    forall i, j :: 0 <= i < j < |ledger| && ledger[j].fate.Replied? ==> ledger[i].fate.Replied?
  }

  /** The k-th of these replies is the one written for the k-th request. */
  ghost predicate InStep(replies: seq<DataGram>, ledger: seq<Entry>) {
    forall k :: 0 <= k < |replies| ==> k < |ledger| && ledger[k].fate == Replied(replies[k])
  }

  lemma {:induction false} AllReplied(ledger: seq<Entry>, n: nat)
    requires n <= |ledger| && forall k :: 0 <= k < n ==> ledger[k].fate.Replied?
    ensures |Replies(ledger)| >= n
    ensures n == |ledger| ==> |Replies(ledger)| == n
    decreases |ledger|
  {
    if ledger == [] {
    } else {
      AllReplied(ledger[..|ledger| - 1], if n == |ledger| then n - 1 else n);
      RepliesCount(ledger);
    }
  }

  lemma LastReplied(front: seq<Entry>, last: Entry)
    requires last.fate.Replied? && (InStep(Replies(front), front) <==> NoGap(front))
    ensures InStep(Replies(front + [last]), front + [last]) <==> NoGap(front + [last])
  {
    var ledger := front + [last];
    RepliesAppend(front, last);
    RepliesCount(front);
    if NoGap(ledger) {
      forall i | 0 <= i < |front| ensures front[i].fate.Replied? {
        assert ledger[i] == front[i] && ledger[|front|] == last;
      }
      AllReplied(front, |front|);
    }
    if InStep(Replies(ledger), ledger) {
      var m := |Replies(front)|;
      assert forall k :: 0 <= k <= m ==> ledger[k].fate == Replied(Replies(ledger)[k]);
      if m < |front| {
        AllReplied(front, m + 1);
        assert false;
      }
    }
  }

  lemma LastNotReplied(front: seq<Entry>, last: Entry)
    requires !last.fate.Replied? && (InStep(Replies(front), front) <==> NoGap(front))
    ensures InStep(Replies(front + [last]), front + [last]) <==> NoGap(front + [last])
  {
    var ledger := front + [last];
    RepliesAppend(front, last);
    RepliesCount(front);
    assert Replies(ledger) == Replies(front);
    if InStep(Replies(ledger), ledger) {
      forall k | 0 <= k < |Replies(front)| ensures front[k].fate == Replied(Replies(front)[k]) {
        assert ledger[k] == front[k];
      }
    }
    if NoGap(ledger) {
      forall i, j | 0 <= i < j < |front| && front[j].fate.Replied? ensures front[i].fate.Replied? {
        assert ledger[i] == front[i] && ledger[j] == front[j];
      }
    }
  }

  lemma {:induction false} InStepIffNoGap(ledger: seq<Entry>)
    ensures InStep(Replies(ledger), ledger) <==> NoGap(ledger)
    decreases |ledger|
  {
    if ledger == [] {
      assert |Replies(ledger)| == 0;
    } else {
      var front, last := ledger[..|ledger| - 1], ledger[|ledger| - 1];
      assert ledger == front + [last];
      InStepIffNoGap(front);
      if last.fate.Replied? {
        LastReplied(front, last);
      } else {
        LastNotReplied(front, last);
      }
    }
  }

  /** The replies client and network have of a connection, oldest first. */
  function Received(conn: Conn): seq<DataGram> {
    conn.processed + conn.outbox
  }

  /** Every reply written answers its own request: the k-th entry of a connection records the
      k-th request sent on it, and the reply is built from reads made for that request. */
  lemma LedgerAnswers(w: World, id: ConnId, k: nat)
    requires Reachable(w) && id < |w.conns| && k < |w.conns[id].ledger| && !w.conns[id].ledger[k].fate.Refused?
    ensures var e := w.conns[id].ledger[k];
      && k < |w.conns[id].sent| && e.request == w.conns[id].sent[k]
      && (e.request.kind != 2 ==> Answers(e.request, e.fate.reply, AdcResult(0, 0), e.clock))
      && (e.request.kind == 2 ==>
            && e.adc.Some? && e.adc.value < |w.adcLog|
            && var read := w.adcLog[e.adc.value];
               && read.channel == e.request.channel && read.conn == id && read.request == k
               && Answers(e.request, e.fate.reply, AdcResult(read.ret, read.value), e.clock))
  {
    ReachableInv(w);
    assert ConnInv(w.devices, w.adcLog, id, w.conns[id]);
    assert EntryOk(w.devices, w.adcLog, id, k, w.conns[id].ledger[k]);
  }

  /** No device read serves two requests, on one connection or on two. */
  lemma ReadsNotShared(w: World, id: ConnId, k: nat, id': ConnId, k': nat)
    requires Reachable(w) && id < |w.conns| && k < |w.conns[id].ledger| && id' < |w.conns| && k' < |w.conns[id'].ledger|
    requires var e, e' := w.conns[id].ledger[k], w.conns[id'].ledger[k'];
      !e.fate.Refused? && !e'.fate.Refused? && e.request.kind == e'.request.kind == TYPE_GETDATA && e.adc == e'.adc
    ensures id == id' && k == k'
  {
    LedgerAnswers(w, id, k);
    LedgerAnswers(w, id', k');
  }

  /** FIFO correspondence: on every connection the k-th reply received is the one written for
      the k-th request, for all k, exactly when no failed write comes before a successful one. */
  lemma FifoCorrespondence(w: World, id: ConnId)
    requires Reachable(w) && id < |w.conns|
    ensures InStep(Received(w.conns[id]), w.conns[id].ledger) <==> NoGap(w.conns[id].ledger)
  {
    ReachableInv(w);
    assert ConnInv(w.devices, w.adcLog, id, w.conns[id]);
    InStepIffNoGap(w.conns[id].ledger);
    assert Received(w.conns[id]) == Replies(w.conns[id].ledger);
  }

  /** Conservation: on every connection the server has not closed, each request sent is unread
      at the server, or its reply is unread at the client or processed, or a write lost it. */
  lemma Conservation(w: World, id: ConnId)
    requires Reachable(w) && id < |w.conns| && !w.conns[id].server.Closed?
    ensures var conn := w.conns[id];
      |conn.sent| == |conn.inbox| + |conn.outbox| + |conn.processed| + Lost(conn.ledger)
  {
    ReachableInv(w);
    assert ConnInv(w.devices, w.adcLog, id, w.conns[id]);
    RepliesCount(w.conns[id].ledger);
    assert |Received(w.conns[id])| == |Replies(w.conns[id].ledger)|;
  }

  // ------------------------------------------------------------- provenance

  /** Every delivered reply stands in the ledger. */
  lemma {:induction false} ReplyRecorded(ledger: seq<Entry>, i: nat) returns (k: nat)
    requires i < |Replies(ledger)|
    ensures k < |ledger| && ledger[k].fate == Replied(Replies(ledger)[i])
    decreases |ledger|
  {
    var front := ledger[..|ledger| - 1];
    if i < |Replies(front)| {
      k := ReplyRecorded(front, i);
    } else {
      k := |front|;
    }
  }

  /** The entry behind the next reply client c will read. */
  lemma NextReplyRecorded(w: World, c: nat) returns (k: nat)
    requires Reachable(w) && NextEmission(w, c).Some?
    ensures Attached(w, c) && w.conns[w.clients[c].conn.value].outbox != []
    ensures var conn := w.conns[w.clients[c].conn.value];
      && conn.client == c && conn.clientOpen
      && k < |conn.ledger| && k < |conn.sent| && conn.ledger[k].fate == Replied(conn.outbox[0]) && conn.ledger[k].request == conn.sent[k]
  {
    ReachableInv(w);
    var id := w.clients[c].conn.value;
    var conn := w.conns[id];
    assert ConnInv(w.devices, w.adcLog, id, conn);
    assert (conn.processed + conn.outbox)[|conn.processed|] == conn.outbox[0];
    k := ReplyRecorded(conn.ledger, |conn.processed|);
  }

  /** Provenance: if the next readData of client c emits dataReady(item), then item carries the
      client's present channel, a value a full device read returned on that channel, and a clock
      reading, all made for a GETDATA request that this client sent on its present, undropped
      connection. */
  lemma Provenance(w: World, c: nat, item: DataItem)
    requires Reachable(w) && NextEmission(w, c) == Some(DataReady(item))
    ensures item.ch == w.clients[c].channel
    ensures exists k, i ::
      && 0 <= k < |w.conns[w.clients[c].conn.value].ledger| <= |w.conns[w.clients[c].conn.value].sent|
      && 0 <= i < |w.adcLog|
      && w.adcLog[i] == AdcRead(item.ch, 4, item.data, w.clients[c].conn.value, k)
      && w.conns[w.clients[c].conn.value].sent[k].kind == 2
      && w.conns[w.clients[c].conn.value].sent[k].channel == item.ch
      && w.conns[w.clients[c].conn.value].ledger[k].clock == Some(item.dateTime)
    ensures item.ch in w.devices
    ensures w.conns[w.clients[c].conn.value].client == c && w.conns[w.clients[c].conn.value].clientOpen
  {
    ReachableInv(w);
    var k := NextReplyRecorded(w, c);
    var id := w.clients[c].conn.value;
    var conn := w.conns[id];
    assert ConnInv(w.devices, w.adcLog, id, conn);
    var e := conn.ledger[k];
    assert EntryOk(w.devices, w.adcLog, id, k, e);
    LedgerAnswers(w, id, k);
    var read := w.adcLog[e.adc.value];
    assert read == AdcRead(item.ch, 4, item.data, id, k);
  }

  // ----------------------------------------------------- what a client announces

  /** What the next readData of client c announces, for each reply and each channel it may be on. */
  lemma AnnouncedExactly(w: World, c: nat)
    requires Attached(w, c)
    ensures NextEmission(w, c).Some? <==> w.conns[w.clients[c].conn.value].outbox != []
    ensures NextEmission(w, c).Some? ==>
      Announces(w.conns[w.clients[c].conn.value].outbox[0], w.clients[c].channel, NextEmission(w, c).value)
  {
    if NextEmission(w, c).Some? {
      Announced(w.conns[w.clients[c].conn.value].outbox[0], w.clients[c].channel);
    }
  }

  /** From the clock to the client: a reply written for a request on the channel the client is
      still on is announced with the clock reading made for that request, as the time if it asked
      for that, and with the value of the device read if it asked for a sample and the read was
      full; in every other case nothing is announced. */
  lemma AnnouncedAsAnswered(w: World, c: nat) returns (k: nat)
    requires Reachable(w) && NextEmission(w, c).Some?
    ensures Attached(w, c)
    ensures var conn := w.conns[w.clients[c].conn.value]; var out := NextEmission(w, c).value;
      && k < |conn.ledger| && k < |conn.sent| && conn.ledger[k].request == conn.sent[k]
      && var request, clock, adc := conn.sent[k], conn.ledger[k].clock, conn.ledger[k].adc;
         && (request.channel != w.clients[c].channel || clock.None? ==> out == InvalidRecord)
         && (request.channel == w.clients[c].channel && clock.Some? ==>
               && (request.kind == 1 ==> out == TimeReady(clock.value))
               && (request.kind == 2 ==>
                     && adc.Some? && adc.value < |w.adcLog|
                     && out == if w.adcLog[adc.value].ret == 4
                               then DataReady(DataItem(request.channel, w.adcLog[adc.value].value, clock.value))
                               else InvalidRecord)
               && (request.kind !in {1, 2} ==> out == InvalidRecord))
  {
    k := NextReplyRecorded(w, c);
    LedgerAnswers(w, w.clients[c].conn.value, k);
    AnnouncedExactly(w, c);
  }

  /** The client has let go of connection id of w, and in v it has used it no further. */
  ghost predicate LeftAlone(w: World, v: World, id: ConnId) {
    && id < |w.conns| && id < |v.conns|
    && !v.conns[id].clientOpen
    && v.conns[id].processed == w.conns[id].processed
    && v.conns[id].sent == w.conns[id].sent
  }

  lemma EnvLeavesDropped(w: World, e: EnvStep, id: ConnId)
    requires ClientInv(w) && id < |w.conns| && !w.conns[id].clientOpen
    ensures LeftAlone(w, ApplyEnv(w, e), id)
  {
  }

  lemma ServeLeavesDropped(w: World, o: Oracle, id: ConnId)
    requires FdInv(w) && id < |w.conns| && !w.conns[id].clientOpen && HeadIsConn(w)
    ensures LeftAlone(w, Serve(w, o), id)
  {
  }

  lemma ServerLeavesDropped(w: World, s: ServerStep, id: ConnId)
    requires FdInv(w) && id < |w.conns| && !w.conns[id].clientOpen
    ensures LeftAlone(w, ApplyServer(w, s), id)
  {
    if s.ServeConn? && HeadIsConn(w) {
      ServeLeavesDropped(w, s.oracle, id);
    }
  }

  /** After reConnectNet (or any close) no later step of any run lets a client process a reply
      of the connection it dropped, or send another request on it. */
  lemma {:induction false} DroppedIsFinal(w: World, steps: seq<Step>, id: ConnId)
    requires Inv(w) && id < |w.conns| && !w.conns[id].clientOpen
    ensures LeftAlone(w, Exec(w, steps), id)
    decreases |steps|
  {
    if steps == [] {
    } else {
      var v := Exec(w, steps[..|steps| - 1]);
      DroppedIsFinal(w, steps[..|steps| - 1], id);
      RunKeeps(w, steps[..|steps| - 1]);
      match steps[|steps| - 1]
      case Env(e) => EnvLeavesDropped(v, e, id);
      case Server(s) => ServerLeavesDropped(v, s, id);
    }
  }
}
