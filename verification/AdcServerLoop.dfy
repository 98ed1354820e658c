/** The event loop of the server in the form the program has it, proved to be a run of the
    transition system. */
module AdcServerLoop {
  import opened Wrappers
  import opened DataGrams
  import opened AdcNetwork
  import opened AdcInvariants
  import opened AdcTheorems

  /** What happens around one accept call: what clients do before it, and how it turns out. */
  datatype AcceptTry = AcceptTry(env: seq<EnvStep>, outcome: AcceptOutcome)

  /** What happens around one event: what clients do before it is handled, and what the kernel
      gives its handler. */
  datatype Choice = Choice(env: seq<EnvStep>, oracle: Oracle, accepts: seq<AcceptTry>)

  function EnvRun(w: World, steps: seq<EnvStep>): World
    decreases |steps|
  {
    if steps == [] then w else EnvRun(ApplyEnv(w, steps[0]), steps[1..])
  }

  /** The accept loop; when the tries run out accept fails. */
  function Drain(w: World, tries: seq<AcceptTry>): World
    decreases |tries|
  {
    if tries == [] then AcceptOne(w, AcceptFailed)
    else
      var v := AcceptOne(EnvRun(w, tries[0].env), tries[0].outcome);
      if v.draining then Drain(v, tries[1..]) else v
  }

  lemma DrainUnrolls(w: World, tries: seq<AcceptTry>)
    ensures tries == [] ==> Drain(w, tries) == AcceptOne(EnvRun(w, []), AcceptFailed) && !Drain(w, tries).draining
    ensures tries != [] ==>
      var v := AcceptOne(EnvRun(w, tries[0].env), tries[0].outcome);
      Drain(w, tries) == if v.draining then Drain(v, tries[1..]) else v
  {
  }

  function ServeHead(w: World, choice: Choice): World {
    if HeadIsConn(w) then Serve(w, choice.oracle)
    else if !HeadIsListen(w) then w
    else if w.batch[0].flags.Broken() then ApplyServer(w, ListenBroken)
    else Drain(ApplyServer(w, BeginDrain), choice.accepts)
  }

  function ServeBatch(w: World, script: seq<Choice>): World
    decreases |script|
  {
    if w.batch == [] || script == [] then w
    else ServeBatch(ServeHead(EnvRun(w, script[0].env), script[0]), script[1..])
  }

  // --------------------------------------------------- every batch is a run

  lemma {:induction false} EnvRunReachable(w: World, steps: seq<EnvStep>)
    requires Reachable(w)
    ensures Reachable(EnvRun(w, steps))
    decreases |steps|
  {
    if steps == [] {
    } else {
      ReachableNext(w, Env(steps[0]));
      EnvRunReachable(ApplyEnv(w, steps[0]), steps[1..]);
    }
  }

  lemma {:induction false} DrainReachable(w: World, tries: seq<AcceptTry>)
    requires Reachable(w) && w.draining
    ensures Reachable(Drain(w, tries))
    decreases |tries|
  {
    if tries == [] {
      ReachableNext(w, Server(Accept(AcceptFailed)));
    } else {
      var u := EnvRun(w, tries[0].env);
      EnvRunReachable(w, tries[0].env);
      EnvRunFrame(w, tries[0].env);
      ReachableNext(u, Server(Accept(tries[0].outcome)));
      if AcceptOne(u, tries[0].outcome).draining {
        DrainReachable(AcceptOne(u, tries[0].outcome), tries[1..]);
      }
    }
  }

  lemma ServeHeadReachable(w: World, choice: Choice)
    requires Reachable(w)
    ensures Reachable(ServeHead(w, choice))
  {
    if HeadIsConn(w) {
      ReachableNext(w, Server(ServeConn(choice.oracle)));
    } else if HeadIsListen(w) {
      ReachableNext(w, Server(ListenBroken));
      ReachableNext(w, Server(BeginDrain));
      if !w.batch[0].flags.Broken() {
        DrainReachable(ApplyServer(w, BeginDrain), choice.accepts);
      }
    }
  }

  /** Handling a whole batch, with clients acting in between, is a run of the system, so all
      that holds of reachable states holds at every return to epoll_wait. */
  lemma {:induction false} ServeBatchReachable(w: World, script: seq<Choice>)
    requires Reachable(w)
    ensures Reachable(ServeBatch(w, script))
    decreases |script|
  {
    if w.batch == [] || script == [] {
    } else {
      EnvRunReachable(w, script[0].env);
      ServeHeadReachable(EnvRun(w, script[0].env), script[0]);
      ServeBatchReachable(ServeHead(EnvRun(w, script[0].env), script[0]), script[1..]);
    }
  }

  /** Clients touch neither the batch nor the descriptors nor the accept loop. */
  lemma {:induction false} EnvRunFrame(w: World, steps: seq<EnvStep>)
    ensures var v := EnvRun(w, steps);
      && v.batch == w.batch && v.draining == w.draining && v.fdOf == w.fdOf && v.listenFd == w.listenFd
      && |v.conns| >= |w.conns|
    decreases |steps|
  {
    if steps == [] {
    } else {
      EnvRunFrame(ApplyEnv(w, steps[0]), steps[1..]);
    }
  }

  lemma {:induction false} EnvRunKeeps(w: World, steps: seq<EnvStep>)
    requires Inv(w)
    ensures Inv(EnvRun(w, steps))
    decreases |steps|
  {
    if steps == [] {
    } else {
      EnvKeeps(w, steps[0]);
      EnvRunKeeps(ApplyEnv(w, steps[0]), steps[1..]);
    }
  }

  lemma ServeForLoop(w: World, o: Oracle)
    requires Inv(w) && HeadIsConn(w)
    ensures Inv(Serve(w, o)) && Serve(w, o).batch == w.batch[1..] && !Serve(w, o).draining
  {
    ServeKeeps(w, o);
    ServeOwnConnOnly(w, o);
  }

  lemma BatchHead(w: World)
    requires BatchInv(w) && FdInv(w) && w.batch != [] && !w.draining
    ensures w.batch[0].fd != w.listenFd ==> HeadIsConn(w)
    ensures w.batch[0].fd == w.listenFd ==> HeadIsListen(w)
  {
  }

  // The handler does in several calls what a step of the system does at once.

  predicate HasRequest(v: World, fd: Fd) {
    fd in v.fdOf && v.fdOf[fd] < |v.conns| && v.conns[v.fdOf[fd]].inbox != []
  }

  /** The request has been read and nothing else done yet. */
  function Taken(v: World, fd: Fd): World
    requires HasRequest(v, fd)
  {
    var id := v.fdOf[fd];
    v.(conns := v.conns[id := v.conns[id].(inbox := v.conns[id].inbox[1..])])
  }

  function Recorded(w: World, id: ConnId, entry: Entry): World
    requires id < |w.conns|
  {
    w.(conns := w.conns[id := w.conns[id].(ledger := w.conns[id].ledger + [entry])])
  }

  /** A device read for a request that asks for data goes into the device log. */
  function Sampled(w: World, id: ConnId, request: DataGram, o: Oracle): World
    requires id < |w.conns|
  {
    w.(adcLog := w.adcLog + if request.kind == TYPE_GETDATA
                            then [AdcRead(request.channel, o.adc.ret, o.adc.value, id, |w.conns[id].ledger|)] else [])
  }

  function Written(w: World, id: ConnId, datagram: DataGram, works: bool): World
    requires id < |w.conns|
  {
    var conn := w.conns[id];
    w.(conns := w.conns[id := conn.(peer := AfterWrite(conn, works),
                                    outbox := conn.outbox + if works && conn.clientOpen then [datagram] else [])])
  }

  lemma AnsweredInSteps(v: World, fd: Fd, o: Oracle)
    requires HasRequest(v, fd)
    ensures var id := v.fdOf[fd]; var conn := v.conns[id]; var request := conn.inbox[0]; var reply := Answer(request, o.adc, o.clock);
      Recorded(Written(Sampled(Taken(v, fd), id, request, o), id, reply, o.writeWorks), id,
               Entry(request, o.clock, if request.kind == TYPE_GETDATA then Some(|v.adcLog|) else None,
                     if o.writeWorks && conn.clientOpen then Replied(reply) else WriteFailed(reply)))
      == AnswerRequest(v, id, o)
  {
    var id := v.fdOf[fd];
    var request := v.conns[id].inbox[0];
    var u := Written(Sampled(Taken(v, fd), id, request, o), id, Answer(request, o.adc, o.clock), o.writeWorks);
    assert Recorded(u, id, AnswerRequest(v, id, o).conns[id].ledger[|v.conns[id].ledger|]).conns == AnswerRequest(v, id, o).conns;
  }

  lemma RefusedInSteps(v: World, fd: Fd)
    requires HasRequest(v, fd)
    ensures var id := v.fdOf[fd];
      Recorded(CloseFd(Taken(v, fd), fd), id, Entry(v.conns[id].inbox[0], None, None, Refused)) == RefuseRequest(CloseFd(v, fd), id)
  {
    var id := v.fdOf[fd];
    assert Recorded(CloseFd(Taken(v, fd), fd), id, Entry(v.conns[id].inbox[0], None, None, Refused)).conns
        == RefuseRequest(CloseFd(v, fd), id).conns;
  }

  // ------------------------------------------------------------- the program

  class AdcServer {
    var net: World

    // kernel calls

    method Close(fd: Fd)
      requires fd in net.fdOf && net.fdOf[fd] < |net.conns|
      modifies this
      ensures net == CloseFd(old(net), fd)
    {
      net := CloseFd(net, fd);
    }

    method EpollCtlDel(fd: Fd)
      modifies this
      ensures net == old(net).(interest := old(net).interest - {fd}, ready := old(net).ready - {fd})
    {
      net := net.(interest := net.interest - {fd}, ready := net.ready - {fd});
    }

    method EpollCtlAdd(fd: Fd)
      requires fd in net.fdOf && net.fdOf[fd] < |net.conns|
      modifies this
      ensures var conn := old(net).conns[old(net).fdOf[fd]];
        net == old(net).(
          interest := old(net).interest + {fd},
          ready := if conn.inbox != [] || !conn.clientOpen then old(net).ready + {fd} else old(net).ready)
    {
      var conn := net.conns[net.fdOf[fd]];
      if conn.inbox != [] || !conn.clientOpen {
        net := net.(ready := net.ready + {fd});
      }
      net := net.(interest := net.interest + {fd});
    }

    /** accept: -1, or a fresh descriptor for the oldest connection waiting. */
    method AcceptCall(outcome: AcceptOutcome) returns (connFd: int)
      modifies this
      ensures Resolve(old(net), outcome).AcceptFailed? ==> connFd == -1 && net == old(net)
      ensures !Resolve(old(net), outcome).AcceptFailed? ==>
        var id := old(net).backlog[0];
        && connFd == outcome.fd
        && net == old(net).(backlog := old(net).backlog[1..], fdOf := old(net).fdOf[outcome.fd := id],
                            conns := old(net).conns[id := old(net).conns[id].(server := Open(outcome.fd))])
    {
      if Resolve(net, outcome).AcceptFailed? {
        return -1;
      }
      var id := net.backlog[0];
      connFd := outcome.fd;
      net := net.(backlog := net.backlog[1..], fdOf := net.fdOf[outcome.fd := id],
                  conns := net.conns[id := net.conns[id].(server := Open(outcome.fd))]);
    }

    /** read: a whole request, 0 at the end of the stream, -1 when there is nothing to read or
        the connection was reset. */
    method Read(fd: Fd, o: Oracle) returns (ret: int, datagram: DataGram)
      requires fd in net.fdOf && net.fdOf[fd] < |net.conns|
      modifies this
      ensures var id := old(net).fdOf[fd]; var conn := old(net).conns[id];
        if ResetSince(old(net), fd, o) then
          ret == -1 && datagram == BLANK && net == old(net)
        else if conn.inbox != [] then
          ret == RECORD_SIZE && datagram == conn.inbox[0] && net == Taken(old(net), fd)
        else
          ret == (if conn.clientOpen then -1 else 0) && datagram == BLANK && net == old(net)
    {
      var id := net.fdOf[fd];
      var conn := net.conns[id];
      datagram := BLANK;
      if ResetSince(net, fd, o) {
        ret := -1;
      } else if conn.inbox != [] {
        ret, datagram := RECORD_SIZE, conn.inbox[0];
        net := net.(conns := net.conns[id := conn.(inbox := conn.inbox[1..])]);
      } else {
        ret := if conn.clientOpen then -1 else 0;
      }
    }

    /** write: the reply reaches the client if the call works and the client is still there. */
    method Write(fd: Fd, datagram: DataGram, works: bool) returns (delivered: bool)
      requires fd in net.fdOf && net.fdOf[fd] < |net.conns|
      modifies this
      ensures delivered == (works && old(net).conns[old(net).fdOf[fd]].clientOpen)
      ensures net == Written(old(net), old(net).fdOf[fd], datagram, works)
    {
      var id := net.fdOf[fd];
      var conn := net.conns[id];
      delivered := works && conn.clientOpen;
      net := net.(conns := net.conns[id := conn.(
                    peer := AfterWrite(conn, works), outbox := conn.outbox + if delivered then [datagram] else [])]);
    }

    /** s3cadc_get_adc on an open device, noted in the device log. */
    method GetAdc(channel: U8, id: ConnId, result: AdcResult) returns (ret: int, value: U32)
      requires id < |net.conns|
      modifies this
      ensures ret == result.ret && value == result.value
      ensures net == old(net).(adcLog := old(net).adcLog + [AdcRead(channel, ret, value, id, |old(net).conns[id].ledger|)])
    {
      ret, value := result.ret, result.value;
      net := net.(adcLog := net.adcLog + [AdcRead(channel, ret, value, id, |net.conns[id].ledger|)]);
    }

    /** History: what became of a request. */
    method Record(id: ConnId, entry: Entry)
      requires id < |net.conns|
      modifies this
      ensures net == Recorded(old(net), id, entry)
    {
      net := net.(conns := net.conns[id := net.conns[id].(ledger := net.conns[id].ledger + [entry])]);
    }

    /** The switch on the request type (adcnetwork.c, 222-262): the reply, unless the channel
        has no device; and the index of the device read made, if any. */
    method Dispatch(request: DataGram, id: ConnId, o: Oracle)
      returns (refused: bool, datagram: DataGram, adcIndex: Option<nat>)
      requires id < |net.conns|
      modifies this
      ensures refused == Refuses(old(net), request)
      ensures refused ==> net == old(net)
      ensures !refused ==> datagram == Answer(request, o.adc, o.clock)
      ensures !refused ==> net == Sampled(old(net), id, request, o)
      ensures !refused ==> adcIndex == if request.kind == TYPE_GETDATA then Some(|old(net).adcLog|) else None
    {
      assert net.adcLog + [] == net.adcLog;
      refused, datagram, adcIndex := false, request, None;
      if request.kind == TYPE_GETDATA {
        if request.channel !in net.devices {
          refused := true;
          return;
        }
        adcIndex := Some(|net.adcLog|);
        var adcRet, adcVal := GetAdc(request.channel, id, o.adc);
        if adcRet != ADC_READ_SIZE {
          datagram := datagram.(valid := 0);
        } else {
          datagram := datagram.(valid := 1);
          datagram := GetTime(datagram, o.clock);
          datagram := datagram.(data := adcVal);
        }
      } else if request.kind == TYPE_GETTIME {
        datagram := GetTime(datagram, o.clock);
      } else {
        datagram := datagram.(valid := 0);
      }
    }

    /** The handler from the switch on: v is the state before the read that gave request. */
    method Respond(ghost v: World, fd: Fd, request: DataGram, o: Oracle)
      requires HasRequest(v, fd) && request == v.conns[v.fdOf[fd]].inbox[0] && net == Taken(v, fd)
      modifies this
      ensures net == TakeRequest(v, fd, o)
    {
      var id := net.fdOf[fd];
      var refused, datagram, adcIndex := Dispatch(request, id, o);
      if refused {
        EpollCtlDel(fd);
        Close(fd);
        assert net == CloseFd(Taken(v, fd), fd);
        Record(id, Entry(request, None, None, Refused));
        RefusedInSteps(v, fd);
      } else {
        var delivered := Write(fd, datagram, o.writeWorks);
        Record(id, Entry(request, o.clock, adcIndex, if delivered then Replied(datagram) else WriteFailed(datagram)));
        AnsweredInSteps(v, fd, o);
      }
    }

    /** One event of an accepted descriptor (adcnetwork.c, 169-184 and 211-267). */
    method HandleConn(o: Oracle)
      requires HeadIsConn(net)
      modifies this
      ensures net == Serve(old(net), o)
    {
      var ev := net.batch[0];
      net := net.(batch := net.batch[1..]);
      if ev.flags.err || ev.flags.hup || !ev.flags.readable {
        Close(ev.fd);
        EpollCtlDel(ev.fd);
        return;
      }
      ghost var v := net;
      var ret, request := Read(ev.fd, o);
      if ret == 0 {
        EpollCtlDel(ev.fd);
        Close(ev.fd);
        return;
      }
      if ret > 0 {
        Respond(v, ev.fd, request, o);
      } else {
        // the read failed and left the zeroed record
        var _, datagram, _ := Dispatch(request, net.fdOf[ev.fd], o);
        var _ := Write(ev.fd, datagram, o.writeWorks);
      }
    }

    /** One turn of the accept loop (adcnetwork.c, 189-208); more is false when it breaks out. */
    method AcceptTurn(outcome: AcceptOutcome) returns (more: bool)
      requires FdInv(net) && net.draining
      modifies this
      ensures net == AcceptOne(old(net), outcome) && more == net.draining
    {
      var connFd := AcceptCall(outcome);
      if connFd < 0 {
        net := net.(draining := false);
        return false;
      }
      if outcome.NonblockFailed? {
        Close(connFd);
        net := net.(draining := false);
        assert net.fdOf == old(net).fdOf && net.conns == AcceptOne(old(net), outcome).conns;
        return false;
      }
      if outcome.CtlFailed? {
        Close(connFd);
        net := net.(draining := false);
        assert net.fdOf == old(net).fdOf && net.conns == AcceptOne(old(net), outcome).conns;
        return false;
      }
      EpollCtlAdd(connFd);
      return true;
    }

    method AcceptAfter(env: seq<EnvStep>, outcome: AcceptOutcome) returns (more: bool)
      requires Inv(net) && net.draining
      modifies this
      ensures net == AcceptOne(EnvRun(old(net), env), outcome) && more == net.draining
      ensures Inv(net) && net.batch == old(net.batch)
    {
      Environment(env);
      AcceptKeeps(net, outcome);
      more := AcceptTurn(outcome);
    }

    /** The accept loop, with clients acting between its turns. */
    method DrainAccepts(tries: seq<AcceptTry>)
      requires Inv(net) && net.draining
      modifies this
      ensures net == Drain(old(net), tries) && Inv(net)
      ensures !net.draining && net.batch == old(net).batch
    {
      var i, more := 0, true;
      while more && i < |tries|
        invariant 0 <= i <= |tries|
        invariant Inv(net) && net.draining == more && net.batch == old(net).batch
        invariant Drain(old(net), tries) == if more then Drain(net, tries[i..]) else net
      {
        DrainUnrolls(net, tries[i..]);
        more := AcceptAfter(tries[i].env, tries[i].outcome);
        i := i + 1;
      }
      if more {
        DrainUnrolls(net, []);
        more := AcceptAfter([], AcceptFailed);
      }
    }

    /** Clients run while the server is between two system calls. */
    method Environment(steps: seq<EnvStep>)
      requires Inv(net)
      modifies this
      ensures net == EnvRun(old(net), steps) && Inv(net)
      ensures net.batch == old(net.batch) && net.draining == old(net.draining)
      ensures net.fdOf == old(net.fdOf) && net.listenFd == old(net.listenFd) && |net.conns| >= old(|net.conns|)
    {
      EnvRunKeeps(net, steps);
      EnvRunFrame(net, steps);
      net := EnvRun(net, steps);
    }

    /** One pass of the loop body. */
    method HandleEvent(choice: Choice)
      requires Inv(net) && !net.draining && net.batch != []
      modifies this
      ensures net == ServeHead(EnvRun(old(net), choice.env), choice) && Inv(net) && !net.draining
      ensures net.batch == old(net.batch)[1..] || net.batch == []
    {
      Environment(choice.env);
      BatchHead(net);
      if net.batch[0].fd != net.listenFd {
        ServeForLoop(net, choice.oracle);
        HandleConn(choice.oracle);
      } else {
        HandleListen(choice.accepts);
      }
    }

    /** An event of the listening descriptor: an error ends the batch, else accept. */
    method HandleListen(tries: seq<AcceptTry>)
      requires Inv(net) && HeadIsListen(net)
      modifies this
      ensures net == if old(net).batch[0].flags.Broken() then ApplyServer(old(net), ListenBroken)
                     else Drain(ApplyServer(old(net), BeginDrain), tries)
      ensures Inv(net) && !net.draining && (net.batch == old(net).batch[1..] || net.batch == [])
    {
      if net.batch[0].flags.Broken() {
        NextKeeps(net, Server(ListenBroken));
        net := ApplyServer(net, ListenBroken);
      } else {
        NextKeeps(net, Server(BeginDrain));
        net := ApplyServer(net, BeginDrain);
        DrainAccepts(tries);
      }
    }

    /** The loop over one array of events (adcnetwork.c, 167-268).  Whatever clients do
        meanwhile, every event is handled or, once the listening socket has failed, forgotten;
        and the epoll set again holds exactly the descriptors still open. */
    method HandleBatch(script: seq<Choice>)
      requires Inv(net) && !net.draining && |script| >= |net.batch|
      modifies this
      ensures net == ServeBatch(old(net), script) && Inv(net)
      ensures net.batch == [] && !net.draining
      ensures net.interest == net.fdOf.Keys
    {
      var i := 0;
      while net.batch != []
        invariant 0 <= i <= |script| && |net.batch| <= |script| - i
        invariant Inv(net) && !net.draining
        invariant ServeBatch(old(net), script) == ServeBatch(net, script[i..])
        decreases |net.batch|
      {
        HandleEvent(script[i]);
        i := i + 1;
      }
    }
  }
}
