/** Edge-triggered wakeups: the server reads one request per edge and accepts until accept
    fails, so a request, a close or a waiting connection can be left with no edge to announce
    it.  Exactly which steps leave one, that it then stays, and how clients can avoid it. */
module AdcWakeups {
  import opened Wrappers
  import opened DataGrams
  import opened AdcNetwork
  import opened AdcInvariants
  import opened AdcTheorems

  // ------------------------------------------------- unheeded connections

  /** The server has the connection open, and there is a request or the end of the stream to read. */
  predicate Waiting(conn: Conn) {
    conn.server.Open? && (conn.inbox != [] || !conn.clientOpen)
  }

  /** Connection id has something to read and nothing will make the server look at it. */
  ghost predicate Unheeded(w: World, id: ConnId) {
    id < |w.conns| && Waiting(w.conns[id]) && Edges(w.ready, w.batch, w.conns[id].server.fd) == 0
  }

  /** The step raises an edge for connection id. */
  ghost predicate Rouses(w: World, e: EnvStep, id: ConnId) {
    match e
    case Send(c, _) => Attached(w, c) && w.clients[c].conn.value == id
    case Drop(c, _) => Attached(w, c) && w.clients[c].conn.value == id
    case Reset(i) => i == id && id < |w.conns| && w.conns[id].peer.ResetDue?
    case _ => false
  }

  /** Handling this event leaves its connection open with more to read, and no further edge has
      been raised since epoll_wait reported this one. */
  predicate LeavesMore(w: World)
    requires HeadIsConn(w)
  {
    var conn := w.conns[w.fdOf[w.batch[0].fd]];
    && !w.batch[0].flags.Broken()
    && conn.inbox != [] && !Refuses(w, conn.inbox[0])
    && (|conn.inbox| >= 2 || !conn.clientOpen)
    && w.batch[0].fd !in w.ready
  }

  /** An error of the listening socket forgets the only edge of a connection. */
  ghost predicate ForgottenWithBatch(w: World, id: ConnId) {
    && HeadIsListen(w) && w.batch[0].flags.Broken()
    && id < |w.conns| && Waiting(w.conns[id])
    && w.conns[id].server.fd !in w.ready
  }

  /** The server step strands connection id. */
  ghost predicate Strands(w: World, s: ServerStep, id: ConnId) {
    match s
    case ServeConn(_) => HeadIsConn(w) && w.fdOf[w.batch[0].fd] == id && LeavesMore(w)
    case ListenBroken => ForgottenWithBatch(w, id)
    case _ => false
  }

  lemma EnvUnheeded(w: World, e: EnvStep, id: ConnId)
    requires FdInv(w) && ClientInv(w)
    ensures Unheeded(ApplyEnv(w, e), id) <==> Unheeded(w, id) && !Rouses(w, e, id)
  {
  }

  lemma WaitUnheeded(w: World, events: seq<Event>, id: ConnId)
    ensures Unheeded(ApplyServer(w, Wait(events)), id) <==> Unheeded(w, id)
  {
    if CanWait(w, events) {
      WaitConservesEdges(w, events);
    }
  }

  /** epoll_wait moves edges into the batch. */
  lemma WaitConservesEdges(w: World, events: seq<Event>)
    requires CanWait(w, events)
    ensures forall fd :: Edges(w.ready - Fds(events), events, fd) == Edges(w.ready, w.batch, fd)
  {
    forall fd ensures Edges(w.ready - Fds(events), events, fd) == Edges(w.ready, w.batch, fd) {
      assert fd in Fds(events) <==> Batched(events, fd);
      assert !Batched(w.batch, fd);
    }
  }

  /** A handler that leaves its connection open has read one request from it, or has met a reset
      whose edge is still pending. */
  lemma ServeReads(w: World, o: Oracle)
    requires FdInv(w) && BatchInv(w) && EdgeInv(w) && HeadIsConn(w)
    requires Serve(w, o).conns[w.fdOf[w.batch[0].fd]].server.Open?
    ensures var id := w.fdOf[w.batch[0].fd]; var conn := Serve(w, o).conns[id];
      && conn.server == Open(w.batch[0].fd) && conn.clientOpen == w.conns[id].clientOpen
      && (w.batch[0].fd in w.ready || (w.conns[id].inbox != [] && conn.inbox == w.conns[id].inbox[1..]))
    ensures Serve(w, o).ready == w.ready && Serve(w, o).batch == w.batch[1..]
  {
    PopBatch(w);
  }

  /** Exactly when a handler leaves its connection open without meeting a reset. */
  lemma ServeStaysOpen(w: World, o: Oracle)
    requires Inv(w) && HeadIsConn(w) && w.batch[0].fd !in w.ready
    ensures var conn := w.conns[w.fdOf[w.batch[0].fd]];
      Serve(w, o).conns[w.fdOf[w.batch[0].fd]].server.Open? <==>
        !w.batch[0].flags.Broken() && conn.inbox != [] && !Refuses(w, conn.inbox[0])
  {
    PopBatch(w);
  }

  lemma ServeUnheededOwn(w: World, o: Oracle)
    requires Inv(w) && HeadIsConn(w)
    ensures Unheeded(Serve(w, o), w.fdOf[w.batch[0].fd]) <==> LeavesMore(w)
  {
    var v, fd := Serve(w, o), w.batch[0].fd;
    PopBatch(w);
    ServeOwnConnOnly(w, o);
    if fd !in w.ready {
      ServeStaysOpen(w, o);
    }
    if v.conns[w.fdOf[fd]].server.Open? {
      ServeReads(w, o);
    }
  }

  lemma ServeUnheededOther(w: World, o: Oracle, id: ConnId)
    requires Inv(w) && HeadIsConn(w) && id != w.fdOf[w.batch[0].fd]
    ensures Unheeded(Serve(w, o), id) <==> Unheeded(w, id)
  {
    PopBatch(w);
    ServeOwnConnOnly(w, o);
    if id < |w.conns| && w.conns[id].server.Open? {
      assert w.conns[id].server.fd != w.batch[0].fd;
    }
  }

  lemma ServeUnheeded(w: World, o: Oracle, id: ConnId)
    requires Inv(w) && HeadIsConn(w)
    ensures Unheeded(Serve(w, o), id) <==> Unheeded(w, id) || Strands(w, ServeConn(o), id)
  {
    if id == w.fdOf[w.batch[0].fd] {
      ServeUnheededOwn(w, o);
      PopBatch(w);
    } else {
      ServeUnheededOther(w, o, id);
    }
  }

  lemma BeginDrainUnheeded(w: World, id: ConnId)
    requires Inv(w)
    ensures Unheeded(ApplyServer(w, BeginDrain), id) <==> Unheeded(w, id)
  {
    if HeadIsListen(w) {
      PopBatch(w);
    }
  }

  lemma AcceptUnheeded(w: World, outcome: AcceptOutcome, id: ConnId)
    requires FdInv(w) && BacklogInv(w)
    ensures Unheeded(ApplyServer(w, Accept(outcome)), id) <==> Unheeded(w, id)
  {
  }

  lemma ListenBrokenUnheeded(w: World, id: ConnId)
    requires FdInv(w)
    ensures Unheeded(ApplyServer(w, ListenBroken), id) <==> Unheeded(w, id) || ForgottenWithBatch(w, id)
  {
  }

  /** A connection is unheeded after a step exactly if it was before and the step does not rouse
      it, or if the step strands it. */
  lemma UnheededExactly(w: World, step: Step, id: ConnId)
    requires Inv(w)
    ensures Unheeded(Next(w, step), id) <==>
            match step
            case Env(e) => Unheeded(w, id) && !Rouses(w, e, id)
            case Server(s) => Unheeded(w, id) || Strands(w, s, id)
  {
    match step
    case Env(e) => EnvUnheeded(w, e, id);
    case Server(s) =>
      match s {
        case Wait(events) => WaitUnheeded(w, events, id);
        case ServeConn(o) => if HeadIsConn(w) { ServeUnheeded(w, o, id); }
        case BeginDrain => BeginDrainUnheeded(w, id);
        case Accept(outcome) => AcceptUnheeded(w, outcome, id);
        case ListenBroken => ListenBrokenUnheeded(w, id);
      }
  }

  /** The same at the handler of one event, from any reachable state. */
  lemma StrandedExactly(w: World, o: Oracle)
    requires Reachable(w) && HeadIsConn(w)
    ensures Unheeded(Serve(w, o), w.fdOf[w.batch[0].fd]) <==> LeavesMore(w)
  {
    ReachableInv(w);
    ServeUnheededOwn(w, o);
  }

  // ---------------------------------------------------------- they stay so

  ghost predicate SameReading(w: World, v: World, id: ConnId) {
    && id < |w.conns| && id < |v.conns|
    && v.conns[id].client == w.conns[id].client
    && v.conns[id].clientOpen == w.conns[id].clientOpen
    && v.conns[id].peer == w.conns[id].peer
    && v.conns[id].inbox == w.conns[id].inbox
  }

  lemma EnvLeavesUnheeded(w: World, e: EnvStep, id: ConnId)
    requires id < |w.conns| && !Rouses(w, e, id)
    ensures SameReading(w, ApplyEnv(w, e), id)
  {
  }

  lemma ServeLeavesUnheeded(w: World, o: Oracle, id: ConnId)
    requires FdInv(w) && Unheeded(w, id) && HeadIsConn(w)
    ensures SameReading(w, Serve(w, o), id)
  {
    assert Batched(w.batch, w.batch[0].fd);
    assert w.fdOf[w.batch[0].fd] != id;
    ServeOwnConnOnly(w, o);
  }

  lemma ServerLeavesUnheeded(w: World, s: ServerStep, id: ConnId)
    requires FdInv(w) && BacklogInv(w) && Unheeded(w, id)
    ensures SameReading(w, ApplyServer(w, s), id)
  {
    if s.ServeConn? && HeadIsConn(w) {
      ServeLeavesUnheeded(w, s.oracle, id);
    }
  }

  /** Nothing happens at the other end of connection id, which belongs to client c. */
  ghost predicate SilentStep(step: Step, c: nat, id: ConnId) {
    match step
    case Env(Send(d, _)) => d != c
    case Env(Drop(d, _)) => d != c
    case Env(Reset(j)) => j != id
    case _ => true
  }

  ghost predicate Silent(steps: seq<Step>, c: nat, id: ConnId) {
    forall i :: 0 <= i < |steps| ==> SilentStep(steps[i], c, id)
  }

  lemma NextLeavesUnheeded(w: World, step: Step, id: ConnId)
    requires Inv(w) && Unheeded(w, id) && SilentStep(step, w.conns[id].client, id)
    ensures Unheeded(Next(w, step), id) && SameReading(w, Next(w, step), id)
  {
    UnheededExactly(w, step, id);
    match step
    case Env(e) => EnvLeavesUnheeded(w, e, id);
    case Server(s) => ServerLeavesUnheeded(w, s, id);
  }

  /** An unheeded connection stays unheeded, with the same to read, through any run in which
      its own client neither sends on it nor lets it go, and no reset arrives. */
  lemma {:induction false} UnheededForever(w: World, steps: seq<Step>, id: ConnId)
    requires Inv(w) && Unheeded(w, id) && Silent(steps, w.conns[id].client, id)
    ensures Unheeded(Exec(w, steps), id) && SameReading(w, Exec(w, steps), id)
    decreases |steps|
  {
    if steps == [] {
    } else {
      var front := steps[..|steps| - 1];
      assert forall i :: 0 <= i < |front| ==> front[i] == steps[i];
      UnheededForever(w, front, id);
      RunKeeps(w, front);
      NextLeavesUnheeded(Exec(w, front), steps[|steps| - 1], id);
    }
  }

  // ------------------------------------- connections whose client has gone

  /** An unheeded connection whose client has gone. */
  ghost predicate LeftOpen(w: World, id: ConnId) {
    Unheeded(w, id) && !w.conns[id].clientOpen
  }

  lemma NextLeavesOpen(w: World, step: Step, id: ConnId)
    requires Inv(w) && LeftOpen(w, id) && (step == Env(Reset(id)) ==> !w.conns[id].peer.ResetDue?)
    ensures LeftOpen(Next(w, step), id) && SameReading(w, Next(w, step), id)
  {
    UnheededExactly(w, step, id);
    match step
    case Env(e) => EnvLeavesUnheeded(w, e, id);
    case Server(s) => ServerLeavesUnheeded(w, s, id);
  }

  /** If no reset is due on it, nothing in any run whatever makes the server look at it again. */
  lemma {:induction false} LeftOpenForever(w: World, steps: seq<Step>, id: ConnId)
    requires Inv(w) && LeftOpen(w, id) && !w.conns[id].peer.ResetDue?
    ensures LeftOpen(Exec(w, steps), id) && SameReading(w, Exec(w, steps), id)
    decreases |steps|
  {
    if steps == [] {
    } else {
      var front := steps[..|steps| - 1];
      LeftOpenForever(w, front, id);
      RunKeeps(w, front);
      NextLeavesOpen(Exec(w, front), steps[|steps| - 1], id);
    }
  }

  /** The server has closed the connection, or will on the next event it handles of it: a reset
      has arrived, an edge tells of it, and every event of it in the batch reports it. */
  ghost predicate Doomed(w: World, id: ConnId) {
    && id < |w.conns|
    && (w.conns[id].server.Closed? ||
        (&& w.conns[id].server.Open? && w.conns[id].peer.ResetArrived?
         && Edges(w.ready, w.batch, w.conns[id].server.fd) > 0
         && forall j :: 0 <= j < |w.batch| && w.batch[j].fd == w.conns[id].server.fd ==> w.batch[j].flags.Broken()))
  }

  lemma ResetDooms(w: World, id: ConnId)
    requires Inv(w) && LeftOpen(w, id) && w.conns[id].peer.ResetDue?
    ensures Doomed(ApplyEnv(w, Reset(id)), id)
  {
    var fd := w.conns[id].server.fd;
    forall j | 0 <= j < |w.batch| ensures w.batch[j].fd != fd {
      assert w.batch[j].fd == fd ==> Batched(w.batch, fd);
    }
  }

  lemma EnvKeepsDoomed(w: World, e: EnvStep, id: ConnId)
    requires Doomed(w, id)
    ensures Doomed(ApplyEnv(w, e), id)
  {
  }

  lemma WaitKeepsDoomed(w: World, events: seq<Event>, id: ConnId)
    requires FdInv(w) && Doomed(w, id)
    ensures Doomed(ApplyServer(w, Wait(events)), id)
  {
    if CanWait(w, events) {
      WaitConservesEdges(w, events);
    }
  }

  /** The next event handled of a doomed connection closes it. */
  lemma DoomedCloses(w: World, o: Oracle)
    requires FdInv(w) && HeadIsConn(w) && Doomed(w, w.fdOf[w.batch[0].fd])
    ensures Serve(w, o).conns[w.fdOf[w.batch[0].fd]].server.Closed?
  {
  }

  lemma ServeKeepsDoomed(w: World, o: Oracle, id: ConnId)
    requires FdInv(w) && BatchInv(w) && HeadIsConn(w) && Doomed(w, id)
    ensures Doomed(Serve(w, o), id)
  {
    if w.fdOf[w.batch[0].fd] == id {
      DoomedCloses(w, o);
    } else {
      PopBatch(w);
      ServeOwnConnOnly(w, o);
      if w.conns[id].server.Open? {
        assert w.conns[id].server.fd != w.batch[0].fd;
      }
    }
  }

  lemma AcceptKeepsDoomed(w: World, outcome: AcceptOutcome, id: ConnId)
    requires FdInv(w) && BacklogInv(w) && Doomed(w, id)
    ensures Doomed(ApplyServer(w, Accept(outcome)), id)
  {
  }

  lemma BeginDrainKeepsDoomed(w: World, id: ConnId)
    requires FdInv(w) && BatchInv(w) && Doomed(w, id)
    ensures Doomed(ApplyServer(w, BeginDrain), id)
  {
    if HeadIsListen(w) {
      PopBatch(w);
    }
  }

  lemma NextKeepsDoomed(w: World, step: Step, id: ConnId)
    requires Inv(w) && Doomed(w, id) && step != Server(ListenBroken)
    ensures Doomed(Next(w, step), id)
  {
    match step
    case Env(e) => EnvKeepsDoomed(w, e, id);
    case Server(s) =>
      match s {
        case Wait(events) => WaitKeepsDoomed(w, events, id);
        case ServeConn(o) => if HeadIsConn(w) { ServeKeepsDoomed(w, o, id); }
        case BeginDrain => BeginDrainKeepsDoomed(w, id);
        case Accept(outcome) => AcceptKeepsDoomed(w, outcome, id);
      }
  }

  /** Before the reset and after it. */
  ghost predicate BeforeAndAfter(w: World, v: World, id: ConnId, arrived: bool) {
    if arrived then Doomed(v, id) else LeftOpen(v, id) && SameReading(w, v, id)
  }

  lemma NextBeforeAndAfter(w: World, v: World, step: Step, id: ConnId, arrived: bool)
    requires Inv(v) && BeforeAndAfter(w, v, id, arrived) && id < |w.conns| && w.conns[id].peer.ResetDue?
    requires step != Server(ListenBroken)
    ensures BeforeAndAfter(w, Next(v, step), id, arrived || step == Env(Reset(id)))
  {
    if arrived {
      NextKeepsDoomed(v, step, id);
    } else if step == Env(Reset(id)) {
      ResetDooms(v, id);
    } else {
      NextLeavesOpen(v, step, id);
    }
  }

  lemma InFrontOrLast(steps: seq<Step>, step: Step)
    requires steps != []
    ensures step in steps <==> step in steps[..|steps| - 1] || step == steps[|steps| - 1]
  {
    assert steps == steps[..|steps| - 1] + [steps[|steps| - 1]];
  }

  lemma {:induction false} RunBeforeAndAfter(w: World, steps: seq<Step>, id: ConnId)
    requires Inv(w) && LeftOpen(w, id) && w.conns[id].peer.ResetDue? && Server(ListenBroken) !in steps
    ensures BeforeAndAfter(w, Exec(w, steps), id, Env(Reset(id)) in steps)
    decreases |steps|
  {
    if steps == [] {
    } else {
      var front, step := steps[..|steps| - 1], steps[|steps| - 1];
      InFrontOrLast(steps, Env(Reset(id)));
      InFrontOrLast(steps, Server(ListenBroken));
      RunBeforeAndAfter(w, front, id);
      RunKeeps(w, front);
      NextBeforeAndAfter(w, Exec(w, front), step, id, Env(Reset(id)) in front);
    }
  }

  /** A connection left open behind a reply that provokes a reset: as long as the listening socket
      does not fail, it stays unheeded exactly until that reset arrives, and from then on it is
      closed or about to be. */
  lemma {:induction false} LeftOpenUntilReset(w: World, steps: seq<Step>, id: ConnId)
    requires Inv(w) && LeftOpen(w, id) && w.conns[id].peer.ResetDue?
    requires Server(ListenBroken) !in steps
    ensures Unheeded(Exec(w, steps), id) <==> Env(Reset(id)) !in steps
    ensures Env(Reset(id)) in steps ==> Doomed(Exec(w, steps), id)
    ensures Env(Reset(id)) !in steps ==> Exec(w, steps).conns[id].inbox == w.conns[id].inbox
  {
    RunBeforeAndAfter(w, steps, id);
  }

  // ------------------------------------------------------- waiting connections

  /** Connections wait to be accepted and nothing will make the server accept them. */
  ghost predicate BacklogUnheeded(w: World) {
    w.backlog != [] && !w.draining && Edges(w.ready, w.batch, w.listenFd) == 0
  }

  /** The accept loop ends with this call, connections are left waiting, and none has come since
      epoll_wait reported the last. */
  ghost predicate StopsShort(w: World, outcome: AcceptOutcome) {
    && w.draining && Edges(w.ready, w.batch, w.listenFd) == 0
    && match Resolve(w, outcome)
       case AcceptFailed => w.backlog != []
       case Accepted(_) => false
       case _ => |w.backlog| >= 2
  }

  predicate Connects(w: World, step: Step) {
    step.Env? && step.env.Connect? && step.env.client < |w.clients| && w.clients[step.env.client].conn.None? && w.listenOpen
  }

  lemma EnvBacklog(w: World, e: EnvStep)
    requires FdInv(w)
    ensures BacklogUnheeded(ApplyEnv(w, e)) <==> BacklogUnheeded(w) && !Connects(w, Env(e))
  {
  }

  lemma ServeBacklog(w: World, o: Oracle)
    requires FdInv(w) && BatchInv(w) && HeadIsConn(w)
    ensures BacklogUnheeded(Serve(w, o)) <==> BacklogUnheeded(w)
  {
    PopBatch(w);
    ServeOwnConnOnly(w, o);
  }

  lemma AcceptBacklog(w: World, outcome: AcceptOutcome)
    requires FdInv(w)
    ensures BacklogUnheeded(ApplyServer(w, Accept(outcome))) <==> BacklogUnheeded(w) || StopsShort(w, outcome)
  {
  }

  lemma ListenBacklog(w: World)
    ensures BacklogUnheeded(ApplyServer(w, BeginDrain)) <==> BacklogUnheeded(w)
    ensures BacklogUnheeded(ApplyServer(w, ListenBroken)) <==> BacklogUnheeded(w)
  {
    if HeadIsListen(w) {
      assert Batched(w.batch, w.listenFd);
    }
  }

  /** The backlog is unheeded after a step exactly if it was before and nobody connects, or if
      the step is a call in the accept loop that ends it short. */
  lemma BacklogExactly(w: World, step: Step)
    requires Inv(w)
    ensures BacklogUnheeded(Next(w, step)) <==>
            (BacklogUnheeded(w) && !Connects(w, step)) ||
            (step.Server? && step.server.Accept? && StopsShort(w, step.server.outcome))
  {
    match step
    case Env(e) => EnvBacklog(w, e);
    case Server(s) =>
      match s {
        case Wait(events) => if CanWait(w, events) { WaitConservesEdges(w, events); }
        case ServeConn(o) => if HeadIsConn(w) { ServeBacklog(w, o); }
        case BeginDrain => ListenBacklog(w);
        case Accept(outcome) => AcceptBacklog(w, outcome);
        case ListenBroken => ListenBacklog(w);
      }
  }

  /** An unheeded backlog stays as it is until another client connects. */
  lemma {:induction false} BacklogForever(w: World, steps: seq<Step>)
    requires Inv(w) && BacklogUnheeded(w)
    requires forall i :: 0 <= i < |steps| ==> !(steps[i].Env? && steps[i].env.Connect?)
    ensures BacklogUnheeded(Exec(w, steps)) && Exec(w, steps).backlog == w.backlog
    decreases |steps|
  {
    if steps == [] {
    } else {
      var front, step := steps[..|steps| - 1], steps[|steps| - 1];
      assert forall i :: 0 <= i < |front| ==> front[i] == steps[i];
      BacklogForever(w, front);
      RunKeeps(w, front);
      BacklogExactly(Exec(w, front), step);
      BacklogLeft(Exec(w, front), step);
    }
  }

  lemma BacklogLeft(w: World, step: Step)
    requires Inv(w) && BacklogUnheeded(w) && !(step.Env? && step.env.Connect?)
    ensures Next(w, step).backlog == w.backlog
  {
    match step
    case Env(e) =>
    case Server(s) => ServerBacklogLeft(w, s);
  }

  lemma ServerBacklogLeft(w: World, s: ServerStep)
    requires BacklogUnheeded(w)
    ensures ApplyServer(w, s).backlog == w.backlog
  {
    if s.ServeConn? && HeadIsConn(w) {
      ServeOwnConnOnly(w, s.oracle);
    }
    if HeadIsListen(w) {
      assert Batched(w.batch, w.listenFd);
    }
  }

  // --------------------------------------------------------- how to avoid it

  ghost predicate NothingPending(w: World, c: nat) {
    Attached(w, c) ==>
      |w.conns[w.clients[c].conn.value].sent| == |w.conns[w.clients[c].conn.value].processed|
  }

  /** Clients stop and wait for each reply, and no call made while accepting fails. */
  ghost predicate Disciplined(w: World, step: Step) {
    match step
    case Env(Send(c, _)) => NothingPending(w, c)
    case Server(Wait(events)) => forall i :: 0 <= i < |events| && events[i].fd == w.listenFd ==> !events[i].flags.Broken()
    case Server(Accept(outcome)) => w.backlog == [] || Resolve(w, outcome).Accepted?
    case _ => true
  }

  ghost predicate DisciplinedRun(w: World, steps: seq<Step>)
    decreases |steps|
  {
    steps == [] ||
    var front := steps[..|steps| - 1];
    DisciplinedRun(w, front) && Disciplined(Exec(w, front), steps[|steps| - 1])
  }

  ghost predicate OneAtATime(w: World) {
    forall id :: 0 <= id < |w.conns| ==> |w.conns[id].sent| <= |w.conns[id].processed| + 1
  }

  ghost predicate WakeInv(w: World) {
    && OneAtATime(w)
    && (forall id :: 0 <= id < |w.conns| && w.conns[id].inbox != [] ==> !Unheeded(w, id))
    && !BacklogUnheeded(w)
    && (forall j :: 0 <= j < |w.batch| && w.batch[j].fd == w.listenFd ==> !w.batch[j].flags.Broken())
  }

  lemma EnvKeepsOneAtATime(w: World, e: EnvStep)
    requires OneAtATime(w) && Disciplined(w, Env(e))
    ensures OneAtATime(ApplyEnv(w, e))
  {
  }

  lemma ServeKeepsOneAtATime(w: World, o: Oracle)
    requires OneAtATime(w) && HeadIsConn(w)
    ensures OneAtATime(Serve(w, o))
  {
  }

  lemma NextKeepsOneAtATime(w: World, step: Step)
    requires OneAtATime(w) && Disciplined(w, step)
    ensures OneAtATime(Next(w, step))
  {
    match step
    case Env(e) => EnvKeepsOneAtATime(w, e);
    case Server(s) =>
      if s.ServeConn? && HeadIsConn(w) {
        ServeKeepsOneAtATime(w, s.oracle);
      }
  }

  lemma OneUnread(w: World, id: ConnId)
    requires Inv(w) && OneAtATime(w) && id < |w.conns|
    ensures |w.conns[id].inbox| <= 1
  {
    var conn := w.conns[id];
    assert ConnInv(w.devices, w.adcLog, id, conn);
    RepliesCount(conn.ledger);
    assert |conn.processed + conn.outbox| == |Replies(conn.ledger)|;
  }

  lemma NextKeepsListening(w: World, step: Step)
    requires WakeInv(w) && Disciplined(w, step)
    ensures var v := Next(w, step); forall j :: 0 <= j < |v.batch| && v.batch[j].fd == v.listenFd ==> !v.batch[j].flags.Broken()
  {
    if step.Server? && step.server.ServeConn? && HeadIsConn(w) {
      ServeOwnConnOnly(w, step.server.oracle);
    }
  }

  /** No step of a disciplined run strands an unread request. */
  lemma NextLeavesNoRequest(w: World, step: Step, id: ConnId)
    requires Inv(w) && WakeInv(w) && Disciplined(w, step) && Unheeded(Next(w, step), id)
    ensures Next(w, step).conns[id].inbox == []
  {
    UnheededExactly(w, step, id);
    if Unheeded(w, id) {
      match step
      case Env(e) => EnvLeavesUnheeded(w, e, id);
      case Server(s) => ServerLeavesUnheeded(w, s, id);
    } else {
      OneUnread(w, id);
      ServeReads(w, step.server.oracle);
    }
  }

  lemma NextKeepsWake(w: World, step: Step)
    requires Inv(w) && WakeInv(w) && Disciplined(w, step)
    ensures WakeInv(Next(w, step))
  {
    NextKeepsOneAtATime(w, step);
    NextKeepsListening(w, step);
    BacklogExactly(w, step);
    var v := Next(w, step);
    forall id | 0 <= id < |v.conns| && v.conns[id].inbox != [] ensures !Unheeded(v, id) {
      if Unheeded(v, id) {
        NextLeavesNoRequest(w, step, id);
        assert false;
      }
    }
  }

  lemma {:induction false} DisciplinedRunKeepsWake(w: World, steps: seq<Step>)
    requires Inv(w) && WakeInv(w) && DisciplinedRun(w, steps)
    ensures WakeInv(Exec(w, steps))
    decreases |steps|
  {
    if steps == [] {
    } else {
      var front := steps[..|steps| - 1];
      DisciplinedRunKeepsWake(w, front);
      RunKeeps(w, front);
      NextKeepsWake(Exec(w, front), steps[|steps| - 1]);
    }
  }

  /** No missed wakeup: with stop-and-wait clients and no failure while accepting, whenever the
      server goes back to epoll_wait every waiting connection and every unread request of an
      accepted connection has an edge pending, although each edge is answered by one read. */
  lemma {:induction false} NoMissedWakeup(listenFd: Fd, others: set<Fd>, devices: set<U8>, channels: seq<U8>, steps: seq<Step>)
    requires DisciplinedRun(Start(listenFd, others, devices, channels), steps)
    ensures var w := Exec(Start(listenFd, others, devices, channels), steps);
      w.batch == [] && !w.draining ==>
        && (w.backlog != [] ==> w.listenFd in w.ready)
        && forall id :: 0 <= id < |w.conns| && w.conns[id].server.Open? && w.conns[id].inbox != [] ==>
             w.conns[id].server.fd in w.ready
  {
    var start := Start(listenFd, others, devices, channels);
    StartInv(listenFd, others, devices, channels);
    DisciplinedRunKeepsWake(start, steps);
    var w := Exec(start, steps);
    forall id | 0 <= id < |w.conns| && w.conns[id].server.Open? && w.conns[id].inbox != [] && w.batch == []
      ensures w.conns[id].server.fd in w.ready
    {
      assert !Unheeded(w, id);
    }
  }

  /** Moreover a client lets go of a connection only when no reply is due on it. */
  ghost predicate TidyRun(w: World, steps: seq<Step>)
    decreases |steps|
  {
    steps == [] ||
    var front, step := steps[..|steps| - 1], steps[|steps| - 1];
    && TidyRun(w, front)
    && Disciplined(Exec(w, front), step)
    && (step.Env? && step.env.Drop? ==> NothingPending(Exec(w, front), step.env.client))
  }

  /** A connection its client has let go of has nothing unread. */
  ghost predicate TidyInv(w: World) {
    forall id :: 0 <= id < |w.conns| && !w.conns[id].clientOpen ==> w.conns[id].inbox == []
  }

  lemma AllRead(w: World, id: ConnId)
    requires Inv(w) && id < |w.conns| && |w.conns[id].sent| == |w.conns[id].processed|
    ensures w.conns[id].inbox == []
  {
    var conn := w.conns[id];
    assert ConnInv(w.devices, w.adcLog, id, conn);
    RepliesCount(conn.ledger);
    assert |conn.processed + conn.outbox| == |Replies(conn.ledger)|;
  }

  lemma EnvKeepsTidy(w: World, e: EnvStep)
    requires ClientInv(w) && TidyInv(w)
    requires e.Drop? && Attached(w, e.client) ==> w.conns[w.clients[e.client].conn.value].inbox == []
    ensures TidyInv(ApplyEnv(w, e))
  {
  }

  lemma ServeKeepsTidy(w: World, o: Oracle)
    requires TidyInv(w) && HeadIsConn(w)
    ensures TidyInv(Serve(w, o))
  {
  }

  lemma ServerKeepsTidy(w: World, s: ServerStep)
    requires TidyInv(w)
    ensures TidyInv(ApplyServer(w, s))
  {
    if s.ServeConn? && HeadIsConn(w) {
      ServeKeepsTidy(w, s.oracle);
    }
  }

  lemma NextKeepsTidy(w: World, step: Step)
    requires Inv(w) && TidyInv(w)
    requires step.Env? && step.env.Drop? ==> NothingPending(w, step.env.client)
    ensures TidyInv(Next(w, step))
  {
    match step
    case Env(e) =>
      if e.Drop? && Attached(w, e.client) {
        AllRead(w, w.clients[e.client].conn.value);
      }
      EnvKeepsTidy(w, e);
    case Server(s) =>
      ServerKeepsTidy(w, s);
  }

  lemma {:induction false} TidyRunHeedsAll(w: World, steps: seq<Step>)
    requires Inv(w) && WakeInv(w) && TidyInv(w) && (forall id :: !Unheeded(w, id)) && TidyRun(w, steps)
    ensures var v := Exec(w, steps); WakeInv(v) && TidyInv(v) && forall id :: !Unheeded(v, id)
    decreases |steps|
  {
    if steps == [] {
    } else {
      var front, step := steps[..|steps| - 1], steps[|steps| - 1];
      var v := Exec(w, front);
      TidyRunHeedsAll(w, front);
      RunKeeps(w, front);
      NextKeepsWake(v, step);
      NextKeepsTidy(v, step);
      forall id ensures !Unheeded(Next(v, step), id) {
        TidyStepHeeds(v, step, id);
      }
    }
  }

  lemma TidyStepHeeds(w: World, step: Step, id: ConnId)
    requires Inv(w) && WakeInv(w) && TidyInv(w) && !Unheeded(w, id) && Disciplined(w, step)
    ensures !Unheeded(Next(w, step), id)
  {
    UnheededExactly(w, step, id);
    if id < |w.conns| {
      OneUnread(w, id);
    }
  }

  /** No missed close: if besides clients let go of a connection only when no reply is due, no
      accepted connection at all is ever left with something to read and no edge. */
  lemma {:induction false} NoMissedClose(listenFd: Fd, others: set<Fd>, devices: set<U8>, channels: seq<U8>, steps: seq<Step>, id: ConnId)
    requires TidyRun(Start(listenFd, others, devices, channels), steps)
    ensures !Unheeded(Exec(Start(listenFd, others, devices, channels), steps), id)
  {
    StartInv(listenFd, others, devices, channels);
    TidyRunHeedsAll(Start(listenFd, others, devices, channels), steps);
  }

  // --------------------------------------------------------------- examples

  const PLAIN := Flags(false, false, true)

  lemma Reach(w: World, step: Step) returns (v: World)
    requires Reachable(w)
    ensures v == Next(w, step) && Reachable(v)
  {
    ReachableNext(w, step);
    v := Next(w, step);
  }

  /** A reachable state with one connection in the backlog and the accept loop running. */
  lemma OneQueued() returns (w: World)
    ensures Reachable(w) && w.listenFd == 3 && w.batch == [] && w.draining && w.backlog == [0]
    ensures w.fdOf == map[] && w.interest == {} && w.ready == {} && w.devices == {} && w.reserved == {3}
    ensures w.conns == [Conn(0, true, Queued, NoReset, [], [], [], [], [])] && w.clients == [Client(Some(0), 0)]
  {
    w := Start(3, {}, {}, [0]);
    assert w == Exec(w, []);
    w := Reach(w, Env(Connect(0)));
    assert w.conns == [Conn(0, true, Queued, NoReset, [], [], [], [], [])] && w.clients == [Client(Some(0), 0)];
    w := Reach(w, Server(Wait([Event(3, PLAIN, 0)])));
    w := Reach(w, Server(BeginDrain));
  }

  /** A reachable state with one connection accepted and nothing pending. */
  lemma OneIdle() returns (w: World)
    ensures Reachable(w) && w.listenFd == 3 && w.batch == [] && !w.draining && w.backlog == []
    ensures w.fdOf == map[4 := 0] && w.interest == {4} && w.ready == {} && w.devices == {}
    ensures w.conns == [Conn(0, true, Open(4), NoReset, [], [], [], [], [])] && w.clients == [Client(Some(0), 0)]
  {
    w := OneQueued();
    w := Reach(w, Server(Accept(Accepted(4))));
    w := Reach(w, Server(Accept(AcceptFailed)));
  }

  /** A reachable state with one request sent on it. */
  lemma OneSent(request: DataGram) returns (w: World)
    ensures Reachable(w) && w.listenFd == 3 && w.batch == [] && !w.draining
    ensures w.fdOf == map[4 := 0] && w.interest == {4} && w.ready == {4} && w.devices == {}
    ensures |w.conns| == 1 && w.clients == [Client(Some(0), 0)]
    ensures var conn := w.conns[0]; conn.clientOpen && conn.server == Open(4) && conn.peer == NoReset && conn.inbox == [request]
  {
    w := OneIdle();
    w := Reach(w, Env(Send(0, request)));
  }

  /** A reachable state in which an event is about to be handled and two requests wait. */
  lemma TwoUnread(request: DataGram) returns (w: World)
    ensures Reachable(w) && w.listenFd == 3 && w.batch == [Event(4, PLAIN, 0)] && !w.draining
    ensures w.fdOf == map[4 := 0] && w.ready == {} && w.devices == {}
    ensures |w.conns| == 1 && w.conns[0].server == Open(4) && w.conns[0].inbox == [request, request] && w.conns[0].clientOpen
  {
    w := OneSent(request);
    w := Reach(w, Env(Send(0, request)));
    assert w.conns[0].inbox == [request, request] && w.conns[0].clientOpen && w.ready == {4};
    w := Reach(w, Server(Wait([Event(4, PLAIN, 0)])));
    assert w.ready == {};
  }

  /** Requests sent without waiting share one edge: a reachable state from which, as long as its
      client sends nothing more and stays, a request is never read whatever else happens. */
  lemma PipeliningStrands(request: DataGram, o: Oracle)
    requires request.kind == TYPE_GETTIME
    ensures exists w: World, id: ConnId ::
      && Reachable(w) && w.batch == [] && !w.draining
      && Unheeded(w, id) && w.conns[id].clientOpen
      && forall steps :: Silent(steps, w.conns[id].client, id) ==>
           Unheeded(Exec(w, steps), id) && Exec(w, steps).conns[id].inbox == w.conns[id].inbox
  {
    var w := TwoUnread(request);
    StrandedExactly(w, o);
    var v := Reach(w, Server(ServeConn(o)));
    ReachableInv(v);
    assert v == Serve(w, o) && v.batch == [] && Unheeded(v, 0) && v.conns[0].clientOpen;
    forall steps | Silent(steps, v.conns[0].client, 0)
      ensures Unheeded(Exec(v, steps), 0) && Exec(v, steps).conns[0].inbox == v.conns[0].inbox
    {
      UnheededForever(v, steps, 0);
    }
  }

  /** A request and the close behind it share an edge: the handler leaves the connection open. */
  lemma CloseBehindRequest(request: DataGram, o: Oracle) returns (w: World, id: ConnId)
    requires request.kind == TYPE_GETTIME
    ensures Reachable(w) && w.batch == [] && !w.draining && LeftOpen(w, id)
    ensures w.conns[id].peer == if o.writeWorks then ResetDue else NoReset
  {
    w := OneSent(request);
    w := Reach(w, Env(Drop(0, false)));
    assert w.conns[0].inbox == [request] && !w.conns[0].clientOpen && w.conns[0].peer == NoReset && w.ready == {4};
    w := Reach(w, Server(Wait([Event(4, PLAIN, 0)])));
    StrandedExactly(w, o);
    var v := Reach(w, Server(ServeConn(o)));
    assert v == Serve(w, o) && v.batch == [] && Unheeded(v, 0);
    w, id := v, 0;
  }

  /** If the reply is written, the connection stays so exactly until the reset the reply provokes
      arrives. */
  lemma CloseBehindRequestStrands(request: DataGram, o: Oracle)
    requires request.kind == TYPE_GETTIME && o.writeWorks
    ensures exists w: World, id: ConnId ::
      && Reachable(w) && w.batch == [] && !w.draining && LeftOpen(w, id)
      && forall steps :: Server(ListenBroken) !in steps ==> (Unheeded(Exec(w, steps), id) <==> Env(Reset(id)) !in steps)
  {
    var w, id := CloseBehindRequest(request, o);
    ReachableInv(w);
    forall steps | Server(ListenBroken) !in steps
      ensures Unheeded(Exec(w, steps), id) <==> Env(Reset(id)) !in steps
    {
      LeftOpenUntilReset(w, steps, id);
    }
  }

  ghost predicate LeftOpenAlways(w: World, id: ConnId) {
    LeftOpen(w, id) && forall steps :: LeftOpen(Exec(w, steps), id)
  }

  /** If the write fails, it stays so for ever. */
  lemma CloseBehindFailedWrite(request: DataGram, o: Oracle)
    requires request.kind == TYPE_GETTIME && !o.writeWorks
    ensures exists w: World, id: ConnId ::
      Reachable(w) && w.batch == [] && !w.draining && LeftOpenAlways(w, id)
  {
    var w, id := CloseBehindRequest(request, o);
    ReachableInv(w);
    forall steps ensures LeftOpen(Exec(w, steps), id) {
      LeftOpenForever(w, steps, id);
    }
    assert LeftOpenAlways(w, id);
  }

  /** One failing accept leaves a connection waiting. */
  lemma FailedAcceptStrands()
    ensures exists w: World :: Reachable(w) && w.batch == [] && BacklogUnheeded(w)
  {
    var w := OneQueued();
    w := Reach(w, Server(Accept(AcceptFailed)));
    assert w.batch == [] && BacklogUnheeded(w);
  }
}
