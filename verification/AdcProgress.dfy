/** Progress of the server: left alone by its clients it does a bounded amount of work, and in a
    disciplined run nothing is left unread or waiting when it comes to rest. */
module AdcProgress {
  import opened Wrappers
  import opened DataGrams
  import opened AdcNetwork
  import opened AdcInvariants
  import opened AdcTheorems
  import opened AdcWakeups

  /** How many steps the server can still take: an edge costs a wait and a handler, a waiting
      connection an accept and an edge, and an accept loop its last, failing call. */
  function Load(w: World): nat {
    3 * |w.ready| + 2 * |w.batch| + 4 * |w.backlog| + if w.draining then 1 else 0
  }

  lemma {:induction false} FdsCount(events: seq<Event>)
    requires Distinct(events)
    ensures |Fds(events)| == |events|
  {
    if events == [] {
    } else {
      FdsCount(events[1..]);
      assert Fds(events) == Fds(events[1..]) + {events[0].fd};
      assert events[0].fd !in Fds(events[1..]);
    }
  }

  lemma SmallerSet(a: set<Fd>, b: set<Fd>)
    requires a <= b
    ensures |a| <= |b|
  {
    assert b == a + (b - a);
  }

  lemma WaitTakes(w: World, events: seq<Event>)
    requires CanWait(w, events)
    ensures |ApplyServer(w, Wait(events)).ready| == |w.ready| - |events|
  {
    FdsCount(events);
    assert Fds(events) <= w.ready;
    assert w.ready == Fds(events) + (w.ready - Fds(events));
  }

  lemma ServeTakes(w: World, o: Oracle)
    requires HeadIsConn(w)
    ensures var v := Serve(w, o);
      |v.ready| <= |w.ready| && |v.batch| == |w.batch| - 1 && v.backlog == w.backlog && v.draining == w.draining
  {
    ServeOwnConnOnly(w, o);
    SmallerSet(Serve(w, o).ready, w.ready);
  }

  lemma AcceptTakes(w: World, outcome: AcceptOutcome)
    requires w.draining
    ensures var v := AcceptOne(w, outcome);
      && v.batch == w.batch
      && match Resolve(w, outcome)
         case AcceptFailed => !v.draining && v.ready == w.ready && v.backlog == w.backlog
         case Accepted(_) => v.draining && |v.ready| <= |w.ready| + 1 && |v.backlog| == |w.backlog| - 1
         case _ => !v.draining && v.ready == w.ready && |v.backlog| == |w.backlog| - 1
  {
  }

  lemma ListenTakes(w: World)
    requires HeadIsListen(w)
    ensures var v := ApplyServer(w, BeginDrain);
      v == w || (v.ready == w.ready && |v.batch| == |w.batch| - 1 && v.backlog == w.backlog)
    ensures var v := ApplyServer(w, ListenBroken);
      v == w || (|v.ready| <= |w.ready| && v.batch == [] && v.backlog == [] && v.draining == w.draining)
  {
    SmallerSet(ApplyServer(w, ListenBroken).ready, w.ready);
  }

  /** Every step of the server that does anything uses up some of the load. */
  lemma ServerStepTakes(w: World, s: ServerStep)
    ensures ApplyServer(w, s) == w || Load(ApplyServer(w, s)) < Load(w)
  {
    match s
    case Wait(events) => if CanWait(w, events) { WaitTakes(w, events); }
    case ServeConn(o) => if HeadIsConn(w) { ServeTakes(w, o); }
    case BeginDrain => if HeadIsListen(w) { ListenTakes(w); }
    case Accept(outcome) => if w.draining { AcceptTakes(w, outcome); }
    case ListenBroken => if HeadIsListen(w) { ListenTakes(w); }
  }

  predicate Busy(w: World, step: Step) {
    step.Server? && Next(w, step) != w
  }

  /** The clients are silent, and every step of the server does something. */
  ghost predicate BusyRun(w: World, steps: seq<Step>)
    decreases |steps|
  {
    steps == [] ||
    var front := steps[..|steps| - 1];
    BusyRun(w, front) && Busy(Exec(w, front), steps[|steps| - 1])
  }

  /** While clients are silent the server takes no more steps than its load. */
  lemma {:induction false} BusyRunBounded(w: World, steps: seq<Step>)
    requires BusyRun(w, steps)
    ensures |steps| + Load(Exec(w, steps)) <= Load(w)
    decreases |steps|
  {
    if steps == [] {
    } else {
      BusyRunBounded(w, steps[..|steps| - 1]);
      ServerStepTakes(Exec(w, steps[..|steps| - 1]), steps[|steps| - 1].server);
    }
  }

  // ---------------------------------------------------------- waits

  predicate ServerRun(steps: seq<Step>) {
    forall i :: 0 <= i < |steps| ==> steps[i].Server?
  }

  /** How often epoll_wait returns with events. */
  function Waits(w: World, steps: seq<Step>): nat
    decreases |steps|
  {
    if steps == [] then 0
    else
      var front, step := steps[..|steps| - 1], steps[|steps| - 1];
      Waits(w, front) + if step.Server? && step.server.Wait? && CanWait(Exec(w, front), step.server.events) then 1 else 0
  }

  lemma ServerStepWaits(w: World, s: ServerStep)
    ensures var v := ApplyServer(w, s);
      |v.ready| + |v.backlog| + (if s.Wait? && CanWait(w, s.events) then 1 else 0) <= |w.ready| + |w.backlog|
  {
    match s
    case Wait(events) => if CanWait(w, events) { WaitTakes(w, events); }
    case ServeConn(o) => if HeadIsConn(w) { ServeTakes(w, o); }
    case BeginDrain => if HeadIsListen(w) { ListenTakes(w); }
    case Accept(outcome) => if w.draining { AcceptTakes(w, outcome); }
    case ListenBroken => if HeadIsListen(w) { ListenTakes(w); }
  }

  /** While clients are silent epoll_wait returns no more often than there are edges pending and
      connections waiting. */
  lemma {:induction false} WaitsBounded(w: World, steps: seq<Step>)
    requires ServerRun(steps)
    ensures var v := Exec(w, steps); Waits(w, steps) + |v.ready| + |v.backlog| <= |w.ready| + |w.backlog|
    decreases |steps|
  {
    if steps == [] {
    } else {
      var front := steps[..|steps| - 1];
      assert forall i :: 0 <= i < |front| ==> front[i] == steps[i];
      WaitsBounded(w, front);
      ServerStepWaits(Exec(w, front), steps[|steps| - 1].server);
    }
  }

  // ---------------------------------------------------------- rest

  ghost predicate AtRest(w: World) {
    w.ready == {} && w.batch == [] && !w.draining
  }

  function Max(a: nat, b: nat): nat {
    if a <= b then b else a
  }

  lemma FreshFd(used: set<Fd>) returns (fd: Fd)
    ensures fd !in used
  {
    fd := 0;
    var above: set<Fd> := {};
    var rest := used;
    while rest != {}
      invariant above + rest == used
      invariant forall x :: x in above ==> x < fd
      decreases |rest|
    {
      var x: Fd :| x in rest;
      above, rest := above + {x}, rest - {x};
      fd := Max(fd, x + 1);
    }
  }

  /** The event epoll_wait reports for an edge. */
  function Report(w: World, fd: Fd): Event {
    Event(fd, Flags(WasReset(w, fd), false, true), if fd in w.fdOf then w.fdOf[fd] else 0)
  }

  /** Inside the accept loop there is a call to make. */
  lemma AcceptCanMove(w: World) returns (s: ServerStep)
    requires Inv(w) && w.draining
    ensures Disciplined(w, Server(s)) && ApplyServer(w, s) != w
  {
    if w.backlog == [] {
      s := Accept(AcceptFailed);
    } else {
      var fd := FreshFd(w.reserved + w.fdOf.Keys);
      s := Accept(Accepted(fd));
      AcceptTakes(w, Accepted(fd));
    }
  }

  /** A server not at rest can take a step that does something and that no failure disturbs. */
  lemma CanMove(w: World) returns (s: ServerStep)
    requires Inv(w) && !AtRest(w)
    ensures Disciplined(w, Server(s)) && ApplyServer(w, s) != w
  {
    if w.draining {
      s := AcceptCanMove(w);
    } else if w.batch != [] {
      if w.batch[0].fd != w.listenFd {
        s := ServeConn(Oracle(AdcResult(0, 0), None, false, false));
        ServeTakes(w, s.oracle);
      } else {
        s := if w.batch[0].flags.Broken() then ListenBroken else BeginDrain;
      }
    } else {
      var fd :| fd in w.ready;
      s := Wait([Report(w, fd)]);
      assert fd != w.listenFd ==> fd in w.fdOf;
      assert w.listenFd !in w.fdOf;
      assert CanWait(w, [Report(w, fd)]);
    }
  }

  lemma WaitNeedsEdge(w: World, events: seq<Event>)
    ensures CanWait(w, events) ==> w.ready != {}
  {
    if CanWait(w, events) {
      assert events[0].fd in w.ready;
    }
  }

  /** The server is at rest exactly if no step of it does anything. */
  lemma AtRestExactly(w: World)
    requires Inv(w)
    ensures AtRest(w) <==> forall s :: ApplyServer(w, s) == w
  {
    if AtRest(w) {
      forall s ensures ApplyServer(w, s) == w {
        if s.Wait? {
          WaitNeedsEdge(w, s.events);
        }
      }
    } else {
      var s := CanMove(w);
      assert ApplyServer(w, s) != w;
    }
  }

  /** No connection waits to be accepted, and on every connection not closed all requests are read. */
  ghost predicate AllServed(w: World) {
    && w.backlog == []
    && forall id :: 0 <= id < |w.conns| && !w.conns[id].server.Closed? ==> w.conns[id].server.Open? && w.conns[id].inbox == []
  }

  /** The system starts at rest and listening, with no connection and every client unattached. */
  lemma StartsAtRest(listenFd: Fd, others: set<Fd>, devices: set<U8>, channels: seq<U8>)
    ensures var w := Start(listenFd, others, devices, channels);
      && AtRest(w) && AllServed(w) && w.listenOpen && w.listenFd == listenFd && w.conns == [] && w.adcLog == []
      && w.fdOf == map[] && w.interest == {} && w.reserved == others + {listenFd} && w.devices == devices
      && |w.clients| == |channels| && forall c :: 0 <= c < |channels| ==> w.clients[c] == Client(None, channels[c])
  {
  }

  lemma RestServes(w: World)
    requires Inv(w) && WakeInv(w) && AtRest(w)
    ensures AllServed(w)
  {
    assert !BacklogUnheeded(w);
    forall id: ConnId | id < |w.conns| && !w.conns[id].server.Closed? ensures w.conns[id].server.Open? && w.conns[id].inbox == [] {
      assert w.conns[id].server.Queued? ==> id in w.backlog;
      assert !Unheeded(w, id) || w.conns[id].inbox == [];
    }
  }

  /** Progress: after any disciplined run, while clients are silent and accepting does not fail,
      the server comes to rest within its load of steps; and at rest, which it is at the latest when
      epoll_wait has returned once for each edge pending and each connection waiting and the last
      batch is done, no connection waits and every request is read. */
  lemma {:induction false} Progress(
      listenFd: Fd, others: set<Fd>, devices: set<U8>, channels: seq<U8>, before: seq<Step>, after: seq<Step>)
    requires DisciplinedRun(Start(listenFd, others, devices, channels), before)
    requires DisciplinedRun(Exec(Start(listenFd, others, devices, channels), before), after) && ServerRun(after)
    ensures var w := Exec(Start(listenFd, others, devices, channels), before); var v := Exec(w, after);
      && (BusyRun(w, after) ==> |after| <= Load(w))
      && Waits(w, after) <= |w.ready| + |w.backlog|
      && (Waits(w, after) == |w.ready| + |w.backlog| && v.batch == [] && !v.draining ==> AtRest(v))
      && (AtRest(v) ==> AllServed(v))
  {
    var start := Start(listenFd, others, devices, channels);
    var w := Exec(start, before);
    StartInv(listenFd, others, devices, channels);
    RunKeeps(start, before);
    RunKeeps(w, after);
    DisciplinedRunKeepsWake(start, before);
    DisciplinedRunKeepsWake(w, after);
    WaitsBounded(w, after);
    if BusyRun(w, after) {
      BusyRunBounded(w, after);
    }
    if AtRest(Exec(w, after)) {
      RestServes(Exec(w, after));
    }
  }

  lemma {:induction false} ExecFirst(w: World, step: Step, rest: seq<Step>)
    ensures Exec(w, [step] + rest) == Exec(Next(w, step), rest)
    decreases |rest|
  {
    var all := [step] + rest;
    if rest == [] {
      assert all[..|all| - 1] == [];
    } else {
      ExecFirst(w, step, rest[..|rest| - 1]);
      assert all[..|all| - 1] == [step] + rest[..|rest| - 1];
    }
  }

  lemma {:induction false} DisciplinedFirst(w: World, step: Step, rest: seq<Step>)
    requires Disciplined(w, step) && DisciplinedRun(Next(w, step), rest)
    ensures DisciplinedRun(w, [step] + rest)
    decreases |rest|
  {
    var all := [step] + rest;
    if rest == [] {
      assert all[..|all| - 1] == [];
    } else {
      var front := rest[..|rest| - 1];
      DisciplinedFirst(w, step, front);
      ExecFirst(w, step, front);
      assert all[..|all| - 1] == [step] + front;
    }
  }

  lemma BusyAppend(w: World, front: seq<Step>, last: Step)
    requires BusyRun(w, front) && Busy(Exec(w, front), last)
    ensures BusyRun(w, front + [last])
  {
    assert (front + [last])[..|front|] == front;
  }

  lemma BusyParts(w: World, steps: seq<Step>)
    requires BusyRun(w, steps) && steps != []
    ensures BusyRun(w, steps[..|steps| - 1]) && Busy(Exec(w, steps[..|steps| - 1]), steps[|steps| - 1])
  {
  }

  lemma {:induction false} BusyFirst(w: World, step: Step, rest: seq<Step>)
    requires Busy(w, step) && BusyRun(Next(w, step), rest)
    ensures BusyRun(w, [step] + rest)
    decreases |rest|
  {
    if rest == [] {
      assert [] + [step] == [step] + rest;
      BusyAppend(w, [], step);
    } else {
      var front, last := rest[..|rest| - 1], rest[|rest| - 1];
      BusyParts(Next(w, step), rest);
      BusyFirst(w, step, front);
      ExecFirst(w, step, front);
      BusyAppend(w, [step] + front, last);
      assert [step] + front + [last] == [step] + rest;
    }
  }

  /** And such a run to rest exists: the server is never stuck on the way. */
  lemma {:induction false} RestIsReached(w: World) returns (steps: seq<Step>)
    requires Inv(w)
    ensures ServerRun(steps) && DisciplinedRun(w, steps) && BusyRun(w, steps) && AtRest(Exec(w, steps))
    decreases Load(w)
  {
    if AtRest(w) {
      steps := [];
    } else {
      var s := CanMove(w);
      ServerStepTakes(w, s);
      NextKeeps(w, Server(s));
      var rest := RestIsReached(Next(w, Server(s)));
      steps := [Server(s)] + rest;
      ExecFirst(w, Server(s), rest);
      DisciplinedFirst(w, Server(s), rest);
      BusyFirst(w, Server(s), rest);
    }
  }
}
