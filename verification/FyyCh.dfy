/** One signal channel of the client: its settings dialog, its socket, and the flag reConnect
    that decides whether accepting the dialog opens a new connection. */
module FyyChannel {
  import opened Wrappers
  import opened DataGrams
  import opened Framing

  /** Addresses as numbers; the null address is 0. */
  type Host = nat
  const NULL_HOST: Host := 0
  const LOCAL_HOST: Host := 1
  const SERVPORT := 65000

  datatype Target = Target(host: Host, port: int)

  /** QAbstractSocket as the client sees it.  disconnectFromHost on a connecting socket takes
      effect once the connection is made; on a connected one with bytes still to write it goes
      through Closing. */
  datatype Socket = Unconnected | Connecting(pendingClose: bool) | Connected | Closing

  /** History of one datagram: where it went and with which channel, and what the channel was
      configured to at that moment. */
  datatype Sent = Sent(to: Target, channel: U8, target: Target, targetCh: U8)

  /** unwritten counts the bytes handed to the socket that it has not yet written. */
  datatype State = State(
    sampleInterval: int, targetHostCh: U8, target: Target, reConnect: bool, allowConnect: bool, sampling: bool,
    netTarget: Target, netChannel: U8, socket: Socket, peer: Target, unwritten: nat, log: seq<Sent>)

  /** The dialog's fields as parsed: None for an empty text, 0 for one that does not parse. */
  datatype Conf = Conf(interval: Option<int>, channel: Option<nat>, host: Option<Host>, port: Option<nat>, allow: bool) {
    /** setConf accepts the fields (fyych.cc, 179-222). */
    predicate Acceptable() {
      && interval.Some? && interval.value > 0
      && channel.Some?
      && host.Some? && host.value != NULL_HOST
      && port.Some?
    }

    function Channel(): U8 requires channel.Some? { channel.value % 0x100 }

    function NewTarget(): Target requires host.Some? && port.Some? { Target(host.value, port.value % 0x1_0000) }
  }

  // ---------------------------------------------------------- socket actions

  /** disconnected() reaches netUnReady. */
  function Lost(s: State): State { s.(socket := Unconnected, reConnect := true, unwritten := 0) }

  /** disconnectFromHost: bytes still to be written hold the socket in Closing. */
  function Disconnect(s: State): State {
    match s.socket
    case Unconnected => s
    case Connecting(_) => s.(socket := Connecting(true))
    case _ => if s.unwritten == 0 then Lost(s) else s.(socket := Closing)
  }

  function Abort(s: State): State {
    if s.socket in {Connected, Closing} then Lost(s) else s.(socket := Unconnected, unwritten := 0)
  }

  /** connectNet on an unconnected socket. */
  function Connect(s: State): State {
    if s.netTarget.host == NULL_HOST then s else s.(socket := Connecting(false), peer := s.netTarget)
  }

  // ------------------------------------------------------------------- steps

  datatype Step =
    | Dialog(conf: Conf)     // the dialog is closed with OK
    | Established            // the connection attempt succeeds
    | AttemptFailed
    | PeerClosed
    | Written(count: nat)    // the kernel takes this many of the unwritten bytes
    | SampleTimeout
    | GetDateTime

  /** setConf writes the changed settings into the channel; changing host or port asks for a
      new connection. */
  function Configure(s: State, conf: Conf): State
    requires conf.Acceptable()
  {
    s.(sampleInterval := conf.interval.value,
       targetHostCh := conf.Channel(),
       netChannel := if conf.Channel() != s.targetHostCh then conf.Channel() else s.netChannel,
       target := conf.NewTarget(),
       reConnect := s.reConnect || conf.NewTarget() != s.target,
       allowConnect := conf.allow)
  }

  function Apply(s: State, step: Step): State {
    match step
    case Dialog(conf) =>
      if !conf.Acceptable() then s else
      var c := Configure(s, conf);
      if !c.allowConnect then Disconnect(c)
      else if !c.reConnect then c
      else Connect(Abort(Disconnect(c.(netTarget := c.target))))
    case Established =>
      if !s.socket.Connecting? then s else
      var c := s.(socket := Connected, reConnect := false, sampling := true);
      if s.socket.pendingClose then Disconnect(c) else c
    case AttemptFailed => if s.socket.Connecting? then s.(socket := Unconnected) else s
    case PeerClosed => if s.socket in {Connected, Closing} then Lost(s) else s
    case Written(count) =>
      if s.socket !in {Connected, Closing} then s else
      var c := s.(unwritten := s.unwritten - Min(count, s.unwritten));
      if c.socket == Closing && c.unwritten == 0 then Lost(c) else c
    case SampleTimeout => if s.sampling then SendRequest(s) else s
    case GetDateTime => SendRequest(s)
  }

  /** sendData writes only on a connected socket. */
  function SendRequest(s: State): State {
    if s.socket != Connected then s
    else s.(unwritten := s.unwritten + RECORD_SIZE, log := s.log + [Sent(s.peer, s.netChannel, s.target, s.targetHostCh)])
  }

  /** A channel as constructed. */
  function Fresh(ch: nat, interval: int): State {
    var local := Target(LOCAL_HOST, SERVPORT);
    State(interval, ch % 0x100, local, true, false, false, local, ch % 0x100, Unconnected, local, 0, [])
  }

  function Run(ch: nat, interval: int, steps: seq<Step>): State
    decreases |steps|
  {
    if steps == [] then Fresh(ch, interval) else Apply(Run(ch, interval, steps[..|steps| - 1]), steps[|steps| - 1])
  }

  /** The socket is connected, or on its way and not already given up. */
  predicate Live(s: State) {
    s.socket == Connected || s.socket == Connecting(false)
  }

  ghost predicate ChannelInv(s: State) {
    && s.target.host != NULL_HOST
    && (s.socket == Connected ==> !s.reConnect)
    && (!s.reConnect ==> s.socket in {Connected, Closing})
    && (Live(s) ==> s.peer == s.target)
    && s.netChannel == s.targetHostCh
    && (s.unwritten > 0 ==> s.socket in {Connected, Closing})
    && (s.socket == Closing ==> s.unwritten > 0)
    && (forall i :: 0 <= i < |s.log| ==> s.log[i].to == s.log[i].target && s.log[i].channel == s.log[i].targetCh)
  }

  lemma DialogKeeps(s: State, conf: Conf)
    requires ChannelInv(s)
    ensures ChannelInv(Apply(s, Dialog(conf)))
  {
  }

  lemma ApplyKeeps(s: State, step: Step)
    requires ChannelInv(s)
    ensures ChannelInv(Apply(s, step))
  {
    if step.Dialog? {
      DialogKeeps(s, step.conf);
    }
  }

  /** Reconnect invariant: after any run, a live socket goes to the host and port configured
      now, every datagram ever sent went to the target and with the channel configured when it
      was sent, and a socket is closing only while it has bytes to write. */
  lemma {:induction false} ReconnectInvariant(ch: nat, interval: int, steps: seq<Step>)
    ensures ChannelInv(Run(ch, interval, steps))
    decreases |steps|
  {
    if steps == [] {
    } else {
      ReconnectInvariant(ch, interval, steps[..|steps| - 1]);
      ApplyKeeps(Run(ch, interval, steps[..|steps| - 1]), steps[|steps| - 1]);
    }
  }

  /** reConnect is false exactly while connected. */
  predicate FlagRight(s: State) {
    !s.reConnect <==> s.socket == Connected
  }

  /** The box is unticked, the target left as it is, while a request is still being written. */
  predicate UntickedWhileSending(s: State, step: Step) {
    && step.Dialog? && step.conf.Acceptable() && !step.conf.allow && step.conf.NewTarget() == s.target
    && s.socket == Connected && s.unwritten > 0
  }

  /** The one step that makes the flag wrong. */
  lemma FlagLeftExactly(s: State, step: Step)
    requires ChannelInv(s) && FlagRight(s)
    ensures !FlagRight(Apply(s, step)) <==> UntickedWhileSending(s, step)
  {
    ApplyKeeps(s, step);
  }

  ghost predicate NeverUntickedWhileSending(ch: nat, interval: int, steps: seq<Step>)
    decreases |steps|
  {
    steps == [] ||
    var front := steps[..|steps| - 1];
    NeverUntickedWhileSending(ch, interval, front) && !UntickedWhileSending(Run(ch, interval, front), steps[|steps| - 1])
  }

  /** As long as the box is never unticked while a request is still being written, reConnect is
      false exactly while connected. */
  lemma {:induction false} FlagMeansConnected(ch: nat, interval: int, steps: seq<Step>)
    requires NeverUntickedWhileSending(ch, interval, steps)
    ensures FlagRight(Run(ch, interval, steps))
    decreases |steps|
  {
    if steps == [] {
    } else {
      var front := steps[..|steps| - 1];
      FlagMeansConnected(ch, interval, front);
      ReconnectInvariant(ch, interval, front);
      FlagLeftExactly(Run(ch, interval, front), steps[|steps| - 1]);
    }
  }

  /** Accepting the dialog with connecting allowed leaves a live socket to the new target,
      except in exactly one situation: the old socket is still closing, was given up by the
      user rather than for a new target, and the target is left as it was. */
  lemma AllowedMeansLive(ch: nat, interval: int, steps: seq<Step>, conf: Conf)
    requires conf.Acceptable() && conf.allow
    ensures var s := Run(ch, interval, steps); var t := Apply(s, Dialog(conf));
      (Live(t) && t.peer == conf.NewTarget()) <==> !(s.socket == Closing && !s.reConnect && conf.NewTarget() == s.target)
  {
    ReconnectInvariant(ch, interval, steps);
    ApplyKeeps(Run(ch, interval, steps), Dialog(conf));
  }

  /** Accepting the dialog with the box unticked gives the connection up: nothing is left at once,
      or once the bytes on their way are written, or once the attempt under way has succeeded. */
  lemma UntickedGivesUp(ch: nat, interval: int, steps: seq<Step>, conf: Conf)
    requires conf.Acceptable() && !conf.allow
    ensures var s := Run(ch, interval, steps); var t := Apply(s, Dialog(conf));
      && !Live(t)
      && (t.socket == Unconnected <==> s.socket == Unconnected || (s.socket in {Connected, Closing} && s.unwritten == 0))
      && (t.socket == Closing <==> s.socket in {Connected, Closing} && s.unwritten > 0)
      && (t.socket == Connecting(true) <==> s.socket.Connecting?)
  {
  }

  lemma GivenUpStaysQuiet(s: State, step: Step)
    requires ChannelInv(s) && !Live(s) && (step.Dialog? ==> !(step.conf.Acceptable() && step.conf.allow))
    ensures !Live(Apply(s, step)) && Apply(s, step).log == s.log
  {
  }

  /** And from then on, until the dialog is accepted with the box ticked again, the channel sends
      nothing, whatever happens. */
  lemma {:induction false} UntickedIsQuiet(ch: nat, interval: int, steps: seq<Step>, conf: Conf, more: seq<Step>)
    requires conf.Acceptable() && !conf.allow
    requires forall i :: 0 <= i < |more| && more[i].Dialog? ==> !(more[i].conf.Acceptable() && more[i].conf.allow)
    ensures var t := Run(ch, interval, steps + [Dialog(conf)] + more); !Live(t) && t.log == Run(ch, interval, steps).log
    decreases |more|
  {
    var start := Then(ch, interval, steps, Dialog(conf));
    if more == [] {
      assert start + more == start;
      UntickedGivesUp(ch, interval, steps, conf);
    } else {
      var front, last := more[..|more| - 1], more[|more| - 1];
      assert forall i :: 0 <= i < |front| ==> front[i] == more[i];
      UntickedIsQuiet(ch, interval, steps, conf, front);
      ReconnectInvariant(ch, interval, start + front);
      GivenUpStaysQuiet(Run(ch, interval, start + front), last);
      var all := Then(ch, interval, start + front, last);
      assert all == start + more;
    }
  }

  /** What the fields of the dialog do: a positive interval, a channel, a host other than the null
      address and a port are accepted together or not at all; the channel is cut to eight bits and
      the port to sixteen. */
  lemma ConfiguredExactly(ch: nat, interval: int, steps: seq<Step>, conf: Conf)
    ensures conf.Acceptable() <==>
            && conf.interval.Some? && conf.interval.value >= 1
            && conf.channel.Some?
            && conf.host.Some? && conf.host.value != 0
            && conf.port.Some?
    ensures var s := Run(ch, interval, steps); var t := Apply(s, Dialog(conf));
      && (!conf.Acceptable() ==> t == s)
      && (conf.Acceptable() ==>
            && t.sampleInterval == conf.interval.value
            && t.targetHostCh == t.netChannel == conf.channel.value % 256
            && t.target == Target(conf.host.value, conf.port.value % 65536)
            && t.allowConnect == conf.allow
            && t.sampling == s.sampling && t.log == s.log)
  {
    ReconnectInvariant(ch, interval, steps);
  }

  /** Accepting the dialog with the box ticked: a new connection is begun, to the new target,
      unless the flag is down and the target is left as it was; then the socket is left alone. */
  lemma TickedConnectsExactly(ch: nat, interval: int, steps: seq<Step>, conf: Conf)
    requires conf.Acceptable() && conf.allow
    ensures var s := Run(ch, interval, steps); var t := Apply(s, Dialog(conf));
      if !s.reConnect && conf.NewTarget() == s.target
      then t.socket == s.socket && t.peer == s.peer && t.unwritten == s.unwritten && !t.reConnect
      else t.socket == Connecting(false) && t.peer == conf.NewTarget() && t.unwritten == 0 && t.reConnect
  {
    ReconnectInvariant(ch, interval, steps);
  }

  /** The channel is connected after a step exactly if an attempt not given up succeeds, or it was
      and neither the peer closes nor the dialog asks for something else. */
  lemma ConnectedExactly(ch: nat, interval: int, steps: seq<Step>, step: Step)
    ensures var s := Run(ch, interval, steps);
      Apply(s, step).socket == Connected <==>
        (step == Established && s.socket == Connecting(false)) ||
        (s.socket == Connected && step != PeerClosed
         && !(step.Dialog? && step.conf.Acceptable() && (!step.conf.allow || step.conf.NewTarget() != s.target)))
  {
    ReconnectInvariant(ch, interval, steps);
  }

  /** The dialog asks for a connection that is not there. */
  predicate Begins(s: State, step: Step) {
    step.Dialog? && step.conf.Acceptable() && step.conf.allow && (s.reConnect || step.conf.NewTarget() != s.target)
  }

  /** The dialog asks for the connection to be given up. */
  predicate GivesUp(step: Step) {
    step.Dialog? && step.conf.Acceptable() && !step.conf.allow
  }

  /** Exactly when an attempt is under way after a step, and to which peer the socket goes. */
  lemma ConnectingExactly(s: State, step: Step)
    requires ChannelInv(s)
    ensures Apply(s, step).socket == Connecting(false) <==>
            Begins(s, step) || (s.socket == Connecting(false) && !GivesUp(step) && step !in {Established, AttemptFailed})
    ensures Apply(s, step).peer == if Begins(s, step) then step.conf.NewTarget() else s.peer
  {
  }

  /** Exactly when an attempt is under way that has been given up. */
  lemma GivenUpExactly(s: State, step: Step)
    requires ChannelInv(s)
    ensures Apply(s, step).socket == Connecting(true) <==>
            (GivesUp(step) && s.socket.Connecting?) ||
            (s.socket == Connecting(true) && !Begins(s, step) && step !in {Established, AttemptFailed})
  {
  }

  /** Exactly when a socket is closing. */
  lemma ClosingExactly(s: State, step: Step)
    requires ChannelInv(s)
    ensures Apply(s, step).socket == Closing <==>
            (GivesUp(step) && s.socket in {Connected, Closing} && s.unwritten > 0) ||
            (s.socket == Closing && !Begins(s, step) && step != PeerClosed && !(step.Written? && step.count >= s.unwritten))
  {
  }

  /** The flag is raised after a step exactly if the step changes the target, or ends a connection,
      or makes one that was given up meanwhile, or it was raised and no connection is made. */
  lemma RaisedExactly(ch: nat, interval: int, steps: seq<Step>, step: Step)
    ensures var s := Run(ch, interval, steps); var t := Apply(s, step);
      t.reConnect <==>
        (step.Dialog? && step.conf.Acceptable() && step.conf.NewTarget() != s.target) ||
        (s.socket in {Connected, Closing} && t.socket !in {Connected, Closing}) ||
        (step == Established && s.socket == Connecting(true)) ||
        (s.reConnect && !(step == Established && s.socket.Connecting?))
  {
    ReconnectInvariant(ch, interval, steps);
    ApplyKeeps(Run(ch, interval, steps), step);
  }

  /** Only the dialog changes settings. */
  lemma SettingsKept(s: State, step: Step)
    requires !step.Dialog?
    ensures var t := Apply(s, step);
      && t.sampleInterval == s.sampleInterval && t.targetHostCh == s.targetHostCh && t.target == s.target
      && t.allowConnect == s.allowConnect && t.netTarget == s.netTarget && t.netChannel == s.netChannel
  {
  }

  lemma QuietStep(s: State, step: Step)
    requires step !in {GetDateTime, SampleTimeout}
    ensures Apply(s, step).log == s.log
  {
  }

  /** A step sends exactly if the channel is connected and the step is a call for the time, or the
      sample timer runs and fires; it sends one record, to the target, with the channel configured. */
  lemma SentExactly(s: State, step: Step)
    requires ChannelInv(s)
    ensures Apply(s, step).log == s.log +
              if s.socket == Connected && (step == GetDateTime || (step == SampleTimeout && s.sampling))
              then [Sent(s.target, s.targetHostCh, s.target, s.targetHostCh)] else []
  {
    if step !in {GetDateTime, SampleTimeout} {
      QuietStep(s, step);
    }
  }

  /** The sample timer runs once a connection has been made, and from then on. */
  lemma SamplingExactly(s: State, step: Step)
    ensures Apply(s, step).sampling <==> s.sampling || (step == Established && s.socket.Connecting?)
  {
  }

  /** Bytes to be written: a request adds twenty, the kernel takes some away, and a connection that
      ends takes all of them with it. */
  lemma UnwrittenExactly(s: State, step: Step)
    requires ChannelInv(s)
    ensures var t := Apply(s, step);
      t.unwritten == if t.socket !in {Connected, Closing} then 0
                     else if |t.log| > |s.log| then s.unwritten + 20
                     else if step.Written? then s.unwritten - Min(step.count, s.unwritten)
                     else s.unwritten
  {
    if step !in {GetDateTime, SampleTimeout} {
      QuietStep(s, step);
    }
  }

  /** A connection that ends, however it does, raises the flag. */
  lemma EndedRaisesFlag(ch: nat, interval: int, steps: seq<Step>, step: Step)
    ensures var s := Run(ch, interval, steps); var t := Apply(s, step);
      && (s.socket in {Connected, Closing} && t.socket !in {Connected, Closing} ==> t.reConnect)
      && (step == PeerClosed ==> t.socket !in {Connected, Closing})
      && (step == AttemptFailed ==> !t.socket.Connecting?)
      && (step.Written? && s.socket == Closing ==> (t.socket == Unconnected <==> step.count >= s.unwritten))
  {
    ReconnectInvariant(ch, interval, steps);
    ApplyKeeps(Run(ch, interval, steps), step);
  }

  /** A channel starts unconnected, not allowed to connect, on the local server's port 65000. */
  lemma StartsUnconnected(ch: nat, interval: int)
    ensures var s := Run(ch, interval, []);
      && s.socket == Unconnected && !s.allowConnect && !s.sampling && s.reConnect && s.log == []
      && s.target == s.peer == Target(1, 65000) && s.targetHostCh == s.netChannel == ch % 256 && s.sampleInterval == interval
  {
  }

  lemma Then(ch: nat, interval: int, steps: seq<Step>, step: Step) returns (next: seq<Step>)
    ensures next == steps + [step] && Run(ch, interval, next) == Apply(Run(ch, interval, steps), step)
  {
    next := steps + [step];
    assert next[..|steps|] == steps;
  }

  /** Connect, ask for a sample, and untick the box before the request is written. */
  lemma UntickWhileSending(conf: Conf) returns (steps: seq<Step>)
    requires conf.Acceptable() && conf.allow
    ensures var s := Run(0, 1, steps);
      s.socket == Closing && !s.reConnect && s.target == conf.NewTarget() && s.unwritten == RECORD_SIZE
  {
    steps := Then(0, 1, [], Dialog(conf));
    steps := Then(0, 1, steps, Established);
    assert Run(0, 1, steps).socket == Connected && Run(0, 1, steps).unwritten == 0;
    steps := Then(0, 1, steps, SampleTimeout);
    assert Run(0, 1, steps).unwritten == RECORD_SIZE && !Run(0, 1, steps).reConnect;
    steps := Then(0, 1, steps, Dialog(conf.(allow := false)));
  }

  /** That situation arises: ticking the box again before the request is written does nothing,
      and the channel ends up allowed to connect but unconnected. */
  lemma LostReconnect(conf: Conf)
    requires conf.Acceptable() && conf.allow
    ensures exists steps :: LeftUnconnected(Run(0, 1, steps + [Dialog(conf)] + [Written(RECORD_SIZE)]))
  {
    var steps := UntickWhileSending(conf);
    var again := Then(0, 1, steps, Dialog(conf));
    var done := Then(0, 1, again, Written(RECORD_SIZE));
    assert done == steps + [Dialog(conf)] + [Written(RECORD_SIZE)];
  }

  ghost predicate LeftUnconnected(s: State) {
    s.allowConnect && s.socket == Unconnected
  }

  // --------------------------------------------------------- reading replies

  datatype ReadOutcome = Processed(emission: Emission) | Discarded

  /** What one readData makes of the bytes waiting, and what it leaves of them. */
  function ReadNext(incoming: seq<U8>, channel: U8): ReadOutcome {
    if |incoming| < RECORD_SIZE then Discarded else Processed(ProcessData(Decode(incoming[..RECORD_SIZE]), channel))
  }

  function LeftAfter(incoming: seq<U8>): seq<U8> {
    if |incoming| < RECORD_SIZE then [] else incoming[RECORD_SIZE..]
  }

  datatype Reader = Reader(incoming: seq<U8>, outcomes: seq<ReadOutcome>)

  /** Replies arrive in batches; each batch raises readyRead once, and each readyRead is one
      readData. */
  function Signalled(batches: seq<seq<DataGram>>, channel: U8): Reader
    decreases |batches|
  {
    if batches == [] then Reader([], [])
    else
      var r := Signalled(batches[..|batches| - 1], channel);
      var incoming := r.incoming + Bytes(batches[|batches| - 1]);
      Reader(LeftAfter(incoming), r.outcomes + [ReadNext(incoming, channel)])
  }

  function Arrived(batches: seq<seq<DataGram>>): seq<DataGram>
    decreases |batches|
  {
    if batches == [] then [] else Arrived(batches[..|batches| - 1]) + batches[|batches| - 1]
  }

  lemma {:induction false} BytesConcat(a: seq<DataGram>, b: seq<DataGram>)
    ensures Bytes(a + b) == Bytes(a) + Bytes(b)
  {
    if a == [] {
      assert a + b == b;
    } else {
      assert (a + b)[1..] == a[1..] + b;
      BytesConcat(a[1..], b);
    }
  }

  /** A read of whole records judges the first and leaves the others. */
  lemma ReadsFirst(records: seq<DataGram>, channel: U8)
    requires records != []
    ensures ReadNext(Bytes(records), channel) == Processed(ProcessData(records[0], channel))
    ensures LeftAfter(Bytes(records)) == Bytes(records[1..])
  {
    var all, e := Bytes(records), Encode(records[0]);
    assert all == e + Bytes(records[1..]);
    assert all[..RECORD_SIZE] == e && all[RECORD_SIZE..] == Bytes(records[1..]);
    DecodeEncode(records[0]);
  }

  /** One more signal: the oldest reply waiting is judged, and the batch stays behind it. */
  lemma OneSignal(before: seq<DataGram>, last: seq<DataGram>, n: nat, channel: U8)
    requires n <= |before| && last != []
    ensures var incoming := Bytes(before[n..]) + Bytes(last);
      && ReadNext(incoming, channel) == Processed(ProcessData((before + last)[n], channel))
      && LeftAfter(incoming) == Bytes((before + last)[n + 1..])
  {
    var records := (before + last)[n..];
    assert before[n..] + last == records;
    BytesConcat(before[n..], last);
    ReadsFirst(records, channel);
    assert records[1..] == (before + last)[n + 1..];
  }

  lemma {:induction false} LeftWaiting(batches: seq<seq<DataGram>>, channel: U8)
    requires forall i :: 0 <= i < |batches| ==> batches[i] != []
    ensures |batches| <= |Arrived(batches)| && Signalled(batches, channel).incoming == Bytes(Arrived(batches)[|batches|..])
    ensures |Signalled(batches, channel).outcomes| == |batches|
    decreases |batches|
  {
    if batches == [] {
    } else {
      var front, last := batches[..|batches| - 1], batches[|batches| - 1];
      assert forall i :: 0 <= i < |front| ==> front[i] == batches[i];
      LeftWaiting(front, channel);
      OneSignal(Arrived(front), last, |front|, channel);
    }
  }

  /** After n signals the client has judged the first n replies, the k-th at the k-th signal, and
      every reply beyond them waits for a later signal. */
  lemma {:induction false} ReaderLag(batches: seq<seq<DataGram>>, channel: U8, k: nat)
    requires k < |batches| && forall i :: 0 <= i < |batches| ==> batches[i] != []
    ensures var r, records := Signalled(batches, channel), Arrived(batches);
      && |batches| <= |records| && r.incoming == Bytes(records[|batches|..])
      && |r.outcomes| == |batches| && r.outcomes[k] == Processed(ProcessData(records[k], channel))
    decreases |batches|
  {
    var front, last := batches[..|batches| - 1], batches[|batches| - 1];
    assert forall i :: 0 <= i < |front| ==> front[i] == batches[i];
    LeftWaiting(batches, channel);
    if k == |front| {
      LeftWaiting(front, channel);
      OneSignal(Arrived(front), last, k, channel);
    } else {
      ReaderLag(front, channel, k);
    }
  }

  lemma {:induction false} ArrivedCount(batches: seq<seq<DataGram>>)
    requires forall i :: 0 <= i < |batches| ==> batches[i] != []
    ensures |Arrived(batches)| >= |batches|
    ensures |Arrived(batches)| == |batches| <==> forall i :: 0 <= i < |batches| ==> |batches[i]| == 1
    decreases |batches|
  {
    if batches == [] {
    } else {
      var front := batches[..|batches| - 1];
      assert forall i :: 0 <= i < |front| ==> front[i] == batches[i];
      ArrivedCount(front);
    }
  }

  /** The client keeps up exactly if no two replies ever share a signal; each reply more than
      one in a batch leaves one record's bytes waiting. */
  lemma {:induction false} KeepsUpExactly(batches: seq<seq<DataGram>>, channel: U8)
    requires forall i :: 0 <= i < |batches| ==> batches[i] != []
    ensures |Signalled(batches, channel).incoming| == RECORD_SIZE * (|Arrived(batches)| - |batches|)
    ensures Signalled(batches, channel).incoming == [] <==> forall i :: 0 <= i < |batches| ==> |batches[i]| == 1
  {
    LeftWaiting(batches, channel);
    ArrivedCount(batches);
  }

  /** Two replies in one batch: after the signal the second is still unread. */
  lemma TwoShareSignal(a: DataGram, b: DataGram, channel: U8)
    ensures Signalled([[a, b]], channel).incoming == Encode(b)
  {
    assert Arrived([[a, b]]) == [a, b];
    LeftWaiting([[a, b]], channel);
    assert [a, b][1..] == [b] && Bytes([b]) == Encode(b) + [];
  }

  // --------------------------------------------------------------- the classes

  class FyyNet {
    var target: Target
    var sDataGram: DataGram
    var rDataGram: DataGram
    var socket: Socket
    var peer: Target
    var incoming: seq<U8>     // received, not yet read
    var outgoing: seq<U8>     // handed to the socket, not yet written
    var log: seq<Sent>        // history

    constructor (junk: DataGram)
      ensures target == peer == Target(LOCAL_HOST, SERVPORT) && socket == Unconnected && log == []
      ensures sDataGram.kind == 0 && sDataGram.valid == 0 && sDataGram.channel == 0 && rDataGram.valid == 0
      ensures incoming == outgoing == []
    {
      target, peer := Target(LOCAL_HOST, SERVPORT), Target(LOCAL_HOST, SERVPORT);
      // only type, valid and channel are initialised
      sDataGram := junk.(kind := TYPE_UNTYPE, valid := 0, channel := 0);
      rDataGram := junk.(valid := 0);
      socket, incoming, outgoing, log := Unconnected, [], [], [];
    }

    method UpdateSampleChannel(ch: U8)
      modifies this`sDataGram
      ensures sDataGram == old(sDataGram).(channel := ch)
    {
      sDataGram := sDataGram.(channel := ch);
    }

    /** disconnectFromHost; lost tells whether disconnected() was signalled. */
    method DisconnectFromHost() returns (lost: bool)
      modifies this`socket
      ensures lost == (old(socket) in {Connected, Closing} && outgoing == [])
      ensures socket == (match old(socket)
                         case Unconnected => Unconnected
                         case Connecting(_) => Connecting(true)
                         case _ => if outgoing == [] then Unconnected else Closing)
    {
      lost := false;
      match socket
      case Unconnected =>
      case Connecting(_) =>
        socket := Connecting(true);
      case _ =>
        lost := outgoing == [];
        socket := if lost then Unconnected else Closing;
    }

    method UpdateAddressPort(newTarget: Target) returns (lost: bool)
      modifies this`target, this`socket
      ensures target == newTarget
      ensures lost == (old(socket) in {Connected, Closing} && outgoing == [])
      ensures socket == (match old(socket)
                         case Unconnected => Unconnected
                         case Connecting(_) => Connecting(true)
                         case _ => if outgoing == [] then Unconnected else Closing)
    {
      target := newTarget;
      lost := DisconnectFromHost();
    }

    /** The kernel takes bytes; a closing socket is gone with its last one. */
    method WriteOut(count: nat) returns (lost: bool)
      requires socket in {Connected, Closing}
      modifies this`socket, this`outgoing
      ensures outgoing == old(outgoing)[Min(count, |old(outgoing)|)..]
      ensures lost == (old(socket) == Closing && outgoing == [])
      ensures socket == if lost then Unconnected else old(socket)
    {
      outgoing := outgoing[Min(count, |outgoing|)..];
      lost := socket == Closing && outgoing == [];
      if lost {
        socket := Unconnected;
      }
    }

    /** reConnectNet: abort, which drops both buffers, then connectNet, which refuses the null
        address. */
    method ReConnectNet() returns (lost: bool)
      modifies this`socket, this`peer, this`incoming, this`outgoing
      ensures lost == (old(socket) in {Connected, Closing}) && incoming == outgoing == []
      ensures if target.host == NULL_HOST then socket == Unconnected && peer == old(peer)
              else socket == Connecting(false) && peer == target
    {
      lost := socket in {Connected, Closing};
      socket, incoming, outgoing := Unconnected, [], [];
      if target.host != NULL_HOST {
        socket, peer := Connecting(false), target;
      }
    }

    /** getData and getDateTime: the record sent carries this type and the channel set last. */
    method SendRequest(kind: U32, configured: Target, configuredCh: U8) returns (sent: bool)
      modifies this`sDataGram, this`outgoing, this`log
      ensures sDataGram == old(sDataGram).(kind := kind) && sent == (socket == Connected)
      ensures outgoing == old(outgoing) + if sent then Encode(sDataGram) else []
      ensures log == old(log) + if sent then [Sent(peer, sDataGram.channel, configured, configuredCh)] else []
    {
      sDataGram := sDataGram.(kind := kind);
      if socket != Connected {
        return false;
      }
      outgoing := outgoing + Encode(sDataGram);
      log := log + [Sent(peer, sDataGram.channel, configured, configuredCh)];
      sent := true;
    }

    /** readData: takes at most one record; anything shorter is thrown away. */
    method ReadData() returns (outcome: ReadOutcome)
      modifies this`rDataGram, this`incoming
      ensures outcome == ReadNext(old(incoming), sDataGram.channel) && incoming == LeftAfter(old(incoming))
      ensures |old(incoming)| < 20 ==> outcome == Discarded && incoming == []
      ensures |old(incoming)| >= 20 ==>
        && outcome.Processed? && Announces(Decode(old(incoming)[..20]), sDataGram.channel, outcome.emission)
        && incoming == old(incoming)[20..]
      // a short read lands on the front of the record, and a reply of unknown type is marked
      ensures rDataGram ==
              if outcome == Discarded then Decode(old(incoming) + Encode(old(rDataGram))[|old(incoming)|..])
              else if outcome.emission.UnknownType? then Decode(old(incoming)[..20]).(valid := 0)
              else Decode(old(incoming)[..20])
    {
      if |incoming| < RECORD_SIZE {
        // the short read lands on the front of the record
        rDataGram := Decode(incoming + Encode(rDataGram)[|incoming|..]);
        incoming := [];
        return Discarded;
      }
      rDataGram := Decode(incoming[..RECORD_SIZE]);
      incoming := incoming[RECORD_SIZE..];
      if rDataGram.valid == 0 || rDataGram.channel != sDataGram.channel {
        return Processed(InvalidRecord);
      }
      if rDataGram.kind == TYPE_GETDATA {
        return Processed(DataReady(DataItem(rDataGram.channel, rDataGram.data, rDataGram.sampleTime)));
      }
      if rDataGram.kind == TYPE_GETTIME {
        return Processed(TimeReady(rDataGram.sampleTime));
      }
      rDataGram := rDataGram.(valid := 0);
      return Processed(UnknownType);
    }
  }

  class FyyCH {
    const fyyNet: FyyNet
    var sampleInterval: int
    var targetHostCh: U8
    var target: Target
    var reConnect: bool
    var allowConnect: bool
    var sampling: bool        // sampleTimer is active
    var timerInterval: int    // of sampleTimer, milliseconds

    constructor (ch: nat, interval: int, junk: DataGram)
      ensures View() == Fresh(ch, interval) && timerInterval == interval * 1000 && fresh(fyyNet)
    {
      sampleInterval, targetHostCh := interval, ch % 0x100;
      target, reConnect, allowConnect, sampling := Target(LOCAL_HOST, SERVPORT), true, false, false;
      timerInterval := interval * 1000;
      var net := new FyyNet(junk);
      fyyNet := net;
      net.UpdateSampleChannel(ch % 0x100);
    }

    ghost function View(): State
      reads this, fyyNet
    {
      State(sampleInterval, targetHostCh, target, reConnect, allowConnect, sampling,
            fyyNet.target, fyyNet.sDataGram.channel, fyyNet.socket, fyyNet.peer, |fyyNet.outgoing|, fyyNet.log)
    }

    method NetReady()
      modifies this`reConnect, this`sampling
      ensures !reConnect && sampling
    {
      reConnect := false;
      sampling := true;
    }

    method NetUnReady()
      modifies this`reConnect
      ensures reConnect
    {
      reConnect := true;
    }

    method SetSampleInterval(interval: int)
      modifies this`sampleInterval, this`timerInterval
      ensures sampleInterval == interval && timerInterval == interval * 1000
    {
      sampleInterval := interval;
      timerInterval := sampleInterval * 1000;
    }

    method SetTargetHostCh(ch: U8)
      modifies this`targetHostCh, fyyNet`sDataGram
      ensures targetHostCh == ch && fyyNet.sDataGram == old(fyyNet.sDataGram).(channel := ch)
    {
      targetHostCh := ch;
      fyyNet.UpdateSampleChannel(ch);
    }

    method SetTargetPort(port: int)
      modifies this`target, this`reConnect
      ensures target == old(target).(port := port) && reConnect
    {
      target := target.(port := port);
      reConnect := true;
    }

    method SetTargetHost(host: Host)
      modifies this`target, this`reConnect
      ensures target == old(target).(host := host) && reConnect
    {
      target := target.(host := host);
      reConnect := true;
    }

    /** setConf of a dialog opened on the present settings. */
    method SetConf(conf: Conf) returns (accepted: bool)
      modifies this, fyyNet`sDataGram
      ensures accepted == conf.Acceptable()
      ensures View() == if accepted then Configure(old(View()), conf) else old(View())
      ensures timerInterval == if accepted && sampleInterval != old(sampleInterval) then sampleInterval * 1000 else old(timerInterval)
    {
      if conf.interval.None? || conf.interval.value <= 0 {
        return false;
      }
      if conf.channel.None? {
        return false;
      }
      var tmpSampleCh := conf.channel.value % 0x100;
      if conf.host.None? || conf.host.value == NULL_HOST {
        return false;
      }
      if conf.port.None? {
        return false;
      }
      var tmpPortValue := conf.port.value % 0x1_0000;
      if conf.interval.value != sampleInterval {
        SetSampleInterval(conf.interval.value);
      }
      if tmpSampleCh != targetHostCh {
        SetTargetHostCh(tmpSampleCh);
      }
      if conf.host.value != target.host {
        SetTargetHost(conf.host.value);
      }
      if tmpPortValue != target.port {
        SetTargetPort(tmpPortValue);
      }
      allowConnect := conf.allow;
      return true;
    }

    /** mouseReleaseEvent, the dialog taken as one step. */
    method MouseReleaseEvent(conf: Conf)
      modifies this, fyyNet
      ensures View() == Apply(old(View()), Dialog(conf))
    {
      var accepted := SetConf(conf);
      if !accepted {
        return;
      }
      if allowConnect {
        if reConnect {
          var lost := fyyNet.UpdateAddressPort(target);
          if lost {
            NetUnReady();
          }
          lost := fyyNet.ReConnectNet();
          if lost {
            NetUnReady();
          }
        }
      } else {
        var lost := fyyNet.DisconnectFromHost();
        if lost {
          NetUnReady();
        }
      }
    }

    /** connected(): the attempt succeeded, and a close asked for meanwhile is carried out. */
    method OnConnected()
      requires fyyNet.socket.Connecting?
      modifies this, fyyNet
      ensures View() == Apply(old(View()), Established)
    {
      var pending := fyyNet.socket.pendingClose;
      fyyNet.socket := Connected;
      NetReady();
      if pending {
        var lost := fyyNet.DisconnectFromHost();
        if lost {
          NetUnReady();
        }
      }
    }

    /** The socket writes; disconnected() follows if it was only waiting for that to close. */
    method OnWritten(count: nat)
      requires fyyNet.socket in {Connected, Closing}
      modifies this, fyyNet
      ensures View() == Apply(old(View()), Written(count))
    {
      var lost := fyyNet.WriteOut(count);
      if lost {
        NetUnReady();
      }
    }

    method OnSampleTimeout() returns (sent: bool)
      requires sampling
      modifies fyyNet
      ensures View() == Apply(old(View()), SampleTimeout)
      ensures sent == (old(fyyNet.socket) == Connected)
      ensures fyyNet.outgoing == old(fyyNet.outgoing) + if sent then Encode(fyyNet.sDataGram) else []
      ensures fyyNet.sDataGram == old(fyyNet.sDataGram).(kind := 2)
    {
      sent := fyyNet.SendRequest(TYPE_GETDATA, target, targetHostCh);
    }
  }
}
