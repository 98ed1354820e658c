/** What both halves of the driver share (drivers/fl2440adc.h). */
module Fl2440AdcHeader {
  const ADCNUM := 4
}

/** The character device of the ADC driver: opening, reading and releasing files on four
    channels that share one client slot each. */
module Fl2440AdcFile {
  import opened Wrappers
  import opened Fl2440AdcHeader

  const EINVAL := 22

  /** client[channel] and client_ref[channel] of the driver. */
  datatype Slot = Slot(client: Option<nat>, refs: nat)

  /** s3c_adc_register: a client or a negative error. */
  datatype Registration = Registered(client: nat) | Failed(error: int)

  /** open registers a client only if the channel has none, and counts only then. */
  function OpenSlot(s: Slot, nonblock: bool, reg: Registration): (Slot, int) {
    if nonblock then (s, -EINVAL)
    else if s.client.Some? then (s, 0)
    else match reg
      case Registered(c) => (Slot(Some(c), s.refs + 1), 0)
      case Failed(error) => (s.(client := None), error)
  }

  /** A non-blocking open is refused with -22 and changes nothing; else it succeeds exactly if the
      channel has a client already or one is registered now, and only then counts one more. */
  lemma OpenExactly(s: Slot, nonblock: bool, reg: Registration)
    ensures var (t, ret) := OpenSlot(s, nonblock, reg);
      && (nonblock ==> t == s && ret == -22)
      && (!nonblock && (s.client.Some? || reg.Registered?) ==> ret == 0 && t.client.Some?)
      && (!nonblock && s.client.None? && reg.Failed? ==> ret == reg.error && t == s)
      && (t.refs == if !nonblock && s.client.None? && reg.Registered? then s.refs + 1 else s.refs)
      && (t.client == if !nonblock && s.client.None? && reg.Registered? then Some(reg.client) else s.client)
  {
  }

  /** release frees the client only when the count was already zero. */
  function ReleaseSlot(s: Slot): Slot {
    if s.refs != 0 then s.(refs := s.refs - 1) else s.(client := None)
  }

  // ----------------------------------------------------------------- runs

  /** An open file: the channel number the driver stored in it (0 if it stored none), and
      whether its open registered the client. */
  datatype File = File(privateData: nat, registrar: bool)

  datatype Chan = Chan(
    slot: Slot,
    files: map<nat, File>,
    registered: nat,          // history: clients obtained
    freed: nat,               // history: clients released
    nullReleases: nat,        // history: s3c_adc_release called with NULL
    sinceRegister: nat,       // history: releases since the last registration
    rounds: nat)              // history: files released

  const IDLE := Chan(Slot(None, 0), map[], 0, 0, 0, 0, 0)

  datatype Op =
    | Open(channel: nat, file: nat, nonblock: bool, reg: Registration)
    | Release(channel: nat, file: nat)

  function OpenChan(channel: nat, c: Chan, file: nat, nonblock: bool, reg: Registration): Chan {
    var (slot, ret) := OpenSlot(c.slot, nonblock, reg);
    if file in c.files then c
    else if ret != 0 then c.(slot := slot)
    else if c.slot.client.Some? then c.(slot := slot, files := c.files[file := File(0, false)])
    else c.(slot := slot, files := c.files[file := File(channel, true)], registered := c.registered + 1, sinceRegister := 0)
  }

  function ReleaseChan(c: Chan, file: nat): Chan {
    if file !in c.files then c
    else
      var frees := c.slot.refs == 0;
      c.(slot := ReleaseSlot(c.slot), files := c.files - {file},
         freed := c.freed + (if frees && c.slot.client.Some? then 1 else 0),
         nullReleases := c.nullReleases + (if frees && c.slot.client.None? then 1 else 0),
         sinceRegister := c.sinceRegister + 1,
         rounds := c.rounds + 1)
  }

  /** A failed registration reports a negative error. */
  predicate Sane(op: Op) {
    op.Open? && op.reg.Failed? ==> op.reg.error < 0
  }

  function Apply(chans: seq<Chan>, op: Op): seq<Chan> {
    if op.channel >= |chans| || !Sane(op) then chans
    else match op
      case Open(ch, file, nonblock, reg) =>
        chans[ch := OpenChan(ch, chans[ch], file, nonblock, reg)]
      case Release(ch, file) => chans[ch := ReleaseChan(chans[ch], file)]
  }

  function Run(ops: seq<Op>): (chans: seq<Chan>)
    ensures |chans| == ADCNUM
    decreases |ops|
  {
    if ops == [] then [IDLE, IDLE, IDLE, IDLE] else Apply(Run(ops[..|ops| - 1]), ops[|ops| - 1])
  }

  ghost predicate ChanInv(channel: nat, c: Chan) {
    // the three states the slot can be in
    && ((c.slot == Slot(None, 0)) || (c.slot.client.Some? && c.slot.refs <= 1))
    // a client is held exactly when one more was registered than freed
    && c.registered == c.freed + (if c.slot.client.Some? then 1 else 0)
    // the state is told by the releases since the last registration
    && (c.slot.client.Some? <==> c.registered > 0 && c.sinceRegister < 2)
    && (c.slot.refs == 1 <==> c.registered > 0 && c.sinceRegister == 0)
    && (c.files != map[] ==> c.registered > 0)
    && (forall f :: f in c.files ==> c.files[f].privateData == if c.files[f].registrar then channel else 0)
  }

  lemma OpenKeeps(channel: nat, c: Chan, file: nat, nonblock: bool, reg: Registration)
    requires ChanInv(channel, c) && (reg.Failed? ==> reg.error < 0)
    ensures ChanInv(channel, OpenChan(channel, c, file, nonblock, reg))
  {
  }

  lemma ReleaseKeeps(channel: nat, c: Chan, file: nat)
    requires ChanInv(channel, c)
    ensures ChanInv(channel, ReleaseChan(c, file))
  {
  }

  /** Registration balance: over every interleaving of opens, failed opens and releases on the
      four channels. */
  lemma {:induction false} RegistrationBalance(ops: seq<Op>, ch: nat)
    requires ch < ADCNUM
    ensures ChanInv(ch, Run(ops)[ch])
    decreases |ops|
  {
    if ops == [] {
    } else {
      RegistrationBalance(ops[..|ops| - 1], ch);
      var chans, op := Run(ops[..|ops| - 1]), ops[|ops| - 1];
      match op
      case Open(c, file, nonblock, reg) =>
        if c == ch && Sane(op) {
          OpenKeeps(ch, chans[ch], file, nonblock, reg);
        }
      case Release(c, file) =>
        if c == ch {
          ReleaseKeeps(ch, chans[ch], file);
        }
    }
  }

  /** A channel with open files has a client exactly while fewer than two files were released
      since it was registered; from the third release on, release is handed NULL. */
  lemma {:induction false} ClientHeldExactly(ops: seq<Op>, ch: nat, file: nat)
    requires ch < ADCNUM && file in Run(ops)[ch].files
    ensures var c := Run(ops)[ch];
      && (c.slot.client.Some? <==> c.sinceRegister < 2)
      && ReleaseChan(c, file).nullReleases == c.nullReleases + if c.sinceRegister >= 2 then 1 else 0
  {
    RegistrationBalance(ops, ch);
  }

  /** The client a read of this file passes to s3c_adc_read: that of the channel stored in it. */
  function ReadClient(chans: seq<Chan>, ch: nat, file: nat): Option<nat>
    requires ch < |chans| && file in chans[ch].files
  {
    var asked := chans[ch].files[file].privateData;
    if asked < |chans| then chans[asked].slot.client else None
  }

  /** The channel holds no client: none was ever registered, or two files or more were released
      since the last was. */
  predicate Bare(c: Chan) {
    c.registered == 0 || c.sinceRegister >= 2
  }

  /** Over every interleaving: a read is handed NULL exactly if the channel it asks for, its own
      or channel 0, holds no client. */
  lemma ReadHandedNullExactly(ops: seq<Op>, ch: nat, file: nat)
    requires ch < ADCNUM && file in Run(ops)[ch].files
    ensures var asked := if Run(ops)[ch].files[file].registrar then ch else 0;
      ReadClient(Run(ops), ch, file) == None <==> Bare(Run(ops)[asked])
  {
    RegistrationBalance(ops, ch);
    RegistrationBalance(ops, 0);
  }

  /** A read of a file asks for the channel stored in it, which is the file's own channel exactly
      if its open registered the client, or on channel 0. */
  lemma {:induction false} ReadsOwnChannelExactly(ops: seq<Op>, ch: nat, file: nat)
    requires ch < ADCNUM && file in Run(ops)[ch].files
    ensures var f := Run(ops)[ch].files[file]; f.privateData == ch <==> f.registrar || ch == 0
  {
    RegistrationBalance(ops, ch);
  }

  lemma Then(ops: seq<Op>, op: Op) returns (next: seq<Op>)
    ensures next == ops + [op] && Run(next) == Apply(Run(ops), op)
  {
    next := ops + [op];
    assert next[..|ops|] == ops;
  }

  lemma OpenThen(ops: seq<Op>, file: nat, client: nat) returns (next: seq<Op>)
    requires file !in Run(ops)[3].files
    ensures Run(next)[3] == OpenChan(3, Run(ops)[3], file, false, Registered(client)) && Run(next)[0] == Run(ops)[0]
  {
    next := Then(ops, Open(3, file, false, Registered(client)));
  }

  /** A second file on channel 3, opened beside the first, asks for channel 0; channel 0 was never
      opened, so its read is handed NULL. */
  lemma SecondOpenAsksForZero()
    ensures exists ops ::
      && 1 in Run(ops)[3].files && Run(ops)[3].files[1].privateData == 0
      && ReadClient(Run(ops), 3, 1) == None
  {
    var ops := OpenThen([], 0, 7);
    assert Run(ops)[3].slot == Slot(Some(7), 1) && Run(ops)[3].files.Keys == {0} && Run(ops)[0] == IDLE;
    ops := OpenThen(ops, 1, 8);
    assert Run(ops)[3].files[1].privateData == 0;
  }

  lemma ReleaseThen(ops: seq<Op>, file: nat) returns (next: seq<Op>)
    ensures Run(next)[3] == ReleaseChan(Run(ops)[3], file)
  {
    next := Then(ops, Release(3, file));
  }

  lemma ThreeOpens() returns (ops: seq<Op>)
    ensures Run(ops)[3].files.Keys == {0, 1, 2} && Run(ops)[3].slot == Slot(Some(7), 1)
  {
    ops := [];
    ops := OpenThen(ops, 0, 7);
    ops := OpenThen(ops, 1, 8);
    ops := OpenThen(ops, 2, 9);
  }

  /** Three overlapping opens: the third release is handed NULL. */
  lemma OverlapReleasesNull()
    ensures exists ops :: Run(ops)[3].nullReleases > 0
  {
    var ops := ThreeOpens();
    ops := ReleaseThen(ops, 0);
    assert Run(ops)[3].files.Keys == {1, 2} && Run(ops)[3].slot == Slot(Some(7), 0);
    ops := ReleaseThen(ops, 1);
    assert Run(ops)[3].files.Keys == {2} && Run(ops)[3].slot == Slot(None, 0);
    ops := ReleaseThen(ops, 2);
    assert Run(ops)[3].nullReleases > 0;
  }

  // -------------------------------------------------- one file at a time

  predicate OpensAlone(chans: seq<Chan>, op: Op, ch: nat)
    requires ch < |chans|
  {
    op.Open? && op.channel == ch && !op.nonblock ==> chans[ch].files == map[]
  }

  /** On this channel every blocking open comes after the last release.  Non-blocking opens, which
      the driver refuses, may come at any time, and registrations may fail. */
  ghost predicate OneAtATime(ops: seq<Op>, ch: nat)
    requires ch < ADCNUM
    decreases |ops|
  {
    ops != [] ==> OneAtATime(ops[..|ops| - 1], ch) && OpensAlone(Run(ops[..|ops| - 1]), ops[|ops| - 1], ch)
  }

  ghost predicate Alternates(c: Chan) {
    && c.nullReleases == 0
    && |c.files| <= 1
    && (c.files == map[] ==> c.slot.refs == 0 && (c.slot.client.Some? <==> c.rounds % 2 == 1))
    && (c.files != map[] ==> c.slot.client.Some? && c.slot.refs == 1 - c.rounds % 2)
    && (forall f :: f in c.files ==> c.files[f].registrar == (c.rounds % 2 == 0))
  }

  lemma OpenAlternates(ch: nat, c: Chan, file: nat, nonblock: bool, reg: Registration)
    requires Alternates(c) && (reg.Failed? ==> reg.error < 0) && (!nonblock ==> c.files == map[])
    ensures Alternates(OpenChan(ch, c, file, nonblock, reg))
  {
  }

  lemma ReleaseAlternates(c: Chan, file: nat)
    requires Alternates(c)
    ensures Alternates(ReleaseChan(c, file))
  {
    if file in c.files {
      assert c.files.Keys == {file} + (c.files.Keys - {file});
      assert |c.files.Keys| == |c.files|;
      assert (c.files - {file}).Keys == {};
    }
  }

  lemma StepAlternates(chans: seq<Chan>, op: Op, ch: nat)
    requires ch < |chans| && Alternates(chans[ch]) && OpensAlone(chans, op, ch)
    ensures Alternates(Apply(chans, op)[ch])
  {
    if op.channel == ch && Sane(op) {
      match op
      case Open(_, file, nonblock, reg) => OpenAlternates(ch, chans[ch], file, nonblock, reg);
      case Release(_, file) => ReleaseAlternates(chans[ch], file);
    } else {
      assert Apply(chans, op)[ch] == chans[ch];
    }
  }

  /** With one file at a time release never sees NULL, after n rounds of open and release a
      client is left registered exactly when n is odd, and an open file has registered the
      client itself exactly when n is even. */
  lemma {:induction false} EveryOtherRound(ops: seq<Op>, ch: nat)
    requires ch < ADCNUM && OneAtATime(ops, ch)
    ensures Alternates(Run(ops)[ch])
    decreases |ops|
  {
    if ops == [] {
      assert Run(ops)[ch] == IDLE;
    } else {
      EveryOtherRound(ops[..|ops| - 1], ch);
      StepAlternates(Run(ops[..|ops| - 1]), ops[|ops| - 1], ch);
    }
  }

  /** So with one file at a time on channels 1 to 3, every second file asks for channel 0 instead
      of its own: the one opened after an odd number of rounds. */
  lemma EveryOtherFileAsksForZero(ops: seq<Op>, ch: nat, file: nat)
    requires 0 < ch < ADCNUM && OneAtATime(ops, ch) && file in Run(ops)[ch].files
    ensures Run(ops)[ch].files[file].privateData == if Run(ops)[ch].rounds % 2 == 0 then ch else 0
  {
    EveryOtherRound(ops, ch);
    RegistrationBalance(ops, ch);
  }

  /** If channel 0 too has one file at a time, the reads of that second file are handed NULL
      exactly while channel 0 has no open file and an even number of rounds behind it. */
  lemma EveryOtherFileReadsNull(ops: seq<Op>, ch: nat, file: nat)
    requires 0 < ch < ADCNUM && OneAtATime(ops, ch) && OneAtATime(ops, 0) && file in Run(ops)[ch].files
    ensures ReadClient(Run(ops), ch, file) == None <==>
            && Run(ops)[ch].rounds % 2 == 1
            && Run(ops)[0].files == map[] && Run(ops)[0].rounds % 2 == 0
  {
    EveryOtherRound(ops, ch);
    EveryOtherRound(ops, 0);
    RegistrationBalance(ops, ch);
  }

  // --------------------------------------------------------------- the driver

  class OpenFile {
    var privateData: nat

    constructor ()
      ensures privateData == 0
    {
      privateData := 0;
    }
  }

  class Fl2440Adc {
    const client: array<Option<nat>>
    const clientRef: array<nat>

    constructor ()
      ensures Valid() && fresh(client) && fresh(clientRef)
      ensures forall ch :: 0 <= ch < ADCNUM ==> SlotOf(ch) == Slot(None, 0)
    {
      client := new Option<nat>[ADCNUM](_ => None);
      clientRef := new nat[ADCNUM](_ => 0);
    }

    ghost predicate Valid() {
      client.Length == ADCNUM && clientRef.Length == ADCNUM
    }

    function SlotOf(ch: nat): Slot
      requires client.Length == ADCNUM && clientRef.Length == ADCNUM && ch < ADCNUM
      reads client, clientRef
    {
      Slot(client[ch], clientRef[ch])
    }

    /** fl2440adc_open, under the mutex. */
    method Open(channel: nat, filp: OpenFile, nonblock: bool, reg: Registration) returns (ret: int)
      requires Valid() && channel < ADCNUM
      modifies client, clientRef, filp
      ensures (SlotOf(channel), ret) == OpenSlot(old(SlotOf(channel)), nonblock, reg)
      ensures forall ch :: 0 <= ch < ADCNUM && ch != channel ==> SlotOf(ch) == old(SlotOf(ch))
      ensures filp.privateData == if !nonblock && old(SlotOf(channel)).client.None? then channel else old(filp.privateData)
    {
      if nonblock {
        return -EINVAL;
      }
      if client[channel].Some? {
        return 0;
      } else {
        filp.privateData := channel;
      }
      match reg
      case Failed(error) =>
        client[channel] := None;
        return error;
      case Registered(c) =>
        client[channel] := Some(c);
        clientRef[channel] := clientRef[channel] + 1;
        return 0;
    }

    /** The pair fl2440adc_read passes to s3c_adc_read. */
    method Read(filp: OpenFile) returns (adcClient: Option<nat>, channel: nat)
      requires Valid() && filp.privateData < ADCNUM
      ensures channel == filp.privateData && adcClient == SlotOf(filp.privateData).client
    {
      channel := filp.privateData;
      adcClient := client[channel];
    }

    /** fl2440adc_release, under the mutex; freed is what s3c_adc_release was given, if called. */
    method Release(channel: nat) returns (freed: Option<Option<nat>>)
      requires Valid() && channel < ADCNUM
      modifies client, clientRef
      ensures SlotOf(channel) == ReleaseSlot(old(SlotOf(channel)))
      ensures forall ch :: 0 <= ch < ADCNUM && ch != channel ==> SlotOf(ch) == old(SlotOf(ch))
      ensures freed == if old(SlotOf(channel)).refs == 0 then Some(old(SlotOf(channel)).client) else None
    {
      freed := None;
      if clientRef[channel] != 0 {
        clientRef[channel] := clientRef[channel] - 1;
      } else {
        freed := Some(client[channel]);
        client[channel] := None;
      }
    }
  }
}
