/** The sliding window of samples behind a chart: a newest-first list with a size cap applied
    when a sample arrives and a prune by age applied when the chart is drawn.  Times are
    milliseconds of one day; spacing is arithmetic over the reals. */
module SampleWindow {
  import opened Wrappers
  import opened DataGrams

  datatype Sample = Sample(time: int, item: DataItem)

  datatype Axis = Axis(width: nat, height: nat, msecondSpace: real) {
    ghost predicate Valid() { msecondSpace > 0.0 }

    /** The size cap (fyymon.cc, 61): the cast to qint32 rounds down. */
    function MaxDots(): int
      requires msecondSpace != 0.0
    {
      (width as real / msecondSpace + 1.0).Floor
    }

    /** Where a sample of this age is drawn, measured from the right edge. */
    function Offset(age: int): real { age as real * msecondSpace }

    /** The sample still lies on the time axis: the draw loops stop at the first that does not. */
    predicate Shows(s: Sample, now: int) { Offset(now - s.time) <= width as real }
  }

  // --------------------------------------------------------- the two operations

  /** addData: make room below the cap, then put the sample in front. */
  function AddSample(axis: Axis, samples: seq<Sample>, s: Sample): seq<Sample>
    requires axis.Valid() && axis.MaxDots() >= 1
  {
    [s] + samples[..Min(|samples|, axis.MaxDots() - 1)]
  }

  /** How many samples a draw keeps: it reads the clock once for each sample it looks at and
      stops at the first one off the axis. */
  function Kept(axis: Axis, samples: seq<Sample>, clock: seq<int>): (n: nat)
    requires |clock| >= |samples|
    ensures n <= |samples|
    ensures forall i :: 0 <= i < n ==> axis.Shows(samples[i], clock[i])
    ensures n < |samples| ==> !axis.Shows(samples[n], clock[n])
  {
    if samples == [] || !axis.Shows(samples[0], clock[0]) then 0
    else 1 + Kept(axis, samples[1..], clock[1..])
  }

  /** A scan that has passed n samples on the axis and stops there has found what a draw keeps. */
  lemma KeptIs(axis: Axis, samples: seq<Sample>, clock: seq<int>, n: nat)
    requires |clock| >= |samples| && n <= |samples|
    requires forall i :: 0 <= i < n ==> axis.Shows(samples[i], clock[i])
    requires n < |samples| ==> !axis.Shows(samples[n], clock[n])
    ensures Kept(axis, samples, clock) == n
  {
  }

  /** Specification: the samples still on the axis, in order. */
  function Window(axis: Axis, samples: seq<Sample>, now: int): seq<Sample> {
    if samples == [] then []
    else (if axis.Shows(samples[0], now) then [samples[0]] else []) + Window(axis, samples[1..], now)
  }

  // ------------------------------------------------------------- arithmetic

  lemma OffsetMonotone(axis: Axis, a: int, b: int)
    requires axis.Valid() && a <= b
    ensures axis.Offset(a) <= axis.Offset(b)
  {
    var x, y := a as real, b as real;
    assert x <= y;
    assert (y - x) * axis.msecondSpace >= 0.0;
  }

  /** A sample at least MaxDots milliseconds old is off the axis, and one younger is on it. */
  lemma CapIsAxisLength(axis: Axis, age: int)
    requires axis.Valid()
    ensures axis.MaxDots() >= 1
    ensures axis.Offset(age) > axis.width as real <==> age >= axis.MaxDots()
  {
    var q, sp, m := axis.width as real / axis.msecondSpace, axis.msecondSpace, axis.MaxDots();
    assert q * sp == axis.width as real;
    assert q >= 0.0;
    var x := age as real;
    assert m as real <= q + 1.0 < m as real + 1.0;
    if age >= m {
      assert x > q;
      assert (x - q) * sp > 0.0;
    } else {
      assert age <= m - 1;
      assert x <= q;
      assert (q - x) * sp >= 0.0;
    }
  }

  // ----------------------------------------------------------------- runs

  datatype Op =
    | Add(sample: Sample)
    | Draw(clock: seq<int>)   // dots, lines or pillars, with the clock readings of the pass
    | DrawMeter               // drawMeter does nothing

  datatype Chart = Chart(
    samples: seq<Sample>,
    history: seq<Sample>,     // history: every sample ever added, newest first
    now: int)                 // the last clock reading

  function Apply(axis: Axis, c: Chart, op: Op): Chart
    requires axis.Valid()
  {
    CapIsAxisLength(axis, 0);
    match op
    case Add(s) => Chart(AddSample(axis, c.samples, s), [s] + c.history, s.time)
    case Draw(clock) =>
      if |clock| > |c.samples| then c.(samples := c.samples[..Kept(axis, c.samples, clock)], now := clock[|clock| - 1]) else c
    case DrawMeter => c
  }

  ghost predicate Ascending(clock: seq<int>) {
    forall i, j :: 0 <= i < j < |clock| ==> clock[i] <= clock[j]
  }

  /** The clock never goes back, and each draw takes as many readings as it needs.  Samples may
      arrive in the same millisecond. */
  ghost predicate Timely(c: Chart, op: Op) {
    match op
    case Add(s) => s.time >= c.now
    case Draw(clock) => |clock| > |c.samples| && Ascending(clock) && clock[0] >= c.now
    case DrawMeter => true
  }

  function Run(axis: Axis, ops: seq<Op>, start: int): Chart
    requires axis.Valid()
    decreases |ops|
  {
    if ops == [] then Chart([], [], start) else Apply(axis, Run(axis, ops[..|ops| - 1], start), ops[|ops| - 1])
  }

  ghost predicate TimelyRun(axis: Axis, ops: seq<Op>, start: int)
    requires axis.Valid()
    decreases |ops|
  {
    ops == [] ||
    var front := ops[..|ops| - 1];
    TimelyRun(axis, front, start) && Timely(Run(axis, front, start), ops[|ops| - 1])
  }

  ghost predicate NewestFirst(samples: seq<Sample>) {
    forall i, j :: 0 <= i < j < |samples| ==> samples[i].time >= samples[j].time
  }

  /** Newest first, and no two in one millisecond. */
  ghost predicate Descending(samples: seq<Sample>) {
    forall i, j :: 0 <= i < j < |samples| ==> samples[i].time > samples[j].time
  }

  /** The list is the newest part of all that was ever added, and what it lacks is off the axis
      or has the cap's number of newer samples before it. */
  ghost predicate ChartInv(axis: Axis, c: Chart)
    requires axis.Valid()
  {
    && |c.samples| <= |c.history| && c.samples == c.history[..|c.samples|]
    && |c.samples| <= axis.MaxDots()
    && NewestFirst(c.history)
    && (c.history != [] ==> c.history[0].time <= c.now)
    && (forall i :: |c.samples| <= i < |c.history| && i < axis.MaxDots() ==> !axis.Shows(c.history[i], c.now))
  }

  lemma GoneStaysGone(axis: Axis, s: Sample, now: int, later: int)
    requires axis.Valid() && now <= later && !axis.Shows(s, now)
    ensures !axis.Shows(s, later)
  {
    OffsetMonotone(axis, now - s.time, later - s.time);
  }

  lemma OlderGoneToo(axis: Axis, s: Sample, older: Sample, now: int)
    requires axis.Valid() && older.time <= s.time && !axis.Shows(s, now)
    ensures !axis.Shows(older, now)
  {
    OffsetMonotone(axis, now - s.time, now - older.time);
  }

  /** The i-th newest of a list of samples at distinct milliseconds is at least i older than
      the newest. */
  lemma {:induction false} DistinctArrivals(samples: seq<Sample>, i: nat)
    requires Descending(samples) && i < |samples|
    ensures samples[0].time - samples[i].time >= i
  {
    if i == 0 {
    } else {
      DistinctArrivals(samples, i - 1);
    }
  }

  /** The cap is harmless: with arrivals at distinct milliseconds every sample addData evicts
      is already off the axis. */
  lemma CapHarmless(axis: Axis, samples: seq<Sample>, s: Sample, i: nat)
    requires axis.Valid() && Descending(samples) && (samples != [] ==> s.time > samples[0].time)
    requires axis.MaxDots() - 1 <= i < |samples|
    ensures !axis.Shows(samples[i], s.time)
  {
    DistinctArrivals(samples, i);
    CapIsAxisLength(axis, s.time - samples[i].time);
  }

  /** Without that assumption: for samples in any order of arrival time, addData evicts one that
      is still on the axis exactly when the cap is reached and the sample at index maxDots - 1
      is still on the axis. */
  lemma CapHarmfulExactly(axis: Axis, samples: seq<Sample>, s: Sample)
    requires axis.Valid() && axis.MaxDots() >= 1 && NewestFirst(samples)
    ensures (exists i :: |AddSample(axis, samples, s)| - 1 <= i < |samples| && axis.Shows(samples[i], s.time)) <==>
            (|samples| >= axis.MaxDots() && axis.Shows(samples[axis.MaxDots() - 1], s.time))
  {
    var m := axis.MaxDots() - 1;
    if |samples| > m && !axis.Shows(samples[m], s.time) {
      forall i | m <= i < |samples| ensures !axis.Shows(samples[i], s.time) {
        OlderGoneToo(axis, samples[m], samples[i], s.time);
      }
    }
  }

  lemma AddKeeps(axis: Axis, c: Chart, s: Sample)
    requires axis.Valid() && ChartInv(axis, c) && Timely(c, Add(s))
    ensures ChartInv(axis, Apply(axis, c, Add(s)))
  {
    var d := Apply(axis, c, Add(s));
    var n := |d.samples| - 1;
    CapIsAxisLength(axis, 0);
    assert d.samples == ([s] + c.history)[..n + 1];
    forall i | n + 1 <= i < |d.history| && i < axis.MaxDots() ensures !axis.Shows(d.history[i], s.time) {
      assert d.history[i] == c.history[i - 1];
      GoneStaysGone(axis, c.history[i - 1], c.now, s.time);
    }
  }

  lemma DrawKeeps(axis: Axis, c: Chart, clock: seq<int>)
    requires axis.Valid() && ChartInv(axis, c) && Timely(c, Draw(clock))
    ensures ChartInv(axis, Apply(axis, c, Draw(clock)))
  {
    var n, end := Kept(axis, c.samples, clock), clock[|clock| - 1];
    assert c.samples[..n] == c.history[..n];
    forall i | n <= i < |c.history| && i < axis.MaxDots() ensures !axis.Shows(c.history[i], end) {
      if i < |c.samples| {
        GoneStaysGone(axis, c.samples[n], clock[n], end);
        OlderGoneToo(axis, c.samples[n], c.history[i], end);
      } else {
        GoneStaysGone(axis, c.history[i], c.now, end);
      }
    }
  }

  lemma {:induction false} RunKeeps(axis: Axis, ops: seq<Op>, start: int)
    requires axis.Valid() && TimelyRun(axis, ops, start)
    ensures ChartInv(axis, Run(axis, ops, start))
    decreases |ops|
  {
    if ops == [] {
      CapIsAxisLength(axis, 0);
    } else {
      var front := Run(axis, ops[..|ops| - 1], start);
      RunKeeps(axis, ops[..|ops| - 1], start);
      match ops[|ops| - 1]
      case Add(s) => AddKeeps(axis, front, s);
      case Draw(clock) => DrawKeeps(axis, front, clock);
      case DrawMeter =>
    }
  }

  lemma {:induction false} WindowIsPrefix(axis: Axis, samples: seq<Sample>, now: int, n: nat)
    requires n <= |samples|
    requires forall i :: 0 <= i < n ==> axis.Shows(samples[i], now)
    requires forall i :: n <= i < |samples| ==> !axis.Shows(samples[i], now)
    ensures Window(axis, samples, now) == samples[..n]
  {
    if samples == [] {
    } else {
      WindowIsPrefix(axis, samples[1..], now, if n == 0 then 0 else n - 1);
      if n > 0 {
        assert samples[..n] == [samples[0]] + samples[1..][..n - 1];
      }
    }
  }

  /** Where the axis cuts a newest-first list. */
  lemma Cut(axis: Axis, samples: seq<Sample>, now: int) returns (n: nat)
    requires axis.Valid() && NewestFirst(samples)
    ensures n <= |samples|
    ensures forall i :: 0 <= i < n ==> axis.Shows(samples[i], now)
    ensures forall i :: n <= i < |samples| ==> !axis.Shows(samples[i], now)
    ensures Window(axis, samples, now) == samples[..n]
  {
    n := 0;
    while n < |samples| && axis.Shows(samples[n], now)
      invariant n <= |samples|
      invariant forall i :: 0 <= i < n ==> axis.Shows(samples[i], now)
    {
      n := n + 1;
    }
    forall i | n <= i < |samples| ensures !axis.Shows(samples[i], now) {
      OlderGoneToo(axis, samples[n], samples[i], now);
    }
    WindowIsPrefix(axis, samples, now, n);
  }

  // ------------------------------------------------------- the main results

  /** The newest samples of a list, as many as the cap allows. */
  function Capped(axis: Axis, samples: seq<Sample>): seq<Sample>
    requires axis.Valid()
  {
    CapIsAxisLength(axis, 0);
    samples[..Min(|samples|, axis.MaxDots())]
  }

  /** What the list lacks of the window, it lacks for the cap. */
  lemma HoldsWindow(axis: Axis, c: Chart)
    requires axis.Valid() && ChartInv(axis, c)
    ensures Capped(axis, Window(axis, c.history, c.now)) <= c.samples
  {
    CapIsAxisLength(axis, 0);
    var n := Cut(axis, c.history, c.now);
    if |c.samples| < |c.history| && |c.samples| < axis.MaxDots() {
      assert !axis.Shows(c.history[|c.samples|], c.now);
    }
  }

  /** A draw keeps nothing that was off the axis when it began. */
  lemma KeepsWindow(axis: Axis, c: Chart, clock: seq<int>)
    requires axis.Valid() && ChartInv(axis, c) && Timely(c, Draw(clock))
    ensures Apply(axis, c, Draw(clock)).samples <= Capped(axis, Window(axis, c.history, clock[0]))
  {
    CapIsAxisLength(axis, 0);
    var n := Cut(axis, c.history, clock[0]);
    if n < Kept(axis, c.samples, clock) {
      assert c.samples[n] == c.history[n];
      GoneStaysGone(axis, c.history[n], clock[0], clock[n]);
      assert false;
    }
  }

  /** Window refinement over whole runs, with a clock that moves while the chart is drawn: after
      any run of arrivals and draws that ends in a draw, the list holds, up to the cap, every
      sample ever added that is on the axis when the draw ends, and only samples that were on
      the axis when it began, newest first. */
  lemma {:induction false} WindowRefinement(axis: Axis, ops: seq<Op>, clock: seq<int>, start: int)
    requires axis.Valid() && TimelyRun(axis, ops + [Draw(clock)], start)
    ensures var c := Run(axis, ops + [Draw(clock)], start);
      && Capped(axis, Window(axis, c.history, clock[|clock| - 1])) <= c.samples
      && c.samples <= Capped(axis, Window(axis, c.history, clock[0]))
  {
    assert (ops + [Draw(clock)])[..|ops|] == ops;
    RunKeeps(axis, ops, start);
    RunKeeps(axis, ops + [Draw(clock)], start);
    KeepsWindow(axis, Run(axis, ops, start), clock);
    HoldsWindow(axis, Run(axis, ops + [Draw(clock)], start));
  }

  /** With the clock still during the draw the list is exactly the samples on the axis, up to
      the cap, and all of them exactly if there are no more than the cap. */
  lemma {:induction false} WindowRefinementExact(axis: Axis, ops: seq<Op>, clock: seq<int>, start: int)
    requires axis.Valid() && TimelyRun(axis, ops + [Draw(clock)], start)
    requires clock[0] == clock[|clock| - 1]
    ensures var c := Run(axis, ops + [Draw(clock)], start); var window := Window(axis, c.history, clock[0]);
      && c.samples == Capped(axis, window)
      && (c.samples == window <==> |window| <= axis.MaxDots())
  {
    WindowRefinement(axis, ops, clock, start);
  }

  /** Samples at distinct milliseconds that are all on the axis are no more than the cap. */
  lemma DistinctFit(axis: Axis, samples: seq<Sample>, now: int)
    requires axis.Valid() && Descending(samples) && (samples != [] ==> samples[0].time <= now)
    ensures Capped(axis, Window(axis, samples, now)) == Window(axis, samples, now)
  {
    var n := Cut(axis, samples, now);
    var m := axis.MaxDots();
    CapIsAxisLength(axis, 0);
    if n > m {
      DistinctArrivals(samples, m);
      CapIsAxisLength(axis, now - samples[m].time);
      assert false;
    }
  }

  /** With arrivals at distinct milliseconds the cap does not matter: in any run the list is
      bounded by the two windows themselves. */
  lemma {:induction false} WindowRefinementDistinct(axis: Axis, ops: seq<Op>, clock: seq<int>, start: int)
    requires axis.Valid() && TimelyRun(axis, ops + [Draw(clock)], start)
    requires Descending(Run(axis, ops + [Draw(clock)], start).history)
    ensures var c := Run(axis, ops + [Draw(clock)], start);
      && Window(axis, c.history, clock[|clock| - 1]) <= c.samples
      && c.samples <= Window(axis, c.history, clock[0])
  {
    var all := ops + [Draw(clock)];
    assert all[..|all| - 1] == ops;
    RunKeeps(axis, ops, start);
    WindowRefinement(axis, ops, clock, start);
    DistinctFit(axis, Run(axis, all, start).history, clock[0]);
    DistinctFit(axis, Run(axis, all, start).history, clock[|clock| - 1]);
  }

  // --------------------------------------------------------------- the burst

  /** The screen of the program (fyymon.cc, 32-38 and 328-356): 560 pixels, 20 to the
      second. */
  const SCREEN := Axis(560, 560, 0.02)

  /** So many copies of one sample. */
  function Copies(s: Sample, n: nat): seq<Sample> {
    seq(n, _ => s)
  }

  function Burst(s: Sample, n: nat): seq<Op> {
    seq(n, _ => Add(s))
  }

  lemma ScreenCap()
    ensures SCREEN.Valid() && SCREEN.MaxDots() == 28001
  {
    assert 560 as real / 0.02 == 28000.0;
  }

  lemma {:induction false} BurstRun(s: Sample, n: nat)
    ensures TimelyRun(SCREEN, Burst(s, n), s.time)
    ensures Run(SCREEN, Burst(s, n), s.time) == Chart(Copies(s, Min(n, 28001)), Copies(s, n), s.time)
  {
    ScreenCap();
    if n == 0 {
    } else {
      BurstRun(s, n - 1);
      assert Burst(s, n)[..n - 1] == Burst(s, n - 1);
      assert [s] + Copies(s, n - 1) == Copies(s, n);
      assert [s] + Copies(s, Min(n - 1, 28001))[..Min(n - 1, 28000)] == Copies(s, Min(n, 28001));
    }
  }

  /** A run that breaks it: of 28002 samples added in one millisecond and then drawn, all on the
      axis, the chart has lost one. */
  lemma BurstLosesSample(s: Sample)
    ensures exists ops ::
      && TimelyRun(SCREEN, ops, s.time)
      && |Window(SCREEN, Run(SCREEN, ops, s.time).history, s.time)| == 28002
      && |Run(SCREEN, ops, s.time).samples| == 28001
  {
    var clock := seq(28002, _ => s.time);
    var burst := Burst(s, 28002);
    var ops := burst + [Draw(clock)];
    assert ops[..|ops| - 1] == burst;
    BurstRun(s, 28002);
    ScreenCap();
    WindowRefinementExact(SCREEN, burst, clock, s.time);
    var h := Run(SCREEN, ops, s.time).history;
    assert h == Copies(s, 28002);
    assert SCREEN.Offset(0) == 0.0;
    WindowIsPrefix(SCREEN, h, s.time, 28002);
  }
}
