/** The four charts of the oscilloscope screen: what a chart draws and keeps, and the refresh
    timers that a signal fan-out keeps in phase. */
module FyyMonitor {
  import opened Wrappers
  import opened DataGrams
  import opened SampleWindow

  datatype ChartType = DotType | LineType | PillarType | MeterType | HideChart | FreezeChart

  datatype Timer = Timer(active: bool, interval: int, startedAt: int)

  /** The part of a chart the timer machine is about. */
  datatype Pane = Pane(kind: ChartType, idle: bool, visible: bool, timer: Timer)

  // ------------------------------------------------- the timer machine, on values

  const CHARTS := 4

  /** sourced: the channel's data signals reach the chart.  wired: the chart's start signal
      reaches the fan-out. */
  datatype Monitor = Monitor(panes: seq<Pane>, sourced: seq<bool>, wired: seq<bool>)

  datatype MonitorEvent =
    | ConnectChart(num: nat)
    | DisconnectChart(num: nat)
    | DataSrcOn(num: nat)
    | DataSrcOff(num: nat)
    | AddData(num: nat)
    | ChartTypeChanged(num: nat, kind: ChartType)
    | SetFramePeriod(seconds: int)

  function Started(t: Timer, now: int): Timer { t.(active := true, startedAt := now) }

  function Stopped(t: Timer): Timer { t.(active := false) }

  function SetIdlePane(p: Pane, on: bool, now: int): Pane {
    p.(visible := !on, idle := on, timer := if on then Stopped(p.timer) else Started(p.timer, now))
  }

  /** Choosing a drawing type restarts a chart that has a source. */
  predicate Wakes(p: Pane, kind: ChartType) {
    !p.idle && kind != HideChart && kind != FreezeChart
  }

  function TypeChangedPane(p: Pane, kind: ChartType, now: int): Pane {
    var q := p.(kind := kind);
    if kind == HideChart then q.(visible := false, timer := Stopped(q.timer))
    else if kind == FreezeChart then q.(timer := Stopped(q.timer))
    else if Wakes(p, kind) then SetIdlePane(q, false, now)
    else q
  }

  /** syncUpdateFrame: an active timer starts over. */
  function SyncPane(p: Pane, now: int): Pane {
    if p.timer.active then p.(timer := Started(p.timer, now)) else p
  }

  function Sync(panes: seq<Pane>, now: int): seq<Pane> {
    seq(|panes|, i requires 0 <= i < |panes| => SyncPane(panes[i], now))
  }

  /** A chart that has started tells the monitor, if it is wired to it. */
  function Announce(m: Monitor, num: nat, now: int): Monitor
    requires num < |m.wired|
  {
    if m.wired[num] then m.(panes := Sync(m.panes, now)) else m
  }

  function Activate(m: Monitor, num: nat, now: int): Monitor
    requires num < |m.panes| && num < |m.wired|
  {
    Announce(m.(panes := m.panes[num := SetIdlePane(m.panes[num], false, now)]), num, now)
  }

  predicate Shaped(m: Monitor) {
    |m.panes| == CHARTS && |m.sourced| == CHARTS && |m.wired| == CHARTS
  }

  function Handle(m: Monitor, e: MonitorEvent, now: int): Monitor
    requires Shaped(m)
  {
    match e
    case ConnectChart(num) =>
      if num < CHARTS then m.(sourced := m.sourced[num := true], wired := m.wired[num := true]) else m
    case DisconnectChart(num) =>
      if num < CHARTS then
        m.(sourced := m.sourced[num := false], panes := m.panes[num := SetIdlePane(m.panes[num], true, now)])
      else m
    case DataSrcOn(num) => if num < CHARTS && m.sourced[num] then Activate(m, num, now) else m
    case DataSrcOff(num) =>
      if num < CHARTS && m.sourced[num] then m.(panes := m.panes[num := SetIdlePane(m.panes[num], true, now)]) else m
    case AddData(num) =>
      if num < CHARTS && m.sourced[num] && m.panes[num].idle && m.panes[num].kind != FreezeChart
      then Activate(m, num, now) else m
    case ChartTypeChanged(num, kind) =>
      if num >= CHARTS then m else
      var v := m.(panes := m.panes[num := TypeChangedPane(m.panes[num], kind, now)]);
      if Wakes(m.panes[num], kind) then Announce(v, num, now) else v
    case SetFramePeriod(seconds) =>
      m.(panes := seq(CHARTS, i requires 0 <= i < CHARTS => m.panes[i].(timer := Timer(true, seconds * 1000, now))))
  }

  /** Four charts as constructed: dots, idle, hidden, timers stopped at one second. */
  const FRESH_PANE := Pane(DotType, true, false, Timer(false, 1000, 0))

  const FRESH := Monitor([FRESH_PANE, FRESH_PANE, FRESH_PANE, FRESH_PANE], [false, false, false, false], [false, false, false, false])

  function HandleAll(events: seq<(MonitorEvent, int)>): (m: Monitor)
    ensures Shaped(m)
    decreases |events|
  {
    if events == [] then FRESH
    else
      var (e, now) := events[|events| - 1];
      Handle(HandleAll(events[..|events| - 1]), e, now)
  }

  /** All running timers tick together, and an idle chart is not shown. */
  ghost predicate PhaseLocked(panes: seq<Pane>) {
    && (forall i, j :: 0 <= i < |panes| && 0 <= j < |panes| && panes[i].timer.active && panes[j].timer.active ==>
          panes[i].timer == panes[j].timer)
    && (forall i :: 0 <= i < |panes| && panes[i].idle ==> !panes[i].visible)
  }

  ghost predicate MonitorInv(m: Monitor) {
    && Shaped(m)
    && PhaseLocked(m.panes)
    && (forall i, j :: 0 <= i < CHARTS && 0 <= j < CHARTS ==> m.panes[i].timer.interval == m.panes[j].timer.interval)
    && (forall i :: 0 <= i < CHARTS && !m.wired[i] ==> m.panes[i].idle && !m.sourced[i])
  }

  lemma ActivateKeeps(m: Monitor, num: nat, now: int)
    requires MonitorInv(m) && num < CHARTS && m.wired[num]
    ensures MonitorInv(Activate(m, num, now))
  {
  }

  /** A chart may go idle, hide, freeze or change type without disturbing the others. */
  lemma QuietChangeKeeps(m: Monitor, num: nat, p: Pane)
    requires MonitorInv(m) && num < CHARTS
    requires p.timer == m.panes[num].timer || p.timer == Stopped(m.panes[num].timer)
    requires (m.panes[num].idle ==> p.idle) && (p.idle ==> !p.visible)
    ensures MonitorInv(m.(panes := m.panes[num := p]))
  {
  }

  lemma TypeChangeKeeps(m: Monitor, num: nat, kind: ChartType, now: int)
    requires MonitorInv(m) && num < CHARTS
    ensures MonitorInv(Handle(m, ChartTypeChanged(num, kind), now))
  {
    if Wakes(m.panes[num], kind) {
      var p := m.panes[num].(kind := kind);
      QuietChangeKeeps(m, num, p);
      var v := m.(panes := m.panes[num := p]);
      ActivateKeeps(v, num, now);
      assert Handle(m, ChartTypeChanged(num, kind), now) == Activate(v, num, now);
    } else {
      QuietChangeKeeps(m, num, TypeChangedPane(m.panes[num], kind, now));
    }
  }

  lemma HandleKeeps(m: Monitor, e: MonitorEvent, now: int)
    requires MonitorInv(m)
    ensures MonitorInv(Handle(m, e, now))
  {
    match e
    case ConnectChart(_) =>
    case DisconnectChart(num) =>
      if num < CHARTS {
        QuietChangeKeeps(m, num, SetIdlePane(m.panes[num], true, now));
      }
    case DataSrcOn(num) =>
      if num < CHARTS && m.sourced[num] {
        ActivateKeeps(m, num, now);
      }
    case DataSrcOff(num) =>
      if num < CHARTS {
        QuietChangeKeeps(m, num, SetIdlePane(m.panes[num], true, now));
      }
    case AddData(num) =>
      if num < CHARTS && m.sourced[num] {
        ActivateKeeps(m, num, now);
      }
    case ChartTypeChanged(num, kind) =>
      if num < CHARTS {
        TypeChangeKeeps(m, num, kind, now);
      }
    case SetFramePeriod(_) =>
  }

  /** Phase lock: after any sequence of public events, at any times, all active timers share
      one interval and one start instant, and no idle chart is visible. */
  lemma {:induction false} PhaseLock(events: seq<(MonitorEvent, int)>)
    ensures MonitorInv(HandleAll(events))
    decreases |events|
  {
    if events == [] {
    } else {
      PhaseLock(events[..|events| - 1]);
      HandleKeeps(HandleAll(events[..|events| - 1]), events[|events| - 1].0, events[|events| - 1].1);
    }
  }

  /** The fan-out is what keeps it: a start signal that is not wired breaks the phase as soon as
      another timer is running with a different start instant, and only then. */
  lemma UnwiredBreaksPhase(m: Monitor, num: nat, now: int)
    requires MonitorInv(m) && num < CHARTS
    ensures PhaseLocked(m.panes[num := SetIdlePane(m.panes[num], false, now)]) <==>
            (forall i :: 0 <= i < CHARTS && i != num && m.panes[i].timer.active ==> m.panes[i].timer.startedAt == now)
  {
    var panes := m.panes[num := SetIdlePane(m.panes[num], false, now)];
    assert panes[num].timer == Timer(true, m.panes[num].timer.interval, now);
    assert forall i :: 0 <= i < CHARTS && i != num ==> panes[i] == m.panes[i];
  }

  // ------------------------------------------------- what an event does to one chart

  /** Chart num starts: its source comes up, a sample finds it idle and not frozen, or a drawing
      type is chosen while it has a source. */
  predicate Starts(m: Monitor, e: MonitorEvent, num: nat)
    requires Shaped(m) && num < CHARTS
  {
    match e
    case DataSrcOn(n) => n == num && m.sourced[num]
    case AddData(n) => n == num && m.sourced[num] && m.panes[num].idle && m.panes[num].kind != FreezeChart
    case ChartTypeChanged(n, kind) => n == num && !m.panes[num].idle && kind in {DotType, LineType, PillarType, MeterType}
    case _ => false
  }

  /** Chart num loses its source, for now or for good. */
  predicate LosesSource(m: Monitor, e: MonitorEvent, num: nat)
    requires Shaped(m) && num < CHARTS
  {
    match e
    case DisconnectChart(n) => n == num
    case DataSrcOff(n) => n == num && m.sourced[num]
    case _ => false
  }

  lemma IdleExactly(m: Monitor, e: MonitorEvent, now: int, num: nat)
    requires Shaped(m) && num < CHARTS
    ensures Handle(m, e, now).panes[num].idle <==> LosesSource(m, e, num) || (m.panes[num].idle && !Starts(m, e, num))
  {
  }

  /** A chart is on the screen after an event exactly if the event starts it, or it was there and
      neither loses its source nor is hidden. */
  lemma VisibleExactly(m: Monitor, e: MonitorEvent, now: int, num: nat)
    requires Shaped(m) && num < CHARTS
    ensures Handle(m, e, now).panes[num].visible <==>
            Starts(m, e, num) ||
            (m.panes[num].visible && !LosesSource(m, e, num) && e != ChartTypeChanged(num, HideChart))
  {
  }

  /** Its timer runs exactly if the event starts it or sets a refresh period, or it ran and the
      chart neither loses its source nor is hidden or frozen. */
  lemma TickingExactly(m: Monitor, e: MonitorEvent, now: int, num: nat)
    requires Shaped(m) && num < CHARTS
    ensures Handle(m, e, now).panes[num].timer.active <==>
            Starts(m, e, num) || e.SetFramePeriod? ||
            (m.panes[num].timer.active && !LosesSource(m, e, num)
             && e != ChartTypeChanged(num, HideChart) && e != ChartTypeChanged(num, FreezeChart))
  {
  }

  /** Its timer starts over now exactly if the chart starts, a refresh period is set, or it runs
      while a chart wired to the fan-out starts; the interval changes with the refresh period only
      and the type by choice only. */
  lemma TimerExactly(m: Monitor, e: MonitorEvent, now: int, num: nat)
    requires Shaped(m) && num < CHARTS
    ensures var p, q := m.panes[num], Handle(m, e, now).panes[num];
      && q.timer.startedAt == (if Starts(m, e, num) || e.SetFramePeriod? ||
                                  (p.timer.active && exists i: nat :: i < CHARTS && m.wired[i] && Starts(m, e, i))
                               then now else p.timer.startedAt)
      && q.timer.interval == (if e.SetFramePeriod? then e.seconds * 1000 else p.timer.interval)
      && q.kind == (if e.ChartTypeChanged? && e.num == num then e.kind else p.kind)
  {
  }

  /** Connecting gives a chart its source and wires it to the fan-out; disconnecting takes the
      source and leaves the wire. */
  lemma WiringExactly(m: Monitor, e: MonitorEvent, now: int, num: nat)
    requires Shaped(m) && num < CHARTS
    ensures Handle(m, e, now).sourced[num] <==> e == ConnectChart(num) || (m.sourced[num] && e != DisconnectChart(num))
    ensures Handle(m, e, now).wired[num] <==> e == ConnectChart(num) || m.wired[num]
  {
  }

  /** Four charts of dots, idle, off the screen, without source or timer, refreshed each second. */
  lemma StartsQuiet(num: nat)
    requires num < CHARTS
    ensures var m := HandleAll([]);
      && |m.panes| == 4 && !m.sourced[num] && !m.wired[num]
      && m.panes[num] == Pane(DotType, true, false, Timer(false, 1000, 0))
  {
  }

  /** A chart nobody has connected stays idle and off the screen through any events. */
  lemma {:induction false} UnconnectedIsHidden(events: seq<(MonitorEvent, int)>, num: nat)
    requires num < CHARTS && forall i :: 0 <= i < |events| ==> events[i].0 != ConnectChart(num)
    ensures var m := HandleAll(events);
      !m.sourced[num] && !m.wired[num] && m.panes[num].idle && !m.panes[num].visible
    decreases |events|
  {
    if events == [] {
    } else {
      var front := events[..|events| - 1];
      var m, e, now := HandleAll(front), events[|events| - 1].0, events[|events| - 1].1;
      assert forall i :: 0 <= i < |front| ==> front[i] == events[i];
      UnconnectedIsHidden(front, num);
      WiringExactly(m, e, now, num);
      IdleExactly(m, e, now, num);
      VisibleExactly(m, e, now, num);
    }
  }

  /** A chart of a drawing type is on the screen exactly while it is not idle, and any chart that
      is idle is off it. */
  ghost predicate AwakeIsShown(p: Pane) {
    && (p.kind in {DotType, LineType, PillarType, MeterType} ==> (p.visible <==> !p.idle))
    && (p.idle ==> !p.visible)
  }

  lemma {:induction false} ShownExactly(events: seq<(MonitorEvent, int)>, num: nat)
    requires num < CHARTS
    ensures AwakeIsShown(HandleAll(events).panes[num])
    decreases |events|
  {
    if events == [] {
    } else {
      var m, e, now := HandleAll(events[..|events| - 1]), events[|events| - 1].0, events[|events| - 1].1;
      ShownExactly(events[..|events| - 1], num);
      IdleExactly(m, e, now, num);
      VisibleExactly(m, e, now, num);
      TimerExactly(m, e, now, num);
    }
  }

  // ----------------------------------------------- what freezing and hiding do not stop

  /** Chart num loses its source or gets another type. */
  predicate Settles(m: Monitor, e: MonitorEvent, num: nat)
    requires Shaped(m) && num < CHARTS
  {
    LosesSource(m, e, num) || (e.ChartTypeChanged? && e.num == num)
  }

  /** The timer of a chart that is frozen or hidden. */
  predicate TicksRegardless(p: Pane) {
    p.kind in {FreezeChart, HideChart} && p.timer.active
  }

  predicate SeenThoughHidden(p: Pane) {
    p.kind == HideChart && p.visible
  }

  /** After any step a frozen or hidden chart ticks exactly if the step started it or set a refresh
      period, or it was ticking and the step did not settle it. */
  lemma TicksRegardlessExactly(m: Monitor, e: MonitorEvent, now: int, num: nat)
    requires Shaped(m) && num < CHARTS
    ensures TicksRegardless(Handle(m, e, now).panes[num]) <==>
            && !Settles(m, e, num)
            && (TicksRegardless(m.panes[num]) ||
                ((Starts(m, e, num) || e.SetFramePeriod?) && m.panes[num].kind in {FreezeChart, HideChart}))
  {
  }

  /** After any step a hidden chart is visible exactly if the step started it, or it was visible and
      the step did not settle it. */
  lemma SeenThoughHiddenExactly(m: Monitor, e: MonitorEvent, now: int, num: nat)
    requires Shaped(m) && num < CHARTS
    ensures SeenThoughHidden(Handle(m, e, now).panes[num]) <==>
            && !Settles(m, e, num)
            && (SeenThoughHidden(m.panes[num]) || (Starts(m, e, num) && m.panes[num].kind == HideChart))
  {
  }

  lemma Then(events: seq<(MonitorEvent, int)>, e: MonitorEvent, now: int) returns (next: seq<(MonitorEvent, int)>)
    ensures next == events + [(e, now)] && HandleAll(next) == Handle(HandleAll(events), e, now)
  {
    next := events + [(e, now)];
    assert next[..|events|] == events;
  }

  /** Connect a chart, choose this type, and let its source come up. */
  lemma SourceUp(kind: ChartType) returns (events: seq<(MonitorEvent, int)>)
    requires kind in {FreezeChart, HideChart}
    ensures HandleAll(events).panes[0].kind == kind && TicksRegardless(HandleAll(events).panes[0])
    ensures kind == HideChart ==> SeenThoughHidden(HandleAll(events).panes[0])
  {
    events := Then([], ConnectChart(0), 0);
    events := Then(events, ChartTypeChanged(0, kind), 0);
    assert HandleAll(events).sourced[0] && HandleAll(events).panes[0].kind == kind;
    var before := HandleAll(events);
    events := Then(events, DataSrcOn(0), 0);
    TicksRegardlessExactly(before, DataSrcOn(0), 0, 0);
    SeenThoughHiddenExactly(before, DataSrcOn(0), 0, 0);
  }

  /** A frozen chart ticks again once its source comes up. */
  lemma FrozenTicks()
    ensures exists events :: HandleAll(events).panes[0].kind == FreezeChart && HandleAll(events).panes[0].timer.active
  {
    var events := SourceUp(FreezeChart);
  }

  /** A hidden chart is back on the screen once its source comes up. */
  lemma HiddenShows()
    ensures exists events :: HandleAll(events).panes[0].kind == HideChart && HandleAll(events).panes[0].visible
  {
    var events := SourceUp(HideChart);
  }

  // --------------------------------------------------------------- drawing

  datatype Point = Point(x: real, y: real)

  datatype Line = Line(from: Point, to: Point)

  datatype Rect = Rect(x: real, y: real, w: real, h: real)

  /** DATA_RAW2VALUE over a full scale of 0x3ff (fyymon.h, 38-45). */
  function YPosition(axis: Axis, raw: int): real {
    raw as real * axis.height as real / 1023.0
  }

  function DotOf(axis: Axis, s: Sample, now: int): Point {
    Point(axis.width as real - axis.Offset(now - s.time), axis.height as real - YPosition(axis, s.item.data))
  }

  function PillarOf(axis: Axis, s: Sample, now: int): Rect {
    Rect(DotOf(axis, s, now).x, DotOf(axis, s, now).y, axis.msecondSpace * 500.0, YPosition(axis, s.item.data))
  }

  lemma ProductSign(x: real, y: real)
    requires y > 0.0
    ensures x > 0.0 ==> x * y > 0.0
    ensures x == 0.0 ==> x * y == 0.0
    ensures x < 0.0 ==> x * y < 0.0
  {
  }

  lemma ValueOnScreen(axis: Axis, raw: int)
    requires axis.height > 0 && raw >= 0
    ensures YPosition(axis, raw) >= 0.0
    ensures YPosition(axis, raw) <= axis.height as real <==> raw <= 1023
  {
    var r, h, room := raw as real, axis.height as real, (1023 - raw) as real;
    assert room == 1023.0 - r;
    ProductSign(r, h);
    ProductSign(room, h);
    assert room * h == 1023.0 * h - r * h;
    assert YPosition(axis, raw) == r * h / 1023.0 == h - room * h / 1023.0;
  }

  /** A sample not from the future is drawn on the screen exactly when it is on the axis and its
      raw value is within the ten bits of the converter. */
  lemma DotOnScreen(axis: Axis, s: Sample, now: int)
    requires axis.Valid() && s.time <= now && axis.height > 0
    ensures var p := DotOf(axis, s, now);
      (0.0 <= p.x <= axis.width as real && 0.0 <= p.y <= axis.height as real) <==> (axis.Shows(s, now) && s.item.data <= 1023)
  {
    OffsetMonotone(axis, 0, now - s.time);
    assert axis.Offset(0) == 0.0;
    ValueOnScreen(axis, s.item.data);
    var p := DotOf(axis, s, now);
    assert p.x == axis.width as real - axis.Offset(now - s.time);
    assert p.y == axis.height as real - YPosition(axis, s.item.data);
  }

  lemma HigherValue(h: real, a: real, b: real)
    requires h > 0.0 && a < b
    ensures a * h / 1023.0 < b * h / 1023.0
  {
    ProductSign(b - a, h);
    assert b * h == a * h + (b - a) * h;
  }

  /** Where a dot lies from left to right: a sample just taken is at the right edge, and it moves
      left by the space of one millisecond in each. */
  lemma DotPlace(axis: Axis, s: Sample, now: int)
    ensures DotOf(axis, s, s.time).x == axis.width as real
    ensures DotOf(axis, s, now + 1).x == DotOf(axis, s, now).x - axis.msecondSpace
  {
    var age := (now - s.time) as real;
    assert (now + 1 - s.time) as real == age + 1.0;
    assert (age + 1.0) * axis.msecondSpace == age * axis.msecondSpace + axis.msecondSpace;
  }

  /** And how high: the value 0 is at the bottom, 1023 at the top, and greater values are strictly
      higher. */
  lemma DotHeight(axis: Axis, s: Sample, t: Sample, now: int)
    requires axis.height > 0
    ensures s.item.data == 0 ==> DotOf(axis, s, now).y == axis.height as real
    ensures s.item.data == 1023 ==> DotOf(axis, s, now).y == 0.0
    ensures s.item.data < t.item.data ==> DotOf(axis, t, now).y < DotOf(axis, s, now).y
  {
    if s.item.data < t.item.data {
      HigherValue(axis.height as real, s.item.data as real, t.item.data as real);
    }
  }

  /** On the program's screen a sample t milliseconds old is t/50 pixels from the right edge. */
  lemma DotOnProgramScreen(s: Sample, age: int)
    ensures DotOf(SCREEN, s, s.time + age).x == 560.0 - age as real / 50.0
    ensures s.item.data == 0 ==> DotOf(SCREEN, s, s.time + age).y == 560.0
  {
  }

  /** Drawn with one clock reading, the newest-first list runs from right to left. */
  lemma DotsRightToLeft(axis: Axis, samples: seq<Sample>, now: int, i: nat, j: nat)
    requires axis.Valid() && NewestFirst(samples) && i < j < |samples|
    ensures DotOf(axis, samples[j], now).x <= DotOf(axis, samples[i], now).x
    ensures samples[j].time < samples[i].time ==> DotOf(axis, samples[j], now).x < DotOf(axis, samples[i], now).x
  {
    var d := samples[i].time - samples[j].time;
    assert axis.Offset(now - samples[j].time) - axis.Offset(now - samples[i].time) == d as real * axis.msecondSpace;
    ProductSign(d as real, axis.msecondSpace);
  }

  /** A pillar stands on the bottom of the screen under the dot of its sample, and is as wide as
      half a second. */
  lemma PillarPlace(axis: Axis, s: Sample, now: int)
    ensures var p, dot := PillarOf(axis, s, now), DotOf(axis, s, now);
      p.x == dot.x && p.y == dot.y && p.y + p.h == axis.height as real && p.w == axis.Offset(500)
  {
  }

  /** What a chart has recorded to paint: dots, dots joined by lines, pillars, or nothing. */
  datatype Picture = Dots(dots: seq<Point>) | Joined(dots: seq<Point>, lines: seq<Line>) | Pillars(pillars: seq<Rect>) | Blank

  ghost predicate DotsFor(axis: Axis, samples: seq<Sample>, clock: seq<int>, dots: seq<Point>)
    requires |clock| >= |samples|
  {
    |dots| == |samples| && forall i :: 0 <= i < |dots| ==> dots[i] == DotOf(axis, samples[i], clock[i])
  }

  /** Each dot is joined to the next. */
  ghost predicate Joins(dots: seq<Point>, lines: seq<Line>) {
    && |lines| == (if dots == [] then 0 else |dots| - 1)
    && forall i :: 0 <= i < |lines| ==> lines[i] == Line(dots[i], dots[i + 1])
  }

  ghost predicate PillarsFor(axis: Axis, samples: seq<Sample>, clock: seq<int>, pillars: seq<Rect>)
    requires |clock| >= |samples|
  {
    |pillars| == |samples| && forall i :: 0 <= i < |pillars| ==> pillars[i] == PillarOf(axis, samples[i], clock[i])
  }

  /** The picture a chart of this type makes of these samples. */
  ghost predicate Pictures(picture: Picture, kind: ChartType, axis: Axis, samples: seq<Sample>, clock: seq<int>)
    requires |clock| >= |samples|
  {
    match kind
    case LineType => picture.Joined? && DotsFor(axis, samples, clock, picture.dots) && Joins(picture.dots, picture.lines)
    case PillarType => picture.Pillars? && PillarsFor(axis, samples, clock, picture.pillars)
    case MeterType => picture.Blank?
    case _ => picture.Dots? && DotsFor(axis, samples, clock, picture.dots)
  }

  // --------------------------------------------------------------- the chart

  class DataChart {
    const axis: Axis
    const maxDots: int
    var sampleData: seq<Sample>
    var kind: ChartType
    var timer: Timer
    var visible: bool
    var isIdle: bool
    var paintPicture: Picture

    constructor (width: nat, height: nat, secondSpace: real)
      requires secondSpace > 0.0
      ensures Valid() && View() == FRESH_PANE && sampleData == []
      ensures axis == Axis(width, height, secondSpace / 1000.0) && paintPicture == Dots([])
    {
      axis := Axis(width, height, secondSpace / 1000.0);
      maxDots := Axis(width, height, secondSpace / 1000.0).MaxDots();
      sampleData, kind, visible, isIdle := [], DotType, false, true;
      timer, paintPicture := Timer(false, 1000, 0), Dots([]);
    }

    ghost predicate Valid() {
      axis.Valid() && maxDots == axis.MaxDots() >= 1
    }

    function View(): Pane
      reads this
    {
      Pane(kind, isIdle, visible, timer)
    }

    /** Takes the oldest sample off; on an empty list it would stop the timer instead. */
    method DotRemoveOut()
      modifies this`sampleData, this`timer
      ensures old(sampleData) == [] ==> sampleData == [] && timer == Stopped(old(timer))
      ensures old(sampleData) != [] ==> sampleData == old(sampleData)[..|old(sampleData)| - 1] && timer == old(timer)
    {
      if sampleData == [] {
        timer := Stopped(timer);
        return;
      }
      sampleData := sampleData[..|sampleData| - 1];
    }

    /** setIdle; emitted tells whether frameUpdateTimerStart was signalled. */
    method SetIdle(on: bool, now: int) returns (emitted: bool)
      modifies this`visible, this`isIdle, this`timer
      ensures View() == SetIdlePane(old(View()), on, now) && emitted == !on
    {
      visible := !on;
      isIdle := on;
      timer := if on then Stopped(timer) else Started(timer, now);
      emitted := !on;
    }

    /** addData: evict down to one below the cap, put the sample in front, wake an idle chart
        that is not frozen.  The eviction never reaches the branch that stops the timer. */
    method AddData(item: DataItem, now: int) returns (emitted: bool)
      requires Valid()
      modifies this
      ensures sampleData == AddSample(axis, old(sampleData), Sample(now, item))
      ensures emitted == (old(isIdle) && kind != FreezeChart) && paintPicture == old(paintPicture)
      ensures View() == if emitted then SetIdlePane(old(View()), false, now) else old(View())
    {
      var dotNum := |sampleData| - maxDots;
      while dotNum >= 0
        invariant dotNum == |sampleData| - maxDots
        invariant sampleData == old(sampleData)[..|sampleData|] && |sampleData| <= |old(sampleData)|
        invariant |sampleData| >= Min(|old(sampleData)|, maxDots - 1)
        invariant View() == old(View()) && paintPicture == old(paintPicture)
      {
        dotNum := dotNum - 1;
        DotRemoveOut();
      }
      sampleData := [Sample(now, item)] + sampleData;
      emitted := false;
      if isIdle && kind != FreezeChart {
        emitted := SetIdle(false, now);
      }
    }

    /** The tail of every draw: drop samples until the position reached is the end.  The list is
        never empty when a sample is dropped, so the timer is left alone. */
    method DropFrom(iter: nat)
      requires iter <= |sampleData|
      modifies this`sampleData, this`timer
      ensures sampleData == old(sampleData)[..iter] && timer == old(timer)
    {
      while iter != |sampleData|
        invariant iter <= |sampleData| && sampleData == old(sampleData)[..|sampleData|]
        invariant |sampleData| <= |old(sampleData)| && timer == old(timer)
        decreases |sampleData|
      {
        DotRemoveOut();
      }
    }

    /** drawDot: one dot for each sample kept, and the rest are dropped. */
    method DrawDot(clock: seq<int>) returns (dots: seq<Point>)
      requires |clock| >= |sampleData|
      modifies this`sampleData, this`timer
      ensures sampleData == old(sampleData)[..Kept(axis, old(sampleData), clock)] && timer == old(timer)
      ensures DotsFor(axis, sampleData, clock, dots)
    {
      dots := [];
      var iter := 0;
      while iter < |sampleData|
        invariant iter <= |sampleData| && sampleData == old(sampleData)
        invariant forall i :: 0 <= i < iter ==> axis.Shows(sampleData[i], clock[i])
        invariant |dots| == iter && forall i :: 0 <= i < iter ==> dots[i] == DotOf(axis, sampleData[i], clock[i])
      {
        var x := axis.Offset(clock[iter] - sampleData[iter].time);
        if x > axis.width as real {
          break;
        }
        var y := YPosition(axis, sampleData[iter].item.data);
        dots := dots + [Point(axis.width as real - x, axis.height as real - y)];
        iter := iter + 1;
      }
      KeptIs(axis, sampleData, clock, iter);
      DropFrom(iter);
    }

    /** drawLine: the same dots, each joined to the one before it. */
    method DrawLine(clock: seq<int>) returns (dots: seq<Point>, lines: seq<Line>)
      requires |clock| >= |sampleData|
      modifies this`sampleData, this`timer
      ensures sampleData == old(sampleData)[..Kept(axis, old(sampleData), clock)] && timer == old(timer)
      ensures DotsFor(axis, sampleData, clock, dots)
      ensures Joins(dots, lines)
    {
      dots, lines := [], [];
      var iter, firstDot := 0, true;
      var previous := Point(0.0, 0.0);
      while iter < |sampleData|
        invariant iter <= |sampleData| && sampleData == old(sampleData)
        invariant forall i :: 0 <= i < iter ==> axis.Shows(sampleData[i], clock[i])
        invariant |dots| == iter && forall i :: 0 <= i < iter ==> dots[i] == DotOf(axis, sampleData[i], clock[i])
        invariant firstDot == (iter == 0) && (iter > 0 ==> previous == dots[iter - 1])
        invariant |lines| == (if iter == 0 then 0 else iter - 1)
        invariant forall i :: 0 <= i < |lines| ==> lines[i] == Line(dots[i], dots[i + 1])
      {
        var x := axis.Offset(clock[iter] - sampleData[iter].time);
        if x > axis.width as real {
          break;
        }
        var y := YPosition(axis, sampleData[iter].item.data);
        var dot := Point(axis.width as real - x, axis.height as real - y);
        if firstDot {
          firstDot := false;
        } else {
          lines := lines + [Line(previous, dot)];
        }
        previous := dot;
        dots := dots + [dot];
        iter := iter + 1;
      }
      KeptIs(axis, sampleData, clock, iter);
      DropFrom(iter);
    }

    /** drawPillar: one pillar, half a second wide, under the dot of each sample kept. */
    method DrawPillar(clock: seq<int>) returns (pillars: seq<Rect>)
      requires |clock| >= |sampleData|
      modifies this`sampleData, this`timer
      ensures sampleData == old(sampleData)[..Kept(axis, old(sampleData), clock)] && timer == old(timer)
      ensures PillarsFor(axis, sampleData, clock, pillars)
    {
      pillars := [];
      var iter := 0;
      while iter < |sampleData|
        invariant iter <= |sampleData| && sampleData == old(sampleData)
        invariant forall i :: 0 <= i < iter ==> axis.Shows(sampleData[i], clock[i])
        invariant |pillars| == iter && forall i :: 0 <= i < iter ==> pillars[i] == PillarOf(axis, sampleData[i], clock[i])
      {
        var x := axis.Offset(clock[iter] - sampleData[iter].time);
        if x > axis.width as real {
          break;
        }
        var h := YPosition(axis, sampleData[iter].item.data);
        pillars := pillars + [Rect(axis.width as real - x, axis.height as real - h, axis.msecondSpace * 500.0, h)];
        iter := iter + 1;
      }
      KeptIs(axis, sampleData, clock, iter);
      DropFrom(iter);
    }

    /** myDraw: a new picture of the samples still on the axis.  Hidden and frozen charts fall to the
        dot drawing; the meter draws nothing and drops nothing. */
    method MyDraw(clock: seq<int>)
      requires |clock| >= |sampleData|
      modifies this`sampleData, this`timer, this`paintPicture
      ensures timer == old(timer)
      ensures sampleData == if kind == MeterType then old(sampleData) else old(sampleData)[..Kept(axis, old(sampleData), clock)]
      ensures Pictures(paintPicture, kind, axis, sampleData, clock)
    {
      match kind
      case LineType =>
        var dots, lines := DrawLine(clock);
        paintPicture := Joined(dots, lines);
      case PillarType =>
        var pillars := DrawPillar(clock);
        paintPicture := Pillars(pillars);
      case MeterType =>
        paintPicture := Blank;
      case _ =>
        var dots := DrawDot(clock);
        paintPicture := Dots(dots);
    }

    /** jiffies: the shifted times are computed and thrown away, so a tick only draws. */
    method Jiffies(clock: seq<int>)
      requires |clock| >= |sampleData|
      modifies this`sampleData, this`timer, this`paintPicture
      ensures View() == old(View())
      ensures sampleData == if kind == MeterType then old(sampleData) else old(sampleData)[..Kept(axis, old(sampleData), clock)]
      ensures Pictures(paintPicture, kind, axis, sampleData, clock)
    {
      MyDraw(clock);
    }

    method SyncUpdateFrame(now: int)
      modifies this`timer
      ensures View() == SyncPane(old(View()), now)
    {
      if timer.active {
        timer := Started(timer, now);
      }
    }

    method SetUpdateCycle(cycle: int, now: int)
      modifies this`timer
      ensures View() == old(View()).(timer := Timer(true, cycle * 1000, now))
    {
      timer := timer.(interval := cycle * 1000);
      timer := Started(timer, now);
    }

    method ChartTypeChanged(newKind: ChartType, clock: seq<int>, now: int) returns (emitted: bool)
      requires |clock| >= |sampleData|
      modifies this
      ensures emitted == Wakes(old(View()), newKind)
      ensures View() == TypeChangedPane(old(View()), newKind, now)
      ensures sampleData == if newKind in {MeterType, HideChart, FreezeChart} then old(sampleData)
                            else old(sampleData)[..Kept(axis, old(sampleData), clock)]
      ensures if newKind in {HideChart, FreezeChart} then paintPicture == old(paintPicture)
              else Pictures(paintPicture, newKind, axis, sampleData, clock)
    {
      kind := newKind;
      emitted := false;
      match kind
      case HideChart =>
        visible := false;
        timer := Stopped(timer);
      case FreezeChart =>
        timer := Stopped(timer);
      case _ =>
        MyDraw(clock);
        if !isIdle {
          emitted := SetIdle(false, now);
        }
    }
  }

  // ------------------------------------------------------------- the monitor

  /** How a call to connectChart or disconnectChart ends. */
  datatype ChartCall = Done | Rejected | PastTheArray

  class FyyMon {
    const chChart: seq<DataChart>
    var sourced: seq<bool>
    var wired: seq<bool>

    constructor (width: nat, height: nat, secondSpace: real)
      requires secondSpace > 0.0
      ensures Valid() && State() == FRESH && fresh(chChart)
    {
      var c0 := new DataChart(width, height, secondSpace);
      var c1 := new DataChart(width, height, secondSpace);
      var c2 := new DataChart(width, height, secondSpace);
      var c3 := new DataChart(width, height, secondSpace);
      chChart := [c0, c1, c2, c3];
      sourced, wired := [false, false, false, false], [false, false, false, false];
    }

    ghost predicate Valid()
      reads this
    {
      && |chChart| == CHARTS && |sourced| == CHARTS && |wired| == CHARTS
      && (forall i, j :: 0 <= i < j < CHARTS ==> chChart[i] != chChart[j])
      && (forall i :: 0 <= i < CHARTS ==> chChart[i].Valid())
    }

    ghost function Panes(): seq<Pane>
      requires Valid()
      reads this, chChart
    {
      [chChart[0].View(), chChart[1].View(), chChart[2].View(), chChart[3].View()]
    }

    ghost function State(): Monitor
      requires Valid()
      reads this, chChart
    {
      Monitor(Panes(), sourced, wired)
    }

    /** Samples and pictures of all charts, except of this one if given. */
    twostate predicate OthersKept(num: int)
      requires Valid() && old(Valid())
      reads this, chChart
    {
      forall i :: 0 <= i < CHARTS && i != num ==>
        chChart[i].sampleData == old(chChart[i].sampleData) && chChart[i].paintPicture == old(chChart[i].paintPicture)
    }

    /** The fan-out: every active timer starts over. */
    method SyncUpdateFrame(now: int)
      requires Valid()
      modifies chChart
      ensures Valid() && Panes() == Sync(old(Panes()), now) && OthersKept(-1)
    {
      for i := 0 to CHARTS
        invariant Valid()
        invariant forall k :: 0 <= k < i ==> chChart[k].View() == SyncPane(old(chChart[k].View()), now)
        invariant forall k :: i <= k < CHARTS ==> chChart[k].View() == old(chChart[k].View())
        invariant forall k :: 0 <= k < CHARTS ==>
          chChart[k].sampleData == old(chChart[k].sampleData) && chChart[k].paintPicture == old(chChart[k].paintPicture)
      {
        chChart[i].SyncUpdateFrame(now);
      }
    }

    method SetFramePeriod(seconds: int, now: int)
      requires Valid()
      modifies chChart
      ensures Valid() && State() == Handle(old(State()), MonitorEvent.SetFramePeriod(seconds), now) && OthersKept(-1)
    {
      for i := 0 to CHARTS
        invariant Valid()
        invariant forall k :: 0 <= k < i ==> chChart[k].View() == old(chChart[k].View()).(timer := Timer(true, seconds * 1000, now))
        invariant forall k :: i <= k < CHARTS ==> chChart[k].View() == old(chChart[k].View())
        invariant OthersKept(-1)
      {
        chChart[i].SetUpdateCycle(seconds, now);
      }
    }

    /** connectChart.  Number 4 passes the bound check, and the code then uses memory behind its
        array of charts; nothing is said of what that does. */
    method ConnectChart(hasChannel: bool, num: int) returns (outcome: ChartCall)
      requires Valid()
      modifies this
      ensures Valid() && (outcome == Done <==> hasChannel && 0 <= num <= 3) && (outcome == PastTheArray <==> hasChannel && num == 4)
      ensures State() == if outcome.Done? then Handle(old(State()), MonitorEvent.ConnectChart(num), 0) else old(State())
    {
      if !hasChannel {
        return Rejected;
      }
      if num < 0 || num > 4 {
        return Rejected;
      }
      if num >= |chChart| {
        return PastTheArray;
      }
      sourced, wired := sourced[num := true], wired[num := true];
      return Done;
    }

    method DisconnectChart(hasChannel: bool, num: int, now: int) returns (outcome: ChartCall)
      requires Valid()
      modifies this, chChart
      ensures Valid() && (outcome == Done <==> hasChannel && 0 <= num <= 3) && (outcome == PastTheArray <==> hasChannel && num == 4)
      ensures State() == if outcome.Done? then Handle(old(State()), MonitorEvent.DisconnectChart(num), now) else old(State())
      ensures OthersKept(-1)
    {
      if !hasChannel {
        return Rejected;
      }
      if num < 0 || num > 4 {
        return Rejected;
      }
      if num >= |chChart| {
        return PastTheArray;
      }
      sourced := sourced[num := false];
      var _ := chChart[num].SetIdle(true, now);
      return Done;
    }

    /** The channel's dataSrcReady reaches the chart, whose start signal reaches the fan-out. */
    method DataSrcOn(num: nat, now: int)
      requires Valid() && num < CHARTS && sourced[num]
      modifies chChart
      ensures Valid() && State() == Handle(old(State()), MonitorEvent.DataSrcOn(num), now) && OthersKept(-1)
    {
      var emitted := chChart[num].SetIdle(false, now);
      assert Panes() == old(Panes())[num := SetIdlePane(old(Panes())[num], false, now)];
      if emitted && wired[num] {
        SyncUpdateFrame(now);
      }
    }

    method DataSrcOff(num: nat, now: int)
      requires Valid() && num < CHARTS && sourced[num]
      modifies chChart[num]
      ensures Valid() && State() == Handle(old(State()), MonitorEvent.DataSrcOff(num), now) && OthersKept(-1)
    {
      var _ := chChart[num].SetIdle(true, now);
    }

    method AddData(num: nat, item: DataItem, now: int)
      requires Valid() && num < CHARTS && sourced[num]
      modifies chChart
      ensures Valid() && State() == Handle(old(State()), MonitorEvent.AddData(num), now)
      ensures chChart[num].sampleData == AddSample(chChart[num].axis, old(chChart[num].sampleData), Sample(now, item))
      ensures OthersKept(num)
    {
      var emitted := chChart[num].AddData(item, now);
      assert Panes() == old(Panes())[num := chChart[num].View()];
      if emitted && wired[num] {
        SyncUpdateFrame(now);
      }
    }

    method ChartTypeChanged(num: nat, kind: ChartType, clock: seq<int>, now: int)
      requires Valid() && num < CHARTS && |clock| >= |chChart[num].sampleData|
      modifies chChart
      ensures Valid() && State() == Handle(old(State()), MonitorEvent.ChartTypeChanged(num, kind), now) && OthersKept(num)
      ensures chChart[num].sampleData == if kind in {MeterType, HideChart, FreezeChart} then old(chChart[num].sampleData)
              else old(chChart[num].sampleData)[..Kept(chChart[num].axis, old(chChart[num].sampleData), clock)]
      ensures kind !in {HideChart, FreezeChart} ==>
        Pictures(chChart[num].paintPicture, kind, chChart[num].axis, chChart[num].sampleData, clock)
    {
      var emitted := chChart[num].ChartTypeChanged(kind, clock, now);
      assert Panes() == old(Panes())[num := TypeChangedPane(old(Panes())[num], kind, now)];
      if emitted && wired[num] {
        SyncUpdateFrame(now);
      }
    }
  }
}
