/** Loading, probing, removing and unloading the ADC driver: what the module holds of the
    kernel at each moment. */
module Fl2440AdcModule {
  import opened Fl2440AdcHeader

  const ENOMEM := 12

  const ALL: set<nat> := {0, 1, 2, 3}

  /** What the module holds: the device number region, the class, the platform devices, the
      driver registration; which devices are bound to the driver; and per minor a cdev and a
      class device (its node under /dev). */
  datatype Held = Held(region: bool, devClass: bool, platform: set<nat>, driver: bool,
                       bound: set<nat>, cdevs: set<nat>, nodes: set<nat>)

  const NOTHING := Held(false, false, {}, false, {}, {}, {})

  /** A minor has a cdev exactly when it has a class device, which is when its device is bound. */
  ghost predicate Consistent(h: Held) {
    && h.cdevs == h.nodes == h.bound
    && h.bound <= h.platform <= ALL
    && (h.bound != {} ==> h.driver && h.devClass && h.region)
  }

  ghost predicate Loaded(h: Held) {
    Consistent(h) && h.region && h.devClass && h.driver && h.platform == ALL
  }

  /** Between load and unload the bus may bind and unbind devices, and probes may fail. */
  datatype BusEvent = Bind(minor: nat, cdevWorks: bool, nodeWorks: bool) | Unbind(minor: nat)

  function Probed(h: Held, minor: nat, cdevWorks: bool, nodeWorks: bool): Held {
    if cdevWorks && nodeWorks
    then h.(cdevs := h.cdevs + {minor}, nodes := h.nodes + {minor}, bound := h.bound + {minor})
    else h
  }

  function Removed(h: Held, minor: nat): Held {
    h.(cdevs := h.cdevs - {minor}, nodes := h.nodes - {minor}, bound := h.bound - {minor})
  }

  function OnBus(h: Held, e: BusEvent): Held {
    match e
    case Bind(minor, c, n) => if h.driver && minor in h.platform - h.bound then Probed(h, minor, c, n) else h
    case Unbind(minor) => if minor in h.bound then Removed(h, minor) else h
  }

  function OnBusAll(h: Held, events: seq<BusEvent>): Held
    decreases |events|
  {
    if events == [] then h else OnBus(OnBusAll(h, events[..|events| - 1]), events[|events| - 1])
  }

  /** What the bus does to one minor: binding gives it cdev, node and driver exactly if the driver
      and the device are registered, it was not bound, and both steps of the probe work; unbinding
      takes them; other minors keep theirs. */
  lemma OnBusExactly(h: Held, e: BusEvent, minor: nat)
    requires Consistent(h)
    ensures var after := OnBus(h, e);
      && (minor in after.bound <==>
            (minor in h.bound && e != Unbind(minor)) ||
            (e.Bind? && e.minor == minor && e.cdevWorks && e.nodeWorks && h.driver && minor in h.platform))
      && (minor in after.cdevs <==> minor in after.bound) && (minor in after.nodes <==> minor in after.bound)
      && after.region == h.region && after.devClass == h.devClass && after.platform == h.platform && after.driver == h.driver
  {
  }

  /** Through any binding, failed probing and unbinding the loaded module stays consistent. */
  lemma {:induction false} StaysLoaded(h: Held, events: seq<BusEvent>)
    requires Loaded(h)
    ensures Loaded(OnBusAll(h, events))
    decreases |events|
  {
    if events == [] {
    } else {
      StaysLoaded(h, events[..|events| - 1]);
    }
  }

  function Below(n: int): set<nat> {
    set i | i in ALL && i < n
  }

  datatype LoadOracle = LoadOracle(
    regionError: int,         // 0 when the call succeeds, else a negative error
    classError: int,
    deviceWorks: seq<bool>,
    driverError: int,
    cdevWorks: seq<bool>,
    nodeWorks: seq<bool>)
  {
    ghost predicate Valid() {
      && regionError <= 0 && classError <= 0 && driverError <= 0
      && |deviceWorks| == |cdevWorks| == |nodeWorks| == ADCNUM
    }

    /** Every call init makes works. */
    ghost predicate Succeeds() {
      regionError == 0 && classError == 0 && driverError == 0 && forall i :: 0 <= i < |deviceWorks| ==> deviceWorks[i]
    }
  }

  class Fl2440AdcModule {
    var held: Held

    constructor ()
      ensures held == NOTHING
    {
      held := NOTHING;
    }

    // Kernel calls: each acquires what is not held and gives back what is.

    method AllocRegion(error: int) returns (ret: int)
      requires !held.region && error <= 0
      modifies this
      ensures ret == error && held == old(held).(region := error == 0)
    {
      held := held.(region := error == 0);
      ret := error;
    }

    method UnregisterRegion()
      requires held.region && held.cdevs == {}
      modifies this
      ensures held == old(held).(region := false)
    {
      held := held.(region := false);
    }

    method ClassCreate(error: int) returns (ret: int)
      requires !held.devClass && error <= 0
      modifies this
      ensures ret == error && held == old(held).(devClass := error == 0)
    {
      held := held.(devClass := error == 0);
      ret := error;
    }

    /** A class is destroyed only once no device of it is left. */
    method ClassDestroy()
      requires held.devClass && held.nodes == {}
      modifies this
      ensures held == old(held).(devClass := false)
    {
      held := held.(devClass := false);
    }

    method CdevAdd(minor: nat, works: bool) returns (ok: bool)
      requires held.region && minor !in held.cdevs
      modifies this
      ensures ok == works && held == old(held).(cdevs := if works then old(held).cdevs + {minor} else old(held).cdevs)
    {
      if works {
        held := held.(cdevs := held.cdevs + {minor});
      }
      ok := works;
    }

    method CdevDel(minor: nat)
      requires minor in held.cdevs
      modifies this
      ensures held == old(held).(cdevs := old(held).cdevs - {minor})
    {
      held := held.(cdevs := held.cdevs - {minor});
    }

    method DeviceCreate(minor: nat, works: bool) returns (ok: bool)
      requires held.devClass && minor !in held.nodes
      modifies this
      ensures ok == works && held == old(held).(nodes := if works then old(held).nodes + {minor} else old(held).nodes)
    {
      if works {
        held := held.(nodes := held.nodes + {minor});
      }
      ok := works;
    }

    method DeviceDestroy(minor: nat)
      requires held.devClass && minor in held.nodes
      modifies this
      ensures held == old(held).(nodes := old(held).nodes - {minor})
    {
      held := held.(nodes := held.nodes - {minor});
    }

    method PlatformRegister(minor: nat, works: bool) returns (ok: bool)
      requires minor !in held.platform && !held.driver
      modifies this
      ensures ok == works && held == old(held).(platform := if works then old(held).platform + {minor} else old(held).platform)
    {
      if works {
        held := held.(platform := held.platform + {minor});
      }
      ok := works;
    }

    /** Unregistering a bound device first calls the driver's remove. */
    method PlatformUnregister(minor: nat)
      requires Consistent(held) && minor in held.platform
      modifies this
      ensures held == Removed(old(held), minor).(platform := old(held).platform - {minor}) && Consistent(held)
    {
      if minor in held.bound {
        Remove(minor);
      }
      held := held.(platform := held.platform - {minor});
      assert held.cdevs == Removed(old(held), minor).cdevs;
    }

    // The driver's own functions.

    /** fl2440adc_probe; a device whose probe fails is left unbound, and leaves nothing behind. */
    method Probe(minor: nat, cdevWorks: bool, nodeWorks: bool) returns (ok: bool)
      requires Consistent(held) && held.region && held.devClass && held.driver && minor in held.platform - held.bound
      modifies this
      ensures held == Probed(old(held), minor, cdevWorks, nodeWorks) && Consistent(held) && ok == (cdevWorks && nodeWorks)
    {
      ok := CdevAdd(minor, cdevWorks);
      if !ok {
        return;
      }
      ok := DeviceCreate(minor, nodeWorks);
      if !ok {
        CdevDel(minor);
        assert held.cdevs == old(held).cdevs;
        return;
      }
      held := held.(bound := held.bound + {minor});
    }

    method Remove(minor: nat)
      requires Consistent(held) && minor in held.bound
      modifies this
      ensures held == Removed(old(held), minor) && Consistent(held)
    {
      CdevDel(minor);
      DeviceDestroy(minor);
      held := held.(bound := held.bound - {minor});
    }

    /** fl2440adc_register_device: all four devices, or after rolling back none. */
    method RegisterDevice(works: seq<bool>) returns (ok: bool)
      requires |works| == ADCNUM && held.platform == held.bound == held.cdevs == held.nodes == {} && !held.driver
      modifies this
      ensures ok <==> forall i :: 0 <= i < ADCNUM ==> works[i]
      ensures held == old(held).(platform := if ok then ALL else {})
    {
      var loopidx := 0;
      while loopidx < ADCNUM
        invariant 0 <= loopidx <= ADCNUM
        invariant forall i :: 0 <= i < loopidx ==> works[i]
        invariant held == old(held).(platform := Below(loopidx))
      {
        var registered := PlatformRegister(loopidx, works[loopidx]);
        if !registered {
          loopidx := loopidx - 1;
          while loopidx >= 0
            invariant -1 <= loopidx < ADCNUM
            invariant held == old(held).(platform := Below(loopidx + 1))
            decreases loopidx
          {
            PlatformUnregister(loopidx);
            assert held.platform == Below(loopidx);
            assert held.cdevs == {} && held.nodes == {} && held.bound == {};
            loopidx := loopidx - 1;
          }
          assert held.platform == {};
          return false;
        }
        loopidx := loopidx + 1;
        assert held.platform == Below(loopidx);
      }
      assert held.platform == ALL;
      return true;
    }

    /** fl2440adc_unregister_device: every device goes, and with it its node. */
    method UnregisterDevice()
      requires Consistent(held) && held.platform == ALL
      modifies this
      ensures held == old(held).(platform := {}, bound := {}, cdevs := {}, nodes := {})
    {
      var loopidx := 0;
      while loopidx < ADCNUM
        invariant 0 <= loopidx <= ADCNUM
        invariant Consistent(held) && held.platform == ALL - Below(loopidx)
        invariant held == old(held).(platform := held.platform, bound := held.bound, cdevs := held.cdevs, nodes := held.nodes)
      {
        PlatformUnregister(loopidx);
        loopidx := loopidx + 1;
      }
      assert held.platform == {};
    }

    /** platform_driver_register probes every device; failed probes do not fail it. */
    method DriverRegister(o: LoadOracle) returns (ret: int)
      requires o.Valid() && Consistent(held) && held.region && held.devClass && held.platform == ALL && !held.driver
      modifies this
      ensures ret == o.driverError
      ensures ret == 0 ==> Loaded(held) && held.bound == set i: nat | i < ADCNUM && o.cdevWorks[i] && o.nodeWorks[i]
      ensures ret != 0 ==> held == old(held)
    {
      if o.driverError != 0 {
        return o.driverError;
      }
      assert held.bound == {};
      held := held.(driver := true);
      for minor := 0 to ADCNUM
        invariant Loaded(held) && held.bound == set i: nat | i < minor && o.cdevWorks[i] && o.nodeWorks[i]
      {
        var _ := Probe(minor, o.cdevWorks[minor], o.nodeWorks[minor]);
        assert held.bound == set i: nat | i < minor + 1 && o.cdevWorks[i] && o.nodeWorks[i];
      }
      ret := 0;
    }

    /** fl2440adc_init: 0 with everything held, or an error with nothing held. */
    method Init(o: LoadOracle) returns (ret: int)
      requires held == NOTHING && o.Valid()
      modifies this
      ensures ret == 0 <==> o.Succeeds()
      ensures ret == 0 ==> Loaded(held) && held.bound == set i: nat | i < ADCNUM && o.cdevWorks[i] && o.nodeWorks[i]
      ensures ret != 0 ==> ret < 0 && held == NOTHING
      // the error is that of the first call to fail, ENOMEM standing for the devices
      ensures ret == if o.regionError < 0 then o.regionError
                     else if o.classError < 0 then o.classError
                     else if exists i :: 0 <= i < ADCNUM && !o.deviceWorks[i] then -12
                     else o.driverError
    {
      ret := AllocRegion(o.regionError);
      if ret < 0 {
        return;
      }
      ret := ClassCreate(o.classError);
      if ret < 0 {
        UnregisterRegion();
        return;
      }
      var devices := RegisterDevice(o.deviceWorks);
      if !devices {
        ret := -ENOMEM;
        ClassDestroy();
        UnregisterRegion();
        return;
      }
      ret := DriverRegister(o);
      if ret < 0 {
        UnregisterDevice();
        ClassDestroy();
        UnregisterRegion();
        return;
      }
    }

    /** fl2440adc_exit: the devices first, so every node is gone before the class is. */
    method Exit()
      requires Loaded(held)
      modifies this
      ensures held == NOTHING
    {
      UnregisterDevice();
      ClassDestroy();
      held := held.(driver := false);
      UnregisterRegion();
    }
  }
}
