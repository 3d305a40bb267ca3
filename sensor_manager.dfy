/** The process-wide state of SensorManager.cpp (driver instances, role
    pointers, the `installed_sensors` registry and the schedule) as one object,
    and `find_sensor`, `sensor_setup` and `sensor_run` as its methods. */
module SensorManager {
  import opened SensorTypes
  import opened Resolver
  import opened Setup
  import opened Scheduler

  class Manager {
    /** `isFound()` / `getAddress()` of each driver instance. */
    var probed: Probes
    /** The mutable `name` of each driver instance. */
    var names: map<DriverId, string>
    /** `installed_sensors`; `None` is `nullptr`. */
    const installed: array<Option<DriverId>>
    /** `installed_sensor_count`. */
    var count: nat
    /** The drivers in `installed_sensors[0 .. installed_sensor_count)`. */
    ghost var registry: seq<DriverId>

    /** The seven role pointers. */
    var roles: RoleTable

    /** Every `setError` call, oldest first. */
    var errors: seq<ErrorType>
    /** `next_sensor_read_ms_`. */
    var next: nat
    /** Every `run()` call, oldest first. */
    var trace: seq<RunCall>

    /** The array holds the registered drivers in its first `count` slots and
        `nullptr` (its static initial value) in every slot after them. */
    ghost predicate Valid()
      reads this, installed
    {
      installed.Length == Capacity && count <= Capacity && |registry| == count &&
      Complete(probed) && Complete(names) &&
      forall i :: 0 <= i < installed.Length ==>
        installed[i] == if i < count then Some(registry[i]) else None
    }

    /** Static initialisation: null pointers, an empty registry, the schedule at 0.
        Drivers count as not found until `sensor_setup` probes them. */
    constructor ()
      ensures Valid() && fresh(installed)
      ensures count == 0 && registry == [] && installed[..] == seq(Capacity, _ => None)
      ensures roles == RoleTable(None, None, None, None, None, None, None)
      ensures forall d :: !probed[d].found
      ensures errors == [] && next == 0 && trace == []
    {
      var none := Probe(false, 0);
      probed := map[Bme280_1 := none, Bme280_2 := none, Shtc3 := none, Hdc2080_1 := none,
                    Hdc2080_2 := none, Htu21d := none, Mprls := none, Tcs34725 := none];
      names := map[Bme280_1 := "", Bme280_2 := "", Shtc3 := "", Hdc2080_1 := "",
                   Hdc2080_2 := "", Htu21d := "", Mprls := "", Tcs34725 := ""];
      installed := new Option<DriverId>[Capacity](_ => None);
      count, registry := 0, [];
      roles := RoleTable(None, None, None, None, None, None, None);
      errors, next, trace := [], 0, [];
      new;
      forall d: DriverId ensures d in probed && d in names {
        match d
        case Bme280_1 => case Bme280_2 => case Shtc3 => case Hdc2080_1 =>
        case Hdc2080_2 => case Htu21d => case Mprls => case Tcs34725 =>
      }
    }

    predicate At(d: DriverId, address: Address)
      reads this
    {
      Matches(probed, d, address)
    }

    /** `installed_sensors[installed_sensor_count++] = d`. */
    method Register(d: DriverId)
      requires Valid() && count < Capacity
      modifies this`count, this`registry, installed
      ensures Valid()
      ensures registry == old(registry) + [d] && count == old(count) + 1
      ensures installed[..] == old(installed[..])[old(count) := Some(d)]
    {
      installed[count] := Some(d);
      count, registry := count + 1, registry + [d];
    }

    /** `find_sensor`: resolve `address`; on a match label the driver and append it
        to the registry, otherwise report `err` unless the address is the sentinel. */
    method FindSensor(name: string, address: Address, err: ErrorType) returns (result: Option<DriverId>)
      requires Valid()
      requires Resolve(probed, address).Some? ==> count < Capacity
      modifies this`names, this`count, this`registry, this`errors, installed
      ensures Valid()
      ensures result == Resolve(probed, address)
      ensures result.Some? ==>
        names == old(names)[result.value := name] &&
        registry == old(registry) + [result.value] && count == old(count) + 1 &&
        installed[..] == old(installed[..])[old(count) := result] &&
        errors == old(errors)
      ensures result.None? ==>
        names == old(names) && registry == old(registry) && count == old(count) &&
        installed[..] == old(installed[..]) &&
        errors == if address == Unconfigured then old(errors) else old(errors) + [err]
    {
      if address == Unconfigured { return None; }
      result := None;
      if At(Bme280_1, address) { result := Some(Bme280_1); }
      else if At(Bme280_2, address) { result := Some(Bme280_2); }
      else if At(Shtc3, address) { result := Some(Shtc3); }
      else if At(Hdc2080_1, address) { result := Some(Hdc2080_1); }
      else if At(Hdc2080_2, address) { result := Some(Hdc2080_2); }
      else if At(Htu21d, address) { result := Some(Htu21d); }
      ScanUnfold(probed, address);
      if result.Some? {
        names := names[result.value := name];
        Register(result.value);
      } else {
        errors := errors + [err];
      }
    }

    /** `sensor_setup`: take the probe results, bind the roles in order, arm the
        schedule at `now`. The caller must leave room in the registry for the
        drivers this pass registers (at most five; it is empty at boot). */
    method SensorSetup(config: Config, probes: Probes, now: nat)
      requires Valid() && Complete(probes)
      requires count + Additions(Outcome(config, probes)) <= Capacity
      modifies this, installed
      ensures Valid()
      ensures probed == probes
      ensures roles == Bound(Outcome(config, probes), old(roles))
      ensures errors == old(errors) + Errors(config, Outcome(config, probes), SetupOrder)
      ensures names == Labels(Outcome(config, probes), SetupOrder, old(names))
      ensures registry == old(registry) + Appends(Outcome(config, probes), SetupOrder)
      ensures next == now && trace == old(trace)
    {
      probed := probes;
      ghost var o := Outcome(config, probes);
      ghost var n0 := names;
      BindRoles(config, o);
      next := now;
      SetupUnfold(config, o, n0);
    }

    /** Lines binding the six configured roles in order, stated role by role. */
    method BindRoles(config: Config, ghost o: RoleTable)
      requires Valid() && o == Outcome(config, probed)
      requires count + Additions(o) <= Capacity
      modifies this`roles, this`names, this`count, this`registry, this`errors, installed
      ensures Valid()
      ensures roles == Bound(o, old(roles))
      ensures errors == old(errors) + (ErrorOf(config, o, Ambient) + ErrorOf(config, o, Intake) +
        ErrorOf(config, o, Desiccant) + ErrorOf(config, o, Output) + ErrorOf(config, o, OutPressure) +
        ErrorOf(config, o, Color))
      ensures names == LabelOf(o, Color, LabelOf(o, OutPressure, LabelOf(o, Output,
        LabelOf(o, Desiccant, LabelOf(o, Intake, LabelOf(o, Ambient, old(names)))))))
      ensures registry == old(registry) + (AppendOf(o, Ambient) + AppendOf(o, Intake) +
        AppendOf(o, Desiccant) + AppendOf(o, Output) + AppendOf(o, OutPressure))
    {
      ghost var g0, e0 := registry, errors;
      BindHumidityRoles(config, o);
      ghost var es := ErrorOf(config, o, Ambient) + ErrorOf(config, o, Intake) +
        ErrorOf(config, o, Desiccant) + ErrorOf(config, o, Output);
      ghost var ds := AppendOf(o, Ambient) + AppendOf(o, Intake) + AppendOf(o, Desiccant) + AppendOf(o, Output);
      BindOutPressure(config, o);
      Appended(g0, ds, AppendOf(o, OutPressure), registry);
      Appended(e0, es, ErrorOf(config, o, OutPressure), errors);
      es := es + ErrorOf(config, o, OutPressure);
      BindColor(config, o);
      Appended(e0, es, ErrorOf(config, o, Color), errors);
    }

    /** Lines binding ambient, intake, desiccant and output through `find_sensor`;
        `o` is what the resolver gives each role. */
    method BindHumidityRoles(config: Config, ghost o: RoleTable)
      requires Valid() && o == Outcome(config, probed)
      requires count + |AppendOf(o, Ambient)| + |AppendOf(o, Intake)| + |AppendOf(o, Desiccant)| + |AppendOf(o, Output)| <= Capacity
      modifies this`roles, this`names, this`count, this`registry, this`errors, installed
      ensures Valid()
      ensures roles == old(roles).(ambient := o.ambient, intake := o.intake, desiccant := o.desiccant, output := o.output)
      ensures errors == old(errors) + (ErrorOf(config, o, Ambient) + ErrorOf(config, o, Intake) +
        ErrorOf(config, o, Desiccant) + ErrorOf(config, o, Output))
      ensures names == LabelOf(o, Output, LabelOf(o, Desiccant, LabelOf(o, Intake, LabelOf(o, Ambient, old(names)))))
      ensures registry == old(registry) +
        (AppendOf(o, Ambient) + AppendOf(o, Intake) + AppendOf(o, Desiccant) + AppendOf(o, Output))
    {
      ghost var g0, e0 := registry, errors;
      var d := BindHumidityRole(config, Ambient, o);
      roles := roles.(ambient := d);
      ghost var ds, es := AppendOf(o, Ambient), ErrorOf(config, o, Ambient);
      d := BindHumidityRole(config, Intake, o);
      roles := roles.(intake := d);
      Appended(g0, ds, AppendOf(o, Intake), registry);
      Appended(e0, es, ErrorOf(config, o, Intake), errors);
      ds, es := ds + AppendOf(o, Intake), es + ErrorOf(config, o, Intake);
      d := BindHumidityRole(config, Desiccant, o);
      roles := roles.(desiccant := d);
      Appended(g0, ds, AppendOf(o, Desiccant), registry);
      Appended(e0, es, ErrorOf(config, o, Desiccant), errors);
      ds, es := ds + AppendOf(o, Desiccant), es + ErrorOf(config, o, Desiccant);
      d := BindHumidityRole(config, Output, o);
      roles := roles.(output := d);
      Appended(g0, ds, AppendOf(o, Output), registry);
      Appended(e0, es, ErrorOf(config, o, Output), errors);
    }

    /** One `find_sensor` call of setup: the humidity role `r` at its configured
        address, labelled and reported under the role's own label and error. */
    method BindHumidityRole(config: Config, r: Role, ghost o: RoleTable) returns (d: Option<DriverId>)
      requires Valid() && r in {Ambient, Intake, Desiccant, Output}
      requires o == Outcome(config, probed) && count + |AppendOf(o, r)| <= Capacity
      modifies this`names, this`count, this`registry, this`errors, installed
      ensures Valid()
      ensures d == o.Get(r)
      ensures errors == old(errors) + ErrorOf(config, o, r)
      ensures names == LabelOf(o, r, old(names))
      ensures registry == old(registry) + AppendOf(o, r)
    {
      d := FindSensor(Label(r), config.AddressOf(r).value, NotFound(r));
    }

    /** The out-pressure block: only the sentinel is tested, and the MPRLS driver
        is labelled, bound and registered when its probe found it. */
    method BindOutPressure(config: Config, ghost o: RoleTable)
      requires Valid() && o == Outcome(config, probed) && count + |AppendOf(o, OutPressure)| <= Capacity
      modifies this`roles, this`names, this`count, this`registry, this`errors, installed
      ensures Valid()
      ensures roles == if o.outPressure.Some? then old(roles).(outPressure := o.outPressure) else old(roles)
      ensures errors == old(errors) + ErrorOf(config, o, OutPressure)
      ensures names == LabelOf(o, OutPressure, old(names))
      ensures registry == old(registry) + AppendOf(o, OutPressure)
    {
      if config.outPressure != Unconfigured {
        if probed[Mprls].found {
          names := names[Mprls := Label(OutPressure)];
          roles := roles.(outPressure := Some(Mprls));
          Register(Mprls);
        } else {
          errors := errors + [NotFound(OutPressure)];
        }
      }
    }

    /** The color block: only the sentinel is tested, and the TCS34725 driver is
        bound and labelled when its probe found it; it is not registered. */
    method BindColor(config: Config, ghost o: RoleTable)
      requires Valid() && o == Outcome(config, probed)
      modifies this`roles, this`names, this`errors
      ensures Valid()
      ensures roles == if o.color.Some? then old(roles).(color := o.color) else old(roles)
      ensures errors == old(errors) + ErrorOf(config, o, Color)
      ensures names == LabelOf(o, Color, old(names))
    {
      if config.color != Unconfigured {
        if probed[Tcs34725].found {
          roles := roles.(color := Some(Tcs34725));
          names := names[Tcs34725 := Label(Color)];
        } else {
          errors := errors + [NotFound(Color)];
        }
      }
    }

    /** `sensor_run` at time `now`: idle before the due time; otherwise advance
        the due time by one period and call `run()` on every bound role in order. */
    method SensorRun(now: nat)
      modifies this`next, this`trace
      ensures next == NextDue(old(next), now)
      ensures trace == if now < old(next) then old(trace) else old(trace) + Dispatch(roles, RunOrder)
    {
      if now < next { return; }
      next := next + Period;
      ghost var t, t0 := roles, trace;
      DispatchUnfold(t);
      Poll(Ambient);
      ghost var calls := CallOf(t, Ambient);
      Poll(Intake);
      Appended(t0, calls, CallOf(t, Intake), trace);
      calls := calls + CallOf(t, Intake);
      Poll(Desiccant);
      Appended(t0, calls, CallOf(t, Desiccant), trace);
      calls := calls + CallOf(t, Desiccant);
      Poll(Output);
      Appended(t0, calls, CallOf(t, Output), trace);
      calls := calls + CallOf(t, Output);
      Poll(InPressure);
      Appended(t0, calls, CallOf(t, InPressure), trace);
      calls := calls + CallOf(t, InPressure);
      Poll(OutPressure);
      Appended(t0, calls, CallOf(t, OutPressure), trace);
      calls := calls + CallOf(t, OutPressure);
      Poll(Color);
      Appended(t0, calls, CallOf(t, Color), trace);
    }

    /** `if (p) { p->run(); }` for the pointer of role `r`. */
    method Poll(r: Role)
      modifies this`trace
      ensures trace == old(trace) + CallOf(roles, r)
    {
      var slot := roles.Get(r);
      if slot.Some? { trace := trace + [RunCall(r, slot.value)]; }
    }
  }

  /** Power-up: static initialisation, then `sensor_setup` at time `now`. The
      roles hold the pass's outcome, the registry and the error log exactly what
      the pass registered and reported: at most five drivers, one per registered
      role that got a driver, and one error per configured role left unbound.
      The names are the pass's labels written over the drivers' initial names. */
  method Boot(config: Config, probes: Probes, now: nat) returns (m: Manager)
    requires Complete(probes)
    ensures fresh(m) && m.Valid()
    ensures m.probed == probes && m.roles == Outcome(config, probes)
    ensures m.registry == Appends(Outcome(config, probes), SetupOrder)
    ensures m.errors == Errors(config, Outcome(config, probes), SetupOrder)
    ensures exists n0: map<DriverId, string> ::
      Complete(n0) && m.names == Labels(Outcome(config, probes), SetupOrder, n0)
    ensures m.count == |RegisteredIn(Outcome(config, probes), SetupOrder)| <= 5
    ensures m.roles.inPressure == None
    ensures |m.errors| == |UnresolvedIn(config, Outcome(config, probes), SetupOrder)|
    ensures m.next == now && m.trace == []
  {
    m := new Manager();
    ghost var n0 := m.names;
    SetupBounds(config, probes);
    AppendsSize(Outcome(config, probes));
    m.SensorSetup(config, probes, now);
  }

  lemma Appended<T>(s: seq<T>, a: seq<T>, b: seq<T>, r: seq<T>)
    requires r == s + a + b
    ensures r == s + (a + b)
  {
  }

  /** The if/else-if scan of `find_sensor` picks what the resolver picks. */
  lemma ScanUnfold(p: Probes, a: Address)
    requires a != Unconfigured
    ensures Resolve(p, a) ==
      if Matches(p, Bme280_1, a) then Some(Bme280_1)
      else if Matches(p, Bme280_2, a) then Some(Bme280_2)
      else if Matches(p, Shtc3, a) then Some(Shtc3)
      else if Matches(p, Hdc2080_1, a) then Some(Hdc2080_1)
      else if Matches(p, Hdc2080_2, a) then Some(Hdc2080_2)
      else if Matches(p, Htu21d, a) then Some(Htu21d)
      else None
  {
    assert ScanFrom(p, a, 6) == None;
    assert ScanFrom(p, a, 5) == if Matches(p, Htu21d, a) then Some(Htu21d) else ScanFrom(p, a, 6);
    assert ScanFrom(p, a, 4) == if Matches(p, Hdc2080_2, a) then Some(Hdc2080_2) else ScanFrom(p, a, 5);
    assert ScanFrom(p, a, 3) == if Matches(p, Hdc2080_1, a) then Some(Hdc2080_1) else ScanFrom(p, a, 4);
    assert ScanFrom(p, a, 2) == if Matches(p, Shtc3, a) then Some(Shtc3) else ScanFrom(p, a, 3);
    assert ScanFrom(p, a, 1) == if Matches(p, Bme280_2, a) then Some(Bme280_2) else ScanFrom(p, a, 2);
    assert ScanFrom(p, a, 0) == if Matches(p, Bme280_1, a) then Some(Bme280_1) else ScanFrom(p, a, 1);
  }

  lemma DispatchUnfold(t: RoleTable)
    ensures Dispatch(t, RunOrder) ==
      CallOf(t, Ambient) + CallOf(t, Intake) + CallOf(t, Desiccant) + CallOf(t, Output) +
      CallOf(t, InPressure) + CallOf(t, OutPressure) + CallOf(t, Color)
  {
    var s := RunOrder;
    assert s[..1][..0] == [] && s[..1][0] == Ambient;
    assert s[..2][..1] == s[..1] && s[..2][1] == Intake;
    assert s[..3][..2] == s[..2] && s[..3][2] == Desiccant;
    assert s[..4][..3] == s[..3] && s[..4][3] == Output;
    assert s[..5][..4] == s[..4] && s[..5][4] == InPressure;
    assert s[..6][..5] == s[..5] && s[..6][5] == OutPressure;
    assert s[..|s| - 1] == s[..6] && s[6] == Color;
    assert Dispatch(t, s[..1]) == CallOf(t, Ambient);
    assert Dispatch(t, s[..2]) == Dispatch(t, s[..1]) + CallOf(t, Intake);
    assert Dispatch(t, s[..3]) == Dispatch(t, s[..2]) + CallOf(t, Desiccant);
    assert Dispatch(t, s[..4]) == Dispatch(t, s[..3]) + CallOf(t, Output);
    assert Dispatch(t, s[..5]) == Dispatch(t, s[..4]) + CallOf(t, InPressure);
    assert Dispatch(t, s[..6]) == Dispatch(t, s[..5]) + CallOf(t, OutPressure);
    assert Dispatch(t, s) == Dispatch(t, s[..6]) + CallOf(t, Color);
  }
}
