/** What one pass of `sensor_setup` binds, reports and registers. The pass is
    split in two: `Outcome` says which driver each role gets from the
    configuration and the probe results; the folds below say what binding the
    roles in order does to the error log, the registry and the driver labels.
    Every fold runs over a list of roles from its last element, because setup
    applies the roles one after the other and a later role's effect comes last. */
module Setup {
  import opened SensorTypes
  import opened Resolver

  /** A driver that its probe found. */
  predicate Found(p: Probes, d: DriverId) {
    d in p && p[d].found
  }

  /** The driver each role gets in this setup pass. The four humidity roles go
      through the resolver. Out-pressure and color have a single candidate each,
      and only the sentinel is tested, not the candidate's address. The
      in-pressure role has no binding step. */
  function Outcome(c: Config, p: Probes): RoleTable {
    RoleTable(
      Resolve(p, c.ambient),
      Resolve(p, c.intake),
      Resolve(p, c.desiccant),
      Resolve(p, c.output),
      None,
      if c.outPressure != Unconfigured && Found(p, Mprls) then Some(Mprls) else None,
      if c.color != Unconfigured && Found(p, Tcs34725) then Some(Tcs34725) else None)
  }

  /** A role left unconfigured gets no driver; every driver handed out was found
      by its probe; a humidity role gets a humidity driver that answers at the
      role's address; out-pressure and color get their single driver exactly
      when configured and that driver was found, whatever its address. */
  lemma OutcomeSpec(c: Config, p: Probes, r: Role)
    ensures !c.Configured(r) ==> Outcome(c, p).Get(r).None?
    ensures Outcome(c, p).Get(r).Some? ==> Found(p, Outcome(c, p).Get(r).value)
    ensures Outcome(c, p).Get(r).Some? && r in {Ambient, Intake, Desiccant, Output} ==>
      Outcome(c, p).Get(r).value in ScanOrder &&
      Matches(p, Outcome(c, p).Get(r).value, c.AddressOf(r).value)
    ensures r == OutPressure ==>
      Outcome(c, p).Get(r) == (if c.Configured(r) && Found(p, Mprls) then Some(Mprls) else None)
    ensures r == Color ==>
      Outcome(c, p).Get(r) == (if c.Configured(r) && Found(p, Tcs34725) then Some(Tcs34725) else None)
  {
    if c.AddressOf(r).Some? { ResolveSpec(p, c.AddressOf(r).value); }
  }

  /** Out-pressure and color do not look at their sensor's address: moving the
      found MPRLS or TCS34725 to any other address leaves its binding as it was. */
  lemma PressureColorIgnoreAddress(c: Config, p: Probes, a: Address, b: Address)
    ensures Outcome(c, p[Mprls := Probe(true, a)]).outPressure ==
            Outcome(c, p[Mprls := Probe(true, b)]).outPressure ==
            (if c.outPressure != Unconfigured then Some(Mprls) else None)
    ensures Outcome(c, p[Tcs34725 := Probe(true, a)]).color ==
            Outcome(c, p[Tcs34725 := Probe(true, b)]).color ==
            (if c.color != Unconfigured then Some(Tcs34725) else None)
  {
  }

  /** A configured role that got no driver. */
  predicate Unresolved(c: Config, o: RoleTable, r: Role) {
    c.Configured(r) && o.Get(r).None?
  }

  /** Roles whose driver goes into `installed_sensors`; the color sensor does not. */
  predicate Registered(r: Role) {
    r != Color
  }

  /** The error one role's binding step reports. */
  function ErrorOf(c: Config, o: RoleTable, r: Role): seq<ErrorType> {
    if Unresolved(c, o, r) then [NotFound(r)] else []
  }

  /** The registry entry one role's binding step appends. */
  function AppendOf(o: RoleTable, r: Role): seq<DriverId> {
    if Registered(r) && o.Get(r).Some? then [o.Get(r).value] else []
  }

  /** The labels after one role's binding step. */
  function LabelOf(o: RoleTable, r: Role, names: map<DriverId, string>): map<DriverId, string> {
    if o.Get(r).Some? then names[o.Get(r).value := Label(r)] else names
  }

  /** The errors reported while binding the roles `rs` in order. */
  function Errors(c: Config, o: RoleTable, rs: seq<Role>): seq<ErrorType> {
    if rs == [] then [] else Errors(c, o, rs[..|rs| - 1]) + ErrorOf(c, o, rs[|rs| - 1])
  }

  /** The registry entries appended while binding the roles `rs` in order. */
  function Appends(o: RoleTable, rs: seq<Role>): seq<DriverId> {
    if rs == [] then [] else Appends(o, rs[..|rs| - 1]) + AppendOf(o, rs[|rs| - 1])
  }

  /** The driver labels after binding the roles `rs` in order. */
  function Labels(o: RoleTable, rs: seq<Role>, names: map<DriverId, string>): map<DriverId, string> {
    if rs == [] then names else LabelOf(o, rs[|rs| - 1], Labels(o, rs[..|rs| - 1], names))
  }

  /** The role pointers after setup: the humidity pointers are assigned whatever
      the resolver returned, out-pressure and color only when bound, and the
      in-pressure pointer is left as it was. */
  function Bound(o: RoleTable, before: RoleTable): RoleTable {
    RoleTable(
      o.ambient, o.intake, o.desiccant, o.output,
      before.inPressure,
      if o.outPressure.Some? then o.outPressure else before.outPressure,
      if o.color.Some? then o.color else before.color)
  }

  predicate Distinct(rs: seq<Role>) {
    forall i, j :: 0 <= i < j < |rs| ==> rs[i] != rs[j]
  }

  /** The configured roles of `rs` that got no driver. */
  function UnresolvedIn(c: Config, o: RoleTable, rs: seq<Role>): set<Role> {
    set r | r in rs && Unresolved(c, o, r)
  }

  /** The registered roles of `rs` that got a driver. */
  function RegisteredIn(o: RoleTable, rs: seq<Role>): set<Role> {
    set r | r in rs && Registered(r) && o.Get(r).Some?
  }

  lemma NotFoundInjective(r: Role, s: Role)
    requires r != InPressure && s != InPressure && NotFound(r) == NotFound(s)
    ensures r == s
  {
  }

  /** The error kind of role `r` is reported exactly once when `r` is configured
      and got no driver, and never otherwise. */
  lemma {:induction false} ErrorsExactlyOnce(c: Config, o: RoleTable, rs: seq<Role>, r: Role)
    requires Distinct(rs) && r != InPressure
    ensures multiset(Errors(c, o, rs))[NotFound(r)] == if r in rs && Unresolved(c, o, r) then 1 else 0
  {
    if rs != [] {
      var init, last := rs[..|rs| - 1], rs[|rs| - 1];
      assert Distinct(init);
      ErrorsExactlyOnce(c, o, init, r);
      assert Errors(c, o, rs) == Errors(c, o, init) + ErrorOf(c, o, last);
      assert multiset(Errors(c, o, rs)) == multiset(Errors(c, o, init)) + multiset(ErrorOf(c, o, last));
      assert r in rs <==> r in init || r == last;
      if !Unresolved(c, o, last) {
        assert ErrorOf(c, o, last) == [];
      } else if last == r {
        assert ErrorOf(c, o, last) == [NotFound(r)];
        assert r !in init;
      } else {
        assert ErrorOf(c, o, last) == [NotFound(last)];
        if NotFound(last) == NotFound(r) { NotFoundInjective(last, r); }
        assert multiset(ErrorOf(c, o, last))[NotFound(r)] == 0;
      }
    }
  }

  /** One error is reported per configured role that got no driver. */
  lemma {:induction false} ErrorsCount(c: Config, o: RoleTable, rs: seq<Role>)
    requires Distinct(rs)
    ensures |Errors(c, o, rs)| == |UnresolvedIn(c, o, rs)|
  {
    if rs != [] {
      var init, last := rs[..|rs| - 1], rs[|rs| - 1];
      assert Distinct(init);
      ErrorsCount(c, o, init);
      assert last !in init;
      assert Errors(c, o, rs) == Errors(c, o, init) + ErrorOf(c, o, last);
      if Unresolved(c, o, last) {
        assert |ErrorOf(c, o, last)| == 1;
        assert UnresolvedIn(c, o, rs) == UnresolvedIn(c, o, init) + {last};
      } else {
        assert ErrorOf(c, o, last) == [];
        assert UnresolvedIn(c, o, rs) == UnresolvedIn(c, o, init);
      }
    }
  }

  /** One registry entry is appended per registered role that got a driver. */
  lemma {:induction false} AppendsCount(o: RoleTable, rs: seq<Role>)
    requires Distinct(rs)
    ensures |Appends(o, rs)| == |RegisteredIn(o, rs)|
  {
    if rs != [] {
      var init, last := rs[..|rs| - 1], rs[|rs| - 1];
      assert Distinct(init);
      AppendsCount(o, init);
      assert last !in init;
      assert Appends(o, rs) == Appends(o, init) + AppendOf(o, last);
      if Registered(last) && o.Get(last).Some? {
        assert |AppendOf(o, last)| == 1;
        assert RegisteredIn(o, rs) == RegisteredIn(o, init) + {last};
      } else {
        assert AppendOf(o, last) == [];
        assert RegisteredIn(o, rs) == RegisteredIn(o, init);
      }
    }
  }

  /** Every appended entry is the driver of a registered role of `rs`. */
  lemma {:induction false} AppendsFromRegistered(o: RoleTable, rs: seq<Role>, d: DriverId)
    requires d in Appends(o, rs)
    ensures exists r :: r in rs && Registered(r) && o.Get(r) == Some(d)
  {
    var init, last := rs[..|rs| - 1], rs[|rs| - 1];
    assert Appends(o, rs) == Appends(o, init) + AppendOf(o, last);
    if d in Appends(o, init) {
      AppendsFromRegistered(o, init, d);
      var r :| r in init && Registered(r) && o.Get(r) == Some(d);
      assert r in rs;
    } else {
      assert last in rs && Registered(last) && o.Get(last) == Some(d);
    }
  }

  /** Through setup the registry only receives found drivers, and never the color sensor. */
  lemma SetupRegistersFoundDrivers(c: Config, p: Probes, d: DriverId)
    requires d in Appends(Outcome(c, p), SetupOrder)
    ensures d != Tcs34725 && Found(p, d)
  {
    var o := Outcome(c, p);
    AppendsFromRegistered(o, SetupOrder, d);
    var r :| r in SetupOrder && Registered(r) && o.Get(r) == Some(d);
    OutcomeSpec(c, p, r);
    if r in {Ambient, Intake, Desiccant, Output} { ResolveSpec(p, c.AddressOf(r).value); }
  }

  /** A driver no role of `rs` gets keeps its label. */
  lemma {:induction false} LabelsUntouched(o: RoleTable, rs: seq<Role>, names: map<DriverId, string>, d: DriverId)
    requires d in names
    requires forall r :: r in rs ==> o.Get(r) != Some(d)
    ensures d in Labels(o, rs, names) && Labels(o, rs, names)[d] == names[d]
  {
    if rs != [] {
      LabelsUntouched(o, rs[..|rs| - 1], names, d);
    }
  }

  /** A driver that role `rs[i]` gets, and no later role, carries that role's label. */
  lemma {:induction false} LabelsLastWins(o: RoleTable, rs: seq<Role>, names: map<DriverId, string>, i: nat)
    requires i < |rs| && o.Get(rs[i]).Some?
    requires forall j :: i < j < |rs| ==> o.Get(rs[j]) != o.Get(rs[i])
    ensures o.Get(rs[i]).value in Labels(o, rs, names)
    ensures Labels(o, rs, names)[o.Get(rs[i]).value] == Label(rs[i])
  {
    if i < |rs| - 1 {
      var init := rs[..|rs| - 1];
      assert init[i] == rs[i];
      LabelsLastWins(o, init, names, i);
    }
  }

  /** A whole setup pass: at most five registry entries, one per registered
      role that got a driver, and one error per configured role that did not. */
  lemma SetupBounds(c: Config, p: Probes)
    ensures |Appends(Outcome(c, p), SetupOrder)| == |RegisteredIn(Outcome(c, p), SetupOrder)| <= 5
    ensures |Errors(c, Outcome(c, p), SetupOrder)| == |UnresolvedIn(c, Outcome(c, p), SetupOrder)|
  {
    var o := Outcome(c, p);
    assert Distinct(SetupOrder);
    AppendsCount(o, SetupOrder);
    ErrorsCount(c, o, SetupOrder);
    SetupUnfold(c, o, map[]);
  }

  /** The number of registry entries a setup pass adds, role by role. */
  function Additions(o: RoleTable): nat {
    |AppendOf(o, Ambient)| + |AppendOf(o, Intake)| + |AppendOf(o, Desiccant)| +
    |AppendOf(o, Output)| + |AppendOf(o, OutPressure)|
  }

  /** `Additions` counts the entries of the registry fold. */
  lemma AppendsSize(o: RoleTable)
    ensures |Appends(o, SetupOrder)| == Additions(o)
  {
    AppendsUnfold(o);
  }

  /** The registry entries of the setup pass written out role by role. */
  lemma AppendsUnfold(o: RoleTable)
    ensures Appends(o, SetupOrder) ==
      AppendOf(o, Ambient) + AppendOf(o, Intake) + AppendOf(o, Desiccant) +
      AppendOf(o, Output) + AppendOf(o, OutPressure)
  {
    var s := SetupOrder;
    assert s[..1][..0] == [] && s[..1][0] == Ambient;
    assert s[..2][..1] == s[..1] && s[..2][1] == Intake;
    assert s[..3][..2] == s[..2] && s[..3][2] == Desiccant;
    assert s[..4][..3] == s[..3] && s[..4][3] == Output;
    assert s[..5][..4] == s[..4] && s[..5][4] == OutPressure;
    assert s[..5] == s[..|s| - 1] && s[5] == Color;
    assert Appends(o, s[..1]) == AppendOf(o, Ambient);
    assert Appends(o, s[..2]) == Appends(o, s[..1]) + AppendOf(o, Intake);
    assert Appends(o, s[..3]) == Appends(o, s[..2]) + AppendOf(o, Desiccant);
    assert Appends(o, s[..4]) == Appends(o, s[..3]) + AppendOf(o, Output);
    assert Appends(o, s[..5]) == Appends(o, s[..4]) + AppendOf(o, OutPressure);
    assert AppendOf(o, Color) == [];
  }

  /** The setup pass written out role by role. */
  lemma SetupUnfold(c: Config, o: RoleTable, names: map<DriverId, string>)
    ensures Errors(c, o, SetupOrder) ==
      ErrorOf(c, o, Ambient) + ErrorOf(c, o, Intake) + ErrorOf(c, o, Desiccant) +
      ErrorOf(c, o, Output) + ErrorOf(c, o, OutPressure) + ErrorOf(c, o, Color)
    ensures Appends(o, SetupOrder) ==
      AppendOf(o, Ambient) + AppendOf(o, Intake) + AppendOf(o, Desiccant) +
      AppendOf(o, Output) + AppendOf(o, OutPressure)
    ensures Labels(o, SetupOrder, names) ==
      LabelOf(o, Color, LabelOf(o, OutPressure, LabelOf(o, Output,
        LabelOf(o, Desiccant, LabelOf(o, Intake, LabelOf(o, Ambient, names))))))
  {
    var s := SetupOrder;
    assert s[..0] == [];
    assert s[..1][..0] == [] && s[..1][0] == Ambient;
    assert s[..2][..1] == s[..1] && s[..2][1] == Intake;
    assert s[..3][..2] == s[..2] && s[..3][2] == Desiccant;
    assert s[..4][..3] == s[..3] && s[..4][3] == Output;
    assert s[..5][..4] == s[..4] && s[..5][4] == OutPressure;
    assert s[..5] == s[..|s| - 1] && s[5] == Color;
    assert Errors(c, o, s[..1]) == ErrorOf(c, o, Ambient);
    assert Errors(c, o, s[..2]) == Errors(c, o, s[..1]) + ErrorOf(c, o, Intake);
    assert Errors(c, o, s[..3]) == Errors(c, o, s[..2]) + ErrorOf(c, o, Desiccant);
    assert Errors(c, o, s[..4]) == Errors(c, o, s[..3]) + ErrorOf(c, o, Output);
    assert Errors(c, o, s[..5]) == Errors(c, o, s[..4]) + ErrorOf(c, o, OutPressure);
    assert Errors(c, o, s) == Errors(c, o, s[..5]) + ErrorOf(c, o, Color);
    AppendsUnfold(o);
    assert Labels(o, s[..1], names) == LabelOf(o, Ambient, names);
    assert Labels(o, s[..2], names) == LabelOf(o, Intake, Labels(o, s[..1], names));
    assert Labels(o, s[..3], names) == LabelOf(o, Desiccant, Labels(o, s[..2], names));
    assert Labels(o, s[..4], names) == LabelOf(o, Output, Labels(o, s[..3], names));
    assert Labels(o, s[..5], names) == LabelOf(o, OutPressure, Labels(o, s[..4], names));
    assert Labels(o, s, names) == LabelOf(o, Color, Labels(o, s[..5], names));
  }

  /** The registry is not de-duplicated: two humidity roles configured at the
      same address both get the driver found there, and it is appended twice. */
  lemma SharedAddressRegisteredTwice(c: Config, p: Probes)
    requires c.ambient == c.intake && Resolve(p, c.ambient).Some?
    ensures |Appends(Outcome(c, p), SetupOrder)| >= 2
    ensures Appends(Outcome(c, p), SetupOrder)[0] == Appends(Outcome(c, p), SetupOrder)[1]
  {
    SetupUnfold(c, Outcome(c, p), map[]);
  }

  /** A device with ambient at 0x77, desiccant at 0x41 and a color sensor, every
      other role unconfigured, and exactly those three drivers present: ambient
      and desiccant are bound and registered, color is bound, nothing is reported. */
  lemma BootWithAllConfiguredSensorsPresent(p: Probes)
    requires Complete(p) && p[Bme280_1] == Probe(true, 0x77) && p[Hdc2080_1] == Probe(true, 0x41)
    requires p[Tcs34725].found && !p[Bme280_2].found && !p[Shtc3].found && !p[Hdc2080_2].found
    requires !p[Htu21d].found && !p[Mprls].found
    ensures Outcome(Config(0x77, Unconfigured, 0x41, Unconfigured, Unconfigured, 0x29), p) ==
      RoleTable(Some(Bme280_1), None, Some(Hdc2080_1), None, None, None, Some(Tcs34725))
    ensures Appends(Outcome(Config(0x77, Unconfigured, 0x41, Unconfigured, Unconfigured, 0x29), p), SetupOrder) ==
      [Bme280_1, Hdc2080_1]
    ensures Errors(Config(0x77, Unconfigured, 0x41, Unconfigured, Unconfigured, 0x29),
      Outcome(Config(0x77, Unconfigured, 0x41, Unconfigured, Unconfigured, 0x29), p), SetupOrder) == []
  {
    var c := Config(0x77, Unconfigured, 0x41, Unconfigured, Unconfigured, 0x29);
    var o := Outcome(c, p);
    ResolvePicksEarliest(p, 0x77, 0);
    ResolvePicksEarliest(p, 0x41, 3);
    assert o == RoleTable(Some(Bme280_1), None, Some(Hdc2080_1), None, None, None, Some(Tcs34725));
    SetupUnfold(c, o, map[]);
    assert AppendOf(o, Ambient) + AppendOf(o, Intake) + AppendOf(o, Desiccant) == [Bme280_1, Hdc2080_1];
    assert AppendOf(o, Output) == [] && AppendOf(o, OutPressure) == [];
  }

  /** The same device with nothing answering at 0x41: ambient is still bound and
      registered, and the desiccant error is the one report. */
  lemma BootWithDesiccantSensorMissing(p: Probes)
    requires Complete(p) && p[Bme280_1] == Probe(true, 0x77) && !p[Hdc2080_1].found
    requires p[Tcs34725].found && !p[Bme280_2].found && !p[Shtc3].found && !p[Hdc2080_2].found
    requires !p[Htu21d].found && !p[Mprls].found
    ensures Outcome(Config(0x77, Unconfigured, 0x41, Unconfigured, Unconfigured, 0x29), p) ==
      RoleTable(Some(Bme280_1), None, None, None, None, None, Some(Tcs34725))
    ensures Appends(Outcome(Config(0x77, Unconfigured, 0x41, Unconfigured, Unconfigured, 0x29), p), SetupOrder) ==
      [Bme280_1]
    ensures Errors(Config(0x77, Unconfigured, 0x41, Unconfigured, Unconfigured, 0x29),
      Outcome(Config(0x77, Unconfigured, 0x41, Unconfigured, Unconfigured, 0x29), p), SetupOrder) ==
      [DesiccantHumiditySensorNotFound]
  {
    var c := Config(0x77, Unconfigured, 0x41, Unconfigured, Unconfigured, 0x29);
    var o := Outcome(c, p);
    ResolvePicksEarliest(p, 0x77, 0);
    ResolveSpec(p, 0x41);
    assert o == RoleTable(Some(Bme280_1), None, None, None, None, None, Some(Tcs34725));
    SetupUnfold(c, o, map[]);
  }
}
