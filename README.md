# Sensor manager of the ESP32 oxygen concentrator (Prototype v4)

This project models the sensor manager of the ESP32 Apollo V4 firmware
(`firmware/Prototype_v4/ESP32_Apollo_V4/SensorManager.cpp`) in Dafny and
proves properties of the model. The modelled state is:

- the eight statically allocated driver instances: six humidity/temperature
  drivers (two BME280, SHTC3, two HDC2080, HTU21D), the MPRLS pressure sensor
  and the TCS34725 color sensor;
- the seven role pointers: ambient, intake, desiccant, output, in-pressure,
  out-pressure, color;
- the ten-slot `installed_sensors` registry and its counter;
- the `sensor_run` schedule.

The model is split into modules:

- `SensorTypes` (`types.dfy`): drivers, probe results, roles, error kinds and
  the part of the configuration that is read here. The sentinel 0xFFFF is
  `Unconfigured`, the registry capacity is 10, and the schedule period is 100 ms.
- `Resolver` (`resolver.dfy`): the choice `find_sensor` makes, as a pure
  function. The sentinel short-circuits. Otherwise the choice is the first
  driver of the order bme280_1, bme280_2, shtc3, hdc2080_1, hdc2080_2, htu21d
  that was found at the configured address.
- `Setup` (`setup.dfy`): what one `sensor_setup` pass gives each role
  (`Outcome`). It also gives what binding the roles in order does to the error
  log, the registry and the driver labels, as folds over the role order
  (`Errors`, `Appends`, `Labels`), with lemmas about them.
- `Scheduler` (`scheduler.dfy`): the fixed-phase gate of `sensor_run` and the
  order in which it polls the roles, with lemmas about runs of calls.
- `SensorManager` (`sensor_manager.dfy`): the process-wide state as the class
  `Manager`, with these members:
  - the array `installed` and the counter `count`;
  - a ghost mirror `registry` of the registered prefix;
  - the role table `roles`;
  - the error log `errors`, holding every `setError` call;
  - the due time `next`;
  - a `trace` of every `run()` call.

  `find_sensor`, `sensor_setup` and `sensor_run` are its methods.
  `sensor_setup` is split into helper methods following its statements.
  `Boot` is static initialisation followed by `sensor_setup`.

Every method specifies its full effect on the state. This is either stated
outright or tied to the pure functions of `Resolver`, `Setup` and `Scheduler`,
and the lemmas there state what the firmware promises.

The resolver does not de-duplicate by address, and the registry can hold the
same driver twice. When two humidity roles are configured at the same
address, both get the driver found there and it is appended twice
(`Setup.SharedAddressRegisteredTwice`).

## Model

| member | source | states |
|---|---|---|
| Resolver.ScanFromSpec | firmware/Prototype_v4/ESP32_Apollo_V4/SensorManager.cpp:47-53 | The else-if chain returns a driver that was found at the address, and no earlier candidate was. It returns nothing exactly when no remaining candidate matches. |
| Resolver.ResolveSpec | firmware/Prototype_v4/ESP32_Apollo_V4/SensorManager.cpp:46-53 | The sentinel gives no driver. A chosen driver is a humidity candidate, never MPRLS or TCS34725. It was found at the address, with no earlier candidate found there. No driver is chosen exactly when no candidate matches a non-sentinel address. |
| Resolver.ResolvePicksEarliest | firmware/Prototype_v4/ESP32_Apollo_V4/SensorManager.cpp:48-53 | The earliest matching candidate is the one chosen, whatever later candidates also match. |
| Resolver.ResolveUniqueMatch | firmware/Prototype_v4/ESP32_Apollo_V4/SensorManager.cpp:47-53 | When exactly one humidity driver is found at a non-sentinel address, that driver is chosen. |
| SensorManager.ScanUnfold | firmware/Prototype_v4/ESP32_Apollo_V4/SensorManager.cpp:47-53 | The six-way if/else-if chain over the probe results is exactly the resolver's choice. |
| Setup.PressureColorIgnoreAddress | firmware/Prototype_v4/ESP32_Apollo_V4/SensorManager.cpp:79-95 | Wherever the found MPRLS or TCS34725 answers, its role binding is the same: bound exactly when its role is configured, because only the sentinel is tested. |
| Setup.OutcomeSpec | firmware/Prototype_v4/ESP32_Apollo_V4/SensorManager.cpp:75-95 | An unconfigured role gets no driver, and every driver handed out was found. A humidity role gets a humidity driver answering at its address. Out-pressure gets MPRLS, and color gets TCS34725, exactly when configured and found, whatever the address. |
| Setup.ErrorsExactlyOnce | firmware/Prototype_v4/ESP32_Apollo_V4/SensorManager.cpp:75-95 | Over any list of distinct roles, a role's error kind is reported exactly once if the role is configured and got no driver, and never otherwise. |
| Setup.ErrorsCount | firmware/Prototype_v4/ESP32_Apollo_V4/SensorManager.cpp:75-95 | The number of reports equals the number of configured roles left without a driver. |
| Setup.AppendsCount | firmware/Prototype_v4/ESP32_Apollo_V4/SensorManager.cpp:75-87 | The number of registry entries equals the number of registered roles that got a driver. |
| Setup.AppendsFromRegistered | firmware/Prototype_v4/ESP32_Apollo_V4/SensorManager.cpp:75-95 | Every appended entry is the driver of a registered role, that is, not the color role. |
| Setup.SetupRegistersFoundDrivers | firmware/Prototype_v4/ESP32_Apollo_V4/SensorManager.cpp:79-95 | Setup registers only drivers their probe found, and never the color sensor. |
| Setup.LabelsUntouched | firmware/Prototype_v4/ESP32_Apollo_V4/SensorManager.cpp:75-95 | A driver that no role gets keeps its name. |
| Setup.LabelsLastWins | firmware/Prototype_v4/ESP32_Apollo_V4/SensorManager.cpp:75-95 | A driver bound to a role, and to no later role, carries that role's label. |
| Setup.SetupBounds | firmware/Prototype_v4/ESP32_Apollo_V4/SensorManager.cpp:75-95 | One pass appends at most five entries, one per registered role that got a driver. It reports one error per configured role left unbound. |
| Setup.SharedAddressRegisteredTwice | firmware/Prototype_v4/ESP32_Apollo_V4/SensorManager.cpp:75-76 | Ambient and intake at the same address, with a driver found there: the same driver is the first two registry entries. |
| Setup.BootWithAllConfiguredSensorsPresent | firmware/Prototype_v4/ESP32_Apollo_V4/SensorManager.cpp:75-95 | Ambient at 0x77, desiccant at 0x41 and a color sensor, with exactly those drivers present and the other roles unconfigured. Ambient, desiccant and color are bound, the registry gets exactly those two humidity drivers, and nothing is reported. |
| Setup.BootWithDesiccantSensorMissing | firmware/Prototype_v4/ESP32_Apollo_V4/SensorManager.cpp:75-95 | The same configuration with nothing at 0x41: ambient is still bound and registered, and the desiccant error is the only report. |
| Scheduler.DispatchExact | firmware/Prototype_v4/ESP32_Apollo_V4/SensorManager.cpp:103-109 | Over roles in rank order, a firing calls `run()` only on bound roles, through their own drivers, in rank order. Every bound role is called. |
| Scheduler.FiringOrder | firmware/Prototype_v4/ESP32_Apollo_V4/SensorManager.cpp:103-109 | A firing calls `run()` exactly once on each bound role, in the order ambient, intake, desiccant, output, in-pressure, out-pressure, color. Unbound roles are skipped. |
| Scheduler.NoDrift | firmware/Prototype_v4/ESP32_Apollo_V4/SensorManager.cpp:101-102 | After any run of calls, the due time is the initial one plus one period per firing, whenever the calls came. |
| Scheduler.FiringsAnchored | firmware/Prototype_v4/ESP32_Apollo_V4/SensorManager.cpp:101-102 | The k-th firing happens no earlier than its slot, initial due time plus k periods. |
| Scheduler.PunctualPolling | firmware/Prototype_v4/ESP32_Apollo_V4/SensorManager.cpp:101-102 | Polled every millisecond from no later than the due time, the gate fires exactly at the slots, once per slot reached. |
| SensorManager.Manager.constructor | firmware/Prototype_v4/ESP32_Apollo_V4/SensorManager.cpp:22-42 | Static initialisation: all role pointers null, all slots null with count 0, empty error log and trace, schedule at 0. |
| SensorManager.Manager.Register | firmware/Prototype_v4/ESP32_Apollo_V4/SensorManager.cpp:57 | The driver is written at the old count, the count increases by one, and the invariant on the registry is kept. |
| SensorManager.Manager.FindSensor | firmware/Prototype_v4/ESP32_Apollo_V4/SensorManager.cpp:45-63 | Returns the resolver's choice. On a match, the name is set, the driver is written at the old count, the count increases by one, and nothing else changes. Otherwise nothing changes, except one `err` report for a non-sentinel address. |
| SensorManager.Manager.SensorSetup | firmware/Prototype_v4/ESP32_Apollo_V4/SensorManager.cpp:65-98 | The new probe results are taken. The roles become the pass's outcome, with in-pressure kept and out-pressure/color kept when unbound. Errors, labels and registry grow by the pass's folds, and the schedule is armed at `now`. |
| SensorManager.Manager.BindRoles | firmware/Prototype_v4/ESP32_Apollo_V4/SensorManager.cpp:75-95 | The six binding blocks in order: the roles become the outcome (in-pressure kept, out-pressure/color kept when unbound), and the reports, labels and registry entries of the six blocks are added in order. |
| Setup.AppendsUnfold | firmware/Prototype_v4/ESP32_Apollo_V4/SensorManager.cpp:75-87 | The registry entries of a pass are those of ambient, intake, desiccant, output and out-pressure, in that order. |
| Setup.SetupUnfold | firmware/Prototype_v4/ESP32_Apollo_V4/SensorManager.cpp:75-95 | The pass's reports, registry entries and labels are those of the six blocks, applied in source order. |
| SensorManager.DispatchUnfold | firmware/Prototype_v4/ESP32_Apollo_V4/SensorManager.cpp:103-109 | One firing's calls are those of the seven `if (p) p->run()` lines, in source order. |
| Setup.AppendsSize | firmware/Prototype_v4/ESP32_Apollo_V4/SensorManager.cpp:75-87 | The registry entries of a pass number one per registered role that got a driver, counted role by role. |
| SensorManager.Manager.BindHumidityRoles | firmware/Prototype_v4/ESP32_Apollo_V4/SensorManager.cpp:75-78 | The four humidity pointers get the resolver's choices. The reports, labels and registry entries of the four calls are added in order. |
| SensorManager.Manager.BindHumidityRole | firmware/Prototype_v4/ESP32_Apollo_V4/SensorManager.cpp:75-78 | One `find_sensor` call for a humidity role, stated as that role's outcome, error, label and registry entry. |
| SensorManager.Manager.BindOutPressure | firmware/Prototype_v4/ESP32_Apollo_V4/SensorManager.cpp:79-87 | MPRLS is labelled, bound and registered when configured and found. The error is reported when configured and not found. Nothing happens for the sentinel. |
| SensorManager.Manager.BindColor | firmware/Prototype_v4/ESP32_Apollo_V4/SensorManager.cpp:88-95 | TCS34725 is bound and labelled, but not registered, when configured and found. The error is reported when configured and not found. |
| SensorManager.Manager.SensorRun | firmware/Prototype_v4/ESP32_Apollo_V4/SensorManager.cpp:100-110 | Before the due time nothing changes. Otherwise the due time moves one period past the old due time, whatever `now` is, and one firing's `run()` calls are appended. |
| SensorManager.Manager.Poll | firmware/Prototype_v4/ESP32_Apollo_V4/SensorManager.cpp:103-109 | A role's `run()` call is appended exactly when the role is bound. |
| SensorManager.Boot | firmware/Prototype_v4/ESP32_Apollo_V4/SensorManager.cpp:31-98 | After static initialisation and setup, the probe results are the given ones and the roles are exactly the pass's outcome, so in-pressure is null. The registry holds exactly the pass's entries, at most 5, one per registered role that got a driver. The error log holds exactly the pass's reports, one per configured role left unbound. The names are the pass's labels written over the initial names. The schedule is armed at `now`. |

## Left out

- Display.cpp and every file other than SensorManager.cpp are not part of this model.
- The drivers' `begin()` is not modelled: probing is the input `probes` of `SensorSetup`. The bus address constants of the drivers are not part of this model.
- The drivers' `run()` is not modelled: each call is recorded as an entry of `trace`, and the drivers' readings and bus I/O are not modelled.
- `DEBUG_printf` and `getTypeName()` are diagnostics only and are left out.
- `setError` is modelled as appending to `errors`; its consumer is not part of this model.
- `millis()` is the parameter `now`. Time is unbounded (`nat`), so the model does not capture the `uint32_t` wrap-around of `next_sensor_read_ms_` and `millis()`. Under wrap-around, the source's `<` comparison is not safe.
- The drivers' initial names and found flags are driver state that SensorManager.cpp does not set. The constructor's contract leaves the names unspecified. It states every found flag clear before probing, and `SensorSetup` replaces the flags with its `probes` input.
- `Config` holds only the six address fields of `config.concentrator` that are read here. Config.h is not part of this model.
- The seven role pointers are one record field `roles`. `color_sensor` is typed `Tcs34725*` in the source and is a driver identifier like the others here.
- SensorManager.Manager.SensorSetup: requires registry room for the entries this pass adds (`Additions`, at most five). The source writes without a bound check, so the model does not capture a pass that would write past the tenth slot. A repeated setup is allowed whenever it fits, and the boot state always fits (`Boot`).
- SensorManager.Manager.FindSensor: requires a free registry slot when a driver matches, for the same reason.
- No concurrency: the firmware calls these functions from its single main loop.

## Findings

None.
