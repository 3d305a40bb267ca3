/** Entities shared by the sensor resolver, the role binding and the scheduler
    of the oxygen concentrator's sensor manager. */
module SensorTypes {

  datatype Option<T> = None | Some(value: T)

  /** A 16-bit I2C address as configured (uint16_t). */
  type Address = x: int | 0 <= x < 0x1_0000

  /** The configured address that means "role not present on this device". */
  const Unconfigured: Address := 0xFFFF

  /** Capacity of the `installed_sensors` array. */
  const Capacity: nat := 10

  /** `sensor_delay_ms`: the scheduler period in milliseconds. */
  const Period: nat := 100

  /** The eight statically allocated driver instances. */
  datatype DriverId =
    | Bme280_1 | Bme280_2 | Shtc3 | Hdc2080_1 | Hdc2080_2 | Htu21d
    | Mprls | Tcs34725

  /** What a driver's `begin()` left behind: `isFound()` and `getAddress()`. */
  datatype Probe = Probe(found: bool, address: Address)

  /** The probe results of every driver instance. */
  type Probes = map<DriverId, Probe>

  ghost predicate Complete<V>(m: map<DriverId, V>) {
    forall d: DriverId :: d in m
  }

  /** The error kinds this core hands to `setError`. */
  datatype ErrorType =
    | AmbientHumiditySensorNotFound
    | IntakeHumiditySensorNotFound
    | DesiccantHumiditySensorNotFound
    | OutputHumiditySensorNotFound
    | OutPressureSensorNotFound
    | ColorSensorNotFound

  /** The seven role pointers. */
  datatype Role = Ambient | Intake | Desiccant | Output | InPressure | OutPressure | Color

  /** Position of a role in the order `sensor_run` visits the role pointers. */
  function Rank(r: Role): nat {
    match r
    case Ambient => 0
    case Intake => 1
    case Desiccant => 2
    case Output => 3
    case InPressure => 4
    case OutPressure => 5
    case Color => 6
  }

  /** The order `sensor_run` polls the roles in. */
  const RunOrder: seq<Role> := [Ambient, Intake, Desiccant, Output, InPressure, OutPressure, Color]

  /** The order `sensor_setup` binds the roles in; the in-pressure role has no binding step. */
  const SetupOrder: seq<Role> := [Ambient, Intake, Desiccant, Output, OutPressure, Color]

  /** The label a bound driver receives as its `name`. */
  function Label(r: Role): string {
    match r
    case Ambient => "ambient"
    case Intake => "intake"
    case Desiccant => "desiccant"
    case Output => "output"
    case InPressure => "in-pressure"
    case OutPressure => "out-pressure"
    case Color => "color"
  }

  /** The error reported when a configured role cannot be bound. */
  function NotFound(r: Role): ErrorType
    requires r != InPressure
  {
    match r
    case Ambient => AmbientHumiditySensorNotFound
    case Intake => IntakeHumiditySensorNotFound
    case Desiccant => DesiccantHumiditySensorNotFound
    case Output => OutputHumiditySensorNotFound
    case OutPressure => OutPressureSensorNotFound
    case Color => ColorSensorNotFound
  }

  /** The part of `config.concentrator` this core reads. */
  datatype Config = Config(
    ambient: Address,
    intake: Address,
    desiccant: Address,
    output: Address,
    outPressure: Address,
    color: Address)
  {
    /** The configured address of a role; the in-pressure role has none. */
    function AddressOf(r: Role): Option<Address> {
      match r
      case Ambient => Some(ambient)
      case Intake => Some(intake)
      case Desiccant => Some(desiccant)
      case Output => Some(output)
      case InPressure => None
      case OutPressure => Some(outPressure)
      case Color => Some(color)
    }

    /** A role is configured when it has an address other than the sentinel. */
    predicate Configured(r: Role) {
      AddressOf(r).Some? && AddressOf(r).value != Unconfigured
    }
  }

  /** The seven role pointers as one value; `None` is `nullptr`. */
  datatype RoleTable = RoleTable(
    ambient: Option<DriverId>,
    intake: Option<DriverId>,
    desiccant: Option<DriverId>,
    output: Option<DriverId>,
    inPressure: Option<DriverId>,
    outPressure: Option<DriverId>,
    color: Option<DriverId>)
  {
    function Get(r: Role): Option<DriverId> {
      match r
      case Ambient => ambient
      case Intake => intake
      case Desiccant => desiccant
      case Output => output
      case InPressure => inPressure
      case OutPressure => outPressure
      case Color => color
    }
  }

  /** One `run()` call, made through the pointer of `role` on driver `driver`. */
  datatype RunCall = RunCall(role: Role, driver: DriverId)
}
