/** The motor/conveyor safety interlock behind WarehouseTransportSystem.

    The value-level part (MotorState, Line and the step functions) says what
    every operation does to the run flag, the jam latch and the count of
    forward-start actuations; the classes below are the objects of the
    source (the motor driver and the two input sources of the tests, the
    MotorController, the ConveyorController and the facade) and each of their
    operations is proved to perform exactly the corresponding step. */
module Transport {

  // ---------------------------------------------------------------------
  // Value-level model
  // ---------------------------------------------------------------------

  /** The safety inputs: emergency stop pressed, fault active. */
  datatype Safety = Safety(eStop: bool, fault: bool)

  /** Everything the interlock reads from outside: the safety inputs and the jam sensor. */
  datatype Signals = Signals(safety: Safety, jamDetected: bool)

  /** The motor driver: its run flag and how many forward starts it was commanded. */
  datatype MotorState = MotorState(running: bool, starts: nat)

  /** The whole line: the motor and the conveyor's jam latch. */
  datatype Line = Line(motor: MotorState, jamActive: bool)

  predicate Safe(s: Safety)
  {
    !s.eStop && !s.fault
  }

  /** MotorController.Start: refused when unsafe; a running motor is not started again. */
  function StartMotor(m: MotorState, s: Safety): (r: (MotorState, bool))
    ensures r.1 == Safe(s)
    ensures r.0.running == (m.running || Safe(s))
    ensures r.0.starts == if Safe(s) && !m.running then m.starts + 1 else m.starts
  {
    if !Safe(s) then (m, false)
    else if m.running then (m, true)
    else (MotorState(true, m.starts + 1), true)
  }

  /** MotorController.Stop: always permitted, never actuates a start. */
  function StopMotor(m: MotorState): (r: MotorState)
    ensures !r.running && r.starts == m.starts
  {
    m.(running := false)
  }

  /** ConveyorController.Start: refused while the jam latch is set, otherwise the motor's answer. */
  function StartConveyor(l: Line, s: Signals): (r: (Line, bool))
    ensures r.1 == (!l.jamActive && Safe(s.safety))
    ensures r.0.jamActive == l.jamActive
    ensures r.0.motor.running == (l.motor.running || r.1)
    ensures r.0.motor.starts == if r.1 && !l.motor.running then l.motor.starts + 1 else l.motor.starts
  {
    if l.jamActive then (l, false)
    else
      var (m, ok) := StartMotor(l.motor, s.safety);
      (l.(motor := m), ok)
  }

  /** ConveyorController.CheckJam: a detected jam sets the latch and stops the motor. */
  function JamCheck(l: Line, s: Signals): (r: Line)
    ensures s.jamDetected ==> r.jamActive && !r.motor.running && r.motor.starts == l.motor.starts
    ensures !s.jamDetected ==> r == l
  {
    if s.jamDetected then Line(StopMotor(l.motor), true) else l
  }

  /** ConveyorController.ClearJam: the latch drops only once the sensor reads clear. */
  function JamClear(l: Line, s: Signals): (r: Line)
    ensures r.motor == l.motor
    ensures r.jamActive == (l.jamActive && s.jamDetected)
  {
    if !s.jamDetected then l.(jamActive := false) else l
  }

  /** IsAvailableForTransport: the line is idle and not jammed. */
  predicate Available(l: Line)
  {
    !l.jamActive && !l.motor.running
  }

  /** RequestMovement: starts the line only when it is available. */
  function MovementRequest(l: Line, s: Signals): (r: (Line, bool))
    ensures !Available(l) ==> r == (l, false)
    ensures Available(l) ==> r == StartConveyor(l, s)
    ensures r.1 == (Available(l) && Safe(s.safety))
  {
    if Available(l) then StartConveyor(l, s) else (l, false)
  }

  const StatusJam := "FAULT: JAM ACTIVE."
  const StatusRunning := "RUNNING OK"
  const StatusSafetyLock := "STOPPED: SAFETY LOCK ACTIVE."
  const StatusIdle := "IDLE: Ready to Start."

  /** GetSystemStatus as written: jam first, then running, then a probe that
      calls the real MotorController.Start and so may start the motor. */
  function Status(l: Line, s: Signals): (r: (Line, string))
    ensures l.jamActive ==> r == (l, StatusJam)
    ensures !l.jamActive && l.motor.running ==> r == (l, StatusRunning)
    ensures !l.jamActive && !l.motor.running ==>
              r.1 == (if Safe(s.safety) then StatusIdle else StatusSafetyLock)
    ensures r.1 == StatusIdle ==> r.0.motor.running && r.0.motor.starts == l.motor.starts + 1
    ensures r.1 != StatusIdle ==> r.0 == l
  {
    if l.jamActive then (l, StatusJam)
    else if l.motor.running then (l, StatusRunning)
    else
      var (m, ok) := StartMotor(l.motor, s.safety);
      if !ok then (l.(motor := m), StatusSafetyLock) else (l.(motor := m), StatusIdle)
  }

  /** The status query as intended: the same answers, found without actuating anything. */
  function StatusProbe(l: Line, s: Signals): (r: string)
    ensures r in {StatusJam, StatusRunning, StatusSafetyLock, StatusIdle}
    ensures r == StatusIdle <==> Available(l) && Safe(s.safety)
  {
    if l.jamActive then StatusJam
    else if l.motor.running then StatusRunning
    else if !Safe(s.safety) then StatusSafetyLock
    else StatusIdle
  }

  /** The operations of the facade that an outside caller can issue. */
  datatype Command =
    | StartSystem
    | StopSystem
    | PollSystemForIssues
    | ClearSystemFault
    | GetSystemStatus
    | RequestMovementFor(packageId: string)
    | HoldMovement

  /** The state after one facade call made while the inputs read `s`. */
  function Step(l: Line, s: Signals, c: Command): Line
  {
    match c
    case StartSystem => StartConveyor(l, s).0
    case StopSystem => l.(motor := StopMotor(l.motor))
    case PollSystemForIssues => JamCheck(l, s)
    case ClearSystemFault => JamClear(l, s)
    case GetSystemStatus => Status(l, s).0
    case RequestMovementFor(_) => MovementRequest(l, s).0
    case HoldMovement => l.(motor := StopMotor(l.motor))
  }

  /** The state after a sequence of facade calls, each with the inputs it saw. */
  function Run(l: Line, calls: seq<(Signals, Command)>): Line
    decreases |calls|
  {
    if calls == [] then l else Run(Step(l, calls[0].0, calls[0].1), calls[1..])
  }

  /** The safety invariant of the line: the motor never runs while a jam is latched. */
  predicate LatchHoldsMotor(l: Line)
  {
    l.jamActive ==> !l.motor.running
  }

  lemma StepKeepsLatchHoldsMotor(l: Line, s: Signals, c: Command)
    requires LatchHoldsMotor(l)
    ensures LatchHoldsMotor(Step(l, s, c))
  {
  }

  /** No sequence of facade calls, whatever the inputs, can make the motor run under a latched jam. */
  lemma {:induction false} RunKeepsLatchHoldsMotor(l: Line, calls: seq<(Signals, Command)>)
    requires LatchHoldsMotor(l)
    ensures LatchHoldsMotor(Run(l, calls))
    decreases |calls|
  {
    if calls != [] {
      StepKeepsLatchHoldsMotor(l, calls[0].0, calls[0].1);
      RunKeepsLatchHoldsMotor(Step(l, calls[0].0, calls[0].1), calls[1..]);
    }
  }

  /** The latch is sticky: with no ClearSystemFault among the calls it stays set,
      and the motor stays stopped, whatever the sensor and safety inputs do. */
  lemma {:induction false} LatchIsSticky(l: Line, calls: seq<(Signals, Command)>)
    requires l.jamActive && !l.motor.running
    requires forall i :: 0 <= i < |calls| ==> calls[i].1 != ClearSystemFault
    ensures Run(l, calls).jamActive && !Run(l, calls).motor.running
    ensures Run(l, calls).motor.starts == l.motor.starts
    decreases |calls|
  {
    if calls != [] {
      var l' := Step(l, calls[0].0, calls[0].1);
      assert calls[0].1 != ClearSystemFault;
      assert l'.jamActive && !l'.motor.running && l'.motor.starts == l.motor.starts;
      forall i | 0 <= i < |calls[1..]|
        ensures calls[1..][i].1 != ClearSystemFault
      {
        assert calls[1..][i] == calls[i + 1];
      }
      LatchIsSticky(l', calls[1..]);
    }
  }

  /** The latch drops only through ClearSystemFault with the sensor reading clear,
      and it is set only by a poll that saw a jam. */
  lemma LatchTransitions(l: Line, s: Signals, c: Command)
    ensures l.jamActive && !Step(l, s, c).jamActive ==> c == ClearSystemFault && !s.jamDetected
    ensures !l.jamActive && Step(l, s, c).jamActive ==> c == PollSystemForIssues && s.jamDetected
  {
  }

  /** The motor goes from stopped to running only through a forward start made
      while safe and not jammed; each such change is exactly one actuation,
      and no call makes any other actuation. */
  lemma StartsOnlyWhenSafe(l: Line, s: Signals, c: Command)
    ensures !l.motor.running && Step(l, s, c).motor.running ==>
              Safe(s.safety) && !l.jamActive &&
              (c == StartSystem || c.RequestMovementFor? || c == GetSystemStatus)
    ensures Step(l, s, c).motor.starts ==
              l.motor.starts + (if !l.motor.running && Step(l, s, c).motor.running then 1 else 0)
  {
  }

  /** Over any sequence of calls, the number of forward starts grows by at most one per call. */
  lemma {:induction false} StartsBoundedByCalls(l: Line, calls: seq<(Signals, Command)>)
    ensures l.motor.starts <= Run(l, calls).motor.starts <= l.motor.starts + |calls|
    decreases |calls|
  {
    if calls != [] {
      StartsOnlyWhenSafe(l, calls[0].0, calls[0].1);
      StartsBoundedByCalls(Step(l, calls[0].0, calls[0].1), calls[1..]);
    }
  }

  /** Starting twice while safe is a single actuation; the motor runs afterwards. */
  lemma StartTwiceActuatesOnce(l: Line, s: Signals)
    requires !l.jamActive && !l.motor.running && Safe(s.safety)
    ensures var once := Step(l, s, StartSystem);
            var twice := Step(once, s, StartSystem);
            twice.motor.running && twice.motor.starts == l.motor.starts + 1
  {
  }

  /** The corrected probe answers exactly what the as-written status answers,
      while the as-written status starts an idle, safe motor. */
  lemma ProbeMatchesStatus(l: Line, s: Signals)
    ensures StatusProbe(l, s) == Status(l, s).1
    ensures Status(l, s).0 != l <==> StatusProbe(l, s) == StatusIdle
  {
  }

  /** The discrepancy on a concrete line: an idle, unjammed motor with the
      safety inputs clear is reported idle, and the query has started it. */
  lemma StatusActuatesIdleMotor()
    ensures var l := Line(MotorState(false, 0), false);
            var s := Signals(Safety(false, false), false);
            && Status(l, s).1 == StatusIdle
            && StatusProbe(l, s) == StatusIdle
            && Status(l, s).0 == Line(MotorState(true, 1), false)
  {
  }

  // ---------------------------------------------------------------------
  // The objects
  // ---------------------------------------------------------------------

  /** The motor driver of the tests: a run flag and a count of StartForward calls. */
  class MotorDriver {
    var isRunning: bool
    var startForwardCalls: nat

    constructor ()
      ensures !isRunning && startForwardCalls == 0
    {
      isRunning, startForwardCalls := false, 0;
    }

    method StartForward()
      modifies this
      ensures isRunning && startForwardCalls == old(startForwardCalls) + 1
    {
      isRunning := true;
      startForwardCalls := startForwardCalls + 1;
    }

    method Stop()
      modifies this
      ensures !isRunning && startForwardCalls == old(startForwardCalls)
    {
      isRunning := false;
    }
  }

  /** The safety inputs, set from outside (the operator, the tests). */
  class SafetyInputs {
    var eStop: bool
    var fault: bool

    constructor ()
      ensures !eStop && !fault
    {
      eStop, fault := false, false;
    }
  }

  /** The jam sensor, set from outside. */
  class JamSensor {
    var jamDetected: bool

    constructor ()
      ensures !jamDetected
    {
      jamDetected := false;
    }
  }

  /** MotorController: starts the driver only when the safety inputs allow it. */
  class MotorController {
    const driver: MotorDriver
    const safety: SafetyInputs

    constructor (driver: MotorDriver, safety: SafetyInputs)
      ensures this.driver == driver && this.safety == safety
    {
      this.driver := driver;
      this.safety := safety;
    }

    function State(): MotorState
      reads driver
    {
      MotorState(driver.isRunning, driver.startForwardCalls)
    }

    function SafetyNow(): Safety
      reads safety
    {
      Safety(safety.eStop, safety.fault)
    }

    method Start() returns (ok: bool)
      modifies driver
      ensures (State(), ok) == StartMotor(old(State()), SafetyNow())
    {
      if safety.eStop || safety.fault {
        return false;
      }
      if driver.isRunning {
        return true;
      }
      driver.StartForward();
      return true;
    }

    method Stop()
      modifies driver
      ensures State() == StopMotor(old(State()))
    {
      driver.Stop();
    }
  }

  /** ConveyorController: the jam latch on top of the motor controller. */
  class ConveyorController {
    const motor: MotorController
    const jamSensor: JamSensor
    var jamActive: bool

    constructor (motor: MotorController, jamSensor: JamSensor)
      ensures this.motor == motor && this.jamSensor == jamSensor && !jamActive
    {
      this.motor := motor;
      this.jamSensor := jamSensor;
      jamActive := false;
    }

    function State(): Line
      reads this, motor.driver
    {
      Line(motor.State(), jamActive)
    }

    function SignalsNow(): Signals
      reads motor.safety, jamSensor
    {
      Signals(motor.SafetyNow(), jamSensor.jamDetected)
    }

    method Start() returns (ok: bool)
      modifies motor.driver
      ensures (State(), ok) == StartConveyor(old(State()), SignalsNow())
    {
      if jamActive {
        return false;
      }
      ok := motor.Start();
    }

    method Stop()
      modifies motor.driver
      ensures State() == old(State()).(motor := StopMotor(old(State()).motor))
    {
      motor.Stop();
    }

    method CheckJam()
      modifies this, motor.driver
      ensures State() == JamCheck(old(State()), SignalsNow())
    {
      if jamSensor.jamDetected {
        jamActive := true;
        motor.Stop();
      }
    }

    method ClearJam()
      modifies this
      ensures State() == JamClear(old(State()), SignalsNow())
    {
      if !jamSensor.jamDetected {
        jamActive := false;
      }
    }
  }

  /** WarehouseTransportSystem: the facade over one conveyor and the motor it drives. */
  class WarehouseTransportSystem {
    const motor: MotorController
    const conveyor: ConveyorController

    /** The facade reads the run flag from the same motor the conveyor drives,
        and the line never runs with a latched jam. */
    ghost predicate Valid()
      reads conveyor, motor.driver
    {
      conveyor.motor == motor && LatchHoldsMotor(State())
    }

    constructor (motor: MotorController, conveyor: ConveyorController)
      requires conveyor.motor == motor
      requires conveyor.jamActive ==> !motor.driver.isRunning
      ensures this.motor == motor && this.conveyor == conveyor
      ensures Valid()
    {
      this.motor := motor;
      this.conveyor := conveyor;
    }

    function State(): Line
      reads conveyor, motor.driver
    {
      Line(motor.State(), conveyor.jamActive)
    }

    function SignalsNow(): Signals
      reads motor.safety, conveyor.jamSensor
    {
      Signals(motor.SafetyNow(), conveyor.jamSensor.jamDetected)
    }

    method StartSystem() returns (ok: bool)
      requires Valid()
      modifies motor.driver
      ensures Valid()
      ensures (State(), ok) == StartConveyor(old(State()), SignalsNow())
    {
      ok := conveyor.Start();
    }

    method StopSystem()
      requires Valid()
      modifies motor.driver
      ensures Valid()
      ensures State() == Step(old(State()), SignalsNow(), Command.StopSystem)
    {
      conveyor.Stop();
    }

    method PollSystemForIssues()
      requires Valid()
      modifies conveyor, motor.driver
      ensures Valid()
      ensures State() == JamCheck(old(State()), SignalsNow())
    {
      conveyor.CheckJam();
    }

    method ClearSystemFault()
      requires Valid()
      modifies conveyor
      ensures Valid()
      ensures State() == JamClear(old(State()), SignalsNow())
    {
      conveyor.ClearJam();
    }

    /** The motor's run flag. */
    function IsRunning(): (r: bool)
      reads conveyor, motor.driver
      ensures r == State().motor.running
    {
      motor.driver.isRunning
    }

    /** The conveyor's jam latch. */
    function IsJamActive(): (r: bool)
      reads conveyor, motor.driver
      ensures r == State().jamActive
    {
      conveyor.jamActive
    }

    /** Available for a new package exactly when the line is neither jammed nor moving. */
    function IsAvailableForTransport(): (r: bool)
      reads conveyor, motor.driver
      ensures r <==> Available(State())
    {
      !IsJamActive() && !IsRunning()
    }

    /** The status text, as written: the idle case starts the motor. */
    method GetSystemStatus() returns (status: string)
      requires Valid()
      modifies motor.driver
      ensures Valid()
      ensures (State(), status) == Status(old(State()), SignalsNow())
    {
      if IsJamActive() {
        return StatusJam;
      }
      if IsRunning() {
        return StatusRunning;
      }
      var started := motor.Start();
      if !started {
        return StatusSafetyLock;
      }
      return StatusIdle;
    }

    /** The status text as intended: a query that changes nothing. */
    function GetSystemStatusReadOnly(): (status: string)
      reads conveyor, motor.driver, motor.safety, conveyor.jamSensor
      ensures status == Status(State(), SignalsNow()).1
    {
      ProbeMatchesStatus(State(), SignalsNow());
      StatusProbe(State(), SignalsNow())
    }

    method RequestMovement(packageId: string) returns (ok: bool)
      requires Valid()
      modifies motor.driver
      ensures Valid()
      ensures (State(), ok) == MovementRequest(old(State()), SignalsNow())
    {
      if IsAvailableForTransport() {
        ok := StartSystem();
        return;
      }
      return false;
    }

    method HoldMovement()
      requires Valid()
      modifies motor.driver
      ensures Valid()
      ensures State() == Step(old(State()), SignalsNow(), Command.HoldMovement)
    {
      StopSystem();
    }
  }

  /** A line wired as in the integration tests: idle, safe and unjammed. */
  method NewLine() returns (driver: MotorDriver, safety: SafetyInputs, sensor: JamSensor,
                            conveyor: ConveyorController, system: WarehouseTransportSystem)
    ensures fresh(driver) && fresh(safety) && fresh(sensor) && fresh(conveyor) && fresh(system)
    ensures system.Valid() && system.conveyor == conveyor && system.motor.driver == driver
    ensures system.motor.safety == safety && conveyor.jamSensor == sensor
    ensures !driver.isRunning && driver.startForwardCalls == 0 && !conveyor.jamActive
    ensures !safety.eStop && !safety.fault && !sensor.jamDetected
  {
    driver := new MotorDriver();
    safety := new SafetyInputs();
    sensor := new JamSensor();
    var motor := new MotorController(driver, safety);
    conveyor := new ConveyorController(motor, sensor);
    system := new WarehouseTransportSystem(motor, conveyor);
  }

  /** Starting twice actuates once. */
  method StartTwiceScenario()
  {
    var driver, safety, sensor, conveyor, system := NewLine();
    var ok := system.StartSystem();
    assert ok && driver.isRunning;
    ok := system.StartSystem();
    assert ok && driver.startForwardCalls == 1;
  }

  /** A jam during operation stops the line, survives a premature clear and
      blocks a restart until it is cleared with the sensor reading clear. */
  method JamScenario()
  {
    var driver, safety, sensor, conveyor, system := NewLine();
    var ok := system.StartSystem();
    sensor.jamDetected := true;
    system.PollSystemForIssues();
    assert !driver.isRunning && conveyor.jamActive;
    system.ClearSystemFault();
    assert conveyor.jamActive;
    sensor.jamDetected := false;
    ok := system.StartSystem();
    assert !ok;
    system.ClearSystemFault();
    assert !conveyor.jamActive;
    ok := system.StartSystem();
    assert ok && driver.isRunning && driver.startForwardCalls == 2;
  }

  /** E-Stop blocks a movement request. */
  method EStopScenario()
  {
    var driver, safety, sensor, conveyor, system := NewLine();
    safety.eStop := true;
    var ok := system.RequestMovement("PKG_002");
    assert !ok && !driver.isRunning;
  }

  /** The status query on an idle line starts the motor. */
  method StatusScenario()
  {
    var driver, safety, sensor, conveyor, system := NewLine();
    var status := system.GetSystemStatus();
    assert status == StatusIdle && driver.isRunning && driver.startForwardCalls == 1;
  }
}
