/** Sending commands and register writes to the UPS (src/ups/ups.c:394-533).
    Whether the transport is up (after a reconnect attempt, if it was down) and
    whether the driver succeeds are inputs. */
module UpsControl {
  datatype CommandDesc = CommandDesc(name: string, shutdown: bool, callable: bool)

  /** What a register takes: a range, listed values, or anything (strings and flags). */
  datatype Setting = Scalar(min: int, max: int) | Bitfield(strict: bool, options: seq<int>) | Unchecked

  datatype RegisterDesc = RegisterDesc(name: string, writable: bool, setting: Setting)

  /** `canWrite`: the driver has a write function; `reachable`: the transport is up. */
  datatype Device = Device(commands: seq<CommandDesc>, registers: seq<RegisterDesc>,
                           canWrite: bool, reachable: bool, driverOk: bool)

  datatype Reply = Ok | NotSupported | InvalidValue | IoError | DriverError

  // --- Lookups ---

  function FirstShutdown(cmds: seq<CommandDesc>): (k: nat)
    ensures k <= |cmds|
    ensures forall i :: 0 <= i < k ==> !cmds[i].shutdown
    ensures k < |cmds| ==> cmds[k].shutdown
  {
    if cmds == [] || cmds[0].shutdown then 0 else 1 + FirstShutdown(cmds[1..])
  }

  function FirstNamed(cmds: seq<CommandDesc>, name: string): (k: nat)
    ensures k <= |cmds|
    ensures forall i :: 0 <= i < k ==> cmds[i].name != name
    ensures k < |cmds| ==> cmds[k].name == name
  {
    if cmds == [] || cmds[0].name == name then 0 else 1 + FirstNamed(cmds[1..], name)
  }

  function FirstRegister(regs: seq<RegisterDesc>, name: string): (k: nat)
    ensures k <= |regs|
    ensures forall i :: 0 <= i < k ==> regs[i].name != name
    ensures k < |regs| ==> regs[k].name == name
  {
    if regs == [] || regs[0].name == name then 0 else 1 + FirstRegister(regs[1..], name)
  }

  method FindCommandFlag(cmds: seq<CommandDesc>) returns (k: nat)
    ensures k == FirstShutdown(cmds)
  {
    k := 0;
    while k < |cmds| && !cmds[k].shutdown
      invariant k <= FirstShutdown(cmds)
    {
      k := k + 1;
    }
  }

  method FindCommand(cmds: seq<CommandDesc>, name: string) returns (k: nat)
    ensures k == FirstNamed(cmds, name)
  {
    k := 0;
    while k < |cmds| && cmds[k].name != name
      invariant k <= FirstNamed(cmds, name)
    {
      k := k + 1;
    }
  }

  method FindConfigReg(regs: seq<RegisterDesc>, name: string) returns (k: nat)
    ensures k == FirstRegister(regs, name)
  {
    k := 0;
    while k < |regs| && regs[k].name != name
      invariant k <= FirstRegister(regs, name)
    {
      k := k + 1;
    }
  }

  // --- Commands ---

  /** The driver's function is called: a command of the name exists, the first
      such one has a function, and the transport is up. */
  predicate CommandReaches(d: Device, name: string) {
    var k := FirstNamed(d.commands, name);
    k < |d.commands| && d.commands[k].callable && d.reachable
  }

  method CmdExecute(d: Device, name: string) returns (rc: Reply, ghost asked: bool)
    ensures asked <==> CommandReaches(d, name)
    ensures rc == Ok <==> CommandReaches(d, name) && d.driverOk
    ensures rc == IoError ==> !d.reachable
    ensures rc != InvalidValue
  {
    asked := false;
    var k := FindCommand(d.commands, name);
    if k == |d.commands| { return NotSupported, asked; }
    if !d.commands[k].callable { return NotSupported, asked; }
    if !d.reachable { return IoError, asked; }
    asked := true;
    rc := if d.driverOk then Ok else DriverError;
  }

  // --- Register writes ---

  /** A range of 0 to 0 means that none is declared. */
  predicate Accepts(s: Setting, value: int) {
    match s
    case Scalar(min, max) => (min == 0 && max == 0) || min <= value <= max
    case Bitfield(strict, options) => strict ==> value in options
    case Unchecked => true
  }

  method Validate(s: Setting, value: int) returns (ok: bool)
    ensures ok <==> Accepts(s, value)
  {
    match s
    case Scalar(min, max) =>
      if min == 0 && max == 0 { return true; }
      if value < min || value > max { return false; }
      ok := true;
    case Bitfield(strict, options) =>
      if !strict { return true; }
      for i := 0 to |options|
        invariant value !in options[..i]
      {
        if options[i] == value { return true; }
      }
      assert options[..|options|] == options;
      ok := false;
    case Unchecked =>
      ok := true;
  }

  /** The driver's write function is called: nothing is written that the
      descriptor does not allow. */
  predicate WriteReaches(d: Device, reg: RegisterDesc, value: int) {
    reg.writable && d.canWrite && Accepts(reg.setting, value) && d.reachable
  }

  method ConfigWrite(d: Device, reg: RegisterDesc, value: int) returns (rc: Reply, ghost asked: bool)
    ensures asked <==> WriteReaches(d, reg, value)
    ensures rc == Ok <==> WriteReaches(d, reg, value) && d.driverOk
    ensures rc == InvalidValue <==> reg.writable && d.canWrite && !Accepts(reg.setting, value)
    ensures rc == NotSupported <==> !reg.writable || !d.canWrite
  {
    asked := false;
    if !reg.writable { return NotSupported, asked; }
    if !d.canWrite { return NotSupported, asked; }
    var valid := Validate(reg.setting, value);
    if !valid { return InvalidValue, asked; }
    if !d.reachable { return IoError, asked; }
    asked := true;
    rc := if d.driverOk then Ok else DriverError;
  }
}
