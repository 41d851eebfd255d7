/**
 * The Intcode virtual machine: a fixed-size memory of integer words, a
 * program counter and a queue of pending inputs.  Eight opcodes plus halt,
 * two addressing modes (position and immediate), no relative base, and a
 * memory that never grows.
 *
 * `Exec` is the meaning of one instruction as a function of the machine
 * state; `IntcodeVM.Step` performs it in place on the object's fields and is
 * proved to agree with it.  The properties of the machine are proved about
 * `Exec` and `RunSpec`.
 */
module Intcode {
  import RustInt
  import opened Text

  datatype Opcode = Add | Mul | Inp | Out | Jnz | Jz | Lt | Eq | Hlt

  /** Why a step refused to execute (the source reports each as a message). */
  datatype Fault =
    | PcOutOfRange(pc: nat, len: nat)
    | InvalidOpcode(op: int)
    | NotEnoughArguments
    | PositionOutOfRange(at: nat, value: int)
    | ImmediateDestination
    | InvalidMode(mode: int)
    | JumpOutOfRange(addr: int)

  datatype Result<T> = Success(value: T) | Failure(fault: Fault)

  datatype StepResult = Ok | Halt | InputNeeded | InvalidInstr(fault: Fault)

  datatype RunErr = NeedsInput | Invalid(fault: Fault)

  /** `Result<(), RunErr>` of the run loop, plus the fuel bound of this model. */
  datatype RunResult = Finished | Stopped(err: RunErr) | OutOfFuel

  /** The numeric value of each opcode. */
  function Number(op: Opcode): int
  {
    match op
    case Add => 1
    case Mul => 2
    case Inp => 3
    case Out => 4
    case Jnz => 5
    case Jz => 6
    case Lt => 7
    case Eq => 8
    case Hlt => 99
  }

  /** Instruction length in words, the opcode word included. */
  function Size(op: Opcode): (n: nat)
    ensures 1 <= n <= 4
  {
    match op
    case Add => 4
    case Mul => 4
    case Inp => 2
    case Out => 2
    case Jnz => 3
    case Jz => 3
    case Lt => 4
    case Eq => 4
    case Hlt => 1
  }

  /** Whether parameter `argnum` is a destination address. */
  predicate StoresTo(op: Opcode, argnum: nat)
  {
    match op
    case Add => argnum == 2
    case Mul => argnum == 2
    case Inp => argnum == 0
    case Lt => argnum == 2
    case Eq => argnum == 2
    case _ => false
  }

  /** `Opcode::try_from`: the opcode is the word modulo 100 (Rust's remainder). */
  function OpcodeFrom(v: int): (r: Result<Opcode>)
    ensures r.Success? ==> Number(r.value) == RustInt.Rem(v, 100) && v > 0
    ensures r.Failure? ==> r.fault == InvalidOpcode(RustInt.Rem(v, 100))
  {
    var op := RustInt.Rem(v, 100);
    if op == 1 then Success(Add)
    else if op == 2 then Success(Mul)
    else if op == 3 then Success(Inp)
    else if op == 4 then Success(Out)
    else if op == 5 then Success(Jnz)
    else if op == 6 then Success(Jz)
    else if op == 7 then Success(Lt)
    else if op == 8 then Success(Eq)
    else if op == 99 then Success(Hlt)
    else Failure(InvalidOpcode(op))
  }

  /** Decoding recovers the opcode from any word whose last two digits are its number. */
  lemma OpcodeFromNumber(op: Opcode, modes: nat)
    ensures OpcodeFrom(modes * 100 + Number(op)) == Success(op)
  {
    var v := modes * 100 + Number(op);
    RustInt.DivModUnique(v, modes, Number(op), 100);
  }

  /** Exactly the nine opcode numbers decode; every other remainder faults. */
  lemma OpcodeFromTotal(v: int)
    ensures OpcodeFrom(v).Success? <==> RustInt.Rem(v, 100) in {1, 2, 3, 4, 5, 6, 7, 8, 99}
  {
  }

  /** The addressing-mode digit of parameter `idx`: `(instr / 10^(idx+2)) % 10`. */
  function Mode(instr: int, idx: nat): (m: int)
    ensures instr >= 0 ==> 0 <= m <= 9
  {
    RustInt.PowPositive(10, idx + 2);
    RustInt.Rem(RustInt.Div(instr, RustInt.Pow(10, idx + 2)), 10)
  }

  /** The mode digits of the three possible parameters of a non-negative word. */
  lemma ModeDigits(instr: int)
    requires instr >= 0
    ensures Mode(instr, 0) == (instr / 100) % 10
    ensures Mode(instr, 1) == (instr / 1000) % 10
    ensures Mode(instr, 2) == (instr / 10000) % 10
  {
    assert RustInt.Pow(10, 2) == 100;
    assert RustInt.Pow(10, 3) == 1000;
    assert RustInt.Pow(10, 4) == 10000;
  }

  /**
   * The parameter loop of `step`, from parameter `idx` on: a position-mode
   * parameter must address memory, and unless it is the destination it is
   * replaced by the word it addresses; an immediate parameter must not be
   * the destination; any other mode faults.  The first fault wins.
   */
  function Resolve(mem: seq<int>, pc: nat, instr: int, op: Opcode, args: seq<int>, idx: nat): (r: Result<seq<int>>)
    requires idx <= |args|
    ensures r.Success? ==> |r.value| == |args|
    ensures r.Success? ==> forall i :: 0 <= i < idx ==> r.value[i] == args[i]
    ensures r.Success? ==> forall i :: idx <= i < |args| && StoresTo(op, i) ==>
      r.value[i] == args[i] && 0 <= args[i] < |mem|
    decreases |args| - idx
  {
    if idx == |args| then Success(args)
    else
      var mode := Mode(instr, idx);
      if mode == 0 then
        if !(0 <= args[idx] < |mem|) then Failure(PositionOutOfRange(idx + pc + 1, args[idx]))
        else if StoresTo(op, idx) then Resolve(mem, pc, instr, op, args, idx + 1)
        else Resolve(mem, pc, instr, op, args[idx := mem[args[idx]]], idx + 1)
      else if mode == 1 then
        if StoresTo(op, idx) then Failure(ImmediateDestination)
        else Resolve(mem, pc, instr, op, args, idx + 1)
      else Failure(InvalidMode(mode))
  }

  /** The value parameter `i` contributes: the word it addresses, or itself. */
  function Operand(mem: seq<int>, instr: int, op: Opcode, word: int, i: nat): int
  {
    if Mode(instr, i) == 0 && !StoresTo(op, i) && 0 <= word < |mem| then mem[word] else word
  }

  /** A parameter is acceptable: a known mode, in range if by position, not an immediate destination. */
  predicate LegalParam(mem: seq<int>, instr: int, op: Opcode, word: int, i: nat)
  {
    (Mode(instr, i) == 0 && 0 <= word < |mem|) || (Mode(instr, i) == 1 && !StoresTo(op, i))
  }

  /** The parameter loop succeeds exactly when every parameter is legal, and then yields each operand. */
  lemma {:induction false} ResolveMeaning(mem: seq<int>, pc: nat, instr: int, op: Opcode, args: seq<int>, idx: nat)
    requires idx <= |args|
    ensures Resolve(mem, pc, instr, op, args, idx).Success? <==>
      forall i :: idx <= i < |args| ==> LegalParam(mem, instr, op, args[i], i)
    ensures Resolve(mem, pc, instr, op, args, idx).Success? ==>
      forall i :: idx <= i < |args| ==>
        Resolve(mem, pc, instr, op, args, idx).value[i] == Operand(mem, instr, op, args[i], i)
    decreases |args| - idx
  {
    if idx < |args| {
      var mode := Mode(instr, idx);
      var next := if mode == 0 && !StoresTo(op, idx) && 0 <= args[idx] < |mem|
        then args[idx := mem[args[idx]]] else args;
      ResolveMeaning(mem, pc, instr, op, next, idx + 1);
      assert forall i :: idx < i < |args| ==> next[i] == args[i];
    }
  }

  /** The state of one VM: `pc`, `mem` and `input_queue`. */
  datatype Machine = Machine(pc: nat, mem: seq<int>, queue: seq<int>)

  /**
   * The two callbacks: the values the input callback hands out, in order
   * (it returns `None` once they run out), how many of them it has handed
   * out, and what the output callback has received so far.
   */
  datatype Io = Io(inputs: seq<int>, used: nat, output: seq<int>)

  datatype Stepped = Stepped(result: StepResult, machine: Machine, io: Io)

  /** `do_jump`: the target must address memory. */
  function JumpTo(m: Machine, io: Io, addr: int): (s: Stepped)
    ensures s.result.Ok? ==> 0 <= addr < |m.mem| && s.machine == m.(pc := addr)
    ensures !s.result.Ok? ==> s.machine == m && s.result == InvalidInstr(JumpOutOfRange(addr))
    ensures s.io == io
  {
    if !(0 <= addr < |m.mem|) then Stepped(InvalidInstr(JumpOutOfRange(addr)), m, io)
    else Stepped(Ok, m.(pc := addr), io)
  }

  /** The effect of a decoded instruction whose parameters have been resolved. */
  function Execute(m: Machine, io: Io, op: Opcode, args: seq<int>): Stepped
    requires |args| == Size(op) - 1
    requires forall i :: 0 <= i < |args| && StoresTo(op, i) ==> 0 <= args[i] < |m.mem|
  {
    var next := m.pc + Size(op);
    assert op in {Add, Mul, Lt, Eq} ==> StoresTo(op, 2);
    assert op == Inp ==> StoresTo(op, 0);
    match op
    case Add => Stepped(Ok, m.(pc := next, mem := m.mem[args[2] := args[0] + args[1]]), io)
    case Mul => Stepped(Ok, m.(pc := next, mem := m.mem[args[2] := args[0] * args[1]]), io)
    case Inp =>
      if |m.queue| > 0 then
        Stepped(Ok, Machine(next, m.mem[args[0] := m.queue[0]], m.queue[1..]), io)
      else if io.used < |io.inputs| then
        Stepped(Ok, m.(pc := next, mem := m.mem[args[0] := io.inputs[io.used]]), io.(used := io.used + 1))
      else Stepped(InputNeeded, m, io)
    case Out => Stepped(Ok, m.(pc := next), io.(output := io.output + [args[0]]))
    case Jnz => if args[0] != 0 then JumpTo(m, io, args[1]) else Stepped(Ok, m.(pc := next), io)
    case Jz => if args[0] == 0 then JumpTo(m, io, args[1]) else Stepped(Ok, m.(pc := next), io)
    case Lt => Stepped(Ok, m.(pc := next, mem := m.mem[args[2] := if args[0] < args[1] then 1 else 0]), io)
    case Eq => Stepped(Ok, m.(pc := next, mem := m.mem[args[2] := if args[0] == args[1] then 1 else 0]), io)
    case Hlt => Stepped(Halt, m, io)
  }

  /** `IntcodeVM::step` as a function of the machine state and the callbacks. */
  function Exec(m: Machine, io: Io): (s: Stepped)
    ensures |s.machine.mem| == |m.mem|
    ensures !s.result.Ok? ==> s.machine == m && s.io == io
    ensures s.result.Ok? ==> s.machine.pc <= |m.mem|
    ensures io.output <= s.io.output && |s.io.output| <= |io.output| + 1
    ensures s.io.inputs == io.inputs && io.used <= s.io.used <= io.used + 1
    ensures s.io.used > io.used ==> s.io.used <= |io.inputs|
  {
    if m.pc >= |m.mem| then Stepped(InvalidInstr(PcOutOfRange(m.pc, |m.mem|)), m, io)
    else
      var instr := m.mem[m.pc];
      match OpcodeFrom(instr)
      case Failure(f) => Stepped(InvalidInstr(f), m, io)
      case Success(op) =>
        if m.pc + Size(op) > |m.mem| then Stepped(InvalidInstr(NotEnoughArguments), m, io)
        else
          match Resolve(m.mem, m.pc, instr, op, m.mem[m.pc + 1 .. m.pc + Size(op)], 0)
          case Failure(f) => Stepped(InvalidInstr(f), m, io)
          case Success(args) => Execute(m, io, op, args)
  }

  datatype Ran = Ran(result: RunResult, machine: Machine, io: Io)

  /** `run_with_cb`: step until something other than `Ok`, for at most `fuel` steps. */
  function RunSpec(m: Machine, io: Io, fuel: nat): Ran
    decreases fuel, 0
  {
    if fuel == 0 then Ran(OutOfFuel, m, io) else Continue(Exec(m, io), fuel - 1)
  }

  /** What the run loop does with the outcome of one step. */
  function Continue(s: Stepped, fuel: nat): Ran
    decreases fuel, 1
  {
    match s.result
    case Ok => RunSpec(s.machine, s.io, fuel)
    case Halt => Ran(Finished, s.machine, s.io)
    case InputNeeded => Ran(Stopped(NeedsInput), s.machine, s.io)
    case InvalidInstr(f) => Ran(Stopped(Invalid(f)), s.machine, s.io)
  }

  /**
   * The run loop only ever consumes the provider's values from the front and
   * only ever appends to what the output callback has received.
   */
  lemma {:induction false} RunIoOrder(m: Machine, io: Io, fuel: nat)
    ensures RunSpec(m, io, fuel).io.inputs == io.inputs && io.used <= RunSpec(m, io, fuel).io.used
    ensures io.used <= |io.inputs| ==> RunSpec(m, io, fuel).io.used <= |io.inputs|
    ensures io.output <= RunSpec(m, io, fuel).io.output
    decreases fuel, 0
  {
    if fuel > 0 {
      var s := Exec(m, io);
      ContinueIoOrder(s, fuel - 1);
    }
  }

  lemma {:induction false} ContinueIoOrder(s: Stepped, fuel: nat)
    ensures Continue(s, fuel).io.inputs == s.io.inputs && s.io.used <= Continue(s, fuel).io.used
    ensures s.io.used <= |s.io.inputs| ==> Continue(s, fuel).io.used <= |s.io.inputs|
    ensures s.io.output <= Continue(s, fuel).io.output
    decreases fuel, 1
  {
    if s.result.Ok? {
      RunIoOrder(s.machine, s.io, fuel);
    }
  }

  /** The opcode at `pc`, when `pc` addresses memory, the word decodes and the instruction fits. */
  function OpAt(m: Machine): (r: Option<Opcode>)
    ensures r.Some? ==> m.pc < |m.mem| && OpcodeFrom(m.mem[m.pc]) == Success(r.value)
    ensures r.Some? ==> m.pc + Size(r.value) <= |m.mem|
  {
    if m.pc < |m.mem| && OpcodeFrom(m.mem[m.pc]).Success? && m.pc + Size(OpcodeFrom(m.mem[m.pc]).value) <= |m.mem|
    then Some(OpcodeFrom(m.mem[m.pc]).value)
    else None
  }

  /** The parameter words of the instruction at `pc`, as stored. */
  function RawArgs(m: Machine): (raw: seq<int>)
    requires OpAt(m).Some?
    ensures |raw| == Size(OpAt(m).value) - 1
  {
    m.mem[m.pc + 1 .. m.pc + Size(OpAt(m).value)]
  }

  /** Every parameter of the instruction at `pc` has a legal mode and, if by position, addresses memory. */
  predicate ParamsLegal(m: Machine)
    requires OpAt(m).Some?
  {
    forall i :: 0 <= i < |RawArgs(m)| ==> LegalParam(m.mem, m.mem[m.pc], OpAt(m).value, RawArgs(m)[i], i)
  }

  /** The operand values of the instruction at `pc`, each read through its mode. */
  function ArgsOf(m: Machine): (args: seq<int>)
    requires OpAt(m).Some?
    ensures |args| == Size(OpAt(m).value) - 1
    ensures ParamsLegal(m) ==> forall i :: 0 <= i < |args| && StoresTo(OpAt(m).value, i) ==> 0 <= args[i] < |m.mem|
  {
    var raw := RawArgs(m);
    var args := seq(|raw|, i requires 0 <= i < |raw| => Operand(m.mem, m.mem[m.pc], OpAt(m).value, raw[i], i));
    assert forall i :: 0 <= i < |args| ==> args[i] == Operand(m.mem, m.mem[m.pc], OpAt(m).value, raw[i], i);
    args
  }

  /** A well-formed instruction: decodable, fitting, and with legal parameters. */
  predicate WellFormed(m: Machine)
  {
    OpAt(m).Some? && ParamsLegal(m)
  }

  /** The parameter that names the destination cell, if the opcode writes one. */
  function DestArg(op: Opcode): (k: Option<nat>)
    ensures forall i: nat :: StoresTo(op, i) <==> k == Some(i)
    ensures k.Some? ==> k.value < Size(op) - 1
  {
    match op
    case Add => Some(2)
    case Mul => Some(2)
    case Inp => Some(0)
    case Lt => Some(2)
    case Eq => Some(2)
    case _ => None
  }

  /** A taken conditional jump: `Jnz` on a non-zero operand or `Jz` on zero. */
  predicate JumpTaken(m: Machine)
    requires WellFormed(m)
  {
    (OpAt(m).value == Jnz && ArgsOf(m)[0] != 0) || (OpAt(m).value == Jz && ArgsOf(m)[0] == 0)
  }

  /** A well-formed instruction steps as its opcode says on the operand values. */
  lemma ExecDecoded(m: Machine, io: Io)
    requires WellFormed(m)
    ensures Exec(m, io) == Execute(m, io, OpAt(m).value, ArgsOf(m))
  {
    var op := OpAt(m).value;
    var instr := m.mem[m.pc];
    var raw := RawArgs(m);
    ResolveMeaning(m.mem, m.pc, instr, op, raw, 0);
    var r := Resolve(m.mem, m.pc, instr, op, raw, 0);
    assert r.Success?;
    assert r.value == ArgsOf(m);
  }

  /**
   * A step faults exactly when the instruction is not well formed or is a
   * taken jump whose target lies outside memory.
   */
  lemma ExecFaultIff(m: Machine, io: Io)
    ensures Exec(m, io).result.InvalidInstr? <==>
      !WellFormed(m) || (JumpTaken(m) && !(0 <= ArgsOf(m)[1] < |m.mem|))
  {
    if WellFormed(m) {
      ExecDecoded(m, io);
    } else {
      IllFormedFaults(m, io);
    }
  }

  /** An instruction that is not well formed faults. */
  lemma IllFormedFaults(m: Machine, io: Io)
    requires !WellFormed(m)
    ensures Exec(m, io).result.InvalidInstr?
  {
    if OpAt(m).Some? {
      var op := OpAt(m).value;
      var raw := RawArgs(m);
      ResolveMeaning(m.mem, m.pc, m.mem[m.pc], op, raw, 0);
    }
  }

  /**
   * A step writes at most the destination cell: opcodes without a
   * destination leave memory as it was, and `Lt`/`Eq` store 0 or 1.
   */
  lemma ExecWrites(m: Machine, io: Io)
    requires WellFormed(m)
    ensures DestArg(OpAt(m).value).None? ==> Exec(m, io).machine.mem == m.mem
    ensures DestArg(OpAt(m).value).Some? ==>
      var d := ArgsOf(m)[DestArg(OpAt(m).value).value];
      0 <= d < |m.mem| &&
      (forall j :: 0 <= j < |m.mem| && j != d ==> Exec(m, io).machine.mem[j] == m.mem[j]) &&
      (OpAt(m).value in {Lt, Eq} ==> Exec(m, io).machine.mem[d] in {0, 1})
  {
    ExecDecoded(m, io);
  }

  /**
   * Program-counter behaviour of a successful step: past the instruction,
   * or to the target of a taken jump; `Hlt` leaves it where it is.
   */
  lemma ExecPc(m: Machine, io: Io)
    requires WellFormed(m)
    ensures Exec(m, io).result.Ok? && !JumpTaken(m) ==> Exec(m, io).machine.pc == m.pc + Size(OpAt(m).value)
    ensures JumpTaken(m) && Exec(m, io).result.Ok? ==> Exec(m, io).machine.pc == ArgsOf(m)[1]
    ensures JumpTaken(m) && 0 <= ArgsOf(m)[1] < |m.mem| ==> Exec(m, io).result.Ok?
    ensures Exec(m, io).result == Halt <==> OpAt(m).value == Hlt
  {
    ExecDecoded(m, io);
  }

  /** Once a step halts, stepping again halts again with nothing changed. */
  lemma HaltIsFixed(m: Machine, io: Io)
    requires Exec(m, io).result == Halt
    ensures Exec(m, io).machine == m && Exec(m, io).io == io
    ensures Exec(m, io) == Exec(Exec(m, io).machine, Exec(m, io).io)
  {
  }

  /**
   * `Inp` reads the queue before the callback: with values queued the
   * callback is not consulted and the front of the queue is stored.
   */
  lemma InputQueueFirst(m: Machine, io: Io)
    requires WellFormed(m) && OpAt(m).value == Inp && |m.queue| > 0
    ensures Exec(m, io) == Stepped(Ok, Machine(m.pc + 2, m.mem[ArgsOf(m)[0] := m.queue[0]], m.queue[1..]), io)
  {
    ExecDecoded(m, io);
  }

  /**
   * A step needs input exactly at a well-formed `Inp` with nothing queued and
   * the callback exhausted; the state is then left as it was.
   */
  lemma InputNeededIff(m: Machine, io: Io)
    requires io.used <= |io.inputs|
    ensures Exec(m, io).result == InputNeeded <==>
      WellFormed(m) && OpAt(m).value == Inp && |m.queue| == 0 && io.used == |io.inputs|
    ensures Exec(m, io).result == InputNeeded ==> Exec(m, io).machine == m && Exec(m, io).io == io
  {
    ExecFaultIff(m, io);
    if WellFormed(m) {
      ExecDecoded(m, io);
    }
  }

  /** Pushing a value after `InputNeeded` and stepping again executes the same `Inp` on that value. */
  lemma ResumeAfterPush(m: Machine, io: Io, v: int)
    requires io.used <= |io.inputs|
    requires Exec(m, io).result == InputNeeded
    ensures WellFormed(m) && OpAt(m).value == Inp
    ensures Exec(m.(queue := m.queue + [v]), io) == Stepped(Ok, Machine(m.pc + 2, m.mem[ArgsOf(m)[0] := v], []), io)
  {
    InputNeededIff(m, io);
    var m' := m.(queue := m.queue + [v]);
    assert OpAt(m') == OpAt(m);
    assert ParamsLegal(m');
    assert ArgsOf(m') == ArgsOf(m);
    InputQueueFirst(m', io);
  }

  /**
   * The run loop stops for the reason it reports: `Finished` on a step that
   * halts, `NeedsInput` on one that needs input, `Invalid(f)` on one that
   * faults with `f`; the final state is the one that step saw.
   */
  lemma {:induction false} RunStopsOn(m: Machine, io: Io, fuel: nat)
    ensures var r := RunSpec(m, io, fuel);
      (r.result == Finished ==> Exec(r.machine, r.io).result == Halt) &&
      (r.result == Stopped(NeedsInput) ==> Exec(r.machine, r.io).result == InputNeeded) &&
      (forall f :: r.result == Stopped(Invalid(f)) ==> Exec(r.machine, r.io).result == InvalidInstr(f))
    decreases fuel
  {
    if fuel > 0 {
      var s := Exec(m, io);
      if s.result.Ok? {
        RunStopsOn(s.machine, s.io, fuel - 1);
      }
    }
  }

  /** More fuel changes nothing once the loop has stopped by itself. */
  lemma {:induction false} RunFuelMonotone(m: Machine, io: Io, fuel: nat, more: nat)
    requires fuel <= more
    requires !RunSpec(m, io, fuel).result.OutOfFuel?
    ensures RunSpec(m, io, more) == RunSpec(m, io, fuel)
    decreases fuel
  {
    var s := Exec(m, io);
    if s.result.Ok? {
      RunFuelMonotone(s.machine, s.io, fuel - 1, more - 1);
    }
  }

  /** `ProgMem::from_str`: comma-separated `i64` words; a bad word (a panic in the source) gives `None`. */
  function LoadProgram(s: string): (r: Option<seq<int>>)
    ensures r.Some? ==> |r.value| == |Split(s, ",")|
    ensures r.Some? ==> forall i :: 0 <= i < |r.value| ==> ParseI64(Split(s, ",")[i]) == Some(r.value[i])
    ensures r.None? ==> exists i :: 0 <= i < |Split(s, ",")| && ParseI64(Split(s, ",")[i]).None?
  {
    ParseWords(Split(s, ","))
  }

  function ParseWords(words: seq<string>): (r: Option<seq<int>>)
    ensures r.Some? ==> |r.value| == |words|
    ensures r.Some? ==> forall i :: 0 <= i < |words| ==> ParseI64(words[i]) == Some(r.value[i])
    ensures r.None? ==> exists i :: 0 <= i < |words| && ParseI64(words[i]).None?
  {
    if |words| == 0 then Some([])
    else match ParseI64(words[0])
      case None => None
      case Some(v) =>
        match ParseWords(words[1..])
        case None => None
        case Some(rest) => Some([v] + rest)
  }

  /** The program text of a word sequence. */
  function ProgramText(prog: seq<int>): string
    requires |prog| >= 1
  {
    Join(seq(|prog|, i requires 0 <= i < |prog| => IntToDecimal(prog[i])), ",")
  }

  /** Loading the printed form of any program of `i64` words gives the program back. */
  lemma LoadProgramText(prog: seq<int>)
    requires |prog| >= 1
    requires forall i :: 0 <= i < |prog| ==> I64Min <= prog[i] <= I64Max
    ensures LoadProgram(ProgramText(prog)) == Some(prog)
  {
    var words := seq(|prog|, i requires 0 <= i < |prog| => IntToDecimal(prog[i]));
    forall k | 0 <= k < |words| ensures ',' !in words[k] {
      if prog[k] < 0 {
        assert words[k] == "-" + NatToDecimal(-prog[k]);
      }
    }
    SplitJoin(words, ',');
    forall k | 0 <= k < |words| ensures ParseI64(words[k]) == Some(prog[k]) {
      ParseI64OfDecimal(prog[k]);
    }
    ParseWordsAll(words, prog);
  }

  lemma {:induction false} ParseWordsAll(words: seq<string>, prog: seq<int>)
    requires |words| == |prog|
    requires forall k :: 0 <= k < |words| ==> ParseI64(words[k]) == Some(prog[k])
    ensures ParseWords(words) == Some(prog)
  {
    if |words| > 0 {
      ParseWordsAll(words[1..], prog[1..]);
      assert prog == [prog[0]] + prog[1..];
    }
  }

  /** One VM instance, updated in place by `Step`. */
  class IntcodeVM {
    var pc: nat
    var mem: seq<int>
    var inputQueue: seq<int>

    function State(): Machine
      reads this
    {
      Machine(pc, mem, inputQueue)
    }

    /** `IntcodeVM::with_mem`: a copy of the program, `pc` 0, no pending input. */
    constructor WithMem(prog: seq<int>)
      ensures State() == Machine(0, prog, [])
    {
      pc := 0;
      mem := prog;
      inputQueue := [];
    }

    method DoJump(addr: int) returns (r: StepResult)
      modifies this
      ensures JumpTo(old(State()), Io([], 0, []), addr) == Stepped(r, State(), Io([], 0, []))
    {
      if !(0 <= addr < |mem|) {
        return InvalidInstr(JumpOutOfRange(addr));
      }
      pc := addr;
      r := Ok;
    }

    /** The parameter loop of `step`: resolves each parameter by its mode, or reports the first fault. */
    method ResolveArgs(instr: int, op: Opcode) returns (r: Result<seq<int>>)
      requires pc + Size(op) <= |mem|
      ensures r == Resolve(mem, pc, instr, op, mem[pc + 1 .. pc + Size(op)], 0)
    {
      var args := mem[pc + 1 .. pc + Size(op)];
      ghost var raw := args;
      for idx := 0 to |args|
        invariant |args| == |raw|
        invariant Resolve(mem, pc, instr, op, args, idx) == Resolve(mem, pc, instr, op, raw, 0)
      {
        var mode := Mode(instr, idx);
        if mode == 0 {
          if !(0 <= args[idx] < |mem|) {
            return Failure(PositionOutOfRange(idx + pc + 1, args[idx]));
          }
          if !StoresTo(op, idx) {
            args := args[idx := mem[args[idx]]];
          }
        } else if mode == 1 {
          if StoresTo(op, idx) {
            return Failure(ImmediateDestination);
          }
        } else {
          return Failure(InvalidMode(mode));
        }
      }
      r := Success(args);
    }

    /** The effect half of `step`, once the parameters are resolved. */
    method Apply(io: Io, op: Opcode, args: seq<int>) returns (r: StepResult, io': Io)
      requires |args| == Size(op) - 1
      requires forall i :: 0 <= i < |args| && StoresTo(op, i) ==> 0 <= args[i] < |mem|
      modifies this
      ensures Execute(old(State()), io, op, args) == Stepped(r, State(), io')
    {
      assert op in {Add, Mul, Lt, Eq} ==> StoresTo(op, 2);
      assert op == Inp ==> StoresTo(op, 0);
      io' := io;
      match op {
        case Add => mem := mem[args[2] := args[0] + args[1]];
        case Mul => mem := mem[args[2] := args[0] * args[1]];
        case Inp =>
          if |inputQueue| > 0 {
            var val := inputQueue[0];
            inputQueue := inputQueue[1..];
            mem := mem[args[0] := val];
          } else if io.used < |io.inputs| {
            var val := io.inputs[io.used];
            io' := io.(used := io.used + 1);
            mem := mem[args[0] := val];
          } else {
            return InputNeeded, io;
          }
        case Out => io' := io.(output := io.output + [args[0]]);
        case Jnz =>
          if args[0] != 0 {
            r := DoJump(args[1]);
            return r, io;
          }
        case Jz =>
          if args[0] == 0 {
            r := DoJump(args[1]);
            return r, io;
          }
        case Lt => mem := mem[args[2] := if args[0] < args[1] then 1 else 0];
        case Eq => mem := mem[args[2] := if args[0] == args[1] then 1 else 0];
        case Hlt => return Halt, io;
      }
      pc := pc + Size(op);
      r := Ok;
    }

    /** `IntcodeVM::step`: every check precedes every write. */
    method Step(io: Io) returns (r: StepResult, io': Io)
      modifies this
      ensures Exec(old(State()), io) == Stepped(r, State(), io')
    {
      if pc >= |mem| {
        return InvalidInstr(PcOutOfRange(pc, |mem|)), io;
      }
      var instr := mem[pc];
      var decoded := OpcodeFrom(instr);
      if decoded.Failure? {
        return InvalidInstr(decoded.fault), io;
      }
      var op := decoded.value;
      if pc + Size(op) > |mem| {
        return InvalidInstr(NotEnoughArguments), io;
      }
      var args := ResolveArgs(instr, op);
      if args.Failure? {
        return InvalidInstr(args.fault), io;
      }
      r, io' := Apply(io, op, args.value);
    }

    /** `run_with_cb`, bounded by `fuel` steps. */
    method RunWithCb(io: Io, fuel: nat) returns (r: RunResult, io': Io)
      modifies this
      ensures RunSpec(old(State()), io, fuel) == Ran(r, State(), io')
    {
      io' := io;
      var remaining := fuel;
      while remaining > 0
        invariant RunSpec(State(), io', remaining) == RunSpec(old(State()), io, fuel)
        decreases remaining
      {
        var s;
        s, io' := Step(io');
        match s {
          case Ok => remaining := remaining - 1;
          case Halt => return Finished, io';
          case InputNeeded => return Stopped(NeedsInput), io';
          case InvalidInstr(f) => return Stopped(Invalid(f)), io';
        }
      }
      r := OutOfFuel;
    }

    /** `run`: no input callback, and the printed values collected in order. */
    method Run(fuel: nat) returns (r: RunResult, printed: seq<int>)
      modifies this
      ensures RunSpec(old(State()), Io([], 0, []), fuel) == Ran(r, State(), Io([], 0, printed))
    {
      var io;
      r, io := RunWithCb(Io([], 0, []), fuel);
      printed := io.output;
      RunIoOrder(old(State()), Io([], 0, []), fuel);
    }
  }
}
