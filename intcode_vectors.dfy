/**
 * Example programs from the puzzle statements, run through the model of the
 * Intcode machine.  Each `...At` lemma pins down one instruction from the
 * memory cells it reads; the program lemmas chain them through `RunSpec`.
 * The input callback of the puzzle tests always returns the same value; the
 * programs below read once, so one value in `inputs` stands for it.
 */
module IntcodeVectors {
  import opened Text
  import opened Intcode

  /** `1,9,10,3,2,3,11,0,99,30,40,50` adds, multiplies and halts with 3500 in cell 0. */
  lemma SampleAddMul(m: Machine, io: Io)
    requires m == Machine(0, [1, 9, 10, 3, 2, 3, 11, 0, 99, 30, 40, 50], [])
    ensures RunSpec(m, io, 3) == Ran(Finished, Machine(8, [3500, 9, 10, 70, 2, 3, 11, 0, 99, 30, 40, 50], []), io)
  {
    AddMulAt0(m, io);
    var m1 := m.(pc := 4, mem := m.mem[3 := 70]);
    AddMulAt4(m1, io);
    var m2 := m1.(pc := 8, mem := m1.mem[0 := 3500]);
    HaltAt(m2, io);
    assert m2.mem == [3500, 9, 10, 70, 2, 3, 11, 0, 99, 30, 40, 50];
  }

  lemma AddMulAt0(m: Machine, io: Io)
    requires m.pc == 0 && |m.mem| == 12
    requires m.mem[0] == 1 && m.mem[1] == 9 && m.mem[2] == 10 && m.mem[3] == 3 && m.mem[9] == 30 && m.mem[10] == 40
    ensures Exec(m, io) == Stepped(Ok, m.(pc := 4, mem := m.mem[3 := 70]), io)
  {
    AddMulArgs0(m);
    ExecDecoded(m, io);
  }

  lemma AddMulArgs0(m: Machine)
    requires m.pc == 0 && |m.mem| == 12
    requires m.mem[0] == 1 && m.mem[1] == 9 && m.mem[2] == 10 && m.mem[3] == 3 && m.mem[9] == 30 && m.mem[10] == 40
    ensures OpAt(m) == Some(Add) && ParamsLegal(m) && ArgsOf(m) == [30, 40, 3]
  {
    assert OpAt(m) == Some(Add);
    PositionArgs3(m, Add);
  }

  lemma AddMulAt4(m: Machine, io: Io)
    requires m.pc == 4 && |m.mem| == 12
    requires m.mem[3] == 70 && m.mem[4] == 2 && m.mem[5] == 3 && m.mem[6] == 11 && m.mem[7] == 0 && m.mem[11] == 50
    ensures Exec(m, io) == Stepped(Ok, m.(pc := 8, mem := m.mem[0 := 3500]), io)
  {
    AddMulArgs4(m);
    ExecDecoded(m, io);
  }

  lemma AddMulArgs4(m: Machine)
    requires m.pc == 4 && |m.mem| == 12
    requires m.mem[3] == 70 && m.mem[4] == 2 && m.mem[5] == 3 && m.mem[6] == 11 && m.mem[7] == 0 && m.mem[11] == 50
    ensures OpAt(m) == Some(Mul) && ParamsLegal(m) && ArgsOf(m) == [70, 50, 0]
  {
    assert OpAt(m) == Some(Mul);
    PositionArgs3(m, Mul);
  }

  /** A word below 100 takes all its parameters by position. */
  lemma PositionModes(instr: int)
    requires 0 <= instr < 100
    ensures Mode(instr, 0) == 0 && Mode(instr, 1) == 0 && Mode(instr, 2) == 0
  {
    ModeDigits(instr);
  }

  /** Three parameters, all by position and all addressing memory: the last is the destination, the others are read. */
  lemma PositionArgs3(m: Machine, op: Opcode)
    requires OpAt(m) == Some(op) && Size(op) == 4 && 0 <= m.mem[m.pc] < 100
    requires 0 <= m.mem[m.pc + 1] < |m.mem| && 0 <= m.mem[m.pc + 2] < |m.mem| && 0 <= m.mem[m.pc + 3] < |m.mem|
    ensures ParamsLegal(m) && ArgsOf(m) == [m.mem[m.mem[m.pc + 1]], m.mem[m.mem[m.pc + 2]], m.mem[m.pc + 3]]
  {
    PositionLegal3(m, op);
    PositionValues3(m, op);
  }

  lemma PositionLegal3(m: Machine, op: Opcode)
    requires OpAt(m) == Some(op) && Size(op) == 4 && 0 <= m.mem[m.pc] < 100
    requires 0 <= m.mem[m.pc + 1] < |m.mem| && 0 <= m.mem[m.pc + 2] < |m.mem| && 0 <= m.mem[m.pc + 3] < |m.mem|
    ensures ParamsLegal(m)
  {
    forall i | 0 <= i < |RawArgs(m)|
      ensures LegalParam(m.mem, m.mem[m.pc], op, RawArgs(m)[i], i)
    {
      assert i == 0 || i == 1 || i == 2;
      PositionArgAt(m, op, i);
    }
  }

  /** An instruction of four words writes through its last parameter only. */
  lemma StoresLast(op: Opcode)
    requires Size(op) == 4
    ensures StoresTo(op, 2) && !StoresTo(op, 0) && !StoresTo(op, 1)
  {
  }

  lemma PositionValues3(m: Machine, op: Opcode)
    requires OpAt(m) == Some(op) && Size(op) == 4 && 0 <= m.mem[m.pc] < 100
    requires 0 <= m.mem[m.pc + 1] < |m.mem| && 0 <= m.mem[m.pc + 2] < |m.mem| && 0 <= m.mem[m.pc + 3] < |m.mem|
    ensures ArgsOf(m) == [m.mem[m.mem[m.pc + 1]], m.mem[m.mem[m.pc + 2]], m.mem[m.pc + 3]]
  {
    StoresLast(op);
    var a := ArgsOf(m);
    PositionArgAt(m, op, 0);
    assert a[0] == m.mem[m.mem[m.pc + 1]];
    PositionArgAt(m, op, 1);
    assert a[1] == m.mem[m.mem[m.pc + 2]];
    PositionArgAt(m, op, 2);
    assert a[2] == m.mem[m.pc + 3];
    ThreeElements(a, m.mem[m.mem[m.pc + 1]], m.mem[m.mem[m.pc + 2]], m.mem[m.pc + 3]);
  }

  /** A sequence of three elements is the display of them. */
  lemma ThreeElements(a: seq<int>, x: int, y: int, z: int)
    requires |a| == 3 && a[0] == x && a[1] == y && a[2] == z
    ensures a == [x, y, z]
  {
  }

  /** Parameter `i < 3` of a word below `100` is by position. */
  lemma PositionArgAt(m: Machine, op: Opcode, i: nat)
    requires OpAt(m) == Some(op) && i < Size(op) - 1 && i < 3 && 0 <= m.mem[m.pc] < 100
    requires 0 <= m.mem[m.pc + 1 + i] < |m.mem|
    ensures RawArgs(m)[i] == m.mem[m.pc + 1 + i]
    ensures LegalParam(m.mem, m.mem[m.pc], op, RawArgs(m)[i], i)
    ensures ArgsOf(m)[i] == if StoresTo(op, i) then m.mem[m.pc + 1 + i] else m.mem[m.mem[m.pc + 1 + i]]
  {
    PositionModes(m.mem[m.pc]);
    assert Mode(m.mem[m.pc], i) == 0 by {
      if i == 0 {
      } else if i == 1 {
      } else {
        assert i == 2;
      }
    }
    PositionArg(m, i);
  }

  /** A parameter by position that addresses memory is legal, and is read unless it is the destination. */
  lemma PositionArg(m: Machine, i: nat)
    requires OpAt(m).Some? && i < Size(OpAt(m).value) - 1
    requires Mode(m.mem[m.pc], i) == 0 && 0 <= m.mem[m.pc + 1 + i] < |m.mem|
    ensures RawArgs(m)[i] == m.mem[m.pc + 1 + i]
    ensures LegalParam(m.mem, m.mem[m.pc], OpAt(m).value, RawArgs(m)[i], i)
    ensures ArgsOf(m)[i] == if StoresTo(OpAt(m).value, i) then m.mem[m.pc + 1 + i] else m.mem[m.mem[m.pc + 1 + i]]
  {
  }

  /** A `99` at `pc` halts. */
  lemma HaltAt(m: Machine, io: Io)
    requires m.pc < |m.mem| && m.mem[m.pc] == 99
    ensures Exec(m, io) == Stepped(Halt, m, io)
  {
    assert OpAt(m) == Some(Hlt);
    assert RawArgs(m) == [];
    ExecDecoded(m, io);
  }

  /** `1,1,1,4,99,5,6,0,99`: the first instruction turns the halt at cell 4 into a multiplication. */
  lemma SelfModifying(m: Machine, io: Io)
    requires m == Machine(0, [1, 1, 1, 4, 99, 5, 6, 0, 99], [])
    ensures RunSpec(m, io, 3) == Ran(Finished, Machine(8, [30, 1, 1, 4, 2, 5, 6, 0, 99], []), io)
  {
    SelfModifyingAt0(m, io);
    var m1 := m.(pc := 4, mem := m.mem[4 := 2]);
    SelfModifyingAt4(m1, io);
    var m2 := m1.(pc := 8, mem := m1.mem[0 := 30]);
    HaltAt(m2, io);
    assert m2.mem == [30, 1, 1, 4, 2, 5, 6, 0, 99];
  }

  lemma SelfModifyingAt0(m: Machine, io: Io)
    requires m.pc == 0 && |m.mem| == 9
    requires m.mem[0] == 1 && m.mem[1] == 1 && m.mem[2] == 1 && m.mem[3] == 4
    ensures Exec(m, io) == Stepped(Ok, m.(pc := 4, mem := m.mem[4 := 2]), io)
  {
    assert OpAt(m) == Some(Add);
    PositionArgs3(m, Add);
    ExecDecoded(m, io);
  }

  lemma SelfModifyingAt4(m: Machine, io: Io)
    requires m.pc == 4 && |m.mem| == 9
    requires m.mem[4] == 2 && m.mem[5] == 5 && m.mem[6] == 6 && m.mem[7] == 0
    ensures Exec(m, io) == Stepped(Ok, m.(pc := 8, mem := m.mem[0 := 30]), io)
  {
    assert OpAt(m) == Some(Mul);
    PositionArgs3(m, Mul);
    ExecDecoded(m, io);
  }

  /** `1002,4,3,4,33`: an immediate factor; the program rewrites its last word into a halt. */
  lemma ImmediateMul(m: Machine, io: Io)
    requires m == Machine(0, [1002, 4, 3, 4, 33], [])
    ensures RunSpec(m, io, 2) == Ran(Finished, Machine(4, [1002, 4, 3, 4, 99], []), io)
  {
    ImmediateMulAt0(m, io);
    var m1 := m.(pc := 4, mem := m.mem[4 := 99]);
    HaltAt(m1, io);
    assert m1.mem == [1002, 4, 3, 4, 99];
  }

  lemma ImmediateMulAt0(m: Machine, io: Io)
    requires m.pc == 0 && |m.mem| == 5
    requires m.mem[0] == 1002 && m.mem[1] == 4 && m.mem[2] == 3 && m.mem[3] == 4 && m.mem[4] == 33
    ensures Exec(m, io) == Stepped(Ok, m.(pc := 4, mem := m.mem[4 := 99]), io)
  {
    ImmediateMulArgs0(m);
    ExecDecoded(m, io);
  }

  lemma ImmediateMulArgs0(m: Machine)
    requires m.pc == 0 && |m.mem| == 5
    requires m.mem[0] == 1002 && m.mem[1] == 4 && m.mem[2] == 3 && m.mem[3] == 4 && m.mem[4] == 33
    ensures OpAt(m) == Some(Mul) && ParamsLegal(m) && ArgsOf(m) == [33, 3, 4]
  {
    var r := RawArgs(m);
    assert r[0] == 4 && r[1] == 3 && r[2] == 4;
    ModeDigits(1002);
    var a := ArgsOf(m);
    assert a[0] == 33 && a[1] == 3 && a[2] == 4;
  }

  /** `1102,34915192,34915192,7,4,7,99,0` outputs the 16-digit product. */
  lemma LargeProduct(m: Machine, io: Io)
    requires m == Machine(0, [1102, 34915192, 34915192, 7, 4, 7, 99, 0], [])
    ensures RunSpec(m, io, 3).result == Finished
    ensures RunSpec(m, io, 3).io.output == io.output + [1219070632396864]
  {
    LargeProductAt0(m, io);
    var m1 := m.(pc := 4, mem := m.mem[7 := 1219070632396864]);
    OutAt(m1, io);
    var m2 := m1.(pc := 6);
    var io2 := io.(output := io.output + [1219070632396864]);
    HaltAt(m2, io2);
  }

  lemma LargeProductAt0(m: Machine, io: Io)
    requires m.pc == 0 && |m.mem| == 8
    requires m.mem[0] == 1102 && m.mem[1] == 34915192 && m.mem[2] == 34915192 && m.mem[3] == 7
    ensures Exec(m, io) == Stepped(Ok, m.(pc := 4, mem := m.mem[7 := 1219070632396864]), io)
  {
    LargeProductArgs0(m);
    ExecDecoded(m, io);
  }

  lemma LargeProductArgs0(m: Machine)
    requires m.pc == 0 && |m.mem| == 8
    requires m.mem[0] == 1102 && m.mem[1] == 34915192 && m.mem[2] == 34915192 && m.mem[3] == 7
    ensures OpAt(m) == Some(Mul) && ParamsLegal(m) && ArgsOf(m) == [34915192, 34915192, 7]
  {
    var r := RawArgs(m);
    assert r[0] == 34915192 && r[1] == 34915192 && r[2] == 7;
    ModeDigits(1102);
    var a := ArgsOf(m);
    assert a[0] == 34915192 && a[1] == 34915192 && a[2] == 7;
  }

  /** `104,1125899906842624,99` outputs its immediate operand, a word beyond 32 bits. */
  lemma LargeImmediate(m: Machine, io: Io)
    requires m == Machine(0, [104, 1125899906842624, 99], [])
    ensures RunSpec(m, io, 2).result == Finished
    ensures RunSpec(m, io, 2).io.output == io.output + [1125899906842624]
  {
    LargeImmediateAt0(m, io);
    HaltAt(m.(pc := 2), io.(output := io.output + [1125899906842624]));
  }

  lemma LargeImmediateAt0(m: Machine, io: Io)
    requires m.pc == 0 && |m.mem| == 3
    requires m.mem[0] == 104 && m.mem[1] == 1125899906842624
    ensures Exec(m, io) == Stepped(Ok, m.(pc := 2), io.(output := io.output + [1125899906842624]))
  {
    assert OpAt(m) == Some(Out);
    var r := RawArgs(m);
    assert r[0] == 1125899906842624;
    ModeDigits(104);
    var a := ArgsOf(m);
    assert a[0] == 1125899906842624;
    ExecDecoded(m, io);
  }

  /** `4,a` prints the word at `a`. */
  lemma OutAt(m: Machine, io: Io)
    requires m.pc + 2 <= |m.mem| && m.mem[m.pc] == 4 && 0 <= m.mem[m.pc + 1] < |m.mem|
    ensures Exec(m, io) == Stepped(Ok, m.(pc := m.pc + 2), io.(output := io.output + [m.mem[m.mem[m.pc + 1]]]))
  {
    assert OpAt(m) == Some(Out);
    var r := RawArgs(m);
    assert r[0] == m.mem[m.pc + 1];
    ModeDigits(4);
    ExecDecoded(m, io);
  }

  /** `3,a` with nothing queued stores the callback's next value at `a`. */
  lemma InpAt(m: Machine, io: Io)
    requires m.pc + 2 <= |m.mem| && m.mem[m.pc] == 3 && 0 <= m.mem[m.pc + 1] < |m.mem|
    requires |m.queue| == 0 && io.used < |io.inputs|
    ensures Exec(m, io) == Stepped(Ok, m.(pc := m.pc + 2, mem := m.mem[m.mem[m.pc + 1] := io.inputs[io.used]]), io.(used := io.used + 1))
  {
    assert OpAt(m) == Some(Inp);
    var r := RawArgs(m);
    assert r[0] == m.mem[m.pc + 1];
    ModeDigits(3);
    ExecDecoded(m, io);
  }

  /** `3,9,8,9,10,9,4,9,99,-1,8` prints 1 when its input equals 8 and 0 otherwise. */
  lemma EqualsEight(m: Machine, v: int)
    requires m == Machine(0, [3, 9, 8, 9, 10, 9, 4, 9, 99, -1, 8], [])
    ensures RunSpec(m, Io([v], 0, []), 4).result == Finished
    ensures RunSpec(m, Io([v], 0, []), 4).io.output == [if v == 8 then 1 else 0]
  {
    var io := Io([v], 0, []);
    InpAt(m, io);
    var m1 := m.(pc := 2, mem := m.mem[9 := v]);
    var io1 := io.(used := 1);
    EqualsEightAt2(m1, io1);
    var m2 := m1.(pc := 6, mem := m1.mem[9 := if v == 8 then 1 else 0]);
    OutAt(m2, io1);
    var io2 := io1.(output := [if v == 8 then 1 else 0]);
    HaltAt(m2.(pc := 8), io2);
  }

  lemma EqualsEightAt2(m: Machine, io: Io)
    requires m.pc == 2 && |m.mem| == 11
    requires m.mem[2] == 8 && m.mem[3] == 9 && m.mem[4] == 10 && m.mem[5] == 9 && m.mem[10] == 8
    ensures Exec(m, io) == Stepped(Ok, m.(pc := 6, mem := m.mem[9 := if m.mem[9] == 8 then 1 else 0]), io)
  {
    EqualsEightArgs2(m);
    ExecDecoded(m, io);
  }

  lemma EqualsEightArgs2(m: Machine)
    requires m.pc == 2 && |m.mem| == 11
    requires m.mem[2] == 8 && m.mem[3] == 9 && m.mem[4] == 10 && m.mem[5] == 9 && m.mem[10] == 8
    ensures OpAt(m) == Some(Eq) && ParamsLegal(m) && ArgsOf(m) == [m.mem[9], 8, 9]
  {
    assert OpAt(m) == Some(Eq);
    PositionArgs3(m, Eq);
  }

  /** `3,3,1107,-1,8,3,4,3,99` prints 1 when its input is below 8 and 0 otherwise. */
  lemma LessThanEight(m: Machine, v: int)
    requires m == Machine(0, [3, 3, 1107, -1, 8, 3, 4, 3, 99], [])
    ensures RunSpec(m, Io([v], 0, []), 4).result == Finished
    ensures RunSpec(m, Io([v], 0, []), 4).io.output == [if v < 8 then 1 else 0]
  {
    var io := Io([v], 0, []);
    InpAt(m, io);
    var m1 := m.(pc := 2, mem := m.mem[3 := v]);
    var io1 := io.(used := 1);
    LessThanEightAt2(m1, io1);
    var m2 := m1.(pc := 6, mem := m1.mem[3 := if v < 8 then 1 else 0]);
    OutAt(m2, io1);
    var io2 := io1.(output := [if v < 8 then 1 else 0]);
    HaltAt(m2.(pc := 8), io2);
  }

  lemma LessThanEightAt2(m: Machine, io: Io)
    requires m.pc == 2 && |m.mem| == 9
    requires m.mem[2] == 1107 && m.mem[4] == 8 && m.mem[5] == 3
    ensures Exec(m, io) == Stepped(Ok, m.(pc := 6, mem := m.mem[3 := if m.mem[3] < 8 then 1 else 0]), io)
  {
    LessThanEightArgs2(m);
    ExecDecoded(m, io);
  }

  lemma LessThanEightArgs2(m: Machine)
    requires m.pc == 2 && |m.mem| == 9
    requires m.mem[2] == 1107 && m.mem[4] == 8 && m.mem[5] == 3
    ensures OpAt(m) == Some(Lt) && ParamsLegal(m) && ArgsOf(m) == [m.mem[3], 8, 3]
  {
    var r := RawArgs(m);
    assert r[0] == m.mem[3] && r[1] == 8 && r[2] == 3;
    ModeDigits(1107);
    var a := ArgsOf(m);
    assert a[0] == m.mem[3] && a[1] == 8 && a[2] == 3;
  }

  /** `3,12,6,12,15,1,13,14,13,4,13,99,-1,0,1,9` prints 0 for input 0 and 1 otherwise, by a jump. */
  lemma JumpIfZero(m: Machine, v: int)
    requires m == Machine(0, [3, 12, 6, 12, 15, 1, 13, 14, 13, 4, 13, 99, -1, 0, 1, 9], [])
    ensures RunSpec(m, Io([v], 0, []), 5).result == Finished
    ensures RunSpec(m, Io([v], 0, []), 5).io.output == [if v == 0 then 0 else 1]
  {
    var io := Io([v], 0, []);
    InpAt(m, io);
    var m1 := m.(pc := 2, mem := m.mem[12 := v]);
    JumpIfZeroFrom2(m1, io.(used := 1), v);
  }

  lemma JumpIfZeroFrom2(m: Machine, io: Io, v: int)
    requires m.pc == 2 && |m.mem| == 16 && m.mem[12] == v
    requires m.mem[2] == 6 && m.mem[3] == 12 && m.mem[4] == 15 && m.mem[15] == 9
    requires m.mem[5] == 1 && m.mem[6] == 13 && m.mem[7] == 14 && m.mem[8] == 13 && m.mem[13] == 0 && m.mem[14] == 1
    requires m.mem[9] == 4 && m.mem[10] == 13 && m.mem[11] == 99
    requires io.output == []
    ensures RunSpec(m, io, 4).result == Finished
    ensures RunSpec(m, io, 4).io.output == [if v == 0 then 0 else 1]
  {
    JumpIfZeroAt2(m, io);
    if v == 0 {
      var m2 := m.(pc := 9);
      OutAt(m2, io);
      HaltAt(m2.(pc := 11), io.(output := [0]));
      RunFuelMonotone(m, io, 3, 4);
    } else {
      var m2 := m.(pc := 5);
      JumpIfZeroAt5(m2, io);
      var m3 := m2.(pc := 9, mem := m2.mem[13 := 1]);
      OutAt(m3, io);
      HaltAt(m3.(pc := 11), io.(output := [1]));
    }
  }

  lemma JumpIfZeroAt2(m: Machine, io: Io)
    requires m.pc == 2 && |m.mem| == 16
    requires m.mem[2] == 6 && m.mem[3] == 12 && m.mem[4] == 15 && m.mem[15] == 9
    ensures Exec(m, io) == Stepped(Ok, m.(pc := if m.mem[12] == 0 then 9 else 5), io)
  {
    JumpIfZeroArgs2(m);
    ExecDecoded(m, io);
  }

  lemma JumpIfZeroArgs2(m: Machine)
    requires m.pc == 2 && |m.mem| == 16
    requires m.mem[2] == 6 && m.mem[3] == 12 && m.mem[4] == 15 && m.mem[15] == 9
    ensures OpAt(m) == Some(Jz) && ParamsLegal(m) && ArgsOf(m) == [m.mem[12], 9]
  {
    var r := RawArgs(m);
    assert r[0] == 12 && r[1] == 15;
    ModeDigits(6);
    var a := ArgsOf(m);
    assert a[0] == m.mem[12] && a[1] == 9;
  }

  lemma JumpIfZeroAt5(m: Machine, io: Io)
    requires m.pc == 5 && |m.mem| == 16
    requires m.mem[5] == 1 && m.mem[6] == 13 && m.mem[7] == 14 && m.mem[8] == 13 && m.mem[13] == 0 && m.mem[14] == 1
    ensures Exec(m, io) == Stepped(Ok, m.(pc := 9, mem := m.mem[13 := 1]), io)
  {
    JumpIfZeroArgs5(m);
    ExecDecoded(m, io);
  }

  lemma JumpIfZeroArgs5(m: Machine)
    requires m.pc == 5 && |m.mem| == 16
    requires m.mem[5] == 1 && m.mem[6] == 13 && m.mem[7] == 14 && m.mem[8] == 13 && m.mem[13] == 0 && m.mem[14] == 1
    ensures OpAt(m) == Some(Add) && ParamsLegal(m) && ArgsOf(m) == [0, 1, 13]
  {
    assert OpAt(m) == Some(Add);
    PositionArgs3(m, Add);
  }
}
