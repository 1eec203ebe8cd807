// The instructions' self-tests, discharged for every state: whenever the
// opcode at PC is that of an instruction, one step from the state passes
// the instruction's `test(pre, post)`.
module SelfChecks {
  import opened Bytes
  import opened Outcomes
  import opened Machine
  import opened OpBase
  import opened Opcodes
  import opened Engine
  import U8
  import MachineOps
  import DataTransfer
  import Arithmetic
  import Logical
  import Branch

  /** The instruction at PC is `i`. */
  predicate At(s: Snapshot, i: Instr)
  {
    Encodable(i) && s.mem[PC(s)] == Encode(i)
  }

  /** With `i` at PC, the step runs `i`'s body after PC + 1. */
  lemma StepRuns(s: Snapshot, i: Instr)
    requires At(s, i) && Execute(i, AdvancePC(s, 1)).Some?
    ensures StepSpec(s) == Outcome(Execute(i, AdvancePC(s, 1)).value, None)
  {
    DecodeEncode(i);
    assert DecodeOp(s) == Some(i);
    StepExecutes(s, i);
  }

  lemma NopPasses(s: Snapshot)
    requires s.mem[PC(s)] == 0x00
    ensures StepSpec(s).fault.None? && MachineOps.NopTest(s, StepSpec(s).state)
  {
    NopStepAdvances(s);
    NopTestOfAdvance(s);
  }

  lemma NopStepAdvances(s: Snapshot)
    requires s.mem[PC(s)] == 0x00
    ensures StepSpec(s) == Outcome(AdvancePC(s, 1), None)
  {
    assert DecodeOp(s) == Some(Nop) by {
      DecodeOpcode(0, 0, 0);
    }
    StepExecutes(s, Nop);
  }

  lemma NopTestOfAdvance(s: Snapshot)
    ensures MachineOps.NopTest(s, AdvancePC(s, 1))
  {
  }

  lemma MovRegRegPasses(s: Snapshot, r1: U8.Reg, r2: U8.Reg)
    requires At(s, Mov(Reg(r1), Reg(r2)))
    ensures StepSpec(s).fault.None? && DataTransfer.MovRegRegTest(r1, r2, s, StepSpec(s).state)
  {
    var t := AdvancePC(s, 1);
    assert Execute(Mov(Reg(r1), Reg(r2)), t) == Some(DataTransfer.MovSpec(t, r1, Reg(r2)));
    StepRuns(s, Mov(Reg(r1), Reg(r2)));
    MovRegRegOfAdvance(s, r1, r2);
  }

  lemma MovRegRegOfAdvance(s: Snapshot, r1: U8.Reg, r2: U8.Reg)
    ensures DataTransfer.MovRegRegTest(r1, r2, s, DataTransfer.MovSpec(AdvancePC(s, 1), r1, Reg(r2)))
  {
  }

  lemma MovRegMemPasses(s: Snapshot, r1: U8.Reg)
    requires At(s, Mov(Reg(r1), M))
    ensures StepSpec(s).fault.None? && DataTransfer.MovRegMemTest(r1, s, StepSpec(s).state)
  {
    var t := AdvancePC(s, 1);
    assert Execute(Mov(Reg(r1), M), t) == Some(DataTransfer.MovSpec(t, r1, M));
    StepRuns(s, Mov(Reg(r1), M));
    MovRegMemOfAdvance(s, r1);
  }

  lemma MovRegMemOfAdvance(s: Snapshot, r1: U8.Reg)
    ensures DataTransfer.MovRegMemTest(r1, s, DataTransfer.MovSpec(AdvancePC(s, 1), r1, M))
  {
  }

  lemma AddRegPasses(s: Snapshot, r: U8.Reg)
    requires At(s, Alu(Add, Reg(r)))
    ensures StepSpec(s).fault.None? && Arithmetic.AddRegTest(r, s, StepSpec(s).state)
  {
    var t := AdvancePC(s, 1);
    assert Execute(Alu(Add, Reg(r)), t) == Some(Arithmetic.AddOp(t, Reg(r), false));
    StepRuns(s, Alu(Add, Reg(r)));
    AddRegOfAdvance(s, r);
  }

  lemma AddRegOfAdvance(s: Snapshot, r: U8.Reg)
    ensures Arithmetic.AddRegTest(r, s, Arithmetic.AddOp(AdvancePC(s, 1), Reg(r), false))
  {
  }

  lemma AddMemPasses(s: Snapshot)
    requires At(s, Alu(Add, M))
    ensures StepSpec(s).fault.None? && Arithmetic.AddMemTest(s, StepSpec(s).state)
  {
    var t := AdvancePC(s, 1);
    assert Execute(Alu(Add, M), t) == Some(Arithmetic.AddOp(t, M, false));
    StepRuns(s, Alu(Add, M));
    AddMemOfAdvance(s);
  }

  lemma AddMemOfAdvance(s: Snapshot)
    ensures Arithmetic.AddMemTest(s, Arithmetic.AddOp(AdvancePC(s, 1), M, false))
  {
  }

  lemma AdcPasses(s: Snapshot, src: Operand)
    requires At(s, Alu(Adc, src))
    ensures StepSpec(s).fault.None? && Arithmetic.AdcTest(src, s, StepSpec(s).state)
  {
    var t := AdvancePC(s, 1);
    assert Execute(Alu(Adc, src), t) == Some(Arithmetic.AddOp(t, src, true));
    StepRuns(s, Alu(Adc, src));
    AdcOfAdvance(s, src);
  }

  lemma AdcOfAdvance(s: Snapshot, src: Operand)
    ensures Arithmetic.AdcTest(src, s, Arithmetic.AddOp(AdvancePC(s, 1), src, true))
  {
  }

  /** The accumulator instruction behind a bitwise operation. */
  function LogicAluOp(op: BitOp): (a: AluOp)
    ensures (a == Ana || a == Xra || a == Ora) && BitOpOf(a) == op
  {
    match op
    case And => Ana
    case Xor => Xra
    case Or => Ora
  }

  lemma LogicRegPasses(s: Snapshot, op: BitOp, r: U8.Reg)
    requires At(s, Alu(LogicAluOp(op), Reg(r)))
    ensures StepSpec(s).fault.None? && Logical.LogicRegTest(op, r, s, StepSpec(s).state)
  {
    var t := AdvancePC(s, 1);
    assert Execute(Alu(LogicAluOp(op), Reg(r)), t) == Some(Logical.LogicOp(t, op, Reg(r)));
    StepRuns(s, Alu(LogicAluOp(op), Reg(r)));
    LogicRegOfAdvance(s, op, r);
  }

  lemma LogicRegOfAdvance(s: Snapshot, op: BitOp, r: U8.Reg)
    ensures Logical.LogicRegTest(op, r, s, Logical.LogicOp(AdvancePC(s, 1), op, Reg(r)))
  {
    if op == And && r == U8.A {
      Logical.AndOrSelfKeepA(AdvancePC(s, 1));
    }
  }

  lemma LogicMemPasses(s: Snapshot, op: BitOp)
    requires At(s, Alu(LogicAluOp(op), M))
    ensures StepSpec(s).fault.None? && Logical.LogicMemTest(op, s, StepSpec(s).state)
  {
    var t := AdvancePC(s, 1);
    assert Execute(Alu(LogicAluOp(op), M), t) == Some(Logical.LogicOp(t, op, M));
    StepRuns(s, Alu(LogicAluOp(op), M));
    LogicMemOfAdvance(s, op);
  }

  lemma LogicMemOfAdvance(s: Snapshot, op: BitOp)
    ensures Logical.LogicMemTest(op, s, Logical.LogicOp(AdvancePC(s, 1), op, M))
  {
  }

  lemma LogicImmPasses(s: Snapshot, op: BitOp)
    requires At(s, AluImm(LogicAluOp(op)))
    ensures StepSpec(s).fault.None? && Logical.LogicImmTest(op, s, StepSpec(s).state)
  {
    var t := AdvancePC(s, 1);
    assert Execute(AluImm(LogicAluOp(op)), t) == Some(Logical.LogicImm(t, op));
    StepRuns(s, AluImm(LogicAluOp(op)));
    LogicImmOfAdvance(s, op);
  }

  lemma LogicImmOfAdvance(s: Snapshot, op: BitOp)
    ensures Logical.LogicImmTest(op, s, Logical.LogicImm(AdvancePC(s, 1), op))
  {
    Wrap16Shift(PC(s) as int + 1, 1);
  }

  lemma CmpRegPasses(s: Snapshot, r: U8.Reg)
    requires At(s, Alu(Cmp, Reg(r)))
    ensures StepSpec(s).fault.None? && Logical.CmpRegTest(r, s, StepSpec(s).state)
  {
    var t := AdvancePC(s, 1);
    assert Execute(Alu(Cmp, Reg(r)), t) == Some(Logical.CmpOp(t, Reg(r)));
    StepRuns(s, Alu(Cmp, Reg(r)));
    CmpRegOfAdvance(s, r);
  }

  lemma CmpRegOfAdvance(s: Snapshot, r: U8.Reg)
    ensures Logical.CmpRegTest(r, s, Logical.CmpOp(AdvancePC(s, 1), Reg(r)))
  {
  }

  lemma CmpMemPasses(s: Snapshot)
    requires At(s, Alu(Cmp, M))
    ensures StepSpec(s).fault.None? && Logical.CmpMemTest(s, StepSpec(s).state)
  {
    var t := AdvancePC(s, 1);
    assert Execute(Alu(Cmp, M), t) == Some(Logical.CmpOp(t, M));
    StepRuns(s, Alu(Cmp, M));
    CmpMemOfAdvance(s);
  }

  lemma CmpMemOfAdvance(s: Snapshot)
    ensures Logical.CmpMemTest(s, Logical.CmpOp(AdvancePC(s, 1), M))
  {
  }

  lemma CpiPasses(s: Snapshot)
    requires At(s, AluImm(Cmp))
    ensures StepSpec(s).fault.None? && Logical.CpiTest(s, StepSpec(s).state)
  {
    var t := AdvancePC(s, 1);
    assert Execute(AluImm(Cmp), t) == Some(Logical.CpiSpec(t));
    StepRuns(s, AluImm(Cmp));
    CpiOfAdvance(s);
  }

  lemma CpiOfAdvance(s: Snapshot)
    ensures Logical.CpiTest(s, Logical.CpiSpec(AdvancePC(s, 1)))
  {
    Wrap16Shift(PC(s) as int + 1, 1);
  }

  lemma JcondPasses(s: Snapshot, c: Branch.Condition)
    requires At(s, Jump(c))
    ensures StepSpec(s).fault.None? && Branch.JcondTest(c, s, StepSpec(s).state)
  {
    var t := AdvancePC(s, 1);
    assert Execute(Jump(c), t) == Some(Branch.JumpSpec(t, c));
    StepRuns(s, Jump(c));
    JcondOfAdvance(s, c);
  }

  lemma JcondOfAdvance(s: Snapshot, c: Branch.Condition)
    ensures Branch.JcondTest(c, s, Branch.JumpSpec(AdvancePC(s, 1), c))
  {
    Wrap16Shift(PC(s) as int + 1, 2);
  }
}
