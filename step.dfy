// One machine step: fetch the opcode at PC, decode it, advance PC by one,
// run the instruction body; and the run of n steps from a start state.
module Engine {
  import opened Bytes
  import opened Outcomes
  import opened Machine
  import opened OpBase
  import opened Opcodes
  import U8
  import U16
  import F
  import OpsArithmetic
  import MachineOps
  import DataTransfer
  import Arithmetic
  import Logical
  import Branch

  /** Why a step did not complete. */
  datatype Fault =
    | DecodeError(opcode: byte)      // no instruction is listed for the opcode
    | Unimplemented(instr: Instr)    // the instruction is listed but has no body

  /** The state a step leaves behind, and its fault if it had one. */
  datatype Outcome = Outcome(state: Snapshot, fault: Option<Fault>)

  /** The opcode at PC, decoded. */
  function DecodeOp(s: Snapshot): Option<Instr>
  {
    Decode(s.mem[PC(s)])
  }

  /** A decoded instruction is the one whose opcode is at PC. */
  lemma DecodeOpEncodes(s: Snapshot)
    requires DecodeOp(s).Some?
    ensures Encodable(DecodeOp(s).value) && Encode(DecodeOp(s).value) == s.mem[PC(s)]
  {
    EncodeDecode(s.mem[PC(s)]);
  }

  /**
   * The body of a decoded instruction, run on the state whose PC already
   * points past the opcode; None for the instructions without one.
   */
  function Execute(i: Instr, t: Snapshot): Option<Snapshot>
  {
    match i
    case Nop => Some(t)
    case Mov(Reg(dst), src) => Some(DataTransfer.MovSpec(t, dst, src))
    case Alu(op, src) =>
      if op == Add || op == Adc then Some(Arithmetic.AddOp(t, src, op == Adc))
      else if op == Ana || op == Xra || op == Ora then Some(Logical.LogicOp(t, BitOpOf(op), src))
      else if op == Cmp then Some(Logical.CmpOp(t, src))
      else None
    case AluImm(op) =>
      if op == Ana || op == Xra || op == Ora then Some(Logical.LogicImm(t, BitOpOf(op)))
      else if op == Cmp then Some(Logical.CpiSpec(t))
      else None
    case Jump(c) => Some(Branch.JumpSpec(t, c))
    case _ => None
  }

  /**
   * The step as a function of the state: an undecodable opcode faults with
   * the state untouched; otherwise PC moves past the opcode before the body
   * runs, and a listed instruction without a body faults after that.
   */
  function StepSpec(s: Snapshot): (o: Outcome)
  {
    match DecodeOp(s)
    case None => Outcome(s, Some(DecodeError(s.mem[PC(s)])))
    case Some(i) =>
      var t := AdvancePC(s, 1);
      match Execute(i, t)
      case None => Outcome(t, Some(Unimplemented(i)))
      case Some(u) => Outcome(u, None)
  }

  /** The instruction body run on a state object. */
  method ExecuteOp(i: Instr, st: State) returns (ok: bool)
    requires st.Valid()
    modifies st.reg8, st.reg16, st.flags
    ensures ok <==> Execute(i, old(st.Value())).Some?
    ensures st.Value() == if ok then Execute(i, old(st.Value())).value else old(st.Value())
  {
    if i.Nop? {
      MachineOps.NopStep(st);
      ok := true;
    } else if i.Mov? && i.dst.Reg? {
      DataTransfer.MovStep(i.dst.r, i.src, st);
      ok := true;
    } else if i.Alu? {
      ok := ExecuteAlu(i.op, i.src, st);
    } else if i.AluImm? {
      ok := ExecuteAluImm(i.op, st);
    } else if i.Jump? {
      Branch.JcondStep(i.cond, st);
      ok := true;
    } else {
      ok := false;
    }
  }

  /** The register and memory forms of the ALU group that have a body. */
  method ExecuteAlu(op: AluOp, src: Operand, st: State) returns (ok: bool)
    requires st.Valid()
    modifies st.reg8, st.flags
    ensures ok <==> Execute(Alu(op, src), old(st.Value())).Some?
    ensures st.Value() == if ok then Execute(Alu(op, src), old(st.Value())).value else old(st.Value())
  {
    ok := true;
    if op == Add || op == Adc {
      Arithmetic.AddStep(src, op == Adc, st);
    } else if op == Ana || op == Xra || op == Ora {
      Logical.LogicStep(BitOpOf(op), src, st);
    } else if op == Cmp {
      Logical.CmpStep(src, st);
    } else {
      ok := false;
    }
  }

  /** The immediate forms of the ALU group that have a body. */
  method ExecuteAluImm(op: AluOp, st: State) returns (ok: bool)
    requires st.Valid()
    modifies st.reg8, st.reg16, st.flags
    ensures ok <==> Execute(AluImm(op), old(st.Value())).Some?
    ensures st.Value() == if ok then Execute(AluImm(op), old(st.Value())).value else old(st.Value())
  {
    ok := true;
    if op == Ana || op == Xra || op == Ora {
      Logical.LogicImmStep(BitOpOf(op), st);
    } else if op == Cmp {
      Logical.CpiStep(st);
    } else {
      ok := false;
    }
  }

  /** Fetch, decode, PC + 1, execute: the step on a state object. */
  method Step(st: State) returns (fault: Option<Fault>)
    requires st.Valid()
    modifies st.reg8, st.reg16, st.flags
    ensures Outcome(st.Value(), fault) == StepSpec(old(st.Value()))
  {
    var pc := st.reg16[U16.PC];
    var code := st.mem[pc];
    var instr := Decode(code);
    if instr.None? {
      return Some(DecodeError(code));
    }
    st.reg16[U16.PC] := Wrap16(pc as int + 1);
    assert st.Value() == AdvancePC(old(st.Value()), 1);
    var ok := ExecuteOp(instr.value, st);
    fault := if ok then None else Some(Unimplemented(instr.value));
  }

  // ---- runs ------------------------------------------------------------------------

  /** The state after one fault-free step, or None when the step faults. */
  function Next(s: Snapshot): (r: Option<Snapshot>)
    ensures r.Some? <==> StepSpec(s).fault.None?
    ensures r.Some? ==> r.value == StepSpec(s).state
  {
    var o := StepSpec(s);
    if o.fault.None? then Some(o.state) else None
  }

  /**
   * `n` applications of a partial step function from `s0`; None once one of
   * them has no result.
   */
  function Iterate(next: Snapshot -> Option<Snapshot>, s0: Snapshot, n: nat): Option<Snapshot>
  {
    if n == 0 then Some(s0)
    else match Iterate(next, s0, n - 1)
      case None => None
      case Some(s) => next(s)
  }

  /** The state after `n` steps from `s0`, or None when one of them faults. */
  function Run(s0: Snapshot, n: nat): Option<Snapshot>
  {
    Iterate(Next, s0, n)
  }

  /** A run that completes n steps completed each shorter run on the way. */
  lemma {:induction false} IteratePrefix(next: Snapshot -> Option<Snapshot>, s0: Snapshot, m: nat, n: nat)
    requires m <= n && Iterate(next, s0, n).Some?
    ensures Iterate(next, s0, m).Some?
    decreases n
  {
    if m < n {
      IteratePrefix(next, s0, m, n - 1);
    }
  }

  /** Running m steps and then n more is running m + n steps. */
  lemma {:induction false} IterateAdditive(next: Snapshot -> Option<Snapshot>, s0: Snapshot, m: nat, n: nat)
    requires Iterate(next, s0, m).Some?
    ensures Iterate(next, s0, m + n) == Iterate(next, Iterate(next, s0, m).value, n)
    decreases n
  {
    if n > 0 {
      IterateAdditive(next, s0, m, n - 1);
    }
  }

  /** Each step of a run is the machine step applied to the state before it. */
  lemma RunSucc(s0: Snapshot, n: nat)
    requires Run(s0, n + 1).Some?
    ensures Run(s0, n).Some?
    ensures StepSpec(Run(s0, n).value) == Outcome(Run(s0, n + 1).value, None)
  {
    IteratePrefix(Next, s0, n, n + 1);
  }

  // ---- what a step does ------------------------------------------------------------------

  /** The opcode is read at the PC before the step; an undecodable opcode changes nothing. */
  lemma DecodeErrorChangesNothing(s: Snapshot)
    requires Decode(s.mem[PC(s)]).None?
    ensures StepSpec(s) == Outcome(s, Some(DecodeError(s.mem[PC(s)])))
  {
  }

  /** A listed instruction without a body still consumes its opcode byte. */
  lemma UnimplementedAdvancesPC(s: Snapshot)
    requires StepSpec(s).fault.Some? && StepSpec(s).fault.value.Unimplemented?
    ensures StepSpec(s).state == AdvancePC(s, 1)
    ensures Decode(s.mem[PC(s)]) == Some(StepSpec(s).fault.value.instr)
  {
  }

  /** Memory is never written by a step: none of the executed instructions stores to memory. */
  lemma StepKeepsMemory(s: Snapshot)
    ensures StepSpec(s).state.mem == s.mem
  {
  }

  /** The instructions that never write PC. */
  predicate FallsThrough(i: Instr)
  {
    i.Nop? || i.Mov? || i.Alu?
  }

  /** NOP, MOV and the register/memory ALU forms end with PC one past the opcode. */
  lemma FallThroughAdvancesPcByOne(s: Snapshot)
    requires DecodeOp(s).Some? && FallsThrough(DecodeOp(s).value)
    ensures PC(StepSpec(s).state) == Wrap16(PC(s) as int + 1)
  {
  }

  /** The operand bytes an executed instruction consumes after its opcode. */
  function OperandBytes(i: Instr, flags: seq<bool>): nat
    requires |flags| == F.MAX_REG
  {
    match i
    case AluImm(_) => 1
    case Jump(c) => if Branch.Holds(c, flags) then 0 else 2
    case _ => 0
  }

  /** Where a body that runs leaves PC: at the target of a taken jump, else past its operand bytes. */
  function NextPC(i: Instr, t: Snapshot): word
  {
    if i.Jump? && Branch.Holds(i.cond, t.flags) then Branch.ImmediateWord(t, PC(t))
    else Wrap16(PC(t) as int + OperandBytes(i, t.flags))
  }

  /** The body of every instruction that has one leaves PC where `NextPC` says. */
  lemma ExecutePC(i: Instr, t: Snapshot)
    requires Execute(i, t).Some?
    ensures i.Nop? || i.Mov? || i.Alu? || i.AluImm? || i.Jump?
    ensures PC(Execute(i, t).value) == NextPC(i, t)
  {
    if i.Alu? {
      AluKeepsPC(i.op, i.src, t);
    } else if i.AluImm? {
      AluImmSkipsData(i.op, t);
    } else if i.Jump? {
      assert Execute(i, t) == Some(Branch.JumpSpec(t, i.cond));
    } else if i.Mov? {
      assert Execute(i, t) == Some(DataTransfer.MovSpec(t, i.dst.r, i.src));
    }
  }

  /** The register and memory forms of the ALU group leave PC where the step put it. */
  lemma AluKeepsPC(op: AluOp, src: Operand, t: Snapshot)
    requires Execute(Alu(op, src), t).Some?
    ensures PC(Execute(Alu(op, src), t).value) == PC(t)
  {
    if op == Add || op == Adc {
      assert Execute(Alu(op, src), t) == Some(Arithmetic.AddOp(t, src, op == Adc));
    } else if op == Ana || op == Xra || op == Ora {
      assert Execute(Alu(op, src), t) == Some(Logical.LogicOp(t, BitOpOf(op), src));
    } else {
      assert Execute(Alu(op, src), t) == Some(Logical.CmpOp(t, src));
    }
  }

  /** The immediate forms of the ALU group move PC past their data byte. */
  lemma AluImmSkipsData(op: AluOp, t: Snapshot)
    requires Execute(AluImm(op), t).Some?
    ensures PC(Execute(AluImm(op), t).value) == Wrap16(PC(t) as int + 1)
  {
    if op == Ana || op == Xra || op == Ora {
      assert Execute(AluImm(op), t) == Some(Logical.LogicImm(t, BitOpOf(op)));
    } else {
      assert Execute(AluImm(op), t) == Some(Logical.CpiSpec(t));
    }
  }

  /** A decoded instruction's step is its body run after PC + 1. */
  lemma StepExecutes(s: Snapshot, i: Instr)
    requires DecodeOp(s) == Some(i)
    ensures Execute(i, AdvancePC(s, 1)).None? ==> StepSpec(s) == Outcome(AdvancePC(s, 1), Some(Unimplemented(i)))
    ensures Execute(i, AdvancePC(s, 1)).Some? ==> StepSpec(s) == Outcome(Execute(i, AdvancePC(s, 1)).value, None)
  {
  }

  /** The opcodes of the arithmetic table decode to ADD of the register it names. */
  lemma ArithmeticOpcodesDecode(code: byte)
    requires code in OpsArithmetic.ARITHMETIC_OPCODES
    ensures Decode(code) == Some(Alu(Add, Reg(OpsArithmetic.ARITHMETIC_OPCODES[code])))
  {
    assert code == 0x80 || code == 0x81;
    AluBlock(0, code - 0x80);
  }

  /** A step on an opcode of the arithmetic table is the ADD template applied after PC + 1. */
  lemma ArithmeticOpcodesStep(s: Snapshot)
    requires s.mem[PC(s)] in OpsArithmetic.ARITHMETIC_OPCODES
    ensures var t := AdvancePC(s, 1);
            var r := OpsArithmetic.ARITHMETIC_OPCODES[s.mem[PC(s)]];
            StepSpec(s) == Outcome(OpsArithmetic.AddSpec(t, t.reg8[r], false), None)
  {
    ArithmeticOpcodesDecode(s.mem[PC(s)]);
  }
}
