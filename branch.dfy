// The jump group: a jump whose target is the two operand bytes
// (little-endian), taken when a predicate on the flags holds.
module Branch {
  import opened Bytes
  import opened Machine
  import opened OpBase
  import U16
  import F

  /** The predicates of the conditional jumps; JMP uses the one that always holds. */
  datatype Condition = NotZero | Zero | NoCarry | Carry | ParityOdd | ParityEven | Plus | Minus | Always

  /** Whether the jump is taken, judged on the flag cells. */
  predicate Holds(c: Condition, flags: seq<bool>)
    requires |flags| == F.MAX_REG
  {
    match c
    case NotZero => !flags[F.Z]
    case Zero => flags[F.Z]
    case NoCarry => !flags[F.CY]
    case Carry => flags[F.CY]
    case ParityOdd => !flags[F.P]
    case ParityEven => flags[F.P]
    case Plus => !flags[F.S]
    case Minus => flags[F.S]
    case Always => true
  }

  /** The 16-bit operand stored at `addr` (low byte) and the address after it (high byte). */
  function ImmediateWord(s: Snapshot, addr: word): (w: word)
    ensures w % 0x100 == s.mem[addr] && w / 0x100 == s.mem[Wrap16(addr + 1)]
  {
    Word(s.mem[Wrap16(addr + 1)], s.mem[addr])
  }

  /**
   * The jump run with PC at the first operand byte: PC becomes the operand
   * word when the predicate holds, and moves past both bytes otherwise.
   */
  function JumpSpec(s: Snapshot, c: Condition): (t: Snapshot)
    ensures Holds(c, s.flags) ==> PC(t) == ImmediateWord(s, PC(s))
    ensures !Holds(c, s.flags) ==> PC(t) == Wrap16(PC(s) + 2)
    ensures t.reg8 == s.reg8 && t.flags == s.flags && t.mem == s.mem
    ensures t.reg16[U16.SP] == s.reg16[U16.SP]
  {
    if Holds(c, s.flags) then s.(reg16 := s.reg16[U16.PC := ImmediateWord(s, PC(s))])
    else AdvancePC(s, 2)
  }

  /**
   * The jump's predicate applied to the flag cells, as JCOND_Imm holds it:
   * the in-place counterpart of `Holds`, reading the flag array itself.
   */
  method Predicate(c: Condition, flags: array<bool>) returns (taken: bool)
    requires flags.Length == F.MAX_REG
    ensures taken == Holds(c, flags[..])
  {
    taken := match c
      case NotZero => !flags[F.Z]
      case Zero => flags[F.Z]
      case NoCarry => !flags[F.CY]
      case Carry => flags[F.CY]
      case ParityOdd => !flags[F.P]
      case ParityEven => flags[F.P]
      case Plus => !flags[F.S]
      case Minus => flags[F.S]
      case Always => true;
  }

  /** JCOND_Imm's body: test the predicate first, then write PC. */
  method JcondStep(c: Condition, st: State)
    requires st.Valid()
    modifies st.reg16
    ensures st.Value() == JumpSpec(old(st.Value()), c)
  {
    ghost var s := st.Value();
    var taken := Predicate(c, st.flags);
    var pc := st.reg16[U16.PC];
    var target: word;
    if taken {
      var lowByte := st.mem[pc];
      var highByte := st.mem[Wrap16(pc as int + 1)];
      target := Word(highByte, lowByte);
    } else {
      target := Wrap16(pc as int + 2);
    }
    assert target == JumpSpec(s, c).reg16[U16.PC];
    st.reg16[U16.PC] := target;
    assert st.reg16[..] == s.reg16[U16.PC := target];
  }

  function Mnemonic(c: Condition): string
  {
    match c
    case NotZero => "jnz"
    case Zero => "jz"
    case NoCarry => "jnc"
    case Carry => "jc"
    case ParityOdd => "jpo"
    case ParityEven => "jpe"
    case Plus => "jp"
    case Minus => "jm"
    case Always => "jmp"
  }

  /** Two operand bytes, printed high byte first as the target address. */
  function JcondDescriptor(code: byte, name: string): (d: Descriptor)
    ensures d.code == code && d.name == name
    ensures d.strArgs == [[Hole(1), Hole(0)]] && d.byteArgCounts == [1, 1]
    ensures FormatSafe(d)
  {
    Descriptor(code, name, [[Hole(1), Hole(0)]], [1, 1], [Text("\t\t; PC := "), Hole(1), Hole(0)])
  }

  /**
   * The self-test, over the state before the fetch (PC at the opcode) and the
   * state after the step: a taken jump lands on MEM[PC+2]*256 + MEM[PC+1],
   * otherwise PC moves by three.
   */
  predicate JcondTest(c: Condition, pre: Snapshot, post: Snapshot)
  {
    if Holds(c, pre.flags) then PC(post) == ImmediateWord(pre, Wrap16(PC(pre) as int + 1))
    else PC(post) == Wrap16(PC(pre) as int + 3)
  }
}
