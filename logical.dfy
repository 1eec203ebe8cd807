// The logical group: ANA, XRA and ORA with their immediate forms ANI, XRI
// and ORI, and the compares CMP and CPI.
module Logical {
  import opened Bytes
  import opened Machine
  import opened OpBase
  import opened OpsArithmetic
  import U8
  import U16
  import F


  /**
   * The state after A := A op v: flags set from the result, CY cleared, and
   * AC cleared too when `clearAC`.
   */
  function LogicSpec(s: Snapshot, op: BitOp, v: byte, clearAC: bool): (t: Snapshot)
    ensures t.reg8[U8.A] == Combine8(op, s.reg8[U8.A], v)
    ensures !t.flags[F.CY]
    ensures t.flags[F.AC] == (s.flags[F.AC] && !clearAC)
    ensures t.flags[F.Z] <==> t.reg8[U8.A] == 0
    ensures t.flags[F.S] <==> t.reg8[U8.A] >= 0x80
    ensures t.flags[F.P] <==> !Bit(t.reg8[U8.A], 0)
    ensures t.flags[F.E] == s.flags[F.E] && t.flags[F.DI] == s.flags[F.DI]
    ensures forall r :: 0 <= r < U8.MAX_REG && r != U8.A ==> t.reg8[r] == s.reg8[r]
    ensures t.reg16 == s.reg16 && t.mem == s.mem
  {
    var result := Combine8(op, s.reg8[U8.A], v);
    var flags := SetFlags(s.flags, result)[F.CY := false];
    s.(flags := if clearAC then flags[F.AC := false] else flags, reg8 := s.reg8[U8.A := result])
  }

  /**
   * ANA r / ANA M (AC untouched), XRA r / XRA M and ORA r / ORA M (AC cleared).
   */
  function LogicOp(s: Snapshot, op: BitOp, src: Operand): Snapshot
  {
    LogicSpec(s, op, OperandValue(s, src), op != And)
  }

  /**
   * ANI, XRI and ORI, run with PC at the data byte: combine A with that byte,
   * clear CY and AC, step PC past the byte.
   */
  function LogicImm(s: Snapshot, op: BitOp): Snapshot
  {
    AdvancePC(LogicSpec(s, op, s.mem[PC(s)], true), 1)
  }

  /** The 9-bit difference a - b: the borrow shows up as a value above 0xFF. */
  function Sub9(a: byte, b: byte): (r: word)
    ensures r < 0x200
    ensures r >= 0x100 <==> a < b
    ensures r % 0x100 == 0 <==> a == b
    ensures (r - (a - b)) % 0x200 == 0
  {
    (a - b) % 0x200
  }

  /**
   * The state after comparing A with v: flags set from A - v, A left alone.
   * S and P look at the byte (A - v) mod 256.
   */
  function CmpSpec(s: Snapshot, v: byte): (t: Snapshot)
    ensures t.flags[F.CY] <==> s.reg8[U8.A] < v
    ensures t.flags[F.Z] <==> s.reg8[U8.A] == v
    ensures t.flags[F.S] <==> Wrap8(s.reg8[U8.A] - v) >= 0x80
    ensures t.flags[F.P] <==> !Bit(Wrap8(s.reg8[U8.A] - v), 0)
    ensures t.flags[F.AC] == s.flags[F.AC]
    ensures t.flags[F.E] == s.flags[F.E] && t.flags[F.DI] == s.flags[F.DI]
    ensures t.reg8 == s.reg8 && t.reg16 == s.reg16 && t.mem == s.mem
  {
    Sub9LowByte(s.reg8[U8.A], v);
    s.(flags := SetFlags(s.flags, Sub9(s.reg8[U8.A], v)))
  }

  /** The low byte of the 9-bit difference is the byte difference. */
  lemma Sub9LowByte(a: byte, b: byte)
    ensures Sub9(a, b) % 0x100 == Wrap8(a - b)
  {
    if a < b {
      assert Sub9(a, b) == a - b + 0x200;
    }
  }

  /** CMP r / CMP M. */
  function CmpOp(s: Snapshot, src: Operand): Snapshot
  {
    CmpSpec(s, OperandValue(s, src))
  }

  /** CPI, run with PC at the data byte. */
  function CpiSpec(s: Snapshot): Snapshot
  {
    AdvancePC(CmpSpec(s, s.mem[PC(s)]), 1)
  }

  // ---- in-place bodies -----------------------------------------------------------

  /** The shared body of the bitwise forms: combine, set flags, clear CY (and AC), write A. */
  method BitwiseBody(op: BitOp, v: byte, clearAC: bool, st: State)
    requires st.Valid()
    modifies st.reg8, st.flags
    ensures st.Value() == LogicSpec(old(st.Value()), op, v, clearAC)
  {
    var result := Combine8(op, st.reg8[U8.A], v);
    SubopSetflags(result, st);
    st.flags[F.CY] := false;
    if clearAC {
      st.flags[F.AC] := false;
    }
    st.reg8[U8.A] := result;
  }

  /** ANA_Reg, ANA_Mem, XRA_Reg, XRA_Mem, ORA_Reg and ORA_Mem. */
  method LogicStep(op: BitOp, src: Operand, st: State)
    requires st.Valid()
    modifies st.reg8, st.flags
    ensures st.Value() == LogicOp(old(st.Value()), op, src)
  {
    var v := ReadOperand(st, src);
    BitwiseBody(op, v, op != And, st);
  }

  /** ANI, XRI and ORI: the operand is the byte at PC, then PC steps past it. */
  method LogicImmStep(op: BitOp, st: State)
    requires st.Valid()
    modifies st.reg8, st.reg16, st.flags
    ensures st.Value() == LogicImm(old(st.Value()), op)
  {
    var dataPointer := st.reg16[U16.PC];
    BitwiseBody(op, st.mem[dataPointer], true, st);
    st.reg16[U16.PC] := Wrap16(st.reg16[U16.PC] as int + 1);
  }

  /** CMP_Reg and CMP_Mem. */
  method CmpStep(src: Operand, st: State)
    requires st.Valid()
    modifies st.flags
    ensures st.Value() == CmpOp(old(st.Value()), src)
  {
    var v := ReadOperand(st, src);
    SubopSetflags(Sub9(st.reg8[U8.A], v), st);
  }

  /** CPI: compare with the byte at PC, then step PC past it. */
  method CpiStep(st: State)
    requires st.Valid()
    modifies st.reg16, st.flags
    ensures st.Value() == CpiSpec(old(st.Value()))
  {
    var dataPointer := st.reg16[U16.PC];
    SubopSetflags(Sub9(st.reg8[U8.A], st.mem[dataPointer]), st);
    st.reg16[U16.PC] := Wrap16(st.reg16[U16.PC] as int + 1);
  }

  // ---- properties ----------------------------------------------------------------

  /** XRA A clears A and sets Z. */
  lemma XorSelfClears(s: Snapshot)
    ensures LogicOp(s, Xor, Reg(U8.A)).reg8[U8.A] == 0
    ensures LogicOp(s, Xor, Reg(U8.A)).flags[F.Z]
  {
    BitwiseSelf(Xor, s.reg8[U8.A]);
  }

  /** ANA A and ORA A leave A as it was. */
  lemma AndOrSelfKeepA(s: Snapshot)
    ensures LogicOp(s, And, Reg(U8.A)).reg8[U8.A] == s.reg8[U8.A]
    ensures LogicOp(s, Or, Reg(U8.A)).reg8[U8.A] == s.reg8[U8.A]
  {
    BitwiseSelf(And, s.reg8[U8.A]);
    BitwiseSelf(Or, s.reg8[U8.A]);
  }

  /** A value combined with itself: AND and OR give it back, XOR gives zero. */
  lemma {:induction false} BitwiseSelf(op: BitOp, a: nat)
    ensures Bitwise(op, a, a) == if op == Xor then 0 else a
    decreases a
  {
    if a != 0 {
      BitwiseSelf(op, a / 2);
    }
  }

  /** Bit k of the new A is the operation applied to bit k of A and bit k of the operand. */
  lemma CombineBitwise(op: BitOp, a: byte, b: byte, k: nat)
    ensures Bit(Combine8(op, a, b), k) == CombineBit(op, Bit(a, k), Bit(b, k))
  {
    BitOfBitwise(op, a, b, k);
  }

  // ---- descriptors -----------------------------------------------------------------

  function Mnemonic(op: BitOp): string
  {
    match op
    case And => "ana"
    case Xor => "xra"
    case Or => "ora"
  }

  function Symbol(op: BitOp): string
  {
    match op
    case And => "&"
    case Xor => "^"
    case Or => "|"
  }

  /** ANA_Reg, XRA_Reg and ORA_Reg. */
  function LogicRegDescriptor(op: BitOp, code: byte, r: U8.Reg): (d: Descriptor)
    ensures d.code == code && d.name == Mnemonic(op) && d.strArgs == [RegName(r)] && d.byteArgCounts == []
    ensures FormatSafe(d)
  {
    var effect := if op == And then "CY is cleared" else "AC and CY is cleared";
    Descriptor(code, Mnemonic(op), [RegName(r)], [],
               [Text("\t\t; A := " + U8.ToString(r) + " " + Symbol(op) + " A; " + effect)])
  }

  /** ANA_Mem, XRA_Mem and ORA_Mem. */
  function LogicMemDescriptor(op: BitOp, code: byte): (d: Descriptor)
    ensures d.code == code && d.name == Mnemonic(op) && d.strArgs == [[Text("M")]] && d.byteArgCounts == []
    ensures FormatSafe(d)
  {
    var comment := if op == And then "\t\t; A := A & (H)(L) "
                   else "\t\t; A := A " + Symbol(op) + " (H)(L); AC and CY is cleared";
    Descriptor(code, Mnemonic(op), [[Text("M")]], [], [Text(comment)])
  }

  /** ANI, XRI and ORI: one operand byte. */
  function LogicImmDescriptor(op: BitOp, code: byte): (d: Descriptor)
    ensures d.code == code && d.strArgs == [[Hole(0)]] && d.byteArgCounts == [1]
    ensures FormatSafe(d)
  {
    var name := match op case And => "ani" case Xor => "xri" case Or => "ori";
    var effect := if op == And then "; set flags Z, S, P, CY, AC" else "; clear CY and AC";
    Descriptor(code, name, [[Hole(0)]], [1],
               [Text("\t\t; A := A " + Symbol(op) + " data:"), Hole(0), Text(effect)])
  }

  function CmpRegDescriptor(code: byte, r: U8.Reg): (d: Descriptor)
    ensures d.code == code && d.name == "cmp" && d.strArgs == [RegName(r)] && d.byteArgCounts == []
    ensures FormatSafe(d)
  {
    var n := U8.ToString(r);
    Descriptor(code, "cmp", [RegName(r)], [],
               [Text("\t\t; " + n + " - A; Z = 1 if A = " + n + "; CY = 1 if A < " + n)])
  }

  function CmpMemDescriptor(code: byte): (d: Descriptor)
    ensures d.code == code && d.name == "cmp" && d.strArgs == [[Text("M")]] && d.byteArgCounts == []
    ensures FormatSafe(d)
  {
    Descriptor(code, "cmp", [[Text("M")]], [],
               [Text("\t\t; A - (H)(L); Z = 1 if A = (HL); CY = 1 if A < (HL)")])
  }

  function CpiDescriptor(code: byte): (d: Descriptor)
    ensures d.code == code && d.name == "cpi" && d.strArgs == [[Hole(0)]] && d.byteArgCounts == [1]
    ensures FormatSafe(d)
  {
    Descriptor(code, "cpi", [[Hole(0)]], [1],
               [Text("\t\t\t; A := A - data:"), Hole(0), Text(" (sub immediate)")])
  }

  // ---- self-tests, over the state before the fetch and the state after the step ----

  /**
   * ANA r, XRA r, ORA r: A' = A op r, memory unchanged, r unchanged (for XRA
   * and ORA only when r is not A; the ANA test asks it of A too).
   */
  predicate LogicRegTest(op: BitOp, r: U8.Reg, pre: Snapshot, post: Snapshot)
  {
    && post.reg8[U8.A] == Combine8(op, pre.reg8[U8.A], pre.reg8[r])
    && ((op != And && r == U8.A) || post.reg8[r] == pre.reg8[r])
    && MemInvariant(pre, post)
  }

  /** ANA M, XRA M, ORA M: A' = A op MEM[HL], memory unchanged. */
  predicate LogicMemTest(op: BitOp, pre: Snapshot, post: Snapshot)
  {
    post.reg8[U8.A] == Combine8(op, pre.reg8[U8.A], pre.mem[HlAddress(pre)]) && MemInvariant(pre, post)
  }

  /** ANI, XRI, ORI: A' = A op MEM[PC + 1] and PC' = PC + 2, PC being the opcode's address. */
  predicate LogicImmTest(op: BitOp, pre: Snapshot, post: Snapshot)
  {
    && post.reg8[U8.A] == Combine8(op, pre.reg8[U8.A], pre.mem[Wrap16(PC(pre) as int + 1)])
    && PC(post) == Wrap16(PC(pre) as int + 2)
  }

  /** CMP r / CMP M / CPI against operand value v: CY' = (A < v), Z' = (A == v). */
  predicate CompareFlagsTest(v: byte, pre: Snapshot, post: Snapshot)
  {
    && (post.flags[F.CY] <==> pre.reg8[U8.A] < v)
    && (post.flags[F.Z] <==> pre.reg8[U8.A] == v)
    && MemInvariant(pre, post)
  }

  predicate CmpRegTest(r: U8.Reg, pre: Snapshot, post: Snapshot)
  {
    CompareFlagsTest(pre.reg8[r], pre, post) && post.reg8[r] == pre.reg8[r]
  }

  predicate CmpMemTest(pre: Snapshot, post: Snapshot)
  {
    CompareFlagsTest(pre.mem[HlAddress(pre)], pre, post)
  }

  predicate CpiTest(pre: Snapshot, post: Snapshot)
  {
    CompareFlagsTest(pre.mem[Wrap16(PC(pre) as int + 1)], pre, post) && PC(post) == Wrap16(PC(pre) as int + 2)
  }
}
