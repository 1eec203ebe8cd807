// The instruction table: which opcode is which instruction. The table
// follows the 8080's encoding, whose opcode byte splits into the fields
// x (bits 6-7), y (bits 3-5) and z (bits 0-2); register operands are
// numbered B, C, D, E, H, L, M, A = 0..7 in those fields.
module Opcodes {
  import opened Bytes
  import opened Outcomes
  import opened OpBase
  import U8
  import Branch
  import Logical
  import MachineOps
  import DataTransfer
  import Arithmetic

  /** A register pair as named by bits 4-5 of an opcode. */
  datatype Pair = BC | DE | HL | SP

  /** The eight accumulator operations, in the order of field y. */
  datatype AluOp = Add | Adc | Sub | Sbb | Ana | Xra | Ora | Cmp

  /** An instruction the table lists. */
  datatype Instr =
    | Nop
    | Lxi(rp: Pair)
    | Stax(rp: Pair)
    | Ldax(rp: Pair)
    | Shld
    | Lhld
    | Sta
    | Lda
    | Xchg
    | Mvi(dst: Operand)
    | Mov(dst: Operand, src: Operand)
    | Inx(rp: Pair)
    | Dcx(rp: Pair)
    | Inr(dst: Operand)
    | Dcr(dst: Operand)
    | Alu(op: AluOp, src: Operand)
    | AluImm(op: AluOp)
    | Jump(cond: Branch.Condition)

  // ---- fields ----------------------------------------------------------------------

  /** The operand a 3-bit register field names. */
  function FieldOperand(f: nat): Operand
    requires f < 8
  {
    if f == 0 then Reg(U8.B)
    else if f == 1 then Reg(U8.C)
    else if f == 2 then Reg(U8.D)
    else if f == 3 then Reg(U8.E)
    else if f == 4 then Reg(U8.H)
    else if f == 5 then Reg(U8.L)
    else if f == 6 then M
    else Reg(U8.A)
  }

  /** The register field that names an operand. */
  function OperandField(o: Operand): (f: nat)
    ensures f < 8 && FieldOperand(f) == o
  {
    match o
    case M => 6
    case Reg(r) =>
      if r == U8.A then 7
      else if r == U8.B then 0
      else if r == U8.C then 1
      else if r == U8.D then 2
      else if r == U8.E then 3
      else if r == U8.H then 4
      else 5
  }

  function PairOf(p: nat): Pair
    requires p < 4
  {
    if p == 0 then BC else if p == 1 then DE else if p == 2 then HL else SP
  }

  function PairField(rp: Pair): (p: nat)
    ensures p < 4 && PairOf(p) == rp
  {
    match rp
    case BC => 0
    case DE => 1
    case HL => 2
    case SP => 3
  }

  function AluOpOf(y: nat): AluOp
    requires y < 8
  {
    if y == 0 then Add
    else if y == 1 then Adc
    else if y == 2 then Sub
    else if y == 3 then Sbb
    else if y == 4 then Ana
    else if y == 5 then Xra
    else if y == 6 then Ora
    else Cmp
  }

  function AluField(op: AluOp): (y: nat)
    ensures y < 8 && AluOpOf(y) == op
  {
    match op
    case Add => 0
    case Adc => 1
    case Sub => 2
    case Sbb => 3
    case Ana => 4
    case Xra => 5
    case Ora => 6
    case Cmp => 7
  }

  function CondOf(y: nat): Branch.Condition
    requires y < 8
  {
    if y == 0 then Branch.NotZero
    else if y == 1 then Branch.Zero
    else if y == 2 then Branch.NoCarry
    else if y == 3 then Branch.Carry
    else if y == 4 then Branch.ParityOdd
    else if y == 5 then Branch.ParityEven
    else if y == 6 then Branch.Plus
    else Branch.Minus
  }

  function CondField(c: Branch.Condition): (y: nat)
    requires c != Branch.Always
    ensures y < 8 && CondOf(y) == c
  {
    match c
    case NotZero => 0
    case Zero => 1
    case NoCarry => 2
    case Carry => 3
    case ParityOdd => 4
    case ParityEven => 5
    case Plus => 6
    case Minus => 7
  }

  // ---- decoding and encoding -----------------------------------------------------------

  /** The opcode byte with fields x (bits 6-7), y (bits 3-5) and z (bits 0-2). */
  function Opcode(x: nat, y: nat, z: nat): (code: byte)
    requires x < 4 && y < 8 && z < 8
  {
    64 * x + 8 * y + z
  }

  /** The fields of an opcode byte read back. */
  lemma OpcodeFields(x: nat, y: nat, z: nat)
    requires x < 4 && y < 8 && z < 8
    ensures var code := Opcode(x, y, z);
            code / 64 == x && (code / 8) % 8 == y && code % 8 == z
  {
    var code := 64 * x + 8 * y + z;
    DivUnique(code, 64, x, 8 * y + z);
    DivUnique(code, 8, 8 * x + y, z);
    DivUnique(8 * x + y, 8, x, y);
  }

  /** Decoding an opcode built from fields decodes those fields. */
  lemma DecodeOpcode(x: nat, y: nat, z: nat)
    requires x < 4 && y < 8 && z < 8
    ensures Decode(Opcode(x, y, z)) == DecodeFields(x, y, z)
  {
    OpcodeFields(x, y, z);
  }

  /** A byte is the opcode of its own three fields. */
  lemma OpcodeOfFields(code: byte)
    ensures code == Opcode(code / 64, (code / 8) % 8, code % 8)
  {
    var x, r := code / 64, code % 64;
    var y, z := r / 8, r % 8;
    assert code == 64 * x + 8 * y + z;
    DivUnique(code, 8, 8 * x + y, z);
    DivUnique(8 * x + y, 8, x, y);
  }

  /**
   * The instruction an opcode byte stands for, or None when the table has no
   * entry for it (HLT at 0x76, DAD, the rotates, the stack and I/O group...).
   */
  function Decode(code: byte): Option<Instr>
  {
    DecodeFields(code / 64, (code / 8) % 8, code % 8)
  }

  /** Decoding, by the fields of the opcode. */
  function DecodeFields(x: nat, y: nat, z: nat): Option<Instr>
    requires x < 4 && y < 8 && z < 8
  {
    if x == 0 then
      if z == 0 then (if y == 0 then Some(Nop) else None)
      else if z == 1 then (if y % 2 == 0 then Some(Lxi(PairOf(y / 2))) else None)
      else if z == 2 then
        (if y == 0 || y == 2 then Some(Stax(PairOf(y / 2)))
         else if y == 1 || y == 3 then Some(Ldax(PairOf(y / 2)))
         else if y == 4 then Some(Shld)
         else if y == 5 then Some(Lhld)
         else if y == 6 then Some(Sta)
         else Some(Lda))
      else if z == 3 then (if y % 2 == 0 then Some(Inx(PairOf(y / 2))) else Some(Dcx(PairOf(y / 2))))
      else if z == 4 then Some(Inr(FieldOperand(y)))
      else if z == 5 then Some(Dcr(FieldOperand(y)))
      else if z == 6 then Some(Mvi(FieldOperand(y)))
      else None
    else if x == 1 then
      if y == 6 && z == 6 then None else Some(Mov(FieldOperand(y), FieldOperand(z)))
    else if x == 2 then Some(Alu(AluOpOf(y), FieldOperand(z)))
    else if z == 2 then Some(Jump(CondOf(y)))
    // JMP has no class of its own: it is a JCOND_Imm whose predicate always holds.
    else if z == 3 && y == 0 then Some(Jump(Branch.Always))
    else if z == 3 && y == 5 then Some(Xchg)
    else if z == 6 then Some(AluImm(AluOpOf(y)))
    else None
  }

  /** The instructions that have an opcode: STAX/LDAX exist for BC and DE only, and MOV M,M is HLT. */
  predicate Encodable(i: Instr)
  {
    match i
    case Stax(rp) => rp == BC || rp == DE
    case Ldax(rp) => rp == BC || rp == DE
    case Mov(dst, src) => !(dst == M && src == M)
    case _ => true
  }

  /** The fields x, y, z of an instruction's opcode. */
  function Fields(i: Instr): (f: (nat, nat, nat))
    requires Encodable(i)
    ensures f.0 < 4 && f.1 < 8 && f.2 < 8
  {
    match i
    case Nop => (0, 0, 0)
    case Lxi(rp) => (0, 2 * PairField(rp), 1)
    case Stax(rp) => (0, 2 * PairField(rp), 2)
    case Ldax(rp) => (0, 2 * PairField(rp) + 1, 2)
    case Shld => (0, 4, 2)
    case Lhld => (0, 5, 2)
    case Sta => (0, 6, 2)
    case Lda => (0, 7, 2)
    case Inx(rp) => (0, 2 * PairField(rp), 3)
    case Dcx(rp) => (0, 2 * PairField(rp) + 1, 3)
    case Inr(dst) => (0, OperandField(dst), 4)
    case Dcr(dst) => (0, OperandField(dst), 5)
    case Mvi(dst) => (0, OperandField(dst), 6)
    case Mov(dst, src) => (1, OperandField(dst), OperandField(src))
    case Alu(op, src) => (2, AluField(op), OperandField(src))
    case Jump(c) => if c == Branch.Always then (3, 0, 3) else (3, CondField(c), 2)
    case Xchg => (3, 5, 3)
    case AluImm(op) => (3, AluField(op), 6)
  }

  /** The opcode byte of an instruction. */
  function Encode(i: Instr): byte
    requires Encodable(i)
  {
    var f := Fields(i);
    Opcode(f.0, f.1, f.2)
  }

  /** Every listed instruction decodes back from its opcode. */
  lemma DecodeEncode(i: Instr)
    requires Encodable(i)
    ensures Decode(Encode(i)) == Some(i)
  {
    var f := Fields(i);
    OpcodeFields(f.0, f.1, f.2);
    DecodeFieldsOfFields(i);
  }

  /** The fields of an instruction decode to it. */
  lemma DecodeFieldsOfFields(i: Instr)
    requires Encodable(i)
    ensures DecodeFields(Fields(i).0, Fields(i).1, Fields(i).2) == Some(i)
  {
  }

  lemma FieldRoundTrips(f: nat)
    requires f < 8
    ensures OperandField(FieldOperand(f)) == f && AluField(AluOpOf(f)) == f
    ensures CondField(CondOf(f)) == f
    ensures f < 4 ==> PairField(PairOf(f)) == f
  {
  }

  /** Every opcode the table knows is the encoding of the instruction it decodes to. */
  lemma EncodeDecode(code: byte)
    requires Decode(code).Some?
    ensures Encodable(Decode(code).value) && Encode(Decode(code).value) == code
  {
    OpcodeOfFields(code);
    FieldsOfDecode(code / 64, (code / 8) % 8, code % 8);
  }

  /** The instruction that fields decode to has those fields. */
  lemma FieldsOfDecode(x: nat, y: nat, z: nat)
    requires x < 4 && y < 8 && z < 8 && DecodeFields(x, y, z).Some?
    ensures Encodable(DecodeFields(x, y, z).value) && Fields(DecodeFields(x, y, z).value) == (x, y, z)
  {
    if x == 0 {
      FieldsOfDecodeLow(y, z);
    } else if x == 1 {
      FieldRoundTrips(y);
      FieldRoundTrips(z);
    } else {
      FieldsOfDecodeHigh(x, y, z);
    }
  }

  /** Opcodes 0x00-0x3F. */
  lemma FieldsOfDecodeLow(y: nat, z: nat)
    requires y < 8 && z < 8 && DecodeFields(0, y, z).Some?
    ensures Encodable(DecodeFields(0, y, z).value) && Fields(DecodeFields(0, y, z).value) == (0, y, z)
  {
    if 1 <= z <= 3 {
      FieldRoundTrips(y / 2);
    } else {
      FieldRoundTrips(y);
    }
  }

  /** Opcodes 0x80-0xFF. */
  lemma FieldsOfDecodeHigh(x: nat, y: nat, z: nat)
    requires 2 <= x < 4 && y < 8 && z < 8 && DecodeFields(x, y, z).Some?
    ensures Encodable(DecodeFields(x, y, z).value) && Fields(DecodeFields(x, y, z).value) == (x, y, z)
  {
    FieldRoundTrips(y);
    if x == 2 {
      FieldRoundTrips(z);
    }
  }

  /** Distinct instructions have distinct opcodes: the table maps each code to one instruction. */
  lemma EncodeInjective(i: Instr, j: Instr)
    requires Encodable(i) && Encodable(j) && i != j
    ensures Encode(i) != Encode(j)
  {
    DecodeEncode(i);
    DecodeEncode(j);
  }

  // ---- the layout of the table ---------------------------------------------------------

  /** 0x40-0x7F, except 0x76, is MOV: destination in bits 3-5, source in bits 0-2. */
  lemma MovBlock(d: nat, s: nat)
    requires d < 8 && s < 8 && !(d == 6 && s == 6)
    ensures Decode(0x40 + 8 * d + s) == Some(Mov(FieldOperand(d), FieldOperand(s)))
  {
    assert 0x40 + 8 * d + s == Opcode(1, d, s);
    DecodeOpcode(1, d, s);
  }

  /** 0x76 is not a MOV: it has no entry in the instruction table. */
  lemma HaltIsNotMov()
    ensures Decode(0x76) == None
  {
    assert 0x76 == Opcode(1, 6, 6);
    DecodeOpcode(1, 6, 6);
  }

  /** ADD, ADC, SUB, SBB, ANA, XRA, ORA and CMP occupy 0x80 + 8k + s; field s = 6 is the memory form. */
  lemma AluBlock(k: nat, s: nat)
    requires k < 8 && s < 8
    ensures Decode(0x80 + 8 * k + s) == Some(Alu(AluOpOf(k), FieldOperand(s)))
    ensures s == 6 <==> Decode(0x80 + 8 * k + s).value.src == M
  {
    assert 0x80 + 8 * k + s == Opcode(2, k, s);
    DecodeOpcode(2, k, s);
  }

  /** INR is at 0x04 + 8r, DCR at 0x05 + 8r and MVI at 0x06 + 8r; r = 6 is the memory form. */
  lemma IncDecMoveImmediateBlock(r: nat)
    requires r < 8
    ensures Decode(0x04 + 8 * r) == Some(Inr(FieldOperand(r)))
    ensures Decode(0x05 + 8 * r) == Some(Dcr(FieldOperand(r)))
    ensures Decode(0x06 + 8 * r) == Some(Mvi(FieldOperand(r)))
  {
    assert 0x04 + 8 * r == Opcode(0, r, 4);
    assert 0x05 + 8 * r == Opcode(0, r, 5);
    assert 0x06 + 8 * r == Opcode(0, r, 6);
    DecodeOpcode(0, r, 4);
    DecodeOpcode(0, r, 5);
    DecodeOpcode(0, r, 6);
  }

  // ---- descriptors -----------------------------------------------------------------

  /** The mnemonic printed for an instruction. */
  function Mnemonic(i: Instr): string
  {
    match i
    case Nop => "nop"
    case Lxi(_) => "lxi"
    case Stax(_) => "stax"
    case Ldax(_) => "ldax"
    case Shld => "shld"
    case Lhld => "lhld"
    case Sta => "sta"
    case Lda => "lda"
    case Xchg => "xchg"
    case Mvi(_) => "mvi"
    case Mov(_, _) => "mov"
    case Inx(_) => "inx"
    case Dcx(_) => "dcx"
    case Inr(_) => "inr"
    case Dcr(_) => "dcr"
    case Alu(op, _) => AluMnemonic(op)
    case AluImm(op) => AluImmMnemonic(op)
    case Jump(c) => Branch.Mnemonic(c)
  }

  function AluMnemonic(op: AluOp): string
  {
    match op
    case Add => "add"
    case Adc => "adc"
    case Sub => "sub"
    case Sbb => "sbb"
    case Ana => "ana"
    case Xra => "xra"
    case Ora => "ora"
    case Cmp => "cmp"
  }

  function AluImmMnemonic(op: AluOp): string
  {
    match op
    case Add => "adi"
    case Adc => "aci"
    case Sub => "sui"
    case Sbb => "sbi"
    case Ana => "ani"
    case Xra => "xri"
    case Ora => "ori"
    case Cmp => "cpi"
  }

  /** The logical operation behind ANA, XRA and ORA. */
  function BitOpOf(op: AluOp): BitOp
    requires op == Ana || op == Xra || op == Ora
  {
    if op == Ana then And else if op == Xra then Xor else Or
  }

  /** The register LXI's name for a pair reads as: its high register. */
  function HighRegister(rp: Pair): U8.Reg
    requires rp != SP
  {
    match rp
    case BC => U8.B
    case DE => U8.D
    case HL => U8.H
  }

  /**
   * The descriptor of the instruction object built for `i`, where the
   * instruction's class gives one: NOP, MOV r,r, MOV r,M, LXI, ADD, the
   * logical group, the compares and the jumps. None for the rest.
   */
  function Describe(i: Instr): Option<Descriptor>
    requires Encodable(i)
  {
    var code := Encode(i);
    match i
    case Nop => Some(MachineOps.NopDescriptor())
    case Mov(Reg(r1), Reg(r2)) => Some(DataTransfer.MovRegRegDescriptor(code, r1, r2))
    case Mov(Reg(r1), M) => Some(DataTransfer.MovRegMemDescriptor(code, r1))
    case Lxi(rp) =>
      if rp == SP then None
      else Some(DataTransfer.LxiRegDescriptor(code, HighRegister(rp)))
    case Alu(Add, Reg(r)) => Some(Arithmetic.AddRegDescriptor(code, r))
    case Alu(Add, M) => Some(Arithmetic.AddMemDescriptor(code))
    case Alu(Cmp, Reg(r)) => Some(Logical.CmpRegDescriptor(code, r))
    case Alu(Cmp, M) => Some(Logical.CmpMemDescriptor(code))
    case Alu(op, src) =>
      if op == Ana || op == Xra || op == Ora then
        match src
        case Reg(r) => Some(Logical.LogicRegDescriptor(BitOpOf(op), code, r))
        case M => Some(Logical.LogicMemDescriptor(BitOpOf(op), code))
      else None
    case AluImm(op) =>
      if op == Ana || op == Xra || op == Ora then Some(Logical.LogicImmDescriptor(BitOpOf(op), code))
      else if op == Cmp then Some(Logical.CpiDescriptor(code))
      else None
    case Jump(c) => Some(Branch.JcondDescriptor(code, Branch.Mnemonic(c)))
    case _ => None
  }

  /**
   * Each descriptor carries the instruction's own opcode and mnemonic, 0, 1
   * or 2 operand bytes, and only placeholders for bytes it has.
   */
  lemma DescribeWellFormed(i: Instr)
    requires Encodable(i) && Describe(i).Some?
    ensures Describe(i).value.code == Encode(i)
    ensures Describe(i).value.name == Mnemonic(i)
    ensures SizesWellFormed(Describe(i).value.byteArgCounts)
    ensures FormatSafe(Describe(i).value)
  {
    match i
    case Alu(op, src) => AluDescribeWellFormed(op, src);
    case AluImm(op) =>
    case Jump(c) =>
    case _ =>
  }

  lemma AluDescribeWellFormed(op: AluOp, src: Operand)
    requires Describe(Alu(op, src)).Some?
    ensures Describe(Alu(op, src)).value.code == Encode(Alu(op, src))
    ensures Describe(Alu(op, src)).value.name == Mnemonic(Alu(op, src))
    ensures SizesWellFormed(Describe(Alu(op, src)).value.byteArgCounts)
    ensures FormatSafe(Describe(Alu(op, src)).value)
  {
    match src
    case Reg(r) =>
    case M =>
  }

  /** The descriptor's operand byte count by instruction kind. */
  lemma DescribeCounts(i: Instr)
    requires Encodable(i) && Describe(i).Some?
    ensures |Describe(i).value.byteArgCounts| == (if i.Jump? || i.Lxi? then 2 else if i.AluImm? then 1 else 0)
  {
    if i.Alu? {
      AluDescribeCounts(i.op, i.src);
    }
  }

  lemma AluDescribeCounts(op: AluOp, src: Operand)
    requires Describe(Alu(op, src)).Some?
    ensures Describe(Alu(op, src)).value.byteArgCounts == []
  {
    match src
    case Reg(r) =>
    case M =>
  }
}
