// The 8-bit addition instructions: ADD and ADC, register and memory forms.
module Arithmetic {
  import opened Bytes
  import opened Machine
  import opened OpBase
  import opened OpsArithmetic
  import U8
  import U16
  import F

  /** ADD src (or ADC src when `withCarry`): A := A + src (+ CY). */
  function AddOp(s: Snapshot, src: Operand, withCarry: bool): Snapshot
  {
    AddSpec(s, OperandValue(s, src), withCarry && s.flags[F.CY])
  }

  /** The body shared by ADD r, ADD M, ADC r and ADC M. */
  method AddStep(src: Operand, withCarry: bool, st: State)
    requires st.Valid()
    modifies st.reg8, st.flags
    ensures st.Value() == AddOp(old(st.Value()), src, withCarry)
  {
    var v := ReadOperand(st, src);
    var carry := withCarry && st.flags[F.CY];
    var result: word := st.reg8[U8.A] as int + v + CarryIn(carry);
    SubopSetflags(result, st);
    st.reg8[U8.A] := Wrap8(result);
  }

  function AddRegDescriptor(code: byte, r: U8.Reg): (d: Descriptor)
    ensures d.code == code && d.name == "add" && d.strArgs == [RegName(r)] && d.byteArgCounts == []
    ensures FormatSafe(d)
  {
    Descriptor(code, "add", [RegName(r)], [], [Text("\t\t; A := " + U8.ToString(r) + " + A")])
  }

  function AddMemDescriptor(code: byte): (d: Descriptor)
    ensures d.code == code && d.name == "add" && d.strArgs == [[Text("M")]] && d.byteArgCounts == []
    ensures FormatSafe(d)
  {
    Descriptor(code, "add", [[Text("M")]], [], [Text("\t\t; A := A + (H)(L) ")])
  }

  /** The self-test of ADD r: A' is the low byte of A + r, r is unchanged unless it is A, memory is unchanged. */
  predicate AddRegTest(r: U8.Reg, pre: Snapshot, post: Snapshot)
  {
    && post.reg8[U8.A] == Wrap8(pre.reg8[r] as int + pre.reg8[U8.A])
    && (r == U8.A || post.reg8[r] == pre.reg8[r])
    && MemInvariant(pre, post)
  }

  /** The self-test of ADD M: A' is the low byte of A + MEM[HL], memory is unchanged. */
  predicate AddMemTest(pre: Snapshot, post: Snapshot)
  {
    && post.reg8[U8.A] == Wrap8(pre.mem[HlAddress(pre)] as int + pre.reg8[U8.A])
    && MemInvariant(pre, post)
  }

  /**
   * The test of ADC src: A' = A + src + CY (modulo 256), PC moved by one,
   * a source register other than A unchanged, memory unchanged.
   */
  predicate AdcTest(src: Operand, pre: Snapshot, post: Snapshot)
  {
    && post.reg8[U8.A] == Wrap8(pre.reg8[U8.A] as int + OperandValue(pre, src) + CarryIn(pre.flags[F.CY]))
    && post.reg16[U16.PC] == Wrap16(pre.reg16[U16.PC] as int + 1)
    && (src.Reg? ==> src.r == U8.A || post.reg8[src.r] == pre.reg8[src.r])
    && MemInvariant(pre, post)
  }
}
