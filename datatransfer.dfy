// The data-transfer group: MOV between registers and from memory, and the
// LXI descriptor.
module DataTransfer {
  import opened Bytes
  import opened Machine
  import opened OpBase
  import U8

  /** The state after MOV dst,src: dst receives the source operand's value. */
  function MovSpec(s: Snapshot, dst: U8.Reg, src: Operand): (t: Snapshot)
    ensures t.reg8[dst] == OperandValue(s, src)
    ensures forall r :: 0 <= r < U8.MAX_REG && r != dst ==> t.reg8[r] == s.reg8[r]
    ensures t.reg16 == s.reg16 && t.flags == s.flags && t.mem == s.mem
  {
    s.(reg8 := s.reg8[dst := OperandValue(s, src)])
  }

  /** MOV r,r changes nothing. */
  lemma MovSelfIsIdentity(s: Snapshot, r: U8.Reg)
    ensures MovSpec(s, r, Reg(r)) == s
  {
    assert s.reg8[r := s.reg8[r]] == s.reg8;
  }

  /** MOV r1,r2 and MOV r1,M: one write, into the destination register. */
  method MovStep(dst: U8.Reg, src: Operand, st: State)
    requires st.Valid()
    modifies st.reg8
    ensures st.Value() == MovSpec(old(st.Value()), dst, src)
  {
    var v := ReadOperand(st, src);
    st.reg8[dst] := v;
  }

  function MovRegRegDescriptor(code: byte, r1: U8.Reg, r2: U8.Reg): (d: Descriptor)
    ensures d.code == code && d.name == "mov" && d.byteArgCounts == []
    ensures d.strArgs == [RegName(r1), RegName(r2)]
    ensures FormatSafe(d)
  {
    Descriptor(code, "mov", [RegName(r1), RegName(r2)], [],
               [Text("\t\t; " + U8.ToString(r1) + " := " + U8.ToString(r2))])
  }

  function MovRegMemDescriptor(code: byte, r1: U8.Reg): (d: Descriptor)
    ensures d.code == code && d.name == "mov" && d.byteArgCounts == []
    ensures d.strArgs == [RegName(r1), [Text("M")]]
    ensures FormatSafe(d)
  {
    Descriptor(code, "mov", [RegName(r1), [Text("M")]], [],
               [Text("\t\t; " + U8.ToString(r1) + " := (HL)")])
  }

  /** LXI declares two operand bytes, printed high byte first. */
  function LxiRegDescriptor(code: byte, r: U8.Reg): (d: Descriptor)
    ensures d.code == code && d.name == "lxi" && d.byteArgCounts == [1, 1]
    ensures |d.strArgs| == 2 && d.strArgs[1] == [Hole(1), Hole(0)]
    ensures FormatSafe(d)
  {
    Descriptor(code, "lxi", [RegName(r), [Hole(1), Hole(0)]], [1, 1],
               [Text("\t\t; B := data:"), Hole(1), Text("; C := data:"), Hole(0)])
  }

  /** The self-test of MOV r1,r2: r1 now holds r2's old value and r2 is unchanged. */
  predicate MovRegRegTest(r1: U8.Reg, r2: U8.Reg, pre: Snapshot, post: Snapshot)
  {
    post.reg8[r1] == pre.reg8[r2] && post.reg8[r2] == pre.reg8[r2]
  }

  /** The self-test of MOV r1,M: r1 now holds the byte at HL and memory is unchanged. */
  predicate MovRegMemTest(r1: U8.Reg, pre: Snapshot, post: Snapshot)
  {
    post.reg8[r1] == pre.mem[HlAddress(pre)] && MemInvariant(pre, post)
  }
}
