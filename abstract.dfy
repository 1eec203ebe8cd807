// The base of every instruction object: operand addressing through HL, the
// memory-invariant check its self-tests share, and the disassembly
// descriptor (mnemonic, operand templates, operand byte counts, comment).
module OpBase {
  import opened Bytes
  import opened Machine
  import U8

  /** An 8-bit operand: a register of the register file, or M, the byte at address HL. */
  datatype Operand = Reg(r: U8.Reg) | M

  /** The address formed from H (high byte) and L (low byte). */
  function HlAddress(s: Snapshot): (addr: word)
    ensures addr / 0x100 == s.reg8[U8.H] && addr % 0x100 == s.reg8[U8.L]
  {
    Word(s.reg8[U8.H], s.reg8[U8.L])
  }

  /** The address computation on a state object: H and L read from its register array. */
  method SubopAddrFromHL(st: State) returns (addr: word)
    requires st.Valid()
    ensures addr == HlAddress(st.Value())
  {
    addr := Word(st.reg8[U8.H], st.reg8[U8.L]);
  }

  /** The value an instruction reads through an operand. */
  function OperandValue(s: Snapshot, o: Operand): byte
  {
    match o
    case Reg(r) => s.reg8[r]
    case M => s.mem[HlAddress(s)]
  }

  /** The memory of `post` equals that of `pre`, cell by cell. */
  predicate MemInvariant(pre: Snapshot, post: Snapshot)
  {
    pre.mem == post.mem
  }

  // ---- operand templates -----------------------------------------------------

  /**
   * A piece of a format string: literal text, or a placeholder `{k}` that is
   * replaced by the rendering of the k-th operand byte.
   */
  datatype Piece = Text(text: string) | Hole(index: nat)

  type Template = seq<Piece>

  /** Every placeholder of `t` names one of the first `n` operand bytes. */
  predicate HolesBelow(t: Template, n: nat)
  {
    forall i :: 0 <= i < |t| ==> (t[i].Hole? ==> t[i].index < n)
  }

  // ---- the instruction descriptor ----------------------------------------------

  /** What an instruction object is built from. */
  datatype Descriptor = Descriptor(
    code: byte,                  // the opcode
    name: string,                // the assembly mnemonic
    strArgs: seq<Template>,      // one template per printed operand
    byteArgCounts: seq<nat>,     // the operand bytes that follow the opcode
    comment: Template)           // the comment shown in disassembly

  /** The mnemonic, operand templates and comment, as the disassembler consumes them. */
  datatype DisassemblyLine = DisassemblyLine(name: string, strArgs: seq<Template>, comment: Template)

  /** The descriptor split into its printed part and its operand byte counts. */
  function DisassemblyData(d: Descriptor): (r: (DisassemblyLine, seq<nat>))
    ensures r.0.name == d.name && r.0.strArgs == d.strArgs && r.0.comment == d.comment
    ensures r.1 == d.byteArgCounts
  {
    (DisassemblyLine(d.name, d.strArgs, d.comment), d.byteArgCounts)
  }

  /** The descriptor is rebuilt from its code and its disassembly data: nothing is lost. */
  lemma DisassemblyDataRoundTrip(d: Descriptor)
    ensures var (line, counts) := DisassemblyData(d);
            Descriptor(d.code, line.name, line.strArgs, counts, line.comment) == d
  {
  }

  /**
   * Every placeholder in the operand templates and in the comment names an
   * operand byte the instruction actually has.
   */
  predicate FormatSafe(d: Descriptor)
  {
    && (forall j, i :: 0 <= j < |d.strArgs| && 0 <= i < |d.strArgs[j]| && d.strArgs[j][i].Hole? ==> d.strArgs[j][i].index < |d.byteArgCounts|)
    && HolesBelow(d.comment, |d.byteArgCounts|)
  }

  /** Each operand takes one byte, and there are at most two of them. */
  predicate SizesWellFormed(counts: seq<nat>)
  {
    counts == [] || counts == [1] || counts == [1, 1]
  }

  /** The number of operand bytes the disassembler reads after the opcode. */
  function OperandBytes(counts: seq<nat>): nat
  {
    if counts == [] then 0 else counts[0] + OperandBytes(counts[1..])
  }

  /** The instruction length in bytes: the opcode plus its operand bytes. */
  function Length(counts: seq<nat>): (n: nat)
    requires SizesWellFormed(counts)
    ensures 1 <= n <= 3
    ensures n == 1 + OperandBytes(counts)
  {
    assert counts == [1, 1] ==> counts[1..] == [1] && counts[1..][1..] == [];
    assert counts == [1] ==> counts[1..] == [];
    1 + |counts|
  }

  /** The operand value read from a state object. */
  method ReadOperand(st: State, o: Operand) returns (v: byte)
    requires st.Valid()
    ensures v == OperandValue(st.Value(), o)
  {
    match o
    case Reg(r) =>
      v := st.reg8[r];
    case M =>
      var addr := SubopAddrFromHL(st);
      v := st.mem[addr];
  }

  /** A template holding just a register's name. */
  function RegName(r: U8.Reg): Template
  {
    [Text(U8.ToString(r))]
  }
}
