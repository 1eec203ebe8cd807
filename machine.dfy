// The machine-control group: NOP.
module MachineOps {
  import opened Bytes
  import opened Machine
  import opened OpBase
  import U16

  /** NOP is opcode 0x00, with no operand bytes and an empty comment. */
  function NopDescriptor(): (d: Descriptor)
    ensures d.code == 0x00 && d.name == "nop" && d.byteArgCounts == []
    ensures FormatSafe(d)
  {
    Descriptor(0x00, "nop", [], [], [])
  }

  /** NOP's body: it writes nothing at all. */
  method NopStep(st: State)
    requires st.Valid()
    ensures st.Value() == old(st.Value())
  {
  }

  /**
   * NOP's self-test, over the state before the fetch and the state after the
   * step: memory and the 8-bit registers are unchanged and PC moved by one.
   */
  predicate NopTest(pre: Snapshot, post: Snapshot)
  {
    && post.mem == pre.mem
    && post.reg8 == pre.reg8
    && post.reg16[U16.PC] == Wrap16(pre.reg16[U16.PC] as int + 1)
  }
}
