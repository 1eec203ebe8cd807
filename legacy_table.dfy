// The legacy disassembly table: for every opcode it lists, the mnemonic,
// the operand templates, the operand byte counts and the comment. It is
// kept one constant per high nibble of the opcode, and looked up by code.
module LegacyTable {
  import opened Bytes
  import opened Outcomes
  import opened OpBase

  /** Opcodes 0x00-0x0F (emulator/opcodes/__init__.py, lines 203-218). */
  const ROW_0: seq<Descriptor> := [
    Descriptor(0x00, "nop", [], [], []),
    Descriptor(0x01, "lxi", [[Text("B")], [Hole(1), Hole(0)]], [1, 1], [Text("\t\t; B := data:"), Hole(1), Text("; C := data:"), Hole(0)]),
    Descriptor(0x02, "stax", [[Text("B")]], [], [Text("\t\t\t; (BC) := A")]),
    Descriptor(0x03, "inx", [[Text("B")]], [], [Text("\t\t\t; BC := BC + 1")]),
    Descriptor(0x04, "inr", [[Text("B")]], [], [Text("\t\t\t; B := B + 1; set flags Z, S, P, AC")]),
    Descriptor(0x05, "dcr", [[Text("B")]], [], [Text("\t\t\t; B := B - 1; set flags Z, S, P, AC")]),
    Descriptor(0x06, "mvi", [[Text("B")], [Hole(0)]], [1], [Text("\t\t; B := data:"), Hole(0)]),
    Descriptor(0x07, "rlc", [], [], [Text("\t\t\t; A := A << 1; A[0] := A_prev[7]; CY = A_prev[7]")]),
    Descriptor(0x08, "*nop", [], [], [Text("\t\t\t; nonstandard no op")]),
    Descriptor(0x09, "dad", [[Text("B")]], [], [Text("\t\t\t; HL = HL + BC; set flags CY")]),
    Descriptor(0x0A, "ldax", [[Text("B")]], [], [Text("\t\t\t; A := (BC)")]),
    Descriptor(0x0B, "dcx", [[Text("B")]], [], [Text("\t\t\t; BC = BC - 1")]),
    Descriptor(0x0C, "inr", [[Text("C")]], [], [Text("\t\t\t; C := C + 1; set flags Z, S, P, AC")]),
    Descriptor(0x0D, "dcr", [[Text("C")]], [], [Text("\t\t\t; C := C - 1; set flags Z, S, P, AC")]),
    Descriptor(0x0E, "mvi", [[Text("C")], [Hole(0)]], [1], [Text("\t\t; C := data:"), Hole(0)]),
    Descriptor(0x0F, "rrc", [], [], [Text("\t\t\t; A := A >> 1; A[7] = A_prev[0], CY = A_prev[0]")])
  ]

  /** Opcodes 0x10-0x1F (emulator/opcodes/__init__.py, lines 220-234). */
  const ROW_1: seq<Descriptor> := [
    Descriptor(0x10, "*nop", [], [], [Text("\t\t\t; nonstandard no op")]),
    Descriptor(0x11, "lxi", [[Text("D")], [Hole(1), Hole(0)]], [1, 1], [Text("\t\t; D := data:"), Hole(1), Text("; E := data:"), Hole(0)]),
    Descriptor(0x12, "stax", [[Text("D")]], [], [Text("\t\t\t; (DE) := A")]),
    Descriptor(0x13, "inx", [[Text("D")]], [], [Text("\t\t\t; (DE) := (DE) + 1")]),
    Descriptor(0x14, "inr", [[Text("D")]], [], [Text("\t\t\t; D := D + 1; set flags Z, S, P, AC")]),
    Descriptor(0x15, "dcr", [[Text("D")]], [], [Text("\t\t\t; D := D - 1; set flags Z, S, P, AC")]),
    Descriptor(0x16, "mvi", [[Text("D")], [Hole(0)]], [1], [Text("\t\t; D := data:"), Hole(0)]),
    Descriptor(0x18, "*nop", [], [], [Text("\t\t\t; nonstandard no op")]),
    Descriptor(0x19, "dad", [[Text("D")]], [], [Text("\t\t\t; HL = HL + DE, set flags CY")]),
    Descriptor(0x1A, "ldax", [[Text("D")]], [], [Text("\t\t\t; A := (DE)")]),
    Descriptor(0x1B, "dcx", [[Text("D")]], [], [Text("\t\t\t; DE = DE - 1")]),
    Descriptor(0x1C, "inr", [[Text("E")]], [], [Text("\t\t\t; E := E + 1; set flags Z, S, P, AC")]),
    Descriptor(0x1D, "dcr", [[Text("E")]], [], [Text("\t\t\t; E := E - 1; set flags Z, S, P, AC")]),
    Descriptor(0x1E, "mvi", [[Text("E")], [Hole(0)]], [1], [Text("\t\t\t; E := data:"), Hole(0)]),
    Descriptor(0x1F, "rar", [], [], [Text("\t\t\t; A := A >> 1; A[7] := A_prev[7]; CY := A_prev[0]")])
  ]

  /** Opcodes 0x20-0x2F (emulator/opcodes/__init__.py, lines 236-250). */
  const ROW_2: seq<Descriptor> := [
    Descriptor(0x20, "rim", [], [], [Text("\t\t\t; \"special\", nop")]),
    Descriptor(0x21, "lxi", [[Text("H")], [Hole(1), Hole(0)]], [1, 1], [Text("\t\t; H := data:"), Hole(1), Text("; L := data:"), Hole(0)]),
    Descriptor(0x22, "shld", [[Text("$"), Hole(1), Hole(0)]], [1, 1], [Text("\t\t; (addr:"), Hole(1), Hole(0), Text(") := L; (addr:"), Hole(1), Hole(0), Text(" + 1) := H")]),
    Descriptor(0x23, "inx", [[Text("H")]], [], [Text("\t\t\t; H := H + 1")]),
    Descriptor(0x24, "inr", [[Text("H")]], [], [Text("\t\t\t; H := H + 1; set flags Z, S, P, AC")]),
    Descriptor(0x25, "dcr", [[Text("H")]], [], [Text("\t\t\t; H := H - 1; set flags Z, S, P, AC")]),
    Descriptor(0x26, "mvi", [[Text("H")], [Hole(0)]], [1], [Text("\t\t; L := data:"), Hole(0)]),
    Descriptor(0x27, "daa", [], [], [Text("\t\t\t; \"special\"")]),
    Descriptor(0x28, "*nop", [], [], [Text("\t\t\t; nonstandard no op")]),
    Descriptor(0x29, "dad", [[Text("H")]], [], [Text("\t\t\t; HL = HL + HI, set flags CY")]),
    Descriptor(0x2A, "lhld", [[Hole(1), Hole(0)]], [1, 1], [Text("\t\t; L := (addr:"), Hole(1), Hole(0), Text("); H := (addr:"), Hole(1), Hole(0), Text(" + 1)")]),
    Descriptor(0x2B, "dcx", [[Text("H")]], [], [Text("\t\t\t; HL := HL - 1")]),
    Descriptor(0x2C, "inr", [[Text("L")]], [], [Text("\t\t\t; L = L + 1; set flags Z, S, P, AC")]),
    Descriptor(0x2E, "mvi", [[Text("L")], [Hole(0)]], [1], [Text("\t\t; L := data:"), Hole(0)]),
    Descriptor(0x2F, "cma", [], [], [Text("\t\t\t; A := !A")])
  ]

  /** Opcodes 0x30-0x3F (emulator/opcodes/__init__.py, lines 252-265). */
  const ROW_3: seq<Descriptor> := [
    Descriptor(0x30, "sim", [], [], [Text("\t\t\t; \"special\"; i8080 opcodes lists as no op")]),
    Descriptor(0x31, "lxi", [[Text("SP")], [Hole(1), Hole(0)]], [1, 1], [Text("\t\t; SP[8:16] := data:"), Hole(1), Text("; SP[0:8] := data:"), Hole(0)]),
    Descriptor(0x32, "sta", [[Hole(1), Hole(0)]], [1, 1], [Text("\t\t; (addr:"), Hole(1), Hole(0), Text(") := A")]),
    Descriptor(0x34, "inr", [[Text("M")]], [], [Text("\t\t\t; (HL) := (HL) + 1, set flags Z, S, P, AC")]),
    Descriptor(0x35, "dcr", [[Text("M")]], [], [Text("\t\t\t; (HL) := (HL) - 1; set flags Z, S, P, AC")]),
    Descriptor(0x36, "mvi", [[Text("M")], [Hole(0)]], [1], [Text("\t\t; (HL) := data:"), Hole(0)]),
    Descriptor(0x37, "stc", [], [], [Text("\t\t\t; CY = 1")]),
    Descriptor(0x38, "*nop", [], [], [Text("\t\t\t; nonstandard no op")]),
    Descriptor(0x39, "dad", [[Text("SP")]], [], [Text("\t\t\t; HL = HL + SP; set flags CY")]),
    Descriptor(0x3A, "lda", [[Hole(1), Hole(0)]], [1, 1], [Text("\t\t; A := (addr:"), Hole(1), Hole(0), Text(")")]),
    Descriptor(0x3C, "inr", [[Text("A")]], [], [Text("\t\t\t; A := A + 1; set flags Z, S, P, AC")]),
    Descriptor(0x3D, "dcr", [[Text("A")]], [], [Text("\t\t\t; A := A - 1; set flags Z, S, P, AC")]),
    Descriptor(0x3E, "mvi", [[Text("A")], [Hole(0)]], [1], [Text("\t\t; A := "), Hole(0), Text(" (set immediate)")]),
    Descriptor(0x3F, "cmc", [], [], [Text("\t\t\t; CY = !CY; set flags CY")])
  ]

  /** Opcodes 0x40-0x4F (emulator/opcodes/__init__.py, lines 267-282). */
  const ROW_4: seq<Descriptor> := [
    Descriptor(0x40, "mov", [[Text("B")], [Text("B")]], [], [Text("\t\t; B := B")]),
    Descriptor(0x41, "mov", [[Text("B")], [Text("C")]], [], [Text("\t\t; B := C")]),
    Descriptor(0x42, "mov", [[Text("B")], [Text("D")]], [], [Text("\t\t; B := D")]),
    Descriptor(0x43, "mov", [[Text("B")], [Text("E")]], [], [Text("\t\t; B := E")]),
    Descriptor(0x44, "mov", [[Text("B")], [Text("H")]], [], [Text("\t\t; B := H")]),
    Descriptor(0x45, "mov", [[Text("B")], [Text("L")]], [], [Text("\t\t; B := L")]),
    Descriptor(0x46, "mov", [[Text("B")], [Text("M")]], [], [Text("\t\t; B := (HL)")]),
    Descriptor(0x47, "mov", [[Text("B")], [Text("A")]], [], [Text("\t\t; B := A")]),
    Descriptor(0x48, "mov", [[Text("C")], [Text("B")]], [], [Text("\t\t; C := B")]),
    Descriptor(0x49, "mov", [[Text("C")], [Text("C")]], [], [Text("\t\t; C := C")]),
    Descriptor(0x4A, "mov", [[Text("C")], [Text("D")]], [], [Text("\t\t; C := D")]),
    Descriptor(0x4B, "mov", [[Text("C")], [Text("E")]], [], [Text("\t\t; C := E")]),
    Descriptor(0x4C, "mov", [[Text("C")], [Text("H")]], [], [Text("\t\t; C := H")]),
    Descriptor(0x4D, "mov", [[Text("C")], [Text("L")]], [], [Text("\t\t; C := L")]),
    Descriptor(0x4E, "mov", [[Text("C")], [Text("M")]], [], [Text("\t\t; C := (HL)")]),
    Descriptor(0x4F, "mov", [[Text("C")], [Text("A")]], [], [Text("\t\t; C := A")])
  ]

  /** Opcodes 0x50-0x5F (emulator/opcodes/__init__.py, lines 284-292). */
  const ROW_5: seq<Descriptor> := [
    Descriptor(0x50, "mov", [[Text("D")], [Text("B")]], [], [Text("\t\t; D := B")]),
    Descriptor(0x51, "mov", [[Text("D")], [Text("C")]], [], [Text("\t\t; D := C")]),
    Descriptor(0x54, "mov", [[Text("D")], [Text("H")]], [], [Text("\t\t; D := H")]),
    Descriptor(0x56, "mov", [[Text("D")], [Text("M")]], [], [Text("\t\t; D := (HL)")]),
    Descriptor(0x57, "mov", [[Text("D")], [Text("A")]], [], [Text("\t\t; D := A")]),
    Descriptor(0x59, "mov", [[Text("E")], [Text("C")]], [], [Text("\t\t; E := C")]),
    Descriptor(0x5B, "mov", [[Text("E")], [Text("E")]], [], [Text("\t\t; E := E")]),
    Descriptor(0x5E, "mov", [[Text("E")], [Text("M")]], [], [Text("\t\t; E := (HL)")]),
    Descriptor(0x5F, "mov", [[Text("E")], [Text("A")]], [], [Text("\t\t; E := A")])
  ]

  /** Opcodes 0x60-0x6F (emulator/opcodes/__init__.py, lines 294-307). */
  const ROW_6: seq<Descriptor> := [
    Descriptor(0x60, "mov", [[Text("H")], [Text("B")]], [], [Text("\t\t; H := B")]),
    Descriptor(0x61, "mov", [[Text("H")], [Text("C")]], [], [Text("\t\t; H := C")]),
    Descriptor(0x62, "mov", [[Text("H")], [Text("D")]], [], [Text("\t\t; H := D")]),
    Descriptor(0x63, "mov", [[Text("H")], [Text("E")]], [], [Text("\t\t; H := E")]),
    Descriptor(0x64, "mov", [[Text("H")], [Text("H")]], [], [Text("\t\t; H := H")]),
    Descriptor(0x65, "mov", [[Text("H")], [Text("L")]], [], [Text("\t\t; H := L")]),
    Descriptor(0x66, "mov", [[Text("H")], [Text("M")]], [], [Text("\t\t; H := (HL)")]),
    Descriptor(0x67, "mov", [[Text("H")], [Text("A")]], [], [Text("\t\t; H := A")]),
    Descriptor(0x68, "mov", [[Text("L")], [Text("B")]], [], [Text("\t\t; L := B")]),
    Descriptor(0x69, "mov", [[Text("L")], [Text("C")]], [], [Text("\t\t; L := C")]),
    Descriptor(0x6C, "mov", [[Text("L")], [Text("H")]], [], [Text("\t\t; L := H")]),
    Descriptor(0x6D, "mov", [[Text("L")], [Text("L")]], [], [Text("\t\t; L := L")]),
    Descriptor(0x6E, "mov", [[Text("L")], [Text("M")]], [], [Text("\t\t; L := (HL)")]),
    Descriptor(0x6F, "mov", [[Text("L")], [Text("A")]], [], [Text("\t\t; L := A")])
  ]

  /** Opcodes 0x70-0x7F (emulator/opcodes/__init__.py, lines 309-323). */
  const ROW_7: seq<Descriptor> := [
    Descriptor(0x70, "mov", [[Text("M")], [Text("B")]], [], [Text("\t\t; (HL) := B")]),
    Descriptor(0x71, "mov", [[Text("M")], [Text("C")]], [], [Text("\t\t; (HL) := C")]),
    Descriptor(0x72, "mov", [[Text("M")], [Text("D")]], [], [Text("\t\t; (HL) := D")]),
    Descriptor(0x73, "mov", [[Text("M")], [Text("E")]], [], [Text("\t\t; (HL) := E")]),
    Descriptor(0x74, "mov", [[Text("M")], [Text("H")]], [], [Text("\t\t; (HL) := H")]),
    Descriptor(0x76, "hlt", [], [], [Text("\t\t\t; \"special\", halt machine")]),
    Descriptor(0x77, "mov", [[Text("M")], [Text("A")]], [], [Text("\t\t; (HL) := A")]),
    Descriptor(0x78, "mov", [[Text("A")], [Text("B")]], [], [Text("\t\t; A := B")]),
    Descriptor(0x79, "mov", [[Text("A")], [Text("C")]], [], [Text("\t\t; A := C")]),
    Descriptor(0x7A, "mov", [[Text("A")], [Text("D")]], [], [Text("\t\t; A := D")]),
    Descriptor(0x7B, "mov", [[Text("A")], [Text("E")]], [], [Text("\t\t; A := E")]),
    Descriptor(0x7C, "mov", [[Text("A")], [Text("H")]], [], [Text("\t\t; A := H")]),
    Descriptor(0x7D, "mov", [[Text("A")], [Text("L")]], [], [Text("\t\t; A := L")]),
    Descriptor(0x7E, "mov", [[Text("A")], [Text("M")]], [], [Text("\t\t; A := (HL)")]),
    Descriptor(0x7F, "mov", [[Text("A")], [Text("A")]], [], [Text("\t\t; A := A")])
  ]

  /** Opcodes 0x80-0x8F (emulator/opcodes/__init__.py, lines 325-335). */
  const ROW_8: seq<Descriptor> := [
    Descriptor(0x80, "add", [[Text("B")]], [], [Text("\t\t\t; A := A + B, set flags Z, S, P, CY, AC")]),
    Descriptor(0x81, "add", [[Text("C")]], [], [Text("\t\t\t; A := A + C, set flags Z, S, P, CY, AC")]),
    Descriptor(0x82, "add", [[Text("D")]], [], [Text("\t\t\t; A := A + D, set flags Z, S, P, CY, AC")]),
    Descriptor(0x83, "add", [[Text("E")]], [], [Text("\t\t\t; A := A + E, set flags Z, S, P, CY, AC")]),
    Descriptor(0x84, "add", [[Text("H")]], [], [Text("\t\t\t; A := A + H, set flags Z, S, P, CY, AC")]),
    Descriptor(0x85, "add", [[Text("L")]], [], [Text("\t\t\t; A := A + L, set flags Z, S, P, CY, AC")]),
    Descriptor(0x86, "add", [[Text("M")]], [], [Text("\t\t\t; A := A + (HL), set flags Z, S, P, CY, AC")]),
    Descriptor(0x88, "adc", [[Text("B")]], [], [Text("\t\t\t; A := A + B + CY; set flags Z, S, P, CY, AC")]),
    Descriptor(0x8A, "adc", [[Text("D")]], [], [Text("\t\t\t; A := A + D + CY; set flags Z, S, P, CY, AC")]),
    Descriptor(0x8B, "adc", [[Text("E")]], [], [Text("\t\t\t; A := A + E + CY; set flags Z, S, P, CY, AC")]),
    Descriptor(0x8E, "adc", [[Text("M")]], [], [Text("\t\t\t; A := A + (HL) + CY; set flags Z, S, P, CY, AC")])
  ]

  /** Opcodes 0x90-0x9F (emulator/opcodes/__init__.py, lines 337-345). */
  const ROW_9: seq<Descriptor> := [
    Descriptor(0x90, "sub", [[Text("B")]], [], [Text("\t\t\t; A := A - B; set flags Z, S, P, CY, AC")]),
    Descriptor(0x94, "sub", [[Text("H")]], [], [Text("\t\t\t; A := A - H; set flags Z, S, P, CY, AC")]),
    Descriptor(0x97, "sub", [[Text("A")]], [], [Text("\t\t\t; A := A - A; set flags Z, S, P, CY, AC")]),
    Descriptor(0x98, "sbb", [[Text("B")]], [], [Text("\t\t\t; A := A - B - CY; set flags Z, S, P, CY, AC")]),
    Descriptor(0x99, "sbb", [[Text("C")]], [], [Text("\t\t\t; A := A - C - CY; set flags Z, S, P, CY, AC")]),
    Descriptor(0x9A, "sbb", [[Text("D")]], [], [Text("\t\t\t; A := A - D - CY; set flags Z, S, P, CY, AC")]),
    Descriptor(0x9B, "sbb", [[Text("E")]], [], [Text("\t\t\t; A := A - E - CY; set flags Z, S, P, CY, AC")]),
    Descriptor(0x9D, "sbb", [[Text("L")]], [], [Text("\t\t\t; A := A - L - CY; set flags Z, S, P, CY, AC")]),
    Descriptor(0x9E, "sbb", [[Text("M")]], [], [Text("\t\t\t; A := A - (HL) - CY; set flags Z, S, P, CY, AC")])
  ]

  /** Opcodes 0xA0-0xAF (emulator/opcodes/__init__.py, lines 347-353). */
  const ROW_A: seq<Descriptor> := [
    Descriptor(0xA0, "ana", [[Text("B")]], [], [Text("\t\t\t; A = A & B; set flags Z, S, O, CY, AC")]),
    Descriptor(0xA3, "ana", [[Text("E")]], [], [Text("\t\t\t; A = A & E; set flags Z, S, O, CY, AC")]),
    Descriptor(0xA6, "ana", [[Text("M")]], [], [Text("\t\t\t; A = A & M; set flags Z, S, O, CY, AC")]),
    Descriptor(0xA7, "ana", [[Text("A")]], [], [Text("\t\t\t; A = A & A; set flags Z, S, O, CY, AC")]),
    Descriptor(0xA8, "xra", [[Text("B")]], [], [Text("\t\t\t; A := A ^ B; set flags Z, S, O, CY, AC")]),
    Descriptor(0xAA, "xra", [[Text("D")]], [], [Text("\t\t\t; A = A ^ D, set flags Z, S, O, CY, AC")]),
    Descriptor(0xAF, "xra", [[Text("A")]], [], [Text("\t\t\t; A = A ^ A, set flags Z, S, O, CY, AC")])
  ]

  /** Opcodes 0xB0-0xBF (emulator/opcodes/__init__.py, lines 355-362). */
  const ROW_B: seq<Descriptor> := [
    Descriptor(0xB0, "ora", [[Text("B")]], [], [Text("\t\t\t; A := A | B; set flags Z, S, P, CY, AC")]),
    Descriptor(0xB3, "ora", [[Text("E")]], [], [Text("\t\t\t; A := A | E; set flags Z, S, P, CY, AC")]),
    Descriptor(0xB4, "ora", [[Text("H")]], [], [Text("\t\t\t; A := A | H; set flags Z, S, P, CY, AC")]),
    Descriptor(0xB6, "ora", [[Text("M")]], [], [Text("\t\t\t; A := A | (HL); set flags Z, S, P, CY, AC")]),
    Descriptor(0xB8, "cmp", [[Text("B")]], [], [Text("\t\t\t; A - B; set flags Z, S, P, CY, AC")]),
    Descriptor(0xBB, "cmp", [[Text("E")]], [], [Text("\t\t\t; A - E; set flags Z, S, P, CY, AC")]),
    Descriptor(0xBC, "cmp", [[Text("H")]], [], [Text("\t\t\t; A - H; set flags Z, S, P, CY, AC")]),
    Descriptor(0xBE, "cmp", [[Text("M")]], [], [Text("\t\t\t; A - (HL); set flags Z, S, P, CY, AC")])
  ]

  /** Opcodes 0xC0-0xCF (emulator/opcodes/__init__.py, lines 364-375). */
  const ROW_C: seq<Descriptor> := [
    Descriptor(0xC0, "rnz", [], [], [Text("\t\t\t; if NZ; return")]),
    Descriptor(0xC1, "pop", [[Text("B")]], [], [Text("\t\t\t; C := (SP); B := (SP + 1); SP := SP + 2")]),
    Descriptor(0xC2, "jnz", [[Text("$"), Hole(1), Hole(0)]], [1, 1], [Text("\t\t; if NZ; PC := addr:"), Hole(1), Hole(0)]),
    Descriptor(0xC3, "jmp", [[Text("$"), Hole(1), Hole(0)]], [1, 1], [Text("\t\t; PC := addr:"), Hole(1), Hole(0)]),
    Descriptor(0xC4, "cnz", [[Text("$"), Hole(1), Hole(0)]], [1, 1], [Text("\t\t; if NZ; call addr:"), Hole(1), Hole(0)]),
    Descriptor(0xC5, "push", [[Text("B")]], [], [Text("\t\t\t; (SP - 2) := C; (SP - 1) := B; SP := SP - 2")]),
    Descriptor(0xC6, "adi", [[Hole(0)]], [1], [Text("\t\t\t; A := A + data:"), Hole(0), Text(" (add immediate)")]),
    Descriptor(0xC8, "rz", [], [], [Text("\t\t\t; if Z; return")]),
    Descriptor(0xC9, "ret", [], [], [Text("\t\t\t; PC[0:8] := (SP); PC[8:16] := (SP + 1); SP := SP + 2")]),
    Descriptor(0xCA, "jz", [[Text("$"), Hole(1), Hole(0)]], [1, 1], [Text("\t\t\t; if Z; PC := addr:"), Hole(1), Hole(0)]),
    Descriptor(0xCC, "cz", [[Text("$"), Hole(1), Hole(0)]], [1, 1], [Text("\t\t\t; if Z; call addr:"), Hole(1), Hole(0)]),
    Descriptor(0xCD, "call", [[Text("$"), Hole(1), Hole(0)]], [1, 1], [Text("\t\t; (SP - 1) := PC[8:16]; (SP - 2) := PC[0:8]; SP = SP + 2; PC = addr:"), Hole(0)])
  ]

  /** Opcodes 0xD0-0xDF (emulator/opcodes/__init__.py, lines 377-387). */
  const ROW_D: seq<Descriptor> := [
    Descriptor(0xD0, "rnc", [], [], [Text("\t\t\t; if NCY; return")]),
    Descriptor(0xD1, "pop", [[Text("D")]], [], [Text("\t\t\t; E := (SP); D := (SP - 1); SP = SP + 2")]),
    Descriptor(0xD2, "jnc", [[Text("$"), Hole(1), Hole(0)]], [1, 1], [Text("\t\t; if NCY, PC := addr:"), Hole(1), Hole(0)]),
    Descriptor(0xD3, "out", [[Hole(0)]], [1], [Text("\t\t\t; special")]),
    Descriptor(0xD4, "cnc", [[Text("$"), Hole(1), Hole(0)]], [1, 1], [Text("\t\t\t; if NCY; call addr:"), Hole(1), Hole(0)]),
    Descriptor(0xD5, "push", [[Text("D")]], [], [Text("\t\t\t; (SP - 2) := E; (SP - 1) := D; SP := SP - 2")]),
    Descriptor(0xD6, "sui", [[Hole(0)]], [1], [Text("\t\t\t; A := A - data:"), Hole(0), Text("; set flags Z, S, P, CY, AC")]),
    Descriptor(0xD8, "rc", [], [], [Text("\t\t\t; if CY; ret")]),
    Descriptor(0xDA, "jc", [[Text("$"), Hole(1), Hole(0)]], [1, 1], [Text("\t\t\t; if CY, PC := addr:"), Hole(1), Hole(0)]),
    Descriptor(0xDB, "in", [[Text("#$"), Hole(0)]], [1], [Text("\t\t\t; interrupt")]),
    Descriptor(0xDE, "sbi", [[Hole(0)]], [1], [Text("\t\t\t; A := A - data:"), Hole(0), Text(" - CY; set flags Z, S, P, CY, AC")])
  ]

  /** Opcodes 0xE0-0xEF (emulator/opcodes/__init__.py, lines 389-399). */
  const ROW_E: seq<Descriptor> := [
    Descriptor(0xE0, "rpo", [], [], [Text("\t\t\t; if PO, return")]),
    Descriptor(0xE1, "pop", [[Text("H")]], [], [Text("\t\t\t; L := (SP); H := (SP + 1); SP := SP + 2")]),
    Descriptor(0xE2, "jpo", [[Text("$"), Hole(1), Hole(0)]], [1, 1], [Text("\t\t; if PO, PC := addr:"), Hole(1), Hole(0)]),
    Descriptor(0xE3, "xthl", [], [], [Text("\t\t\t; L <=> (SP); H <=> (SP + 1)")]),
    Descriptor(0xE5, "push", [[Text("H")]], [], [Text("\t\t\t; (SP - 2) := L; (SP - 1) := H; SP := SP - 2")]),
    Descriptor(0xE6, "ani", [[Text("A")], [Hole(0)]], [1], [Text("\t\t; A := A & data:"), Hole(0), Text("; set flags Z, S, P, CY, AC")]),
    Descriptor(0xE9, "pchl", [], [], [Text("\t\t\t; PC[8:16] = H; PC[0:7] = L")]),
    Descriptor(0xEA, "jpe", [[Text("$"), Hole(1), Hole(0)]], [1, 1], [Text("\t\t; if PE; PC := addr:"), Hole(1), Hole(0)]),
    Descriptor(0xEB, "xchg", [], [], [Text("\t\t\t; H <=> D, L <=> E")]),
    Descriptor(0xEC, "cpe", [[Text("$"), Hole(1), Hole(0)]], [1, 1], [Text("\t\t; if PE, call addr:"), Hole(1), Hole(0)]),
    Descriptor(0xEE, "xri", [[Hole(0)]], [1], [Text("\t\t\t; A := A ^ data:"), Hole(0), Text(" set flags Z, S, P, CY, AC")])
  ]

  /** Opcodes 0xF0-0xFF (emulator/opcodes/__init__.py, lines 401-410). */
  const ROW_F: seq<Descriptor> := [
    Descriptor(0xF0, "rp", [], [], [Text("\t\t\t; if P; return")]),
    Descriptor(0xF1, "pop", [[Text("PSW")]], [], [Text("\t\t\t; flags := (SP); A := (SP + 1); SP := SP + 2")]),
    Descriptor(0xF5, "push", [[Text("PSW")]], [], [Text("\t\t; (SP - 2) := flags; (SP - 1) := A; SP := SP - 2")]),
    Descriptor(0xF6, "ori", [[Hole(0)]], [1], [Text("\t\t\t; A := A | data:"), Hole(0), Text("; set flags Z, S, P, CY, AC")]),
    Descriptor(0xF8, "rm", [], [], [Text("\t\t\t; if M; ret")]),
    Descriptor(0xFA, "jm", [[Text("$"), Hole(1), Hole(0)]], [1, 1], [Text("\t\t\t; if M; PC := addr:"), Hole(1), Hole(0)]),
    Descriptor(0xFB, "ei", [], [], [Text("\t\t\t; \"special\"")]),
    Descriptor(0xFC, "cm", [[Text("$"), Hole(1), Hole(0)]], [1, 1], [Text("\t\t\t; if M, call addr:"), Hole(1), Hole(0)]),
    Descriptor(0xFE, "cpi", [[Hole(0)]], [1], [Text("\t\t\t; A - data:"), Hole(0), Text(" (compare immediate)")]),
    Descriptor(0xFF, "rst", [[Text("#7")]], [], [Text("\t\t\t; quick call addr:38")])
  ]
  /** The table, one row per high nibble of the opcode. */
  const ROWS: seq<seq<Descriptor>> :=
    [ROW_0, ROW_1, ROW_2, ROW_3, ROW_4, ROW_5, ROW_6, ROW_7,
     ROW_8, ROW_9, ROW_A, ROW_B, ROW_C, ROW_D, ROW_E, ROW_F]

  /** The entry of `row` for `code`, if the row lists one. */
  function Find(row: seq<Descriptor>, code: byte): (r: Option<Descriptor>)
    ensures r.Some? ==> r.value in row && r.value.code == code
    ensures r.None? <==> forall d :: d in row ==> d.code != code
  {
    if row == [] then None
    else if row[0].code == code then Some(row[0])
    else
      var r := Find(row[1..], code);
      assert forall d :: d in row ==> d == row[0] || d in row[1..];
      r
  }

  /** The first entry of `row` whose code matches is the one found. */
  lemma {:induction false} FindAt(row: seq<Descriptor>, code: byte, i: nat)
    requires i < |row| && row[i].code == code
    requires forall j :: 0 <= j < i ==> row[j].code != code
    ensures Find(row, code) == Some(row[i])
  {
    if i > 0 {
      FindAt(row[1..], code, i - 1);
    }
  }

  /** The table entry for an opcode. */
  function Lookup(code: byte): Option<Descriptor>
  {
    Find(ROWS[code / 16], code)
  }

  /** Some operand template prints a two-byte operand high byte first: `{1}{0}`. */
  predicate RendersWord(args: seq<Template>)
  {
    args != [] && (HasWordHole(args[0]) || RendersWord(args[1..]))
  }

  /** The template holds the placeholder pair `{1}{0}`. */
  predicate HasWordHole(t: Template)
  {
    |t| >= 2 && ((t[0] == Hole(1) && t[1] == Hole(0)) || HasWordHole(t[1..]))
  }

  /** An entry's operand sizes are 0, 1 or 2 single bytes, and a two-byte operand prints as a word. */
  predicate Shaped(d: Descriptor)
  {
    && SizesWellFormed(d.byteArgCounts)
    && (d.byteArgCounts == [1, 1] ==> RendersWord(d.strArgs))
  }

  /**
   * What every entry satisfies: 0, 1 or 2 one-byte operands, placeholders
   * only for operand bytes the instruction has, and a two-byte operand
   * printed as a little-endian word.
   */
  predicate EntryOk(d: Descriptor)
  {
    Shaped(d) && FormatSafe(d)
  }

  /** Every entry of the row is well formed. */
  predicate RowOk(row: seq<Descriptor>)
  {
    forall i :: 0 <= i < |row| ==> EntryOk(row[i])
  }

  /** A row is well formed once its entries are shaped and format-safe. */
  lemma RowOkOf(row: seq<Descriptor>)
    requires forall i :: 0 <= i < |row| ==> Shaped(row[i])
    requires forall i :: 0 <= i < |row| ==> FormatSafe(row[i])
    ensures RowOk(row)
  {
  }

  lemma Row0Shaped()
    ensures forall i :: 0 <= i < |ROW_0| ==> Shaped(ROW_0[i])
  {
  }

  lemma Row0FormatSafe()
    ensures forall i :: 0 <= i < |ROW_0| ==> FormatSafe(ROW_0[i])
  {
  }

  lemma Row1Shaped()
    ensures forall i :: 0 <= i < |ROW_1| ==> Shaped(ROW_1[i])
  {
  }

  lemma Row1FormatSafe()
    ensures forall i :: 0 <= i < |ROW_1| ==> FormatSafe(ROW_1[i])
  {
  }

  lemma Row2Shaped()
    ensures forall i :: 0 <= i < |ROW_2| ==> Shaped(ROW_2[i])
  {
  }

  lemma Row2FormatSafe()
    ensures forall i :: 0 <= i < |ROW_2| ==> FormatSafe(ROW_2[i])
  {
  }

  lemma Row3Shaped()
    ensures forall i :: 0 <= i < |ROW_3| ==> Shaped(ROW_3[i])
  {
  }

  lemma Row3FormatSafe()
    ensures forall i :: 0 <= i < |ROW_3| ==> FormatSafe(ROW_3[i])
  {
  }

  lemma Row4Shaped()
    ensures forall i :: 0 <= i < |ROW_4| ==> Shaped(ROW_4[i])
  {
  }

  lemma Row4FormatSafe()
    ensures forall i :: 0 <= i < |ROW_4| ==> FormatSafe(ROW_4[i])
  {
  }

  lemma Row5Shaped()
    ensures forall i :: 0 <= i < |ROW_5| ==> Shaped(ROW_5[i])
  {
  }

  lemma Row5FormatSafe()
    ensures forall i :: 0 <= i < |ROW_5| ==> FormatSafe(ROW_5[i])
  {
  }

  lemma Row6Shaped()
    ensures forall i :: 0 <= i < |ROW_6| ==> Shaped(ROW_6[i])
  {
  }

  lemma Row6FormatSafe()
    ensures forall i :: 0 <= i < |ROW_6| ==> FormatSafe(ROW_6[i])
  {
  }

  lemma Row7Shaped()
    ensures forall i :: 0 <= i < |ROW_7| ==> Shaped(ROW_7[i])
  {
  }

  lemma Row7FormatSafe()
    ensures forall i :: 0 <= i < |ROW_7| ==> FormatSafe(ROW_7[i])
  {
  }

  lemma Row8Shaped()
    ensures forall i :: 0 <= i < |ROW_8| ==> Shaped(ROW_8[i])
  {
  }

  lemma Row8FormatSafe()
    ensures forall i :: 0 <= i < |ROW_8| ==> FormatSafe(ROW_8[i])
  {
  }

  lemma Row9Shaped()
    ensures forall i :: 0 <= i < |ROW_9| ==> Shaped(ROW_9[i])
  {
  }

  lemma Row9FormatSafe()
    ensures forall i :: 0 <= i < |ROW_9| ==> FormatSafe(ROW_9[i])
  {
  }

  lemma RowAShaped()
    ensures forall i :: 0 <= i < |ROW_A| ==> Shaped(ROW_A[i])
  {
  }

  lemma RowAFormatSafe()
    ensures forall i :: 0 <= i < |ROW_A| ==> FormatSafe(ROW_A[i])
  {
  }

  lemma RowBShaped()
    ensures forall i :: 0 <= i < |ROW_B| ==> Shaped(ROW_B[i])
  {
  }

  lemma RowBFormatSafe()
    ensures forall i :: 0 <= i < |ROW_B| ==> FormatSafe(ROW_B[i])
  {
  }

  lemma RowCShaped()
    ensures forall i :: 0 <= i < |ROW_C| ==> Shaped(ROW_C[i])
  {
  }

  lemma RowCFormatSafe()
    ensures forall i :: 0 <= i < |ROW_C| ==> FormatSafe(ROW_C[i])
  {
  }

  lemma RowDShaped()
    ensures forall i :: 0 <= i < |ROW_D| ==> Shaped(ROW_D[i])
  {
  }

  lemma RowDFormatSafe()
    ensures forall i :: 0 <= i < |ROW_D| ==> FormatSafe(ROW_D[i])
  {
  }

  lemma RowEShaped()
    ensures forall i :: 0 <= i < |ROW_E| ==> Shaped(ROW_E[i])
  {
  }

  lemma RowEFormatSafe()
    ensures forall i :: 0 <= i < |ROW_E| ==> FormatSafe(ROW_E[i])
  {
  }

  lemma RowFShaped()
    ensures forall i :: 0 <= i < |ROW_F| ==> Shaped(ROW_F[i])
  {
  }

  lemma RowFFormatSafe()
    ensures forall i :: 0 <= i < |ROW_F| ==> FormatSafe(ROW_F[i])
  {
  }

  /** Every row of the table is well formed. */
  lemma RowOkAt(k: nat)
    requires k < 16
    ensures RowOk(ROWS[k])
  {
    if k == 0 {
      Row0Shaped(); Row0FormatSafe(); RowOkOf(ROW_0);
      assert ROWS[0] == ROW_0;
    }
    else if k == 1 {
      Row1Shaped(); Row1FormatSafe(); RowOkOf(ROW_1);
      assert ROWS[1] == ROW_1;
    }
    else if k == 2 {
      Row2Shaped(); Row2FormatSafe(); RowOkOf(ROW_2);
      assert ROWS[2] == ROW_2;
    }
    else if k == 3 {
      Row3Shaped(); Row3FormatSafe(); RowOkOf(ROW_3);
      assert ROWS[3] == ROW_3;
    }
    else if k == 4 {
      Row4Shaped(); Row4FormatSafe(); RowOkOf(ROW_4);
      assert ROWS[4] == ROW_4;
    }
    else if k == 5 {
      Row5Shaped(); Row5FormatSafe(); RowOkOf(ROW_5);
      assert ROWS[5] == ROW_5;
    }
    else if k == 6 {
      Row6Shaped(); Row6FormatSafe(); RowOkOf(ROW_6);
      assert ROWS[6] == ROW_6;
    }
    else if k == 7 {
      Row7Shaped(); Row7FormatSafe(); RowOkOf(ROW_7);
      assert ROWS[7] == ROW_7;
    }
    else if k == 8 {
      Row8Shaped(); Row8FormatSafe(); RowOkOf(ROW_8);
      assert ROWS[8] == ROW_8;
    }
    else if k == 9 {
      Row9Shaped(); Row9FormatSafe(); RowOkOf(ROW_9);
      assert ROWS[9] == ROW_9;
    }
    else if k == 10 {
      RowAShaped(); RowAFormatSafe(); RowOkOf(ROW_A);
      assert ROWS[10] == ROW_A;
    }
    else if k == 11 {
      RowBShaped(); RowBFormatSafe(); RowOkOf(ROW_B);
      assert ROWS[11] == ROW_B;
    }
    else if k == 12 {
      RowCShaped(); RowCFormatSafe(); RowOkOf(ROW_C);
      assert ROWS[12] == ROW_C;
    }
    else if k == 13 {
      RowDShaped(); RowDFormatSafe(); RowOkOf(ROW_D);
      assert ROWS[13] == ROW_D;
    }
    else if k == 14 {
      RowEShaped(); RowEFormatSafe(); RowOkOf(ROW_E);
      assert ROWS[14] == ROW_E;
    }
    else {
      RowFShaped(); RowFFormatSafe(); RowOkOf(ROW_F);
      assert ROWS[15] == ROW_F;
    }
  }

  /**
   * Every entry of the table is well formed: instructions are one to three
   * bytes long, every placeholder names an operand byte, and two-byte
   * operands print high byte first.
   */
  lemma LookupWellFormed(code: byte)
    requires Lookup(code).Some?
    ensures Lookup(code).value.code == code
    ensures EntryOk(Lookup(code).value)
    ensures 1 <= Length(Lookup(code).value.byteArgCounts) <= 3
  {
    RowOkAt(code / 16);
  }

  /** 0x76 is listed as `hlt`, without operands. */
  lemma HaltEntry()
    ensures Lookup(0x76).Some? && Lookup(0x76).value.name == "hlt"
    ensures Lookup(0x76).value.byteArgCounts == []
  {
    assert ROWS[7] == ROW_7;
    FindAt(ROW_7, 0x76, 5);
  }

  /** The unconditional jump prints its two operand bytes as the target address. */
  lemma JumpEntry()
    ensures Lookup(0xC3).Some? && Lookup(0xC3).value.name == "jmp"
    ensures Lookup(0xC3).value.byteArgCounts == [1, 1]
    ensures Lookup(0xC3).value.strArgs == [[Text("$"), Hole(1), Hole(0)]]
  {
    assert ROWS[12] == ROW_C;
    FindAt(ROW_C, 0xC3, 3);
  }
}
