// Register indices of the machine state. The three modules mirror the
// index enumerations of the source: the position of each register or flag
// in its storage array.

/** Positions of the seven 8-bit registers in the 8-bit register array. */
module U8 {
  const A: nat := 0
  const B: nat := 1
  const C: nat := 2
  const D: nat := 3
  const E: nat := 4
  const H: nat := 5
  const L: nat := 6

  const MAX_REG: nat := 7

  /** A valid index into the 8-bit register array. */
  type Reg = r: nat | r < MAX_REG

  /** The register's one-letter name, as shown in disassembly. */
  function ToString(r: Reg): (name: string)
    ensures |name| == 1
  {
    ["ABCDEHL"[r]]
  }

  /** Each register is shown by its own letter, so no two share a name. */
  lemma RegisterNames()
    ensures ToString(A) == "A" && ToString(B) == "B" && ToString(C) == "C" && ToString(D) == "D"
    ensures ToString(E) == "E" && ToString(H) == "H" && ToString(L) == "L"
    ensures forall r: Reg, r': Reg :: ToString(r) == ToString(r') ==> r == r'
  {
  }
}

/** Positions of the two 16-bit registers in the 16-bit register array. */
module U16 {
  const SP: nat := 0
  const PC: nat := 1

  const MAX_REG: nat := 2
}

/** Positions of the seven flag cells in the flag array. */
module F {
  const Z: nat := 0
  const S: nat := 1
  const P: nat := 2
  const CY: nat := 3
  const AC: nat := 4
  const E: nat := 5
  const DI: nat := 6

  const MAX_REG: nat := 7
}

/** The machine state: register file, flags and 64 KiB of memory. */
module Machine {
  import opened Bytes
  import opened Outcomes
  import U8
  import U16
  import F

  const MEMSIZE: nat := 0x1_0000

  /** The contents of the four storage arrays, as values. */
  datatype StateValue = StateValue(reg8: seq<byte>, reg16: seq<word>, flags: seq<bool>, mem: seq<byte>)

  /** A state value whose arrays have the sizes the machine fixes. */
  type Snapshot = v: StateValue
    | |v.reg8| == U8.MAX_REG && |v.reg16| == U16.MAX_REG && |v.flags| == F.MAX_REG && |v.mem| == MEMSIZE
    witness StateValue(seq(7, _ => 0), seq(2, _ => 0), seq(7, _ => false), seq(0x1_0000, _ => 0))

  /** The state a freshly constructed `State` holds: everything zero or false. */
  function Zeroed(): (s: Snapshot)
    ensures forall r :: 0 <= r < U8.MAX_REG ==> s.reg8[r] == 0
    ensures forall r :: 0 <= r < U16.MAX_REG ==> s.reg16[r] == 0
    ensures forall f :: 0 <= f < F.MAX_REG ==> !s.flags[f]
    ensures forall a :: 0 <= a < MEMSIZE ==> s.mem[a] == 0
  {
    StateValue(seq(U8.MAX_REG, _ => 0), seq(U16.MAX_REG, _ => 0), seq(F.MAX_REG, _ => false), seq(MEMSIZE, _ => 0))
  }

  /** The value of the program counter. */
  function PC(s: Snapshot): word
  {
    s.reg16[U16.PC]
  }

  /** The state with PC advanced by `k`, modulo 2^16. */
  function AdvancePC(s: Snapshot, k: nat): (t: Snapshot)
    ensures t.reg16[U16.PC] == (s.reg16[U16.PC] + k) % 0x1_0000
    ensures t.reg8 == s.reg8 && t.flags == s.flags && t.mem == s.mem
    ensures t.reg16[U16.SP] == s.reg16[U16.SP]
  {
    s.(reg16 := s.reg16[U16.PC := Wrap16(s.reg16[U16.PC] + k)])
  }

  // ---- processor status word ---------------------------------------------

  /**
   * The 8080 PSW byte packed from the flag cells:
   * bit 0 CY, bit 1 constant 1, bit 2 P, bit 3 constant 0, bit 4 AC,
   * bit 5 constant 0, bit 6 Z, bit 7 S.
   */
  function ProcessorStatusWord(s: Snapshot): (psw: byte)
    ensures Bit(psw, 0) == s.flags[F.CY]
    ensures Bit(psw, 1)
    ensures Bit(psw, 2) == s.flags[F.P]
    ensures !Bit(psw, 3)
    ensures Bit(psw, 4) == s.flags[F.AC]
    ensures !Bit(psw, 5)
    ensures Bit(psw, 6) == s.flags[F.Z]
    ensures Bit(psw, 7) == s.flags[F.S]
  {
    var bits := [s.flags[F.CY], true, s.flags[F.P], false, s.flags[F.AC], false, s.flags[F.Z], s.flags[F.S]];
    FromBitsBound(bits);
    BitOfFromBits(bits, 0);
    BitOfFromBits(bits, 1);
    BitOfFromBits(bits, 2);
    BitOfFromBits(bits, 3);
    BitOfFromBits(bits, 4);
    BitOfFromBits(bits, 5);
    BitOfFromBits(bits, 6);
    BitOfFromBits(bits, 7);
    FromBits(bits)
  }

  /** The five architectural flags, as read back from a PSW byte. */
  datatype StatusFlags = StatusFlags(cy: bool, p: bool, ac: bool, z: bool, s: bool)

  function UnpackStatusWord(psw: byte): StatusFlags
  {
    StatusFlags(Bit(psw, 0), Bit(psw, 2), Bit(psw, 4), Bit(psw, 6), Bit(psw, 7))
  }

  /** Unpacking the packed word gives back CY, P, AC, Z and S. */
  lemma StatusWordRoundTrip(s: Snapshot)
    ensures UnpackStatusWord(ProcessorStatusWord(s))
         == StatusFlags(s.flags[F.CY], s.flags[F.P], s.flags[F.AC], s.flags[F.Z], s.flags[F.S])
  {
  }

  /** Two states with the same five architectural flags have the same PSW. */
  lemma StatusWordDeterminedByFlags(s: Snapshot, t: Snapshot)
    requires s.flags[F.CY] == t.flags[F.CY] && s.flags[F.P] == t.flags[F.P] && s.flags[F.AC] == t.flags[F.AC]
    requires s.flags[F.Z] == t.flags[F.Z] && s.flags[F.S] == t.flags[F.S]
    ensures ProcessorStatusWord(s) == ProcessorStatusWord(t)
  {
  }

  function Digit01(b: bool): char
  {
    if b then '1' else '0'
  }

  /** The PSW line of the state's printed form: flag digits S Z 0 AC 0 P 1 CY. */
  function StatusWordString(s: Snapshot): (r: string)
    ensures |r| == 8
    ensures forall k :: 0 <= k < 8 ==> r[7 - k] == Digit01(Bit(ProcessorStatusWord(s), k))
  {
    [Digit01(s.flags[F.S]), Digit01(s.flags[F.Z]), '0', Digit01(s.flags[F.AC]),
     '0', Digit01(s.flags[F.P]), '1', Digit01(s.flags[F.CY])]
  }

  // ---- loading a ROM ---------------------------------------------------------

  /** Memory holding `rom` from address 0, zero above it; registers and flags zero. */
  function RomImage(rom: seq<byte>): (s: Snapshot)
    requires |rom| <= MEMSIZE
    ensures forall a :: 0 <= a < |rom| ==> s.mem[a] == rom[a]
    ensures forall a :: |rom| <= a < MEMSIZE ==> s.mem[a] == 0
    ensures s.reg8 == Zeroed().reg8 && s.reg16 == Zeroed().reg16 && s.flags == Zeroed().flags
  {
    Zeroed().(mem := rom + seq(MEMSIZE - |rom|, _ => 0))
  }

  /**
   * The outcome of writing `rom` into the slice `MEM[base : |rom|]` of a zeroed
   * state. The slice has |rom| cells only when `base` is 0 and the ROM fits; a
   * one-byte ROM is broadcast into any slice (an empty one when base > 0); any
   * other mismatch is a shape error, modelled as None.
   */
  function RomLoad(rom: seq<byte>, base: nat): (r: Option<Snapshot>)
    ensures base == 0 && |rom| <= MEMSIZE ==> r == Some(RomImage(rom))
    ensures |rom| > MEMSIZE ==> r.None?
    ensures base > 0 && |rom| >= 2 ==> r.None?
    ensures base > 0 && |rom| <= 1 ==> r == Some(Zeroed())
  {
    if base == 0 && |rom| <= MEMSIZE then Some(RomImage(rom))
    else if |rom| <= 1 then Some(Zeroed())
    else None
  }

  // ---- the mutable state -------------------------------------------------------

  /**
   * The machine state object. Each instance owns four arrays that instructions
   * update in place; the arrays themselves are fixed when the object is made.
   */
  class State {
    const reg8: array<byte>
    const reg16: array<word>
    const flags: array<bool>
    const mem: array<byte>

    predicate Valid()
    {
      reg8.Length == U8.MAX_REG && reg16.Length == U16.MAX_REG
      && flags.Length == F.MAX_REG && mem.Length == MEMSIZE
    }

    /** The storage this state owns. */
    function Repr(): set<object>
    {
      {reg8 as object, reg16, flags, mem}
    }

    /** The current contents of the four arrays. */
    function Value(): Snapshot
      requires Valid()
      reads Repr()
    {
      StateValue(reg8[..], reg16[..], flags[..], mem[..])
    }

    /** A new state whose storage is fresh and zero-initialised. */
    constructor ()
      ensures Valid() && fresh(Repr())
      ensures Value() == Zeroed()
    {
      reg8 := new byte[U8.MAX_REG](_ => 0);
      reg16 := new word[U16.MAX_REG](_ => 0);
      flags := new bool[F.MAX_REG](_ => false);
      mem := new byte[MEMSIZE](_ => 0);
    }

    /** A new state whose four arrays are copies of the original's. */
    constructor Clone(original: State)
      requires original.Valid()
      ensures Valid() && fresh(Repr())
      ensures Value() == original.Value()
    {
      var r8 := new byte[U8.MAX_REG];
      var r16 := new word[U16.MAX_REG];
      var fl := new bool[F.MAX_REG];
      var m := new byte[MEMSIZE];
      forall i | 0 <= i < U8.MAX_REG { r8[i] := original.reg8[i]; }
      forall i | 0 <= i < U16.MAX_REG { r16[i] := original.reg16[i]; }
      forall i | 0 <= i < F.MAX_REG { fl[i] := original.flags[i]; }
      forall i | 0 <= i < MEMSIZE { m[i] := original.mem[i]; }
      reg8, reg16, flags, mem := r8, r16, fl, m;
    }

    /** Element-wise equality of all four arrays. */
    function Equals(other: State): (r: bool)
      requires Valid() && other.Valid()
      reads Repr(), other.Repr()
      ensures r <==>
        && (forall i :: 0 <= i < U8.MAX_REG ==> reg8[i] == other.reg8[i])
        && (forall i :: 0 <= i < U16.MAX_REG ==> reg16[i] == other.reg16[i])
        && (forall i :: 0 <= i < F.MAX_REG ==> flags[i] == other.flags[i])
        && (forall a :: 0 <= a < MEMSIZE ==> mem[a] == other.mem[a])
      ensures r <==> Value() == other.Value()
    {
      reg8[..] == other.reg8[..] && reg16[..] == other.reg16[..]
      && flags[..] == other.flags[..] && mem[..] == other.mem[..]
    }
  }

  /**
   * A zeroed state with `rom` written into memory at `base`; null where the
   * slice assignment fails.
   */
  method InitializeStateFromRom(rom: seq<byte>, base: nat := 0) returns (st: State?)
    ensures st == null <==> RomLoad(rom, base).None?
    ensures st != null ==> st.Valid() && fresh(st.Repr()) && st.Value() == RomLoad(rom, base).value
  {
    st := new State();
    if base == 0 && |rom| <= MEMSIZE {
      for i := 0 to |rom|
        invariant st.Valid()
        invariant forall a :: 0 <= a < i ==> st.mem[a] == rom[a]
        invariant forall a :: i <= a < MEMSIZE ==> st.mem[a] == 0
        invariant st.reg8[..] == Zeroed().reg8 && st.reg16[..] == Zeroed().reg16
        invariant st.flags[..] == Zeroed().flags
      {
        st.mem[i] := rom[i];
      }
      assert st.mem[..] == RomImage(rom).mem;
    } else if |rom| > 1 {
      st := null;
    }
  }
}
