// Flag computation shared by the arithmetic, logical and compare
// instructions, and the add template built on it.
module OpsArithmetic {
  import opened Bytes
  import opened Machine
  import U8
  import F

  /**
   * The flag cells after `subop_setflags(result)`. The result may be wider
   * than a byte: Z, S and P look at its low byte, CY at whether it overflows
   * a byte. P is set when the low byte is an EVEN NUMBER (not the 8080's
   * bit-count parity). AC, E and DI keep their values.
   */
  function SetFlags(flags: seq<bool>, result: word): (r: seq<bool>)
    requires |flags| == F.MAX_REG
    ensures |r| == F.MAX_REG
    ensures r[F.Z] <==> result % 0x100 == 0
    ensures r[F.S] <==> result % 0x100 >= 0x80
    ensures r[F.P] <==> !Bit(Wrap8(result), 0)
    ensures r[F.CY] <==> result >= 0x100
    ensures r[F.AC] == flags[F.AC] && r[F.E] == flags[F.E] && r[F.DI] == flags[F.DI]
  {
    var low := Wrap8(result);
    BitSevenIsHighHalf(low);
    BitZeroIsOddness(low);
    flags[F.Z := low == 0][F.S := Bit(low, 7)][F.P := low % 2 == 0][F.CY := result > 0xFF]
  }

  /** The flag-setting subroutine, writing the four flag cells in place. */
  method SubopSetflags(result: word, st: State)
    requires st.Valid()
    modifies st.flags
    ensures st.flags[..] == SetFlags(old(st.flags[..]), result)
  {
    var low := Wrap8(result);
    st.flags[F.Z] := low == 0;
    st.flags[F.S] := Bit(low, 7);
    st.flags[F.P] := low % 2 == 0;
    st.flags[F.CY] := result > 0xFF;
  }

  function CarryIn(carry: bool): nat
  {
    if carry then 1 else 0
  }

  /**
   * The state after A := A + v (+ 1 when `carry`), the flags being set from
   * the untruncated sum and A receiving its low byte.
   */
  function AddSpec(s: Snapshot, v: byte, carry: bool): (t: Snapshot)
    ensures t.reg8[U8.A] == (s.reg8[U8.A] + v + CarryIn(carry)) % 0x100
    ensures t.flags[F.CY] <==> s.reg8[U8.A] + v + CarryIn(carry) > 0xFF
    ensures t.flags[F.Z] <==> t.reg8[U8.A] == 0
    ensures t.flags[F.S] <==> t.reg8[U8.A] >= 0x80
    ensures t.flags[F.P] <==> !Bit(t.reg8[U8.A], 0)
    ensures t.flags[F.AC] == s.flags[F.AC]
    ensures t.flags[F.E] == s.flags[F.E] && t.flags[F.DI] == s.flags[F.DI]
    ensures forall r :: 0 <= r < U8.MAX_REG && r != U8.A ==> t.reg8[r] == s.reg8[r]
    ensures t.reg16 == s.reg16 && t.mem == s.mem
  {
    var result: word := s.reg8[U8.A] + v + CarryIn(carry);
    s.(flags := SetFlags(s.flags, result), reg8 := s.reg8[U8.A := Wrap8(result)])
  }

  /**
   * The operation `optemplate_add(reg)` returns: A := A + reg, flags from
   * the full sum.
   */
  method OptemplateAdd(reg: U8.Reg, st: State)
    requires st.Valid()
    modifies st.reg8, st.flags
    ensures st.Value() == AddSpec(old(st.Value()), old(st.reg8[reg]), false)
  {
    var result: word := st.reg8[U8.A] as int + st.reg8[reg];
    SubopSetflags(result, st);
    st.reg8[U8.A] := Wrap8(result);
  }

  /** The opcodes given templated operations, with the register each one adds to A. */
  const ARITHMETIC_OPCODES: map<byte, U8.Reg> := map[0x80 := U8.B, 0x81 := U8.C]

  // ---- properties of the flag computation and of addition ---------------------

  /**
   * A addition leaves A = 0 with CY set exactly when the full sum is 0x100:
   * the carry out is the only way a non-trivial sum lands on zero.
   */
  lemma {:induction false} CarryBoundary(s: Snapshot, v: byte, carry: bool)
    ensures var t := AddSpec(s, v, carry);
      t.reg8[U8.A] == 0 && t.flags[F.CY] <==> s.reg8[U8.A] + v + CarryIn(carry) == 0x100
  {
    var sum := s.reg8[U8.A] + v + CarryIn(carry);
    assert sum < 0x200;
    if sum >= 0x100 {
      assert sum % 0x100 == sum - 0x100;
    }
  }

  /** ADD A,A doubles A modulo 256, carrying out exactly when A >= 0x80. */
  lemma AddSelfDoubles(s: Snapshot)
    ensures AddSpec(s, s.reg8[U8.A], false).reg8[U8.A] == (2 * s.reg8[U8.A] as int) % 0x100
    ensures AddSpec(s, s.reg8[U8.A], false).flags[F.CY] <==> s.reg8[U8.A] >= 0x80
  {
  }

  /**
   * The flags depend on the sum before truncation: two additions landing on
   * the same A can still differ in CY.
   */
  lemma FlagsSeeUntruncatedSum(s: Snapshot)
    requires s.reg8[U8.A] == 0x10
    ensures AddSpec(s, 0xF0, false).reg8[U8.A] == AddSpec(s.(reg8 := s.reg8[U8.A := 0]), 0, false).reg8[U8.A]
    ensures AddSpec(s, 0xF0, false).flags[F.CY] && !AddSpec(s.(reg8 := s.reg8[U8.A := 0]), 0, false).flags[F.CY]
  {
  }

  /**
   * P follows the value's evenness, not its bit count: 3 has two set bits
   * (even parity on the 8080) yet leaves P clear here.
   */
  lemma ParityIsEvenness(flags: seq<bool>)
    requires |flags| == F.MAX_REG
    ensures !SetFlags(flags, 3)[F.P]
    ensures SetFlags(flags, 1)[F.P] == false && SetFlags(flags, 2)[F.P]
  {
  }

  /** Adding with carry is adding the carry first: A + v + 1 equals A + (v + 1) when v + 1 fits. */
  lemma AddWithCarryShiftsOperand(s: Snapshot, v: byte)
    requires v < 0xFF
    ensures AddSpec(s, v, true) == AddSpec(s, v + 1, false)
  {
  }
}
