// The reversible execution trace: sparse differences between consecutive
// states, and a trace that keeps two state buffers one step apart and
// steps backwards by applying the recorded differences.
module Tracing {
  import opened Bytes
  import opened Outcomes
  import opened Machine
  import opened Engine
  import U8
  import U16
  import F

  // ---- sparse differences ------------------------------------------------------------

  /** The cells of one array that differ: their indices, ascending, and a value for each. */
  datatype Sparse<T> = Sparse(ids: seq<nat>, values: seq<T>)

  predicate Increasing(ids: seq<nat>)
  {
    forall i, j :: 0 <= i < j < |ids| ==> ids[i] < ids[j]
  }

  /** `d` is a sparse difference for an array of `size` cells. */
  predicate Fits<T>(d: Sparse<T>, size: nat)
  {
    && |d.ids| == |d.values|
    && Increasing(d.ids)
    && (forall j :: 0 <= j < |d.ids| ==> d.ids[j] < size)
  }

  /**
   * The cells among the first `n` where the element-wise difference
   * `sub(a[k], b[k])` is not `zero`, with that difference as the value.
   */
  function Where<T(==)>(a: seq<T>, b: seq<T>, sub: (T, T) -> T, zero: T, n: nat): (d: Sparse<T>)
    requires n <= |a| == |b|
    ensures Fits(d, n)
  {
    if n == 0 then Sparse([], [])
    else
      var d := Where(a, b, sub, zero, n - 1);
      var k := n - 1;
      if sub(a[k], b[k]) != zero then Sparse(d.ids + [k], d.values + [sub(a[k], b[k])]) else d
  }

  /** `Where` records exactly the cells with a non-zero difference, and that difference. */
  lemma {:induction false} WhereSpec<T>(a: seq<T>, b: seq<T>, sub: (T, T) -> T, zero: T, n: nat)
    requires n <= |a| == |b|
    ensures var d := Where(a, b, sub, zero, n);
            && (forall j :: 0 <= j < |d.ids| ==> d.values[j] == sub(a[d.ids[j]], b[d.ids[j]]))
            && (forall k :: 0 <= k < n ==> (k in d.ids <==> sub(a[k], b[k]) != zero))
  {
    if n > 0 {
      WhereSpec(a, b, sub, zero, n - 1);
    }
  }

  /** `x` with each recorded cell combined with its recorded value by `add`. */
  function Patch<T>(x: seq<T>, d: Sparse<T>, add: (T, T) -> T): (r: seq<T>)
    requires Fits(d, |x|)
    ensures |r| == |x|
    decreases |d.ids|
  {
    if d.ids == [] then x
    else
      var n := |d.ids| - 1;
      var y := Patch(x, Sparse(d.ids[..n], d.values[..n]), add);
      y[d.ids[n] := add(y[d.ids[n]], d.values[n])]
  }

  /** `Patch` changes the recorded cells, each by its own value, and no other cell. */
  lemma {:induction false} PatchSpec<T>(x: seq<T>, d: Sparse<T>, add: (T, T) -> T)
    requires Fits(d, |x|)
    ensures var r := Patch(x, d, add);
            && (forall j :: 0 <= j < |d.ids| ==> r[d.ids[j]] == add(x[d.ids[j]], d.values[j]))
            && (forall k :: 0 <= k < |x| && k !in d.ids ==> r[k] == x[k])
    decreases |d.ids|
  {
    if d.ids != [] {
      var n := |d.ids| - 1;
      PatchSpec(x, Sparse(d.ids[..n], d.values[..n]), add);
    }
  }

  /**
   * Patching `b` with the differences of `a` against `b` gives back `a`,
   * when `add` undoes `sub` and a zero difference means equal cells.
   */
  lemma PatchUndoesWhere<T>(a: seq<T>, b: seq<T>, sub: (T, T) -> T, add: (T, T) -> T, zero: T)
    requires |a| == |b|
    requires forall x, y :: add(y, sub(x, y)) == x
    requires forall x, y :: sub(x, y) == zero ==> x == y
    ensures Patch(b, Where(a, b, sub, zero, |a|), add) == a
  {
    var d := Where(a, b, sub, zero, |a|);
    var r := Patch(b, d, add);
    WhereSpec(a, b, sub, zero, |a|);
    PatchSpec(b, d, add);
    forall k | 0 <= k < |a|
      ensures r[k] == a[k]
    {
      if k in d.ids {
        var j :| 0 <= j < |d.ids| && d.ids[j] == k;
      }
    }
  }

  // ---- cell arithmetic --------------------------------------------------------------

  /** uint8 subtraction and addition, wrapping modulo 256. */
  function Sub8(a: byte, b: byte): byte { Wrap8(a - b) }
  function Add8(a: byte, b: byte): byte { Wrap8(a + b) }

  /** uint16 subtraction and addition, wrapping modulo 65536. */
  function Sub16(a: word, b: word): word { Wrap16(a - b) }
  function Add16(a: word, b: word): word { Wrap16(a + b) }

  function Xor(a: bool, b: bool): bool { a != b }

  /** Adding back a uint8 difference restores the cell; a zero difference means equal cells. */
  lemma ByteLaws()
    ensures forall x, y :: Add8(y, Sub8(x, y)) == x
    ensures forall x, y :: Sub8(x, y) == 0 <==> x == y
  {
    forall x: byte, y: byte
      ensures Add8(y, Sub8(x, y)) == x
    {
      if x >= y {
        assert Sub8(x, y) == x - y;
      } else {
        assert Sub8(x, y) == x - y + 0x100;
      }
    }
  }

  lemma WordLaws()
    ensures forall x, y :: Add16(y, Sub16(x, y)) == x
    ensures forall x, y :: Sub16(x, y) == 0 <==> x == y
  {
    forall x: word, y: word
      ensures Add16(y, Sub16(x, y)) == x
    {
      if x >= y {
        assert Sub16(x, y) == x - y;
      } else {
        assert Sub16(x, y) == x - y + 0x1_0000;
      }
    }
  }

  // ---- state differences --------------------------------------------------------------

  /** `StateDiff(s, s')`: for each array, the cells where s and s' differ and s - s' there. */
  datatype StateDiff = StateDiff(reg8: Sparse<byte>, reg16: Sparse<word>, flags: Sparse<bool>, mem: Sparse<byte>)

  predicate FitsState(d: StateDiff)
  {
    && Fits(d.reg8, U8.MAX_REG) && Fits(d.reg16, U16.MAX_REG)
    && Fits(d.flags, F.MAX_REG) && Fits(d.mem, MEMSIZE)
  }

  /**
   * Registers and memory record the wrapped difference s - s' where it is
   * not zero; flags record s XOR s' where it is set.
   */
  function Diff(s: Snapshot, s2: Snapshot): (d: StateDiff)
    ensures FitsState(d)
  {
    StateDiff(
      Where(s.reg8, s2.reg8, Sub8, 0, U8.MAX_REG),
      Where(s.reg16, s2.reg16, Sub16, 0, U16.MAX_REG),
      Where(s.flags, s2.flags, Xor, false, F.MAX_REG),
      Where(s.mem, s2.mem, Sub8, 0, MEMSIZE))
  }

  /** `apply`: add the recorded differences to registers and memory, XOR them into the flags. */
  function ApplySpec(d: StateDiff, s: Snapshot): (t: Snapshot)
    requires FitsState(d)
  {
    StateValue(Patch(s.reg8, d.reg8, Add8), Patch(s.reg16, d.reg16, Add16),
               Patch(s.flags, d.flags, Xor), Patch(s.mem, d.mem, Add8))
  }

  /** Applying a difference leaves every cell it does not record as it was. */
  lemma ApplyChangesOnlyRecorded(d: StateDiff, s: Snapshot)
    requires FitsState(d)
    ensures var t := ApplySpec(d, s);
            && (forall r :: 0 <= r < U8.MAX_REG && r !in d.reg8.ids ==> t.reg8[r] == s.reg8[r])
            && (forall r :: 0 <= r < U16.MAX_REG && r !in d.reg16.ids ==> t.reg16[r] == s.reg16[r])
            && (forall f :: 0 <= f < F.MAX_REG && f !in d.flags.ids ==> t.flags[f] == s.flags[f])
            && (forall a :: 0 <= a < MEMSIZE && a !in d.mem.ids ==> t.mem[a] == s.mem[a])
  {
    PatchSpec(s.reg8, d.reg8, Add8);
    PatchSpec(s.reg16, d.reg16, Add16);
    PatchSpec(s.flags, d.flags, Xor);
    PatchSpec(s.mem, d.mem, Add8);
  }

  /** With a difference that is zero exactly for equal cells, `Where` records the cells that differ. */
  lemma WhereRecordsChanges<T>(a: seq<T>, b: seq<T>, sub: (T, T) -> T, zero: T)
    requires |a| == |b|
    requires forall x, y :: sub(x, y) == zero <==> x == y
    ensures forall k :: 0 <= k < |a| ==> (k in Where(a, b, sub, zero, |a|).ids <==> a[k] != b[k])
  {
    WhereSpec(a, b, sub, zero, |a|);
  }

  /** A difference records exactly the cells in which the two states differ. */
  lemma DiffRecordsChanges(s: Snapshot, s2: Snapshot)
    ensures forall r :: 0 <= r < U8.MAX_REG ==> (r in Diff(s, s2).reg8.ids <==> s.reg8[r] != s2.reg8[r])
    ensures forall r :: 0 <= r < U16.MAX_REG ==> (r in Diff(s, s2).reg16.ids <==> s.reg16[r] != s2.reg16[r])
    ensures forall f :: 0 <= f < F.MAX_REG ==> (f in Diff(s, s2).flags.ids <==> s.flags[f] != s2.flags[f])
    ensures forall a :: 0 <= a < MEMSIZE ==> (a in Diff(s, s2).mem.ids <==> s.mem[a] != s2.mem[a])
  {
    ByteLaws();
    WordLaws();
    WhereRecordsChanges(s.reg8, s2.reg8, Sub8, 0);
    WhereRecordsChanges(s.reg16, s2.reg16, Sub16, 0);
    WhereRecordsChanges(s.flags, s2.flags, Xor, false);
    WhereRecordsChanges(s.mem, s2.mem, Sub8, 0);
  }

  /** Nothing differs between an array and itself when `sub(x, x)` is always `zero`. */
  lemma {:induction false} WhereOfSelfIsEmpty<T>(a: seq<T>, sub: (T, T) -> T, zero: T, n: nat)
    requires n <= |a|
    requires forall x :: sub(x, x) == zero
    ensures Where(a, a, sub, zero, n).ids == []
  {
    if n > 0 {
      WhereOfSelfIsEmpty(a, sub, zero, n - 1);
    }
  }

  /** The difference of a state with itself records nothing. */
  lemma DiffOfSelfIsEmpty(s: Snapshot)
    ensures Diff(s, s).reg8.ids == [] && Diff(s, s).reg16.ids == []
    ensures Diff(s, s).flags.ids == [] && Diff(s, s).mem.ids == []
  {
    WhereOfSelfIsEmpty(s.reg8, Sub8, 0, U8.MAX_REG);
    WhereOfSelfIsEmpty(s.reg16, Sub16, 0, U16.MAX_REG);
    WhereOfSelfIsEmpty(s.flags, Xor, false, F.MAX_REG);
    WhereOfSelfIsEmpty(s.mem, Sub8, 0, MEMSIZE);
  }

  /** Applying `StateDiff(s, s')` to s' gives back s. */
  lemma ApplyUndoesDiff(s: Snapshot, s2: Snapshot)
    ensures ApplySpec(Diff(s, s2), s2) == s
  {
    ByteLaws();
    WordLaws();
    PatchUndoesWhere(s.reg8, s2.reg8, Sub8, Add8, 0);
    PatchUndoesWhere(s.reg16, s2.reg16, Sub16, Add16, 0);
    PatchUndoesWhere(s.flags, s2.flags, Xor, Xor, false);
    PatchUndoesWhere(s.mem, s2.mem, Sub8, Add8, 0);
  }

  /** The in-place update of one array: each recorded cell combined with its value. */
  method PatchArray<T>(arr: array<T>, d: Sparse<T>, add: (T, T) -> T)
    requires Fits(d, arr.Length)
    modifies arr
    ensures arr[..] == Patch(old(arr[..]), d, add)
  {
    ghost var x := arr[..];
    for j := 0 to |d.ids|
      invariant arr[..] == Patch(x, Sparse(d.ids[..j], d.values[..j]), add)
    {
      assert d.ids[..j + 1][..j] == d.ids[..j] && d.values[..j + 1][..j] == d.values[..j];
      arr[d.ids[j]] := add(arr[d.ids[j]], d.values[j]);
    }
    assert d.ids[..|d.ids|] == d.ids && d.values[..|d.values|] == d.values;
  }

  /** `StateDiff.apply`: the state object updated in place. */
  method Apply(d: StateDiff, st: State)
    requires st.Valid() && FitsState(d)
    modifies st.reg8, st.reg16, st.flags, st.mem
    ensures st.Value() == ApplySpec(d, old(st.Value()))
  {
    PatchArray(st.reg8, d.reg8, Add8);
    PatchArray(st.reg16, d.reg16, Add16);
    PatchArray(st.flags, d.flags, Xor);
    PatchArray(st.mem, d.mem, Add8);
  }

  /** Two steps back: the state after step n + 2, with the differences of steps n + 2 and n + 1, becomes the state after step n. */
  method Rewind(st: State, one: StateDiff, two: StateDiff, ghost a: Snapshot, ghost b: Snapshot, ghost c: Snapshot)
    requires st.Valid() && st.Value() == c
    requires one == Diff(b, c) && two == Diff(a, b)
    modifies st.reg8, st.reg16, st.flags, st.mem
    ensures st.Value() == a
  {
    ApplyUndoesDiff(b, c);
    Apply(one, st);
    ApplyUndoesDiff(a, b);
    Apply(two, st);
  }

  // ---- the trace ---------------------------------------------------------------------

  /** `history` is the start of the iteration of `next` from its first state: entry i is the state after i steps. */
  ghost predicate RunFrom(next: Snapshot -> Option<Snapshot>, history: seq<Snapshot>)
  {
    forall i {:trigger Iterate(next, history[0], i)} ::
      0 <= i < |history| ==> Iterate(next, history[0], i) == Some(history[i])
  }

  /** A history extended by one more step of `next` is still a history. */
  lemma RunFromExtend(next: Snapshot -> Option<Snapshot>, history: seq<Snapshot>, s: Snapshot)
    requires |history| > 0 && RunFrom(next, history)
    requires next(history[|history| - 1]) == Some(s)
    ensures RunFrom(next, history + [s])
  {
    var h := history + [s];
    forall i | 0 <= i < |h|
      ensures Iterate(next, h[0], i) == Some(h[i])
    {
      if i == |history| {
        assert Iterate(next, h[0], i - 1) == Some(history[i - 1]);
      } else {
        assert Iterate(next, history[0], i) == Some(history[i]);
      }
    }
  }

  /** Every non-empty prefix of a history is a history. */
  lemma RunFromPrefix(next: Snapshot -> Option<Snapshot>, history: seq<Snapshot>, k: nat)
    requires 0 < k <= |history| && RunFrom(next, history)
    ensures RunFrom(next, history[..k])
  {
    forall i | 0 <= i < k
      ensures Iterate(next, history[..k][0], i) == Some(history[..k][i])
    {
      assert Iterate(next, history[0], i) == Some(history[i]);
    }
  }

  /** Consecutive entries of a history are one step of `next` apart. */
  lemma RunFromSucc(next: Snapshot -> Option<Snapshot>, history: seq<Snapshot>, k: nat)
    requires k + 1 < |history| && RunFrom(next, history)
    ensures next(history[k]) == Some(history[k + 1])
  {
    assert Iterate(next, history[0], k) == Some(history[k]);
    assert Iterate(next, history[0], k + 1) == Some(history[k + 1]);
  }

  /** Difference i of the trace is `StateDiff(history[i], history[i + 1])`. */
  ghost predicate Records(diffs: seq<StateDiff>, history: seq<Snapshot>)
  {
    |history| == |diffs| + 1 &&
    forall i {:trigger diffs[i]} :: 0 <= i < |diffs| ==> diffs[i] == Diff(history[i], history[i + 1])
  }

  /** Dropping the last difference and the last state keeps the record. */
  lemma RecordsPrefix(diffs: seq<StateDiff>, history: seq<Snapshot>)
    requires Records(diffs, history) && |diffs| > 0
    ensures Records(diffs[..|diffs| - 1], history[..|history| - 1])
  {
    var d := diffs[..|diffs| - 1];
    forall i | 0 <= i < |d|
      ensures d[i] == Diff(history[i], history[i + 1])
    {
      assert diffs[i] == Diff(history[i], history[i + 1]);
    }
  }

  /**
   * The trace's record of a run of `next`: at least one difference, the
   * history of the run, and difference i taken between entries i and i + 1.
   */
  ghost predicate Consistent(next: Snapshot -> Option<Snapshot>, diffs: seq<StateDiff>, history: seq<Snapshot>)
  {
    1 <= |diffs| && RunFrom(next, history) && Records(diffs, history)
  }

  /** Dropping the last step of a record with at least two differences keeps it consistent. */
  lemma ConsistentPrefix(next: Snapshot -> Option<Snapshot>, diffs: seq<StateDiff>, history: seq<Snapshot>)
    requires Consistent(next, diffs, history) && |diffs| >= 2
    ensures Consistent(next, diffs[..|diffs| - 1], history[..|diffs|])
  {
    RunFromPrefix(next, history, |diffs|);
    RecordsPrefix(diffs, history);
  }

  /** Recording one more step of `next` keeps a record consistent. */
  lemma ConsistentExtend(next: Snapshot -> Option<Snapshot>, diffs: seq<StateDiff>, history: seq<Snapshot>, s: Snapshot)
    requires Consistent(next, diffs, history)
    requires next(history[|diffs|]) == Some(s)
    ensures Consistent(next, diffs + [Diff(history[|diffs|], s)], history + [s])
  {
    RunFromExtend(next, history, s);
    var d := diffs + [Diff(history[|diffs|], s)];
    var h := history + [s];
    forall i | 0 <= i < |d|
      ensures d[i] == Diff(h[i], h[i + 1])
    {
      if i < |diffs| {
        assert diffs[i] == Diff(history[i], history[i + 1]);
      }
    }
  }

  /** The double step of `step_forward`: the first of the two steps is known to reach `b` without a fault. */
  method StepTwice(st: State, ghost a: Snapshot, ghost b: Snapshot) returns (fault: Option<Fault>)
    requires st.Valid() && st.Value() == a && Next(a) == Some(b)
    modifies st.reg8, st.reg16, st.flags
    ensures Outcome(st.Value(), fault) == StepSpec(b)
    ensures fault.None? ==> Next(b) == Some(st.Value())
  {
    var first := Step(st);
    fault := Step(st);
  }

  /** A fresh copy of `initial`, stepped once: the second buffer of a new trace. */
  method Lookahead(initial: State) returns (ahead: State)
    requires initial.Valid() && Next(initial.Value()).Some?
    ensures ahead.Valid() && fresh(ahead.Repr())
    ensures Next(initial.Value()) == Some(ahead.Value())
    ensures RunFrom(Next, [initial.Value(), ahead.Value()])
  {
    ahead := new State.Clone(initial);
    var fault := Step(ahead);
    RunFromExtend(Next, [initial.Value()], ahead.Value());
  }

  /**
   * The work of `step_forward` on the two buffers: `behind` holds the state
   * after n - 1 steps and `ahead` the state after n; `behind` is stepped
   * twice, its first step known to reach the state after n without a
   * fault, and on success the difference between `ahead` and the new state
   * of `behind` is recorded.
   */
  method Forward(behind: State, ahead: State, diffs: seq<StateDiff>, ghost history: seq<Snapshot>,
                 ghost next: Snapshot -> Option<Snapshot>)
    returns (fault: Option<Fault>, diffs': seq<StateDiff>, ghost history': seq<Snapshot>)
    requires behind.Valid() && ahead.Valid() && behind.Repr() !! ahead.Repr()
    requires Consistent(next, diffs, history) && next == Next
    requires behind.Value() == history[|diffs| - 1] && ahead.Value() == history[|diffs|]
    modifies behind.reg8, behind.reg16, behind.flags
    ensures ahead.Value() == old(ahead.Value())
    ensures Outcome(behind.Value(), fault) == StepSpec(history[|diffs|])
    ensures fault.Some? ==> diffs' == diffs && history' == history
    ensures fault.None? ==> history' == history + [behind.Value()]
    ensures fault.None? ==> Consistent(next, diffs', history') && |diffs'| == |diffs| + 1
  {
    var n := |diffs|;
    RunFromSucc(next, history, n - 1);
    fault := StepTwice(behind, history[n - 1], history[n]);
    if fault.None? {
      ConsistentExtend(next, diffs, history, behind.Value());
      diffs' := diffs + [Diff(ahead.Value(), behind.Value())];
      history' := history + [behind.Value()];
    } else {
      diffs', history' := diffs, history;
    }
  }

  /**
   * The work of `step_backward` on the two buffers: `ahead` holds the
   * state after n steps and `behind` the state after n - 1; the last two
   * differences take `ahead` back to the state after n - 2, and the last
   * difference is dropped.
   */
  method Backward(ahead: State, behind: State, diffs: seq<StateDiff>, ghost history: seq<Snapshot>,
                  ghost next: Snapshot -> Option<Snapshot>)
    returns (diffs': seq<StateDiff>, ghost history': seq<Snapshot>)
    requires ahead.Valid() && behind.Valid() && ahead.Repr() !! behind.Repr()
    requires Consistent(next, diffs, history) && |diffs| >= 2
    requires ahead.Value() == history[|diffs|] && behind.Value() == history[|diffs| - 1]
    modifies ahead.reg8, ahead.reg16, ahead.flags, ahead.mem
    ensures diffs' == diffs[..|diffs| - 1] && history' == history[..|diffs|]
    ensures Consistent(next, diffs', history')
    ensures ahead.Value() == history'[|diffs'| - 1] && behind.Value() == history'[|diffs'|]
  {
    var n := |diffs|;
    ConsistentPrefix(next, diffs, history);
    var diffOne := diffs[n - 1];
    var diffTwo := diffs[n - 2];
    Rewind(ahead, diffOne, diffTwo, history[n - 2], history[n - 1], history[n]);
    diffs', history' := diffs[..n - 1], history[..n];
  }

  /**
   * Two state objects ping-ponged one step apart, and the differences
   * between consecutive states of the run from the initial state. With n
   * recorded differences the current buffer holds the state after n - 1
   * steps, the other buffer the state after n steps, and difference i is
   * `StateDiff` of the states after i and i + 1 steps. `advance` is the
   * step the run iterates; the constructor fixes it to the machine's step.
   */
  class Trace {
    const states: seq<State>
    var pointer: nat
    var diffs: seq<StateDiff>
    ghost var history: seq<Snapshot>
    ghost const advance: Snapshot -> Option<Snapshot>

    /** The storage of the two buffers. */
    function Buffers(): set<object>
      requires |states| == 2
    {
      states[0].Repr() + states[1].Repr()
    }

    ghost predicate Valid()
      reads this, if |states| == 2 then Buffers() else {}
    {
      && |states| == 2 && pointer < 2
      && states[0].Valid() && states[1].Valid()
      && states[0].Repr() !! states[1].Repr()
      && Consistent(advance, diffs, history)
      && states[pointer].Value() == history[|diffs| - 1]
      && states[1 - pointer].Value() == history[|diffs|]
    }

    /** The state the run started from. */
    ghost function Start(): Snapshot
      reads this
      requires |history| > 0
    {
      history[0]
    }

    /** `current_state`: the buffer holding the state after |diffs| - 1 steps. */
    function CurrentState(): (st: State)
      requires Valid()
      reads this, Buffers()
      ensures st.Valid() && st.Repr() <= Buffers()
      ensures Iterate(advance, Start(), |diffs| - 1) == Some(st.Value())
    {
      states[pointer]
    }

    /**
     * The trace of `initial`: a clone of it is stepped once and the one
     * difference recorded. The initial state object itself becomes the
     * first buffer.
     */
    constructor (initial: State)
      requires initial.Valid()
      requires Next(initial.Value()).Some?
      ensures Valid() && advance == Next
      ensures history == [initial.Value(), Next(initial.Value()).value]
      ensures states[0] == initial && pointer == 0 && |diffs| == 1
      ensures fresh(states[1].Repr())
    {
      var ahead := Lookahead(initial);
      states := [initial, ahead];
      pointer := 0;
      diffs := [Diff(initial.Value(), ahead.Value())];
      history := [initial.Value(), ahead.Value()];
      advance := Next;
    }

    /**
     * `step_forward`: flip to the other buffer, which is one step ahead, and
     * step the old current buffer twice so that it is one step ahead again;
     * record the difference between the two. A step that faults ends the
     * operation before the record.
     */
    method StepForward() returns (fault: Option<Fault>)
      requires Valid() && advance == Next
      modifies this, Buffers()
      ensures fault == StepSpec(old(history[|diffs|])).fault
      ensures fault.None? ==> Valid() && history == old(history) + [StepSpec(old(history[|diffs|])).state]
      ensures fault.Some? ==> diffs == old(diffs) && history == old(history)
    {
      var current := (pointer + 1) % 2;
      var ahead := (current + 1) % 2;
      assert current == 1 - pointer && ahead == pointer;
      var diffs': seq<StateDiff>;
      ghost var history': seq<Snapshot>;
      ghost var n := |diffs|;
      fault, diffs', history' := Forward(states[ahead], states[current], diffs, history, advance);
      if fault.None? {
        assert states[current].Value() == history'[n] && states[ahead].Value() == history'[n + 1];
      }
      pointer, diffs, history := current, diffs', history';
    }

    /**
     * `step_backward`: unless only the first difference is left, drop the
     * last difference, apply it and the one before it to the buffer that is
     * one step ahead, which takes that buffer two steps back, and make it
     * the current buffer.
     */
    method StepBackward()
      requires Valid()
      modifies this, Buffers()
      ensures Valid()
      ensures old(|diffs|) < 2 ==> diffs == old(diffs) && history == old(history) && pointer == old(pointer)
      ensures old(|diffs|) >= 2 ==> diffs == old(diffs[..|diffs| - 1]) && history == old(history[..|diffs|])
    {
      if |diffs| < 2 {
        return;
      }
      var prev := (pointer + 1) % 2;
      var diffs', history' := Backward(states[prev], states[pointer], diffs, history, advance);
      diffs, history, pointer := diffs', history', prev;
    }
  }
  /** `step_forward` called n times: on success the record has grown by n differences and kept its beginning. */
  method ForwardMany(t: Trace, n: nat) returns (fault: Option<Fault>)
    requires t.Valid() && t.advance == Next
    modifies t, t.Buffers()
    ensures fault.None? ==> t.Valid() && |t.diffs| == old(|t.diffs|) + n
    ensures fault.None? ==> t.diffs[..old(|t.diffs|)] == old(t.diffs) && t.history[..old(|t.history|)] == old(t.history)
  {
    ghost var diffs0, history0 := t.diffs, t.history;
    fault := None;
    for k := 0 to n
      invariant fault.None? && t.Valid() && t.advance == Next
      invariant |t.diffs| == |diffs0| + k && t.diffs[..|diffs0|] == diffs0
      invariant t.history[..|history0|] == history0
    {
      fault := t.StepForward();
      if fault.Some? {
        return;
      }
    }
  }

  /** `step_backward` called n times on a record of more than n differences: the last n are dropped. */
  method BackwardMany(t: Trace, n: nat)
    requires t.Valid() && |t.diffs| > n
    modifies t, t.Buffers()
    ensures t.Valid() && t.diffs == old(t.diffs[..|t.diffs| - n]) && t.history == old(t.history[..|t.diffs| + 1 - n])
  {
    ghost var diffs0, history0 := t.diffs, t.history;
    for k := 0 to n
      invariant t.Valid()
      invariant |t.diffs| == |diffs0| - k && t.diffs == diffs0[..|diffs0| - k]
      invariant t.history == history0[..|diffs0| + 1 - k]
    {
      t.StepBackward();
    }
  }

  /**
   * n calls of `step_forward` followed by n calls of `step_backward` leave
   * the record, and so the current state, as they were, unless one of the
   * forward steps faults.
   */
  method ForwardThenBackward(t: Trace, n: nat) returns (fault: Option<Fault>)
    requires t.Valid() && t.advance == Next
    modifies t, t.Buffers()
    ensures fault.None? ==> t.Valid() && t.diffs == old(t.diffs) && t.history == old(t.history)
    ensures fault.None? ==> t.CurrentState().Value() == old(t.CurrentState().Value())
  {
    fault := ForwardMany(t, n);
    if fault.Some? {
      return;
    }
    BackwardMany(t, n);
    SameRecordSameCurrent(t);
  }

  /** Two valid traces with the same record are at the same current state. */
  twostate lemma SameRecordSameCurrent(t: Trace)
    requires old(t.Valid()) && t.Valid()
    requires t.diffs == old(t.diffs) && t.history == old(t.history)
    ensures t.CurrentState().Value() == old(t.CurrentState().Value())
  {
  }
}
