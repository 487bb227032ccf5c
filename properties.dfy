/**
 * What the interpreter promises, proved about the functions of `Semantics`
 * (and so, through the method contracts of `Engine`, about the interpreter).
 */
module Properties {
  import opened Ast
  import opened Semantics

  // ---------------------------------------------------------------------
  // Arithmetic modulo 256
  // ---------------------------------------------------------------------

  lemma ModAddLeft(x: int, y: int)
    ensures (x % 256 + y) % 256 == (x + y) % 256
  {
    var q := x / 256;
    assert x == 256 * q + x % 256;
    assert x + y == (x % 256 + y) + 256 * q;
  }

  lemma ModShift(x: int, k: int)
    ensures (x + 256 * k) % 256 == x % 256
  {
  }

  /** Multiplying by a byte congruent to `f` modulo 256, then reducing, is multiplying by `f`. */
  lemma MulCongruent(m: int, c: int, t: int, f: int)
    requires t % 256 == f % 256
    ensures (m + (c * t) % 256) % 256 == (m + c * f) % 256
  {
    var d := (t - f) / 256;
    assert t - f == 256 * d by {
      assert t == 256 * (t / 256) + t % 256;
      assert f == 256 * (f / 256) + f % 256;
    }
    calc {
      (m + (c * t) % 256) % 256;
      { ModAddLeft(c * t, m); }
      (m + c * t) % 256;
      { assert c * t == c * f + 256 * (c * d); }
      (m + c * f + 256 * (c * d)) % 256;
      { ModShift(m + c * f, c * d); }
      (m + c * f) % 256;
    }
  }

  // ---------------------------------------------------------------------
  // Increment
  // ---------------------------------------------------------------------

  /**
   * `Increment` adds its amount modulo 256 to the one cell at cursor + offset
   * and changes nothing else; a rejected address changes nothing at all.
   */
  lemma IncrementEffect(amount: I8, offset: ISize, st: State)
    ensures var o := IncrementStep(amount, offset, st);
            var a := ResolveAddress(st.pointer, offset, |st.memory|);
            && (o.status == Ok <==> a.InBounds?)
            && (a.OutOfBounds? ==> o == Outcome(Err(a.error), st))
            && (a.InBounds? ==>
                  && |o.state.memory| == |st.memory|
                  && o.state.memory[a.index] as int == (st.memory[a.index] as int + amount as int) % 256
                  && (forall j :: 0 <= j < |st.memory| && j != a.index ==> o.state.memory[j] == st.memory[j])
                  && o.state.(memory := st.memory) == st)
  {
  }

  /** A zero `Increment` whose address is accepted leaves the state as it was. */
  lemma IncrementByZero(offset: ISize, st: State)
    requires ResolveAddress(st.pointer, offset, |st.memory|).InBounds?
    ensures IncrementStep(0, offset, st) == Outcome(Ok, st)
  {
  }

  /** The `i8` whose two's complement byte is `x` modulo 256 (`Wrapping<i8>` addition). */
  function WrapI8(x: int): (r: I8)
    ensures (r as int - x) % 256 == 0
  {
    ((x + 128) % 256 - 128) as I8
  }

  /**
   * Two `Increment`s of the same cell are one `Increment` by the wrapped sum
   * of their amounts: grouping does not matter, as the optimizer assumes.
   */
  lemma IncrementsCombine(a: I8, b: I8, offset: ISize, st: State)
    ensures var first := IncrementStep(a, offset, st);
            (if first.status == Ok then IncrementStep(b, offset, first.state) else first)
              == IncrementStep(WrapI8(a as int + b as int), offset, st)
  {
    match ResolveAddress(st.pointer, offset, |st.memory|)
    case OutOfBounds(_) =>
    case InBounds(i) =>
      AmountsCombine(st.memory[i], a, b);
      assert st.memory[i := AddAmount(st.memory[i], a)][i := AddAmount(AddAmount(st.memory[i], a), b)]
          == st.memory[i := AddAmount(st.memory[i], WrapI8(a as int + b as int))];
  }

  /** Adding two amounts in turn is adding their wrapped sum once. */
  lemma AmountsCombine(cell: U8, a: I8, b: I8)
    ensures AddAmount(AddAmount(cell, a), b) == AddAmount(cell, WrapI8(a as int + b as int))
  {
    var c := cell as int;
    var s := WrapI8(a as int + b as int);
    calc {
      AddAmount(AddAmount(cell, a), b) as int;
      ((c + a as int) % 256 + b as int) % 256;
      { ModAddLeft(c + a as int, b as int); }
      (c + a as int + b as int) % 256;
      { ModShift(c + s as int, (a as int + b as int - s as int) / 256); }
      (c + s as int) % 256;
      AddAmount(cell, s) as int;
    }
  }

  // ---------------------------------------------------------------------
  // Set
  // ---------------------------------------------------------------------

  /**
   * `Set` stores the two's-complement byte of its amount in the one cell at
   * cursor + offset whatever the cell held, and changes nothing else; a
   * rejected address changes nothing at all.
   */
  lemma SetEffect(amount: I8, offset: ISize, st: State)
    ensures var o := SetStep(amount, offset, st);
            var a := ResolveAddress(st.pointer, offset, |st.memory|);
            && (o.status == Ok <==> a.InBounds?)
            && (a.OutOfBounds? ==> o == Outcome(Err(a.error), st))
            && (a.InBounds? ==>
                  && |o.state.memory| == |st.memory|
                  && o.state.memory[a.index] as int == amount as int % 256
                  && (forall j :: 0 <= j < |st.memory| && j != a.index ==> o.state.memory[j] == st.memory[j])
                  && o.state.(memory := st.memory) == st)
  {
  }

  /** Applying the same `Set` twice is applying it once. */
  lemma SetIdempotent(amount: I8, offset: ISize, st: State)
    ensures var once := SetStep(amount, offset, st);
            once.status == Ok ==> SetStep(amount, offset, once.state) == once
  {
  }

  // ---------------------------------------------------------------------
  // PointerIncrement
  // ---------------------------------------------------------------------

  /**
   * `PointerIncrement` moves the cursor and touches no cell. The moved cursor
   * stays even when it is rejected: negative is `OutOfBoundsLeft`, beyond the
   * tape length is `OutOfBoundsRight`, and the tape length itself is accepted.
   */
  lemma PointerIncrementEffect(distance: ISize, st: State)
    requires ISIZE_MIN <= st.pointer as int + distance as int <= ISIZE_MAX
    ensures var o := PointerIncrementStep(distance, st);
            var moved := st.pointer as int + distance as int;
            && o.state == st.(pointer := moved as ISize)
            && (o.status == Ok <==> 0 <= moved <= |st.memory|)
            && (o.status == Err(OutOfBoundsLeft) <==> moved < 0)
            && (o.status == Err(OutOfBoundsRight) <==> moved > |st.memory|)
  {
  }

  /**
   * The cursor may come to rest one past the last cell: a move that lands on
   * the tape length is accepted and leaves the cursor off the tape.
   */
  lemma CursorAtTapeEnd(distance: ISize, st: State)
    requires st.pointer as int + distance as int == |st.memory| <= ISIZE_MAX
    ensures var o := PointerIncrementStep(distance, st);
            o == Outcome(Ok, st.(pointer := |st.memory| as ISize)) && !OnTape(o.state)
  {
  }

  /**
   * With the cursor off the tape (on the tape length, say), every instruction
   * that indexes the current cell panics: `Read` after taking its byte,
   * `Write`, `Loop` and `MultiplyMove` before changing anything. A `Read` with
   * nothing queued never reaches the index: it fails with `RecvError`.
   */
  lemma OffTapePanics(cfg: Config, body: seq<AstNode>, changes: seq<(ISize, I8)>, held: bool, st: State)
    requires !OnTape(st)
    ensures st.input != [] ==> ReadStep(st) == Outcome(Panicked(IndexOutOfBounds), st.(input := st.input[1..]))
    ensures st.input == [] ==> ReadStep(st) == Outcome(Err(RecvError), st)
    ensures WriteStep(held, st) == Outcome(Panicked(IndexOutOfBounds), st)
    ensures MultiplyMoveStep(changes, st) == Outcome(Panicked(IndexOutOfBounds), st)
    ensures st.iterations <= cfg.maxIterations ==> LoopRun(cfg, body, st) == Outcome(Panicked(IndexOutOfBounds), st)
  {
  }

  /** A move whose target cursor does not fit in `isize` panics and changes nothing. */
  lemma PointerIncrementOverflow(distance: ISize, st: State)
    requires !(ISIZE_MIN <= st.pointer as int + distance as int <= ISIZE_MAX)
    ensures PointerIncrementStep(distance, st) == Outcome(Panicked(AddOverflow), st)
  {
  }

  // ---------------------------------------------------------------------
  // Read and Write
  // ---------------------------------------------------------------------

  /**
   * `Read` takes the oldest queued byte into the current cell; with nothing
   * queued it fails and changes nothing. It never touches the output.
   */
  lemma ReadEffect(st: State)
    requires OnTape(st)
    ensures var o := ReadStep(st);
            && (st.input == [] ==> o == Outcome(Err(RecvError), st))
            && (st.input != [] ==>
                  && o.status == Ok
                  && o.state.memory == st.memory[st.pointer as int := st.input[0]]
                  && o.state.input == st.input[1..]
                  && o.state.(memory := st.memory, input := st.input) == st)
  {
  }

  /**
   * `Write` appends the current cell to the output and changes nothing else;
   * without a receiver it fails and changes nothing.
   */
  lemma WriteEffect(receiverHeld: bool, st: State)
    requires OnTape(st)
    ensures var o := WriteStep(receiverHeld, st);
            && (!receiverHeld ==> o == Outcome(Err(SendError), st))
            && (receiverHeld ==> o.status == Ok && o.state == st.(output := st.output + [st.memory[st.pointer]]))
  {
  }

  // ---------------------------------------------------------------------
  // Loop
  // ---------------------------------------------------------------------

  /** A loop entered on a zero cell runs no pass, spends no budget and changes nothing. */
  lemma LoopSkipsOnZero(cfg: Config, body: seq<AstNode>, st: State)
    requires st.iterations <= cfg.maxIterations
    requires OnTape(st) && st.memory[st.pointer] == 0
    ensures LoopRun(cfg, body, st) == Outcome(Ok, st)
  {
  }

  /**
   * A loop entered on a nonzero cell runs a whole pass; a pass that does not
   * end normally ends the loop with its status and state, and a pass that
   * does is followed by a new test of the cell under the (possibly moved)
   * cursor, which spends no budget.
   */
  lemma LoopPass(cfg: Config, body: seq<AstNode>, st: State)
    requires st.iterations <= cfg.maxIterations
    requires OnTape(st) && st.memory[st.pointer] != 0 && body != []
    ensures var pass := Exec(cfg, body, st);
            LoopRun(cfg, body, st) == if pass.status != Ok then pass else LoopRun(cfg, body, pass.state)
  {
  }

  // ---------------------------------------------------------------------
  // MultiplyMove
  // ---------------------------------------------------------------------

  /** The sum of the factors of the pairs in `changes` that aim at cell `target`. */
  function FactorSum(pointer: ISize, target: int, changes: seq<(ISize, I8)>): (sum: int)
  {
    if changes == [] then 0
    else (if pointer as int + changes[0].0 as int == target then changes[0].1 as int else 0)
         + FactorSum(pointer, target, changes[1..])
  }

  /**
   * The tape after every pair of `changes` has been applied, cell by cell:
   * each cell gains `current` times the sum of the factors aimed at it,
   * modulo 256. This does not depend on the order of the pairs.
   */
  function Distributed(memory: seq<U8>, pointer: ISize, current: U8, changes: seq<(ISize, I8)>): (m: seq<U8>)
    ensures |m| == |memory|
  {
    seq(|memory|, j requires 0 <= j < |memory| =>
      ((memory[j] as int + current as int * FactorSum(pointer, j, changes)) % 256) as U8)
  }

  /** Index of the first pair whose address is rejected, or the number of pairs. */
  function FirstRejected(pointer: ISize, changes: seq<(ISize, I8)>, len: nat): (k: nat)
    ensures k <= |changes|
    ensures forall i :: 0 <= i < k ==> ResolveAddress(pointer, changes[i].0, len).InBounds?
    ensures k < |changes| ==> ResolveAddress(pointer, changes[k].0, len).OutOfBounds?
  {
    if changes == [] then 0
    else if ResolveAddress(pointer, changes[0].0, len).OutOfBounds? then 0
    else 1 + FirstRejected(pointer, changes[1..], len)
  }

  lemma DistributedNothing(memory: seq<U8>, pointer: ISize, current: U8)
    ensures Distributed(memory, pointer, current, []) == memory
  {
    assert forall j :: 0 <= j < |memory| ==> Distributed(memory, pointer, current, [])[j] == memory[j];
  }

  /**
   * The pair loop of `MultiplyMove` adds `current * factor` for every pair
   * before the first rejected one, and stops there with those additions kept
   * and that pair's error.
   */
  lemma {:induction false} ApplyChangesDistributes(pointer: ISize, current: U8, changes: seq<(ISize, I8)>, memory: seq<U8>)
    ensures var k := FirstRejected(pointer, changes, |memory|);
            ApplyChanges(pointer, current, changes, memory)
              == (if k == |changes| then Ok else Err(ResolveAddress(pointer, changes[k].0, |memory|).error),
                  Distributed(memory, pointer, current, changes[..k]))
    decreases |changes|
  {
    var len := |memory|;
    var k := FirstRejected(pointer, changes, len);
    if changes == [] {
      DistributedNothing(memory, pointer, current);
    } else {
      match ResolveAddress(pointer, changes[0].0, len)
      case OutOfBounds(e) =>
        assert changes[..k] == [];
        DistributedNothing(memory, pointer, current);
      case InBounds(i) =>
        var updated := memory[i := WrappingAdd(memory[i], WrappingMul(current, ToByte(changes[0].1)))];
        var rest := changes[1..];
        ApplyChangesDistributes(pointer, current, rest, updated);
        assert k == 1 + FirstRejected(pointer, rest, len);
        assert changes[..k] == [changes[0]] + rest[..k - 1];
        assert k < |changes| ==> rest[k - 1] == changes[k];
        DistributedFirst(memory, pointer, current, changes[0], rest[..k - 1]);
    }
  }

  /** A target first gains `c * f`, then `c * s`: it has gained `c * (f + s)`. */
  lemma TargetGains(m: int, c: int, f: I8, s: int)
    ensures ((m + (c * ToByte(f) as int) % 256) % 256 + c * s) % 256 == (m + c * (f as int + s)) % 256
  {
    calc {
      ((m + (c * ToByte(f) as int) % 256) % 256 + c * s) % 256;
      { ModAddLeft(m + (c * ToByte(f) as int) % 256, c * s); }
      (m + (c * ToByte(f) as int) % 256 + c * s) % 256;
      { MulCongruent(m + c * s, c, ToByte(f) as int, f as int); }
      (m + c * s + c * f as int) % 256;
      { assert c * s + c * f as int == c * (f as int + s); }
      (m + c * (f as int + s)) % 256;
    }
  }

  /** `TargetGains` on the bytes of one target cell. */
  lemma TargetCell(cell: U8, current: U8, f: I8, s: int)
    ensures (WrappingAdd(cell, WrappingMul(current, ToByte(f))) as int + current as int * s) % 256
         == (cell as int + current as int * (f as int + s)) % 256
  {
    TargetGains(cell as int, current as int, f, s);
  }

  /** Applying one accepted pair, then distributing the rest, distributes them all. */
  lemma DistributedFirst(memory: seq<U8>, pointer: ISize, current: U8, change: (ISize, I8), rest: seq<(ISize, I8)>)
    requires ResolveAddress(pointer, change.0, |memory|).InBounds?
    ensures var i := ResolveAddress(pointer, change.0, |memory|).index;
            var updated := memory[i := WrappingAdd(memory[i], WrappingMul(current, ToByte(change.1)))];
            Distributed(updated, pointer, current, rest) == Distributed(memory, pointer, current, [change] + rest)
  {
    var i := ResolveAddress(pointer, change.0, |memory|).index;
    var f := change.1;
    var updated := memory[i := WrappingAdd(memory[i], WrappingMul(current, ToByte(f)))];
    assert ([change] + rest)[1..] == rest;
    forall j | 0 <= j < |memory|
      ensures Distributed(updated, pointer, current, rest)[j] == Distributed(memory, pointer, current, [change] + rest)[j]
    {
      var s := FactorSum(pointer, j, rest);
      var c := current as int;
      var m := memory[j] as int;
      if j == i {
        assert FactorSum(pointer, j, [change] + rest) == f as int + s;
        TargetCell(memory[j], current, f, s);
      } else {
        assert FactorSum(pointer, j, [change] + rest) == s;
      }
    }
  }

  /**
   * `MultiplyMove` reads the current cell once. On zero it changes nothing.
   * Otherwise every pair before the first rejected one adds the original
   * value times its factor to its target (also when a target is the current
   * cell); if a pair is rejected the run stops there with those additions
   * kept; if none is, the current cell is cleared last.
   */
  lemma MultiplyMoveEffect(changes: seq<(ISize, I8)>, st: State)
    requires OnTape(st)
    ensures var o := MultiplyMoveStep(changes, st);
            var current := st.memory[st.pointer];
            var k := FirstRejected(st.pointer, changes, |st.memory|);
            var spread := Distributed(st.memory, st.pointer, current, changes[..k]);
            && (current == 0 ==> o == Outcome(Ok, st))
            && (current != 0 && k < |changes| ==>
                  o == Outcome(Err(ResolveAddress(st.pointer, changes[k].0, |st.memory|).error), st.(memory := spread)))
            && (current != 0 && k == |changes| ==>
                  o == Outcome(Ok, st.(memory := spread[st.pointer as int := 0])))
  {
    var current := st.memory[st.pointer];
    if current != 0 {
      ApplyChangesDistributes(st.pointer, current, changes, st.memory);
    }
  }

  // ---------------------------------------------------------------------
  // The iteration budget
  // ---------------------------------------------------------------------

  /**
   * With the budget spent, the next instruction is refused before it has any
   * effect: only the counter moves, to one past the budget.
   */
  lemma BudgetCheckedFirst(cfg: Config, body: seq<AstNode>, st: State)
    requires body != [] && st.iterations == cfg.maxIterations && (cfg.maxIterations as int) < U64_MAX
    ensures Exec(cfg, body, st) == Outcome(Err(MaxIterationsExceeded), st.(iterations := st.iterations + 1))
  {
  }

  /**
   * The budget only ever cuts a run short: a run that does not exceed budget
   * `cfg.maxIterations` ends exactly the same way under any larger budget.
   */
  lemma {:induction false} ExecBudgetIrrelevant(cfg: Config, larger: U64, body: seq<AstNode>, st: State)
    requires st.iterations <= cfg.maxIterations <= larger
    requires Exec(cfg, body, st).status != Err(MaxIterationsExceeded)
    ensures Exec(cfg.(maxIterations := larger), body, st) == Exec(cfg, body, st)
    decreases cfg.maxIterations as int - st.iterations as int, 0, |body|
  {
    if body != [] && st.iterations as int != U64_MAX {
      var counted := st.(iterations := st.iterations + 1);
      if counted.iterations <= cfg.maxIterations {
        StepBudgetIrrelevant(cfg, larger, body[0], counted);
        var o := Step(cfg, body[0], counted);
        if o.status == Ok {
          ExecBudgetIrrelevant(cfg, larger, body[1..], o.state);
        }
      }
    }
  }

  lemma {:induction false} StepBudgetIrrelevant(cfg: Config, larger: U64, node: AstNode, st: State)
    requires st.iterations <= cfg.maxIterations <= larger
    requires Step(cfg, node, st).status != Err(MaxIterationsExceeded)
    ensures Step(cfg.(maxIterations := larger), node, st) == Step(cfg, node, st)
    decreases cfg.maxIterations as int - st.iterations as int, 2, 0
  {
    if node.Loop? {
      LoopBudgetIrrelevant(cfg, larger, node.body, st);
    }
  }

  lemma {:induction false} LoopBudgetIrrelevant(cfg: Config, larger: U64, body: seq<AstNode>, st: State)
    requires st.iterations <= cfg.maxIterations <= larger
    requires LoopRun(cfg, body, st).status != Err(MaxIterationsExceeded)
    ensures LoopRun(cfg.(maxIterations := larger), body, st) == LoopRun(cfg, body, st)
    decreases cfg.maxIterations as int - st.iterations as int, 1, 0
  {
    if OnTape(st) && st.memory[st.pointer] != 0 && body != [] {
      ExecBudgetIrrelevant(cfg, larger, body, st);
      var pass := Exec(cfg, body, st);
      if pass.status == Ok {
        LoopBudgetIrrelevant(cfg, larger, body, pass.state);
      }
    }
  }

  // ---------------------------------------------------------------------
  // What every run keeps
  // ---------------------------------------------------------------------

  /** `rest` is what remains of `queue` after bytes were taken from its front. */
  predicate Remains(rest: seq<U8>, queue: seq<U8>) {
    |rest| <= |queue| && rest == queue[|queue| - |rest|..]
  }

  /**
   * The tape keeps its length, the output is only appended to, the input is
   * only consumed from the front, and a normal end keeps the cursor within
   * the range `PointerIncrement` accepts.
   */
  predicate Evolves(st: State, o: Outcome) {
    && |o.state.memory| == |st.memory|
    && st.output <= o.state.output
    && Remains(o.state.input, st.input)
    && (InReach(st) && o.status == Ok ==> InReach(o.state))
  }

  lemma RemainsTrans(a: seq<U8>, b: seq<U8>, c: seq<U8>)
    requires Remains(b, a) && Remains(c, b)
    ensures Remains(c, a)
  {
    assert b[|b| - |c|..] == a[|a| - |c|..];
  }

  /** A piece that ends normally followed by another evolves like one piece. */
  lemma EvolvesTrans(st: State, mid: State, o: Outcome)
    requires Evolves(st, Outcome(Ok, mid)) && Evolves(mid, o)
    ensures Evolves(st, o)
  {
    RemainsTrans(st.input, mid.input, o.state.input);
  }

  /** Counting a dispatch touches nothing a run keeps. */
  lemma EvolvesAfterCount(st: State, o: Outcome)
    requires st.iterations as int < U64_MAX
    requires Evolves(st.(iterations := st.iterations + 1), o)
    ensures Evolves(st, o)
  {
  }

  lemma {:induction false} ExecEvolves(cfg: Config, body: seq<AstNode>, st: State)
    requires st.iterations <= cfg.maxIterations
    ensures Evolves(st, Exec(cfg, body, st))
    decreases cfg.maxIterations as int - st.iterations as int, 0, |body|
  {
    assert st.input[|st.input| - |st.input|..] == st.input;
    if body != [] && st.iterations as int != U64_MAX {
      var counted := st.(iterations := st.iterations + 1);
      if counted.iterations <= cfg.maxIterations {
        StepEvolves(cfg, body[0], counted);
        var o := Step(cfg, body[0], counted);
        EvolvesAfterCount(st, o);
        if o.status == Ok {
          ExecEvolves(cfg, body[1..], o.state);
          ExecEvolvesOn(cfg, body, st, o.state);
        }
      }
    }
  }

  /** The step of `ExecEvolves` for an instruction that ran and ended normally. */
  lemma ExecEvolvesOn(cfg: Config, body: seq<AstNode>, st: State, mid: State)
    requires body != [] && st.iterations < cfg.maxIterations
    requires Step(cfg, body[0], st.(iterations := st.iterations + 1)) == Outcome(Ok, mid)
    requires Evolves(st, Outcome(Ok, mid)) && Evolves(mid, Exec(cfg, body[1..], mid))
    ensures Evolves(st, Exec(cfg, body, st))
  {
    ExecCons(cfg, body, st);
    EvolvesTrans(st, mid, Exec(cfg, body[1..], mid));
  }

  lemma {:induction false} StepEvolves(cfg: Config, node: AstNode, st: State)
    requires st.iterations <= cfg.maxIterations
    ensures Evolves(st, Step(cfg, node, st))
    decreases cfg.maxIterations as int - st.iterations as int, 2, 0
  {
    if node.Loop? {
      LoopEvolves(cfg, node.body, st);
    } else if node.Read? {
      ReadEvolves(st);
    } else {
      ArmEvolves(cfg, node, st);
    }
  }

  lemma ReadEvolves(st: State)
    ensures Evolves(st, ReadStep(st))
  {
    if st.input == [] {
      assert st.input[|st.input| - |st.input|..] == st.input;
    } else {
      assert st.input[|st.input| - |st.input[1..]|..] == st.input[1..];
    }
  }

  /** The arms other than `Loop` and `Read` leave the input queue alone. */
  lemma ArmEvolves(cfg: Config, node: AstNode, st: State)
    requires st.iterations <= cfg.maxIterations && !node.Loop? && !node.Read?
    ensures Evolves(st, Step(cfg, node, st))
  {
    assert st.input[|st.input| - |st.input|..] == st.input;
  }

  lemma {:induction false} LoopEvolves(cfg: Config, body: seq<AstNode>, st: State)
    requires st.iterations <= cfg.maxIterations
    ensures Evolves(st, LoopRun(cfg, body, st))
    decreases cfg.maxIterations as int - st.iterations as int, 1, 0
  {
    assert st.input[|st.input| - |st.input|..] == st.input;
    if OnTape(st) && st.memory[st.pointer] != 0 && body != [] {
      ExecEvolves(cfg, body, st);
      var pass := Exec(cfg, body, st);
      if pass.status == Ok {
        LoopEvolves(cfg, body, pass.state);
        EvolvesTrans(st, pass.state, LoopRun(cfg, body, pass.state));
      }
    }
  }

  /**
   * A whole run keeps the 30000-cell tape, ends normally only with the cursor
   * between 0 and 30000 and the counter within the budget, and leaves on the
   * input channel what it did not receive.
   */
  lemma RunProgramKeeps(instructions: seq<AstNode>, maxIterations: U64, input: seq<U8>, receiverHeld: bool)
    ensures var o := RunProgram(instructions, maxIterations, input, receiverHeld);
            && |o.state.memory| == TAPE_LEN
            && (o.status == Ok ==> 0 <= o.state.pointer as int <= TAPE_LEN && o.state.iterations <= maxIterations)
            && Remains(o.state.input, input)
  {
    ExecEvolves(Config(maxIterations, receiverHeld), instructions, Initial(input));
  }

  // ---------------------------------------------------------------------
  // Where the budget stops a run
  // ---------------------------------------------------------------------

  /**
   * A run stopped by the budget stops at dispatch `maxIterations + 1`: with
   * budget B exactly B dispatches were let through.
   */
  predicate StopsAtBudget(cfg: Config, o: Outcome) {
    o.status == Err(MaxIterationsExceeded) ==> o.state.iterations as int == cfg.maxIterations as int + 1
  }

  lemma {:induction false} ExecFault(cfg: Config, body: seq<AstNode>, st: State)
    requires st.iterations <= cfg.maxIterations
    ensures StopsAtBudget(cfg, Exec(cfg, body, st))
    decreases cfg.maxIterations as int - st.iterations as int, 0, |body|
  {
    if body != [] && st.iterations as int != U64_MAX {
      var counted := st.(iterations := st.iterations + 1);
      if counted.iterations <= cfg.maxIterations {
        StepFault(cfg, body[0], counted);
        var o := Step(cfg, body[0], counted);
        if o.status == Ok {
          ExecFault(cfg, body[1..], o.state);
        }
      }
    }
  }

  lemma {:induction false} StepFault(cfg: Config, node: AstNode, st: State)
    requires st.iterations <= cfg.maxIterations
    ensures StopsAtBudget(cfg, Step(cfg, node, st))
    decreases cfg.maxIterations as int - st.iterations as int, 2, 0
  {
    if node.Loop? {
      LoopFault(cfg, node.body, st);
    }
  }

  lemma {:induction false} LoopFault(cfg: Config, body: seq<AstNode>, st: State)
    requires st.iterations <= cfg.maxIterations
    ensures StopsAtBudget(cfg, LoopRun(cfg, body, st))
    decreases cfg.maxIterations as int - st.iterations as int, 1, 0
  {
    if OnTape(st) && st.memory[st.pointer] != 0 && body != [] {
      ExecFault(cfg, body, st);
      var pass := Exec(cfg, body, st);
      if pass.status == Ok {
        LoopFault(cfg, body, pass.state);
      }
    }
  }
}
