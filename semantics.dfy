/**
 * The meaning of `Interpreter::run_body` as functions on values: the tape,
 * cursor, iteration counter and the two channels are gathered in a `State`,
 * and every instruction maps a state to an `Outcome` (a status and the state
 * that status leaves behind, including any effect applied before a fault).
 *
 * The input channel is the sequence of bytes still queued on it; once the
 * queue is empty the sender is gone, so `recv` fails. The output channel is
 * the sequence of bytes sent so far, plus whether its receiver is still held.
 */
module Semantics {
  import opened Ast

  /** Length of the tape the interpreter allocates (`vec![Wrapping(0); 30000]`). */
  const TAPE_LEN: nat := 30000

  /** The interpreter's error taxonomy. */
  datatype RunTimeError =
    | OutOfBoundsLeft
    | OutOfBoundsRight
    | RecvError
    | SendError
    | MaxIterationsExceeded

  /** Why a Rust debug build would panic instead of returning an error. */
  datatype PanicKind =
    | IndexOutOfBounds   // `memory[memory_pointer as usize]` with the cursor off the tape
    | AddOverflow        // `+=` on `isize` or `u64` leaving the type's range

  /**
   * How a run (or a piece of it) ends: normally, with one of the
   * interpreter's errors, with a panic, or never (a `Loop` with an empty body
   * entered on a nonzero cell spins forever).
   */
  datatype Status = Ok | Err(error: RunTimeError) | Panicked(kind: PanicKind) | Diverges

  /** The mutable part of an `Interpreter`, plus the two channel ends it uses. */
  datatype State = State(
    memory: seq<U8>,
    pointer: ISize,
    iterations: U64,
    input: seq<U8>,     // bytes still queued on the input channel
    output: seq<U8>)    // bytes sent on the output channel so far

  /** What does not change during a run. */
  datatype Config = Config(maxIterations: U64, receiverHeld: bool)

  datatype Outcome = Outcome(status: Status, state: State)

  /** Result of resolving `memory_pointer + offset` to a tape index. */
  datatype Address = InBounds(index: nat) | OutOfBounds(error: RunTimeError)

  /** The state `Interpreter::new` creates, with `input` queued on its input channel. */
  function Initial(input: seq<U8>): (st: State)
    ensures |st.memory| == TAPE_LEN && st.pointer == 0 && st.iterations == 0
    ensures forall i :: 0 <= i < |st.memory| ==> st.memory[i] == 0
    ensures st.input == input && st.output == []
  {
    State(seq(TAPE_LEN, _ => 0), 0, 0, input, [])
  }

  /** `Wrapping<u8>` addition: the sum modulo 256. */
  function WrappingAdd(a: U8, b: U8): (r: U8)
    ensures (r as int - (a as int + b as int)) % 256 == 0
  {
    ((a as int + b as int) % 256) as U8
  }

  /** `Wrapping<u8>` subtraction: undone by adding back what was subtracted. */
  function WrappingSub(a: U8, b: U8): (r: U8)
    ensures WrappingAdd(r, b) == a
  {
    ((a as int - b as int) % 256) as U8
  }

  /** `Wrapping<u8>` multiplication: the product modulo 256. */
  function WrappingMul(a: U8, b: U8): (r: U8)
    ensures (r as int - a as int * b as int) % 256 == 0
  {
    ((a as int * b as int) % 256) as U8
  }

  /** `Wrapping<u8>` negation: the additive inverse modulo 256. */
  function WrappingNeg(a: U8): (r: U8)
    ensures WrappingAdd(a, r) == 0
  {
    ((0 - a as int) % 256) as U8
  }

  /**
   * The byte a signed amount stands for, computed as the source does: the
   * wrapping negation of its magnitude when negative, zero when zero, the
   * magnitude otherwise. It is the two's-complement byte of `amount`.
   */
  function ToByte(amount: I8): (b: U8)
    ensures b as int == amount as int % 256
    ensures amount >= 0 ==> b as int == amount as int
  {
    if amount < 0 then WrappingNeg((0 - amount as int) as U8)
    else if amount == 0 then 0
    else amount as int as U8
  }

  /**
   * `cell += amount` as the source performs it: a wrapping subtraction of the
   * magnitude when `amount` is negative, nothing when it is zero, a wrapping
   * addition otherwise. Either way it adds `amount` modulo 256.
   */
  function AddAmount(cell: U8, amount: I8): (r: U8)
    ensures r as int == (cell as int + amount as int) % 256
    ensures r == WrappingAdd(cell, ToByte(amount))
  {
    if amount < 0 then WrappingSub(cell, (0 - amount as int) as U8)
    else if amount == 0 then cell
    else WrappingAdd(cell, amount as int as U8)
  }

  /**
   * The address check shared by `Increment`, `Set` and every target of
   * `MultiplyMove`: a `checked_add` whose overflow is reported as
   * `OutOfBoundsRight`, then the sign test, then the comparison with the
   * tape length.
   */
  function ResolveAddress(pointer: ISize, offset: ISize, len: nat): (a: Address)
    ensures a.InBounds? <==> 0 <= pointer as int + offset as int < len && pointer as int + offset as int <= ISIZE_MAX
    ensures a.InBounds? ==> a.index == pointer as int + offset as int
    ensures a == OutOfBounds(OutOfBoundsLeft) <==> ISIZE_MIN <= pointer as int + offset as int < 0
    ensures a.OutOfBounds? ==> a.error == OutOfBoundsLeft || a.error == OutOfBoundsRight
  {
    var sum := pointer as int + offset as int;
    if !(ISIZE_MIN <= sum <= ISIZE_MAX) then OutOfBounds(OutOfBoundsRight)
    else if sum < 0 then OutOfBounds(OutOfBoundsLeft)
    else if sum >= len then OutOfBounds(OutOfBoundsRight)
    else InBounds(sum)
  }

  /** The cursor designates a cell, so `memory[memory_pointer as usize]` does not panic. */
  predicate OnTape(st: State) {
    0 <= st.pointer as int < |st.memory|
  }

  /** The cursor range `PointerIncrement` accepts: one past the last cell included. */
  predicate InReach(st: State) {
    0 <= st.pointer as int <= |st.memory|
  }

  /** `Increment` touches only the tape, and keeps its length. */
  function IncrementStep(amount: I8, offset: ISize, st: State): (o: Outcome)
    ensures |o.state.memory| == |st.memory| && o.state.(memory := st.memory) == st
  {
    match ResolveAddress(st.pointer, offset, |st.memory|)
    case OutOfBounds(e) => Outcome(Err(e), st)
    case InBounds(i) => Outcome(Ok, st.(memory := st.memory[i := AddAmount(st.memory[i], amount)]))
  }

  /**
   * The cursor moves before it is checked, so a faulting move leaves the
   * moved cursor behind. Since the cursor is not negative at the second test,
   * its `unsigned_abs` is the cursor itself.
   */
  function PointerIncrementStep(amount: ISize, st: State): (o: Outcome)
    ensures o.state.(pointer := st.pointer) == st
  {
    var moved := st.pointer as int + amount as int;
    if !(ISIZE_MIN <= moved <= ISIZE_MAX) then Outcome(Panicked(AddOverflow), st)
    else
      var st' := st.(pointer := moved as ISize);
      if moved < 0 then Outcome(Err(OutOfBoundsLeft), st')
      else if moved > |st.memory| then Outcome(Err(OutOfBoundsRight), st')
      else Outcome(Ok, st')
  }

  /**
   * The byte is received before the cell is indexed (Rust evaluates the
   * right-hand side of an assignment first), so a cursor off the tape
   * panics after consuming the byte.
   */
  function ReadStep(st: State): (o: Outcome)
    ensures |o.state.memory| == |st.memory| && o.state.(memory := st.memory, input := st.input) == st
  {
    if st.input == [] then Outcome(Err(RecvError), st)
    else
      var rest := st.(input := st.input[1..]);
      if !OnTape(st) then Outcome(Panicked(IndexOutOfBounds), rest)
      else Outcome(Ok, rest.(memory := st.memory[st.pointer as int := st.input[0]]))
  }

  /** The cell is indexed before anything is sent. */
  function WriteStep(receiverHeld: bool, st: State): (o: Outcome)
    ensures o.state.(output := st.output) == st && st.output <= o.state.output
  {
    if !OnTape(st) then Outcome(Panicked(IndexOutOfBounds), st)
    else if !receiverHeld then Outcome(Err(SendError), st)
    else Outcome(Ok, st.(output := st.output + [st.memory[st.pointer]]))
  }

  /** `Set` touches only the tape, and keeps its length. */
  function SetStep(amount: I8, offset: ISize, st: State): (o: Outcome)
    ensures |o.state.memory| == |st.memory| && o.state.(memory := st.memory) == st
  {
    match ResolveAddress(st.pointer, offset, |st.memory|)
    case OutOfBounds(e) => Outcome(Err(e), st)
    case InBounds(i) => Outcome(Ok, st.(memory := st.memory[i := ToByte(amount)]))
  }

  /**
   * The `for` loop of `MultiplyMove` over `changes`, front first: each pair
   * adds `current * factor` to its target; the first pair whose address is
   * rejected stops the loop with the additions made so far kept.
   */
  function ApplyChanges(pointer: ISize, current: U8, changes: seq<(ISize, I8)>, memory: seq<U8>): (r: (Status, seq<U8>))
    ensures |r.1| == |memory|
    ensures r.0 == Ok || r.0 == Err(OutOfBoundsLeft) || r.0 == Err(OutOfBoundsRight)
  {
    if changes == [] then (Ok, memory)
    else
      match ResolveAddress(pointer, changes[0].0, |memory|)
      case OutOfBounds(e) => (Err(e), memory)
      case InBounds(i) =>
        ApplyChanges(pointer, current, changes[1..], memory[i := WrappingAdd(memory[i], WrappingMul(current, ToByte(changes[0].1)))])
  }

  /** The source cell is read once; when it is nonzero it is cleared after all pairs applied. */
  function MultiplyMoveStep(changes: seq<(ISize, I8)>, st: State): (o: Outcome)
    ensures |o.state.memory| == |st.memory| && o.state.(memory := st.memory) == st
  {
    if !OnTape(st) then Outcome(Panicked(IndexOutOfBounds), st)
    else
      var current := st.memory[st.pointer];
      if current == 0 then Outcome(Ok, st)
      else
        var (status, memory) := ApplyChanges(st.pointer, current, changes, st.memory);
        if status != Ok then Outcome(status, st.(memory := memory))
        else Outcome(Ok, st.(memory := memory[st.pointer as int := 0]))
  }

  /**
   * What every piece of a run guarantees about the counter: it only grows,
   * and it exceeds the budget exactly when the budget fault is reported.
   * (Everything else a run keeps is proved about these functions in
   * `Properties`.)
   */
  predicate Spends(cfg: Config, st: State, o: Outcome) {
    && st.iterations <= o.state.iterations
    && (o.status == Err(MaxIterationsExceeded) <==> o.state.iterations > cfg.maxIterations)
  }

  /**
   * `run_body`: before each instruction the counter is incremented (a `u64`
   * addition that overflows only when the budget is `u64::MAX` and spent)
   * and compared with the budget; the instruction runs only if the budget
   * allows it, and the first status other than `Ok` ends the body.
   */
  function Exec(cfg: Config, body: seq<AstNode>, st: State): (o: Outcome)
    requires st.iterations <= cfg.maxIterations
    ensures Spends(cfg, st, o)
    ensures o.status == Ok ==> o.state.iterations as int >= st.iterations as int + |body|
    decreases cfg.maxIterations as int - st.iterations as int, 0, |body|
  {
    if body == [] then Outcome(Ok, st)
    else if st.iterations as int == U64_MAX then Outcome(Panicked(AddOverflow), st)
    else
      var counted := st.(iterations := st.iterations + 1);
      if counted.iterations > cfg.maxIterations then Outcome(Err(MaxIterationsExceeded), counted)
      else
        var o := Step(cfg, body[0], counted);
        if o.status != Ok then o else Exec(cfg, body[1..], o.state)
  }

  /** One instruction of a body whose budget allows it: count it, run it, go on with the rest on `Ok`. */
  lemma ExecCons(cfg: Config, body: seq<AstNode>, st: State)
    requires body != [] && st.iterations < cfg.maxIterations
    ensures var o := Step(cfg, body[0], st.(iterations := st.iterations + 1));
            Exec(cfg, body, st) == if o.status != Ok then o else Exec(cfg, body[1..], o.state)
  {
  }

  /** The `match` of `run_body`: the effect of one instruction whose dispatch was counted. */
  function Step(cfg: Config, node: AstNode, st: State): (o: Outcome)
    requires st.iterations <= cfg.maxIterations
    ensures Spends(cfg, st, o)
    decreases cfg.maxIterations as int - st.iterations as int, 2, 0
  {
    match node
    case Increment(amount, offset) => IncrementStep(amount, offset, st)
    case PointerIncrement(amount) => PointerIncrementStep(amount, st)
    case Read => ReadStep(st)
    case Write => WriteStep(cfg.receiverHeld, st)
    case Loop(body) => LoopRun(cfg, body, st)
    case Set(amount, offset) => SetStep(amount, offset, st)
    case MultiplyMove(changes) => MultiplyMoveStep(changes, st)
  }

  /**
   * The `while` loop of the `Loop` arm: the current cell is tested (which
   * costs no budget) and, while it is nonzero, the whole body runs again; a
   * body status other than `Ok` ends the loop. With an empty body the test
   * never changes, so the source spins forever.
   */
  function LoopRun(cfg: Config, body: seq<AstNode>, st: State): (o: Outcome)
    requires st.iterations <= cfg.maxIterations
    ensures Spends(cfg, st, o)
    ensures o.status == Ok ==> OnTape(o.state) && o.state.memory[o.state.pointer] == 0
    decreases cfg.maxIterations as int - st.iterations as int, 1, 0
  {
    if !OnTape(st) then Outcome(Panicked(IndexOutOfBounds), st)
    else if st.memory[st.pointer] == 0 then Outcome(Ok, st)
    else if body == [] then Outcome(Diverges, st)
    else
      var o := Exec(cfg, body, st);
      if o.status != Ok then o else LoopRun(cfg, body, o.state)
  }

  /** `Interpreter::new` followed by `run` in batch mode: all input queued before the run. */
  function RunProgram(instructions: seq<AstNode>, maxIterations: U64, input: seq<U8>, receiverHeld: bool): (o: Outcome)
    ensures o.status == Ok ==> o.state.iterations <= maxIterations
  {
    Exec(Config(maxIterations, receiverHeld), instructions, Initial(input))
  }
}
