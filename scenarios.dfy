/**
 * Whole runs of small programs, from `Interpreter::new` to the end, with the
 * outcome each one must have.
 */
module Scenarios {
  import opened Ast
  import opened Semantics

  /** A counted instruction that ends normally hands its state to the rest of the body. */
  lemma ExecOkStep(cfg: Config, body: seq<AstNode>, st: State, next: State)
    requires body != [] && st.iterations < cfg.maxIterations
    requires Step(cfg, body[0], st.(iterations := st.iterations + 1)) == Outcome(Ok, next)
    ensures Exec(cfg, body, st) == Exec(cfg, body[1..], next)
  {
    ExecCons(cfg, body, st);
  }

  /** A `Read` that receives a byte stores it under the cursor and takes it off the queue. */
  lemma ReadReceives(cfg: Config, st: State)
    requires st.iterations <= cfg.maxIterations && OnTape(st) && st.input != []
    ensures Step(cfg, Read, st) == Outcome(Ok, st.(memory := st.memory[st.pointer as int := st.input[0]], input := st.input[1..]))
  {
  }

  /** A `Read` that receives a byte, followed by the rest of a body. */
  lemma ReadThen(cfg: Config, rest: seq<AstNode>, st: State)
    requires st.iterations < cfg.maxIterations && OnTape(st) && st.input != []
    ensures Exec(cfg, [Read] + rest, st)
         == Exec(cfg, rest, st.(iterations := st.iterations + 1,
                                memory := st.memory[st.pointer as int := st.input[0]],
                                input := st.input[1..]))
  {
    var counted := st.(iterations := st.iterations + 1);
    var next := counted.(memory := st.memory[st.pointer as int := st.input[0]], input := st.input[1..]);
    ReadReceives(cfg, counted);
    var body := [Read] + rest;
    assert body[0] == Read && body[1..] == rest;
    ExecOkStep(cfg, body, st, next);
  }

  /** A counted instruction that does not end normally ends the body with its outcome. */
  lemma ExecStopStep(cfg: Config, body: seq<AstNode>, st: State, o: Outcome)
    requires body != [] && st.iterations < cfg.maxIterations
    requires Step(cfg, body[0], st.(iterations := st.iterations + 1)) == o && o.status != Ok
    ensures Exec(cfg, body, st) == o
  {
    ExecCons(cfg, body, st);
  }

  /** A `Read` that finds the input queue empty and its sender gone stops the body. */
  lemma ReadStarved(cfg: Config, rest: seq<AstNode>, st: State)
    requires st.iterations < cfg.maxIterations && st.input == []
    ensures Exec(cfg, [Read] + rest, st) == Outcome(Err(RecvError), st.(iterations := st.iterations + 1))
  {
    var counted := st.(iterations := st.iterations + 1);
    assert ReadStep(counted) == Outcome(Err(RecvError), counted);
    var body := [Read] + rest;
    assert body[0] == Read;
    ExecStopStep(cfg, body, st, Outcome(Err(RecvError), counted));
  }

  /** A `Write` whose receiver is held, followed by the rest of a body. */
  lemma WriteThen(cfg: Config, rest: seq<AstNode>, st: State)
    requires st.iterations < cfg.maxIterations && OnTape(st) && cfg.receiverHeld
    ensures Exec(cfg, [Write] + rest, st)
         == Exec(cfg, rest, st.(iterations := st.iterations + 1, output := st.output + [st.memory[st.pointer]]))
  {
    var counted := st.(iterations := st.iterations + 1);
    var next := counted.(output := st.output + [st.memory[st.pointer]]);
    assert WriteStep(cfg.receiverHeld, counted) == Outcome(Ok, next);
    var body := [Write] + rest;
    assert body[0] == Write && body[1..] == rest;
    ExecOkStep(cfg, body, st, next);
  }

  /** An `Increment` of the current cell, followed by the rest of a body. */
  lemma IncrementThen(cfg: Config, amount: I8, rest: seq<AstNode>, st: State)
    requires st.iterations < cfg.maxIterations && OnTape(st)
    ensures Exec(cfg, [Increment(amount, 0)] + rest, st)
         == Exec(cfg, rest, st.(iterations := st.iterations + 1,
                                memory := st.memory[st.pointer as int := AddAmount(st.memory[st.pointer], amount)]))
  {
    var counted := st.(iterations := st.iterations + 1);
    var next := counted.(memory := st.memory[st.pointer as int := AddAmount(st.memory[st.pointer], amount)]);
    assert IncrementStep(amount, 0, counted) == Outcome(Ok, next);
    var body := [Increment(amount, 0)] + rest;
    assert body[0] == Increment(amount, 0) && body[1..] == rest;
    ExecOkStep(cfg, body, st, next);
  }

  /** `,.` repeated `n` times: read a byte, write it back. */
  function EchoProgram(n: nat): (p: seq<AstNode>)
    ensures |p| == 2 * n
  {
    if n == 0 then [] else [Read, Write] + EchoProgram(n - 1)
  }

  lemma EchoProgramCons(n: nat)
    requires n > 0
    ensures EchoProgram(n) == [Read] + ([Write] + EchoProgram(n - 1))
  {
    assert [Read, Write] == [Read] + [Write];
  }

  /** The state after one `,.` pass that received a byte. */
  function EchoNext(st: State): (next: State)
    requires st.input != [] && OnTape(st) && st.iterations as int + 2 <= U64_MAX
  {
    st.(iterations := st.iterations + 2,
        memory := st.memory[st.pointer as int := st.input[0]],
        input := st.input[1..],
        output := st.output + [st.input[0]])
  }

  lemma EchoPass(cfg: Config, n: nat, st: State)
    requires n > 0 && OnTape(st) && cfg.receiverHeld && st.input != []
    requires st.iterations as int + 2 <= cfg.maxIterations as int
    ensures Exec(cfg, EchoProgram(n), st) == Exec(cfg, EchoProgram(n - 1), EchoNext(st))
  {
    var rest := EchoProgram(n - 1);
    EchoProgramCons(n);
    ReadThen(cfg, [Write] + rest, st);
    var st1 := st.(iterations := st.iterations + 1,
                   memory := st.memory[st.pointer as int := st.input[0]],
                   input := st.input[1..]);
    assert st1.memory[st1.pointer] == st.input[0];
    WriteThen(cfg, rest, st1);
    assert st1.(iterations := st1.iterations + 1, output := st1.output + [st1.memory[st1.pointer]]) == EchoNext(st);
  }

  /**
   * `,.` repeated `n` times, pass by pass: each pass either finds the queue
   * empty and fails on the `Read`, or moves one byte to the output.
   */
  function EchoRun(n: nat, st: State): (o: Outcome)
    requires OnTape(st) && st.iterations as int + 2 * n <= U64_MAX
    decreases n
  {
    if n == 0 then Outcome(Ok, st)
    else if st.input == [] then Outcome(Err(RecvError), st.(iterations := st.iterations + 1))
    else EchoRun(n - 1, EchoNext(st))
  }

  /** The interpreter runs `,.` repeated `n` times pass by pass. */
  lemma {:induction false} ExecEcho(cfg: Config, n: nat, st: State)
    requires OnTape(st) && cfg.receiverHeld
    requires st.iterations as int + 2 * n <= cfg.maxIterations as int
    ensures Exec(cfg, EchoProgram(n), st) == EchoRun(n, st)
  {
    if n == 0 {
      assert EchoProgram(0) == [];
    } else if st.input == [] {
      EchoStarved(cfg, n, st);
    } else {
      EchoPass(cfg, n, st);
      ExecEcho(cfg, n - 1, EchoNext(st));
    }
  }

  /** A pass that finds the queue empty fails on its `Read`. */
  lemma EchoStarved(cfg: Config, n: nat, st: State)
    requires n > 0 && st.input == [] && OnTape(st)
    requires st.iterations as int + 2 * n <= cfg.maxIterations as int
    ensures Exec(cfg, EchoProgram(n), st) == EchoRun(n, st)
  {
    EchoProgramCons(n);
    ReadStarved(cfg, [Write] + EchoProgram(n - 1), st);
  }

  /** What `,.` repeated `n` times leaves, by how many bytes are queued. */
  predicate Echoed(n: nat, st: State, o: Outcome)
  {
    if n <= |st.input|
    then o.status == Ok && o.state.output == st.output + st.input[..n] && o.state.input == st.input[n..]
    else o.status == Err(RecvError) && o.state.output == st.output + st.input && o.state.input == []
  }

  /** Pass by pass, the queued bytes reach the output in order until they run out. */
  lemma {:induction false} EchoRunEchoes(n: nat, st: State)
    requires OnTape(st) && st.iterations as int + 2 * n <= U64_MAX
    ensures Echoed(n, st, EchoRun(n, st))
  {
    if n == 0 {
      assert st.input[..0] == [] && st.input[0..] == st.input && st.output + [] == st.output;
    } else if st.input == [] {
      assert st.output + st.input == st.output;
    } else {
      EchoRunEchoes(n - 1, EchoNext(st));
      EchoedShift(n, st, EchoNext(st), EchoRun(n - 1, EchoNext(st)));
    }
  }

  /**
   * Input comes out in the order it was queued: `,.` repeated `n` times
   * copies the first `n` queued bytes to the output; with fewer queued, it
   * copies all of them and then fails to receive.
   */
  lemma EchoCopiesInput(cfg: Config, n: nat, st: State)
    requires OnTape(st) && cfg.receiverHeld
    requires st.iterations as int + 2 * n <= cfg.maxIterations as int
    ensures Echoed(n, st, Exec(cfg, EchoProgram(n), st))
  {
    ExecEcho(cfg, n, st);
    EchoRunEchoes(n, st);
  }

  /** One received byte moves from the queue to the output without changing what is echoed. */
  lemma EchoedShift(n: nat, st: State, next: State, o: Outcome)
    requires n > 0 && st.input != [] && OnTape(st) && st.iterations as int + 2 <= U64_MAX
    requires next == EchoNext(st)
    requires Echoed(n - 1, next, o)
    ensures Echoed(n, st, o)
  {
    if n <= |st.input| {
      assert next.output + next.input[..n - 1] == st.output + st.input[..n];
      assert next.input[n - 1..] == st.input[n..];
    } else {
      assert next.output + next.input == st.output + st.input;
    }
  }

  /** `,.,.,.` with input [1, 2, 3] outputs [1, 2, 3] and completes. */
  lemma EchoThreeBytes()
    ensures var o := RunProgram([Read, Write, Read, Write, Read, Write], 0xFFFF_FFFF_FFFF_FFFF, [1, 2, 3], true);
            o.status == Ok && o.state.output == [1, 2, 3]
  {
    assert EchoProgram(3) == [Read, Write, Read, Write, Read, Write];
    EchoCopiesInput(Config(0xFFFF_FFFF_FFFF_FFFF, true), 3, Initial([1, 2, 3]));
  }

  /**
   * The clearing idiom `[-]`: on a cell holding `v`, the loop decrements it
   * `v` times, spending one unit of budget each time, and ends with the cell
   * at zero and nothing else changed.
   */
  lemma {:induction false} ClearLoop(cfg: Config, st: State)
    requires OnTape(st)
    requires st.iterations as int + st.memory[st.pointer] as int <= cfg.maxIterations as int
    ensures LoopRun(cfg, [Increment(-1, 0)], st)
         == Outcome(Ok, st.(memory := st.memory[st.pointer as int := 0],
                            iterations := st.iterations + st.memory[st.pointer] as int as U64))
    decreases st.memory[st.pointer]
  {
    var body := [Increment(-1, 0)];
    var v := st.memory[st.pointer];
    if v == 0 {
      assert st.memory[st.pointer as int := 0] == st.memory;
    } else {
      var lowered := AddAmount(v, -1);
      assert lowered as int == v as int - 1;
      var next := st.(iterations := st.iterations + 1,
                      memory := st.memory[st.pointer as int := lowered]);
      ClearPass(cfg, st, next);
      assert next.memory[next.pointer] == lowered;
      ClearLoop(cfg, next);
      assert next.memory[next.pointer as int := 0] == st.memory[st.pointer as int := 0];
    }
  }

  /** One pass of `[-]` on a nonzero cell: the cell goes down by one and the test is repeated. */
  lemma ClearPass(cfg: Config, st: State, next: State)
    requires OnTape(st) && st.memory[st.pointer] != 0 && st.iterations < cfg.maxIterations
    requires next == st.(iterations := st.iterations + 1,
                         memory := st.memory[st.pointer as int := AddAmount(st.memory[st.pointer], -1)])
    ensures LoopRun(cfg, [Increment(-1, 0)], st) == LoopRun(cfg, [Increment(-1, 0)], next)
  {
    var body := [Increment(-1, 0)];
    assert body + [] == body;
    IncrementThen(cfg, -1, [], st);
    assert Exec(cfg, body, st) == Outcome(Ok, next);
  }

  /** `<` as the first instruction: the cursor leaves the tape on the left and the run stops there. */
  lemma LeftOfTape(rest: seq<AstNode>, maxIterations: U64, input: seq<U8>, receiverHeld: bool)
    requires maxIterations >= 1
    ensures RunProgram([PointerIncrement(-1)] + rest, maxIterations, input, receiverHeld)
         == Outcome(Err(OutOfBoundsLeft), Initial(input).(pointer := -1, iterations := 1))
  {
    var cfg := Config(maxIterations, receiverHeld);
    var counted := Initial(input).(iterations := 1);
    assert PointerIncrementStep(-1, counted) == Outcome(Err(OutOfBoundsLeft), counted.(pointer := -1));
    assert ([PointerIncrement(-1)] + rest)[0] == PointerIncrement(-1);
    ExecCons(cfg, [PointerIncrement(-1)] + rest, Initial(input));
  }

  /** With a budget of zero, no instruction runs: the first dispatch already exceeds it. */
  lemma ZeroBudget(instructions: seq<AstNode>, input: seq<U8>, receiverHeld: bool)
    requires instructions != []
    ensures RunProgram(instructions, 0, input, receiverHeld)
         == Outcome(Err(MaxIterationsExceeded), Initial(input).(iterations := 1))
  {
  }

  /**
   * `MultiplyMove` reads its source cell once: with pairs `(0, 1), (1, 1)`
   * the first pair doubles the source cell, yet the second still adds the
   * original value to the next cell; the source is cleared at the end.
   */
  lemma MultiplyMoveReadsSourceOnce(st: State)
    requires |st.memory| == TAPE_LEN && 0 <= st.pointer as int < TAPE_LEN - 1 && st.memory[st.pointer] != 0
    ensures var o := MultiplyMoveStep([(0, 1), (1, 1)], st);
            && o.status == Ok
            && o.state.memory[st.pointer] == 0
            && o.state.memory[st.pointer as int + 1] as int
               == (st.memory[st.pointer as int + 1] as int + st.memory[st.pointer] as int) % 256
  {
    var p := st.pointer as int;
    var c := st.memory[p];
    var changes: seq<(ISize, I8)> := [(0, 1), (1, 1)];
    var doubled := st.memory[p := WrappingAdd(c, WrappingMul(c, 1))];
    var spread := doubled[p + 1 := WrappingAdd(doubled[p + 1], WrappingMul(c, 1))];
    assert changes[1..] == [(1, 1)] && changes[1..][1..] == [];
    assert ResolveAddress(st.pointer, 0, |st.memory|) == InBounds(p);
    assert ResolveAddress(st.pointer, 1, |doubled|) == InBounds(p + 1);
    assert ApplyChanges(st.pointer, c, changes[1..][1..], spread) == (Ok, spread);
    assert ApplyChanges(st.pointer, c, changes[1..], doubled) == (Ok, spread);
    assert ApplyChanges(st.pointer, c, changes, st.memory) == (Ok, spread);
  }
}
