/**
 * `Interpreter` as the source has it: an object whose methods update the tape
 * (a fixed-size array), the cursor and the iteration counter in place. Every
 * method is proved to leave exactly the state the functions of `Semantics`
 * describe, and to return the status they describe.
 */
module Engine {
  import opened Ast
  import opened Semantics

  class Interpreter {
    const instructions: seq<AstNode>
    const memory: array<U8>
    var memoryPointer: ISize
    const maxIterations: U64
    var iterations: U64

    /** Bytes queued on the input channel and not yet received. */
    var input: seq<U8>
    /** Bytes sent on the output channel. */
    var output: seq<U8>
    /** Whether the output channel's receiver still exists, so that `send` succeeds. */
    var receiverHeld: bool

    /** The interpreter's state as a value. */
    ghost function St(): (st: State)
      reads this, memory
    {
      State(memory[..], memoryPointer, iterations, input, output)
    }

    function Cfg(): (cfg: Config)
      reads this
    {
      Config(maxIterations, receiverHeld)
    }

    /** `Interpreter::new`: a zeroed tape, the cursor and the counter at 0, empty channels. */
    constructor (instructions: seq<AstNode>, maxIterations: U64)
      ensures fresh(memory)
      ensures this.instructions == instructions && this.maxIterations == maxIterations
      ensures St() == Initial([]) && receiverHeld
    {
      this.instructions := instructions;
      this.maxIterations := maxIterations;
      memory := new U8[TAPE_LEN](_ => 0);
      memoryPointer := 0;
      iterations := 0;
      input := [];
      output := [];
      receiverHeld := true;
      new;
      assert memory[..] == seq(TAPE_LEN, _ => 0);
    }

    /**
     * `Interpreter::run` in batch mode: the caller has queued `pending` on the
     * input channel and dropped its sender, and holds the output receiver
     * (or not) while the whole program runs. `run` consumes the interpreter,
     * so it starts from the state `new` built.
     */
    method Run(pending: seq<U8>, held: bool) returns (status: Status)
      requires St() == Initial([])
      modifies this, memory
      ensures |St().memory| == TAPE_LEN
      ensures Outcome(status, St()) == Exec(Config(maxIterations, held), instructions, old(St()).(input := pending))
    {
      input := pending;
      receiverHeld := held;
      status := RunBody(instructions);
    }

    /** `run_body`: count and check the budget, then dispatch, for each instruction in turn. */
    method RunBody(body: seq<AstNode>) returns (status: Status)
      requires iterations <= maxIterations
      modifies this, memory
      ensures receiverHeld == old(receiverHeld)
      ensures Outcome(status, St()) == Exec(Cfg(), body, old(St()))
      decreases maxIterations as int - iterations as int, 0
    {
      var i := 0;
      while i < |body|
        invariant 0 <= i <= |body|
        invariant receiverHeld == old(receiverHeld)
        invariant old(iterations) as int + i <= iterations as int <= maxIterations as int
        invariant Exec(Cfg(), body, old(St())) == Exec(Cfg(), body[i..], St())
      {
        ghost var before := St();
        assert body[i..] != [] && body[i..][0] == body[i] && body[i..][1..] == body[i + 1..];
        if iterations as int == U64_MAX {
          return Panicked(AddOverflow);
        }
        iterations := iterations + 1;
        if iterations > maxIterations {
          return Err(MaxIterationsExceeded);
        }
        assert St() == before.(iterations := before.iterations + 1);
        ExecCons(Cfg(), body[i..], before);
        status := Dispatch(body[i]);
        if status != Ok {
          return;
        }
        i := i + 1;
      }
      return Ok;
    }

    /** The `match` of `run_body`, for an instruction whose dispatch was counted. */
    method Dispatch(node: AstNode) returns (status: Status)
      requires iterations <= maxIterations
      modifies this, memory
      ensures receiverHeld == old(receiverHeld)
      ensures Outcome(status, St()) == Step(Cfg(), node, old(St()))
      decreases maxIterations as int - iterations as int, 2
    {
      match node
      case Increment(amount, offset) => status := ApplyIncrement(amount, offset);
      case PointerIncrement(distance) => status := MovePointer(distance);
      case Read => status := ReceiveInput();
      case Write => status := SendOutput();
      case Loop(body) => status := RunLoop(body);
      case Set(amount, offset) => status := ApplySet(amount, offset);
      case MultiplyMove(changes) => status := ApplyMultiplyMove(changes);
    }

    /** The `Loop` arm: rerun the body while the current cell is nonzero. */
    method RunLoop(body: seq<AstNode>) returns (status: Status)
      requires iterations <= maxIterations
      modifies this, memory
      ensures receiverHeld == old(receiverHeld)
      ensures Outcome(status, St()) == LoopRun(Cfg(), body, old(St()))
      decreases maxIterations as int - iterations as int, 1
    {
      while true
        invariant receiverHeld == old(receiverHeld)
        invariant old(iterations) <= iterations <= maxIterations
        invariant LoopRun(Cfg(), body, old(St())) == LoopRun(Cfg(), body, St())
        decreases maxIterations as int - iterations as int
      {
        if !(0 <= memoryPointer as int < memory.Length) {
          return Panicked(IndexOutOfBounds);
        }
        if memory[memoryPointer] == 0 {
          return Ok;
        }
        if body == [] {
          return Diverges;
        }
        status := RunBody(body);
        if status != Ok {
          return;
        }
      }
    }

    method ApplyIncrement(amount: I8, offset: ISize) returns (status: Status)
      modifies memory
      ensures Outcome(status, St()) == IncrementStep(amount, offset, old(St()))
    {
      match ResolveAddress(memoryPointer, offset, memory.Length)
      case OutOfBounds(e) => status := Err(e);
      case InBounds(index) =>
        memory[index] := AddAmount(memory[index], amount);
        status := Ok;
    }

    method MovePointer(distance: ISize) returns (status: Status)
      modifies this
      ensures Outcome(status, St()) == PointerIncrementStep(distance, old(St()))
      ensures unchanged(this`receiverHeld)
    {
      var moved := memoryPointer as int + distance as int;
      if !(ISIZE_MIN <= moved <= ISIZE_MAX) {
        return Panicked(AddOverflow);
      }
      memoryPointer := moved as ISize;
      if memoryPointer < 0 {
        return Err(OutOfBoundsLeft);
      }
      if memoryPointer as int > memory.Length {
        return Err(OutOfBoundsRight);
      }
      return Ok;
    }

    method ReceiveInput() returns (status: Status)
      modifies this, memory
      ensures Outcome(status, St()) == ReadStep(old(St()))
      ensures unchanged(this`receiverHeld)
    {
      if input == [] {
        return Err(RecvError);
      }
      var received := input[0];
      input := input[1..];
      if !(0 <= memoryPointer as int < memory.Length) {
        return Panicked(IndexOutOfBounds);
      }
      memory[memoryPointer] := received;
      return Ok;
    }

    method SendOutput() returns (status: Status)
      modifies this
      ensures Outcome(status, St()) == WriteStep(receiverHeld, old(St()))
      ensures unchanged(this`receiverHeld)
    {
      if !(0 <= memoryPointer as int < memory.Length) {
        return Panicked(IndexOutOfBounds);
      }
      var value := memory[memoryPointer];
      if !receiverHeld {
        return Err(SendError);
      }
      output := output + [value];
      return Ok;
    }

    method ApplySet(amount: I8, offset: ISize) returns (status: Status)
      modifies memory
      ensures Outcome(status, St()) == SetStep(amount, offset, old(St()))
    {
      match ResolveAddress(memoryPointer, offset, memory.Length)
      case OutOfBounds(e) => status := Err(e);
      case InBounds(index) =>
        memory[index] := ToByte(amount);
        status := Ok;
    }

    method ApplyMultiplyMove(changes: seq<(ISize, I8)>) returns (status: Status)
      modifies memory
      ensures Outcome(status, St()) == MultiplyMoveStep(changes, old(St()))
    {
      if !(0 <= memoryPointer as int < memory.Length) {
        return Panicked(IndexOutOfBounds);
      }
      var current := memory[memoryPointer];
      if current != 0 {
        for k := 0 to |changes|
          invariant ApplyChanges(memoryPointer, current, changes, old(memory[..]))
                 == ApplyChanges(memoryPointer, current, changes[k..], memory[..])
        {
          var (offset, factor) := changes[k];
          match ResolveAddress(memoryPointer, offset, memory.Length)
          case OutOfBounds(e) =>
            return Err(e);
          case InBounds(index) =>
            memory[index] := WrappingAdd(memory[index], WrappingMul(current, ToByte(factor)));
          assert changes[k..][1..] == changes[k + 1..];
        }
        memory[memoryPointer] := 0;
      }
      return Ok;
    }
  }

  /**
   * Batch use of the interpreter: construct it, queue all input and drop the
   * input sender, run the whole program, and collect what was sent.
   */
  method RunBatch(instructions: seq<AstNode>, maxIterations: U64, input: seq<U8>, receiverHeld: bool)
    returns (status: Status, output: seq<U8>)
    ensures status == RunProgram(instructions, maxIterations, input, receiverHeld).status
    ensures output == RunProgram(instructions, maxIterations, input, receiverHeld).state.output
  {
    var interpreter := new Interpreter(instructions, maxIterations);
    status := interpreter.Run(input, receiverHeld);
    output := interpreter.output;
  }
}
