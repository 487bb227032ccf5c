# bfi interpreter engine, modelled in Dafny

This project models the execution engine of `bfi`, a Brainfuck interpreter
written in Rust (`src/interpreter.rs`). The engine takes an already parsed,
possibly optimized instruction tree (`AstNode`: `Increment`,
`PointerIncrement`, `Read`, `Write`, `Loop`, `Set`, `MultiplyMove`) and runs
it against:

- a 30000-cell tape of wrapping bytes;
- a signed cursor;
- an iteration budget;
- an input channel and an output channel.

Layout:

- `ast.dfy` (module `Ast`): the instruction tree and the fixed-width integer
  types it carries (`u8`, `i8`, `isize` on a 64-bit target, `u64`) as
  bounded newtypes.
- `semantics.dfy` (module `Semantics`): the meaning of every instruction as
  a function from a `State` (tape, cursor, counter, queued input, sent
  output) to an `Outcome` (a status and the state it leaves). `Exec`,
  `Step` and `LoopRun` give the meaning of `run_body` and of the `Loop` arm.
  A status is `Ok`, `Err` of one of the interpreter's `RunTimeError`s,
  `Panicked` for what a debug build would panic on, or `Diverges` for the
  one loop that never ends.
- `interpreter.dfy` (module `Engine`): `class Interpreter`. Its tape is an
  `array<U8>`, and its cursor and counter are fields that the methods update
  in place. `RunBody` has the `for` loop of `run_body`, `RunLoop` the
  `while` loop of the `Loop` arm, and `ApplyMultiplyMove` the loop over the
  pairs. Each method is proved to return the status, and leave the state,
  that the functions of `Semantics` describe.
- `properties.dfy` (module `Properties`): what each instruction does and
  leaves alone, and the reference definition of `MultiplyMove` (each cell
  gains `current` times the factors aimed at it). It also proves that the
  budget only ever cuts a run short, and what every run keeps: tape length,
  output only appended, input only consumed from the front, cursor range.
- `scenarios.dfy` (module `Scenarios`): whole programs. `,.` repeated `n`
  times copies the input in order, which covers the repository's own
  `,.,.,.` test. Also covered: `[-]` clearing a cell, `<` leaving the tape,
  a zero budget, and `MultiplyMove` reading its source once.

Faithful details that a reader might not expect:

- The cursor may come to rest on 30000, one past the last cell, because
  `PointerIncrement` rejects only a cursor strictly greater than the tape
  length. The next `Write`, `Loop` or `MultiplyMove` then indexes off the
  tape, which is a panic, not an error. A `Read` with a byte queued takes it
  and then panics; with none queued it fails with `RecvError`.
- A faulting `PointerIncrement` leaves the moved cursor behind.
- A `MultiplyMove` that faults on a later pair keeps the additions of the
  earlier pairs.
- `Read` receives before it indexes the tape, since Rust evaluates the
  right-hand side of an assignment first. A `Read` off the tape therefore
  consumes a byte and then panics, or fails with `RecvError` when nothing is
  queued. `Write` indexes first.
- The budget is checked before each instruction, `Loop` nodes included. The
  loop test itself costs nothing. A `u64` counter at `u64::MAX` would
  overflow on the next increment, which is a panic in a debug build.
- An overflowing `checked_add` of cursor and offset is reported as
  `OutOfBoundsRight`, whatever the sign of the overflow.
- `Loop` with an empty body on a nonzero cell never ends and never spends
  budget. The model gives it the status `Diverges`. Every other run ends,
  because each pass of a non-empty body spends budget.

Input and output channels: the input channel is the sequence of bytes queued
on it. The model assumes batch use, where all input is queued and the sender
dropped before the run, so an empty queue makes `recv` fail with
`RecvError`. The output channel is the sequence of bytes sent so far, plus a
flag saying whether its receiver is still held. When the flag is false,
`send` fails with `SendError`.

## Model

| member | source | states |
|---|---|---|
| Semantics.Initial | src/interpreter.rs:39-51 | a new interpreter has 30000 zero cells, cursor and counter 0, nothing sent |
| Semantics.WrappingAdd | src/interpreter.rs:88 | `Wrapping<u8>` `+=`: the result is the sum modulo 256 |
| Semantics.WrappingSub | src/interpreter.rs:86 | `Wrapping<u8>` `-=`: adding back what was subtracted restores the cell |
| Semantics.WrappingMul | src/interpreter.rs:162-163 | `Wrapping<u8>` `*`: the result is the product modulo 256 |
| Semantics.WrappingNeg | src/interpreter.rs:135 | `Wrapping<u8>` unary `-`: the additive inverse modulo 256 |
| Semantics.ToByte | src/interpreter.rs:133-138 | the byte stored for an `i8` amount is its two's-complement byte, `amount mod 256`, and equals the amount when it is not negative |
| Semantics.AddAmount | src/interpreter.rs:85-89 | the subtract-magnitude / nothing / add-magnitude cases on the cell all add `amount` modulo 256, i.e. a wrapping add of `ToByte(amount)` |
| Semantics.ResolveAddress | src/interpreter.rs:68-83 | cursor + offset is accepted exactly when it is within `0..len` and does not overflow `isize`, and then names that cell; a negative sum is `OutOfBoundsLeft`, every other rejection `OutOfBoundsRight` |
| Semantics.IncrementStep | src/interpreter.rs:67-89 | the `Increment` arm touches only the tape and keeps its length; its effect is stated in full by `Properties.IncrementEffect` |
| Semantics.PointerIncrementStep | src/interpreter.rs:91-100 | the `PointerIncrement` arm changes only the cursor; its ranges by `Properties.PointerIncrementEffect`, its overflow panic by `Properties.PointerIncrementOverflow` |
| Semantics.ReadStep | src/interpreter.rs:101-104 | the `Read` arm touches only the tape cells and the input queue, keeping the tape length; effect by `Properties.ReadEffect`, off-tape panic by `Properties.OffTapePanics` |
| Semantics.WriteStep | src/interpreter.rs:105-109 | the `Write` arm touches only the output, and only appends to it; effect by `Properties.WriteEffect`, off-tape panic by `Properties.OffTapePanics` |
| Semantics.SetStep | src/interpreter.rs:115-138 | the `Set` arm touches only the tape and keeps its length; effect by `Properties.SetEffect` |
| Semantics.MultiplyMoveStep | src/interpreter.rs:140-172 | the `MultiplyMove` arm touches only the tape and keeps its length; effect by `Properties.MultiplyMoveEffect`, off-tape panic by `Properties.OffTapePanics` |
| Semantics.ApplyChanges | src/interpreter.rs:144-168 | the pair loop keeps the tape length and can only end `Ok` or with an out-of-bounds error |
| Semantics.Exec | src/interpreter.rs:59-64 | a body never lowers the counter, reports `MaxIterationsExceeded` exactly when the counter passed the budget, and spends at least one unit per instruction when it ends normally |
| Semantics.Step | src/interpreter.rs:66-173 | no instruction lowers the counter, and only an exceeded budget reports `MaxIterationsExceeded` |
| Semantics.LoopRun | src/interpreter.rs:110-114 | a loop that ends normally leaves the cursor on the tape over a zero cell; counter facts as for `Exec` |
| Semantics.RunProgram | src/interpreter.rs:55-57 | a whole run that ends normally stayed within its budget |
| Engine.Interpreter.constructor | src/interpreter.rs:31-52 | `new` allocates a 30000-cell zero tape with cursor and counter 0 and empty channels |
| Engine.Interpreter.Run | src/interpreter.rs:55-57 | `run`, which consumes a freshly built interpreter, leaves with `pending` queued exactly the status and state of `Exec` over the program, on a tape still 30000 cells long |
| Engine.Interpreter.RunBody | src/interpreter.rs:59-177 | the counting, budget check and dispatch loop leaves exactly the status and state of `Exec` on the body |
| Engine.Interpreter.Dispatch | src/interpreter.rs:66-173 | the `match` on one counted instruction leaves exactly what `Step` describes |
| Engine.Interpreter.RunLoop | src/interpreter.rs:110-114 | the `while` loop leaves exactly what `LoopRun` describes, a panic on an off-tape cursor and `Diverges` for an empty body included |
| Engine.Interpreter.ApplyIncrement | src/interpreter.rs:67-90 | updates the array cell in place as `IncrementStep` describes |
| Engine.Interpreter.MovePointer | src/interpreter.rs:91-100 | moves the cursor, then checks it, as `PointerIncrementStep` describes, panicking on `isize` overflow |
| Engine.Interpreter.ReceiveInput | src/interpreter.rs:101-104 | receives, then indexes, as `ReadStep` describes |
| Engine.Interpreter.SendOutput | src/interpreter.rs:105-109 | indexes, then sends, as `WriteStep` describes |
| Engine.Interpreter.ApplySet | src/interpreter.rs:115-139 | stores in the array cell as `SetStep` describes |
| Engine.Interpreter.ApplyMultiplyMove | src/interpreter.rs:140-172 | the in-place pair loop leaves what `MultiplyMoveStep` describes, including the additions kept before a rejected pair |
| Engine.RunBatch | src/interpreter.rs:31-57 | constructing, queueing all input and running yields the status and output of `RunProgram` |
| Properties.IncrementEffect | src/interpreter.rs:67-89 | `Increment` succeeds exactly when its address is accepted; it then adds the amount mod 256 to that one cell and changes nothing else, and a rejected address changes nothing |
| Properties.IncrementByZero | src/interpreter.rs:85-89 | a zero amount at an accepted address leaves the state unchanged |
| Properties.AmountsCombine | src/interpreter.rs:85-89 | adding `a` then `b` to a cell equals adding the wrapped `i8` sum of `a` and `b` once |
| Properties.IncrementsCombine | src/interpreter.rs:67-89 | two `Increment`s of one cell equal one `Increment` by the wrapped sum, faults included |
| Properties.SetEffect | src/interpreter.rs:115-138 | `Set` succeeds exactly when its address is accepted; it then stores `amount mod 256` whatever the cell held and changes nothing else |
| Properties.SetIdempotent | src/interpreter.rs:115-138 | applying a successful `Set` twice equals applying it once |
| Properties.PointerIncrementEffect | src/interpreter.rs:91-100 | the cursor always moves, no cell changes; `Ok` iff the new cursor is in `0..=len`, `OutOfBoundsLeft` iff negative, `OutOfBoundsRight` iff beyond `len` |
| Properties.CursorAtTapeEnd | src/interpreter.rs:91-100 | a move that lands exactly on the tape length is accepted and leaves the cursor off the tape |
| Properties.OffTapePanics | src/interpreter.rs:101-111 | with the cursor off the tape, for every body, pair list and receiver: a `Read` with a byte queued takes it and then panics, and with none queued fails with `RecvError` and changes nothing; `Write`, `Loop` and `MultiplyMove` (src/interpreter.rs:141) panic with nothing changed |
| Properties.PointerIncrementOverflow | src/interpreter.rs:92 | a move whose target does not fit in `isize` panics and changes nothing |
| Properties.ReadEffect | src/interpreter.rs:101-104 | `Read` stores the oldest queued byte in the current cell and dequeues it, touching nothing else; with nothing queued it is `RecvError` with no change |
| Properties.WriteEffect | src/interpreter.rs:105-109 | `Write` appends the current cell to the output and changes nothing else; without a receiver it is `SendError` with no change |
| Properties.LoopSkipsOnZero | src/interpreter.rs:110-114 | a loop entered on a zero cell changes nothing and spends nothing |
| Properties.LoopPass | src/interpreter.rs:110-114 | on a nonzero cell the loop runs a whole pass; a failing pass ends the loop with its outcome, a normal one is followed by a fresh, free test |
| Properties.FirstRejected | src/interpreter.rs:144-160 | every pair before the returned index has an accepted address, and the pair at it (if any) a rejected one |
| Properties.ApplyChangesDistributes | src/interpreter.rs:144-168 | the pair loop ends with the first rejected pair's error (or `Ok`) and a tape where each cell gained `current` times the factors of the earlier pairs aimed at it |
| Properties.DistributedFirst | src/interpreter.rs:162-167 | applying the first pair and then distributing the rest equals distributing all pairs, cell by cell |
| Properties.MultiplyMoveEffect | src/interpreter.rs:140-172 | a zero source changes nothing; otherwise every target gains `current` times its factors, using the value read once, and the source is cleared, or the first rejected pair's error is returned with the earlier additions kept |
| Properties.ExecFault | src/interpreter.rs:60-64 | a body stopped by the budget stops at dispatch `maxIterations + 1`, so with budget B exactly B dispatches took effect |
| Properties.StepFault | src/interpreter.rs:66-173 | the same for one instruction |
| Properties.LoopFault | src/interpreter.rs:110-114 | the same for a loop |
| Properties.BudgetCheckedFirst | src/interpreter.rs:60-64 | with the budget spent, the next instruction has no effect: only the counter moves past the budget |
| Properties.ExecBudgetIrrelevant | src/interpreter.rs:60-64 | a body that does not exceed a budget ends identically under every larger budget |
| Properties.StepBudgetIrrelevant | src/interpreter.rs:66-173 | the same for one instruction |
| Properties.LoopBudgetIrrelevant | src/interpreter.rs:110-114 | the same for a loop |
| Properties.ExecEvolves | src/interpreter.rs:59-177 | a body keeps the tape length, only appends output, only consumes input from the front, and a normal end keeps the cursor within `0..=len` |
| Properties.StepEvolves | src/interpreter.rs:66-173 | the same for one instruction |
| Properties.LoopEvolves | src/interpreter.rs:110-114 | the same for a loop |
| Properties.ReadEvolves | src/interpreter.rs:101-104 | `Read` only takes bytes from the front of the input |
| Properties.RunProgramKeeps | src/interpreter.rs:42-57 | a whole run keeps the 30000-cell tape, ends normally only with cursor in `0..=30000` and counter within budget, and leaves unreceived input in order |
| Scenarios.ReadThen | src/interpreter.rs:101-104 | a `Read` with input queued hands the rest of the body a state with the byte stored and dequeued |
| Scenarios.ReadStarved | src/interpreter.rs:101-104 | a `Read` on an empty queue ends the body with `RecvError` after counting it |
| Scenarios.WriteThen | src/interpreter.rs:105-109 | a `Write` with its receiver held hands the rest of the body a state with the cell appended to the output |
| Scenarios.IncrementThen | src/interpreter.rs:67-89 | an `Increment` of the current cell hands the rest of the body the incremented cell |
| Scenarios.ExecEcho | src/interpreter.rs:101-109 | `,.` repeated `n` times runs pass by pass as the reference `EchoRun` describes |
| Scenarios.EchoRunEchoes | src/interpreter.rs:101-109 | pass by pass, the first `n` queued bytes reach the output in order, or all of them and then `RecvError` |
| Scenarios.EchoCopiesInput | src/interpreter.rs:101-109 | `,.` repeated `n` times copies the first `n` queued bytes to the output in queue order and leaves the rest queued; with fewer queued it copies all and fails with `RecvError` |
| Scenarios.EchoThreeBytes | src/tests.rs:28 | `,.,.,.` with input 1, 2, 3 ends normally having sent 1, 2, 3 |
| Scenarios.ClearLoop | src/interpreter.rs:110-114 | `[-]` on a cell holding `v` ends normally with that cell zero, everything else unchanged and `v` units of budget spent |
| Scenarios.LeftOfTape | src/interpreter.rs:91-96 | `<` as the first instruction stops the run with `OutOfBoundsLeft` and cursor -1 |
| Scenarios.ZeroBudget | src/interpreter.rs:60-64 | with budget 0 any non-empty program stops at its first instruction with `MaxIterationsExceeded` and nothing else changed |
| Scenarios.MultiplyMoveReadsSourceOnce | src/interpreter.rs:140-171 | with pairs `(0, 1), (1, 1)` the next cell gains the source's original value although the first pair changed the source, and the source ends at zero |

## Left out

- The command-line front end (`src/main.rs`): argument parsing, reading the program file, exit codes and the two threads that pump stdin and stdout. This is I/O and concurrency.
- The channels themselves. Blocking `recv`, interleaved (streaming) input and threads are not modelled. Input is what was queued before the run, with the sender dropped (batch mode), so an empty queue is `RecvError`.
- SendError: a dropped receiver is modelled as a flag that is fixed for the whole run. A receiver dropped in the middle of a run is not modelled.
- The `RunTimeError` payloads (`RecvError`, the unsent byte in `SendError`) are not carried.
- `bfc_ir::parse` and `bfc_ir::optimize` are not part of this model. The instruction tree is taken as given, and the optimizer's correctness is not claimed. `IncrementsCombine` only shows the merge of two `Increment`s that such an optimizer relies on.
- Release-build arithmetic: overflow of the cursor or the counter is modelled as a panic (debug build). The wrap-around of a release build is not modelled.
- The non-ending loop (`Loop` with an empty body on a nonzero cell) is the status `Diverges`, not an actual infinite loop.
- The `Error` enum of `src/lib.rs`: it is unused by the engine.
- The sample-program tests of `src/tests.rs`: they need program files and `test_blocking`, and neither is part of this model. Only the `,.,.,.` test is stated.
- `isize` is 64 bits wide. Other pointer widths are not modelled.
