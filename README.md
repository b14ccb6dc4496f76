# Brainfuck tape interpreter (Go) in Dafny

This project models the instruction engine of a small Go interpreter for
Brainfuck. The processor keeps three pieces of state:

- a growable byte tape (`stack`), starting as one zero cell;
- a pointer into the tape;
- a trace (`memory`) of every program byte handed to it so far.

The driver passes each program byte to `process`, which stores the byte in
the trace and then dispatches on it:

- `>` moves right, growing the tape when needed.
- `<` moves left. At cell 0 it is an error.
- `+` and `-` add or subtract one, wrapping at 256.
- `.` prints the cell.
- `,` reads one byte. End of input is an error.
- `[` does nothing.
- `]` repeats a loop body while the current cell is non-zero.

The body `]` repeats comes from a backward scan of the trace to the nearest
`[`. Its bytes are handed, unstored, to a clone of the processor. A clone
copies the processor's operation table, and that table holds the original
processor's own bound handlers. So every byte of the body acts on the
original processor: its tape, its pointer and its trace. A `]` inside the
body re-enters `]` on the original, whose trace still holds the `[`.

The project has three layers:

- `Semantics` (semantics.dfy) gives every handler as a pure function over a
  `State` value. The functions `Process`, `End` and `Exec` are mutually
  recursive: one byte, the `]` loop, and a run over a byte sequence.
- `Interpreter` (interpreter.dfy) holds the classes `Processor` and
  `Console`. Their methods update fields in place. A `Processor` carries an
  `operations` field: the processor whose handlers fill its operation table.
  That is itself when built new and the original when cloned. `Process`
  stores into its own trace and dispatches to that processor. Each handler
  method is proved to produce exactly the state its `Semantics` function
  gives. That includes `End`'s `while` loop, each iteration of which hands
  the body to a fresh clone (`RunBody`), and `GetLoopBody`'s backward scan
  and in-place reversal over an array.
- `Properties` (properties.dfy) and `Scenarios` (scenarios.dfy) prove what
  these functions promise: single handlers, loop-body lookup, whole
  programs, and concrete programs. The driver loop of main.go is
  `Driver.Run` (driver.dfy).

Four functions of `Semantics` are plain reference definitions with no
contract of their own. The rows below cite them through the members whose
contracts use them:

- `NewState` is the state `NewProcessor` builds (processor.go:31-37).
- `SetCell` is `setPointerVal` (processor.go:165-167).
- `Start` is `start` (processor.go:116-118).
- `LoopBody` is `getLoopBody` (processor.go:146-159).

How faults are modelled:

- Errors are `Fault` values: `LeftLimit` from `<` and `ReadFailed` from `,`.
- The runtime panic when the backward scan indexes the trace at -1 is
  `IndexOutOfRange`. It is never treated as success.
- A `]` may never finish. Every iteration spends one unit of a `fuel`
  argument, and running out is the fault `OutOfFuel`.

Where the code differs from the language's usual design, the model follows
the code:

- `[` is a no-op, so every body runs once as it streams past, even on a zero
  cell. `]` then makes the loop a do-while. `[.]` on a zero cell prints one
  zero. `[-]` on a zero cell wraps it to 255 before `]` and needs 255 more
  re-runs to clear it (`Scenarios.ClearLoop`). A loop expected to run zero
  times on a zero cell does not do so here.
- The scan stops at the nearest `[`, not the matching one. An outer `]`
  re-runs the inner loop's body. `++[>++[>+<-]<-]` does not leave the tape
  `[0, 4]` that a depth-correct interpreter would. It stops with the
  left-limit error and the tape `[0, 1, 2]` (`Scenarios.NestedLoopsMisbehave`).

processor_test.go (lines 7-19) tests depth-tagged bookkeeping (`ip`,
`depth`, `getCorrespondingStart`) that processor.go does not have. The model
follows processor.go.

## Model

| member | source | states |
|---|---|---|
| Interpreter.Processor.constructor | processor.go:31-37 | a new processor has a tape of exactly one zero cell, pointer 0 and an empty trace, and uses the console it is given |
| Interpreter.Processor.Right | processor.go:57-63 | the new state is `Semantics.Right` of the old one |
| Semantics.Right | processor.go:57-63 | the pointer rises by exactly one; the tape grows by one zero cell if and only if the pointer was on the last cell; old cells, trace and console are unchanged; so `pointer < len(stack)` is preserved |
| Interpreter.Processor.Left | processor.go:65-71 | the error and new state are `Semantics.Left` of the old state |
| Semantics.Left | processor.go:65-71 | an error if and only if the pointer is 0, and then nothing changes; otherwise only the pointer drops by one |
| Interpreter.Processor.Add | processor.go:73-76 | the new state is `Semantics.Add` of the old one |
| Semantics.Add | processor.go:73-76 | the current cell becomes (cell + 1) mod 256; no other cell, the pointer, the trace or the console changes |
| Interpreter.Processor.Sub | processor.go:78-81 | the new state is `Semantics.Sub` of the old one |
| Semantics.Sub | processor.go:78-81 | the current cell becomes (cell - 1) mod 256; nothing else changes |
| Properties.AddSubInverse | processor.go:73-81 | `-` after `+`, and `+` after `-`, restore the whole state |
| Interpreter.Console.constructor | printer.go:11-13 | a new console has printed nothing and holds the given input |
| Interpreter.Console.Printf | printer.go:18-20 | printing appends exactly the given byte to the output and leaves the input alone |
| Interpreter.Processor.Print | processor.go:83-86 | the new state is `Semantics.Print` of the old one |
| Semantics.Print | processor.go:83-86 | the output gains exactly the current cell; nothing else changes |
| Interpreter.Console.ReadByte | processor.go:89-90 | at end of input, no byte and nothing consumed; otherwise the first unread byte, which is consumed |
| Interpreter.Processor.Read | processor.go:88-96 | the error and new state are `Semantics.Read` of the old state |
| Semantics.Read | processor.go:88-96 | an error if and only if the input is exhausted, and then nothing changes; otherwise the current cell is the byte read, one byte is consumed, and no other cell, the pointer, the trace or the output changes |
| Interpreter.Processor.Process | processor.go:98-114 | the byte is stored in this processor's trace when asked, then the table's processor takes the step of `Semantics.Process`: for a processor with its own table the error and new state are exactly `Semantics.Process` of the old state; for a clone the original takes the unstored step and the clone's tape and pointer stay |
| Semantics.Process | processor.go:98-114 | the tape invariant holds, the tape never shrinks, and the trace gains `b` if and only if storing was asked for |
| Properties.UnknownByteIsIgnored | processor.go:98-106 | a byte outside the eight instructions is never an error and changes nothing but the trace |
| Properties.StartIsIgnored | processor.go:116-118 | `[` is never an error and changes nothing but the trace |
| Interpreter.Processor.Clone | processor.go:120-129 | a clone has the processor's tape, pointer, console and operation table (so its handlers are the original's), and an empty trace |
| Interpreter.Processor.End | processor.go:131-144 | the error and new state are `Semantics.End` of the old state |
| Semantics.End | processor.go:131-144 | the body runs on the processor's own state: the trace never changes and the tape never shrinks (the pointer may move and the tape may grow); a nil result leaves the current cell at 0 |
| Properties.EndOnZeroCell | processor.go:132 | `]` on a zero cell returns nil and changes nothing |
| Properties.EndWithoutStartPanics | processor.go:149 | `]` on a non-zero cell with no `[` in the trace panics and changes nothing |
| Interpreter.Processor.RunBody | processor.go:134-140 | handing each body byte unstored to a fresh clone gives exactly the error and state `Semantics.Exec` gives for the processor without storing, stopping at the first error |
| Semantics.Exec | processor.go:135-140 | the tape never shrinks; without storing the trace is unchanged; with storing and no error the trace gains exactly the bytes run |
| Driver.Run | main.go:15-27 | a new processor is handed every program byte in order with storing on, stopping at the first error; the error and final state are what `Semantics.Exec` gives from one zero cell, pointer 0 and an empty trace |
| Properties.ProcessMoreFuel | processor.go:98-114 | a step that did not run out of fuel gives the same error and state with any larger fuel |
| Properties.EndMoreFuel | processor.go:131-144 | a `]` that did not run out of fuel gives the same error and state with any larger fuel |
| Properties.ExecMoreFuel | processor.go:135-140 | a run that did not run out of fuel gives the same error and state with any larger fuel, so no result depends on the fuel chosen |
| Semantics.LastStart | processor.go:149 | the result is the index of a `[` after which the trace has none; no result means the trace has no `[` |
| Interpreter.Processor.GetLoopBody | processor.go:146-159 | the body is `Semantics.LoopBody` of the trace: the bytes after the last `[` in order, then one zero per trace byte; none when the trace has no `[` |
| Interpreter.Processor.ReverseInPlace | processor.go:153-156 | after the swap loop, each element holds the one mirrored around the centre |
| Properties.LoopBodyExists | processor.go:149 | there is a loop body if and only if the trace holds a `[` |
| Properties.LoopBodyAfterNearestStart | processor.go:149 | the body is what follows the nearest `[`, whatever came before it |
| Properties.LoopBodyShape | processor.go:146-159 | for a trace ending in `]`, the body holds no `[`, ends (before the padding) with that `]`, and has `len(memory)` zero bytes of padding |
| Properties.ExecZeros | processor.go:147 | the zero padding is inert: running it changes nothing and never fails |
| Properties.ExecPadded | processor.go:147 | a body with its padding does exactly what the body does |
| Interpreter.Processor.GetPointerVal | processor.go:161-163 | returns the current cell |
| Interpreter.Processor.SetPointerVal | processor.go:165-167 | the new state is the old one with the current cell set to `v` |
| Properties.SetThenGet | processor.go:161-167 | after writing `v` the current cell reads back `v`, and no other cell or the pointer changes |
| Properties.ExecAppend | main.go:22-27 | running `p` then `q` is running `p + q`, and an error in `p` ends the run |
| Properties.ExecRights | processor.go:57-63 | `n` times `>` moves the pointer `n` cells and grows the tape with zeros just enough to hold it |
| Properties.ExecLefts | processor.go:65-71 | `n` times `<` with the pointer at least `n` moves it back `n` cells and leaves the tape alone |
| Properties.RightsThenLefts | processor.go:57-71 | `n` times `>` then `n` times `<` brings the pointer back, keeps every old cell and adds only zero cells |
| Scenarios.BodyRunsOnceOnZeroCell | processor.go:116-118 | because `[` is a no-op, `[.]` on a zero cell still prints one zero |
| Scenarios.ClearEnd | processor.go:131-159 | `]` after `[-]` clears any cell value given at least that much fuel, changing nothing else, because each re-run's `]` re-enters the loop on the same state; with less fuel it gives out |
| Scenarios.ClearLoop | processor.go:116-159 | `[-]` returns nil with only the cell changed, to 0, and the three bytes added to the trace, given fuel at least the cell minus one (mod 256); with less it gives out |
| Scenarios.ThreePlusesThenClear | processor.go:73-159 | `+++[-]` on a new processor returns nil with the tape [0] given fuel 2, and gives out with less |
| Scenarios.PlusThenPrint | processor.go:73-86 | `+.` on a new processor prints the byte 1 |
| Scenarios.NestedLoopsMisbehave | processor.go:131-159 | `++[>++[>+<-]<-]` stops with the left-limit error and the tape `[0, 1, 2]` at pointer 0 |

## Left out

- Reading the program file, the default file name taken from the command line, and `log.Fatal` (main.go:10-20, 24-26) are left out as I/O. `Driver.Run` takes the program's bytes and returns the first error.
- A fresh `bufio.Reader` on standard input is created for each `,` (processor.go:89-90). It can swallow input buffered beyond the first byte. The model reads from an abstract byte sequence, one byte per `,`.
- `%c` prints a byte as a Unicode code point, so a byte of 128 or above is written as two UTF-8 bytes. The model's output holds the byte itself.
- The debug dump `Print` and the `debug` field (processor.go:26, 52-55) are left out as logging only.
- The `map[op]func() error` dispatch table (processor.go:38-47) is modelled by the `operations` field, naming the processor whose handlers the table holds, and a chain of byte comparisons on that processor's methods.
- The 64-bit pointer is a `nat`. It cannot overflow in practice, because the tape would have to hold 2^64 cells.
- In Go the clone's `stack` shares the original's backing array (processor.go:122); the model gives the clone a copy. Nothing reads, writes or grows the clone's field, because its table's handlers act on the original, so the difference and slice capacity never show.
- Semantics.End: a `]` whose re-runs never clear its cell recurses without end, `end` calling `process` calling `end` through the body's own `]`, until Go's stack overflows and the program dies with a fatal error (`+[]` does this). The model bounds iterations and recursion with `fuel` and reports `OutOfFuel`, so it does not tell a stack overflow from a slow run, and says nothing about runs that need more fuel than given.
- Go panics (`IndexOutOfRange`) end the run like an error value. The model does not distinguish a crash from a returned error beyond the fault's kind.
- processor_test.go is not part of this model. It refers to fields and functions (`ip`, `depth`, `getCorrespondingStart`) that processor.go does not have.
