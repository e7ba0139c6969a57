# LS-8 CPU emulator, modelled in Dafny

This project models the LS-8 emulator's `CPU` class in `ls8/cpu.py`. The LS-8 is
an 8-bit teaching computer with:

- 256 cells of RAM;
- eight registers, with register 7 as the stack pointer;
- a small ALU;
- a fetch-decode-execute loop over nine opcodes: LDI, PRN, ADD, MUL, HLT,
  PUSH, POP, CALL and RET;
- a loader that turns a text file of base-2 literals, with `#` comments, into
  a RAM image.

The project has five modules. Each one is a separate file.

- `PyList` (`pylist.dfy`): Python list indexing, which is what every `ram[...]`
  and `reg[...]` in the source does.
  - An index `i` into a list of length `n` is accepted when `-n <= i < n`.
  - A negative index counts from the end.
  - Any other index raises `IndexError`.
- `Machine` (`machine.dfy`): the machine as a pure transition function.
  - `State` holds RAM, the registers, `pc`, the remembered instruction size
    `op_size` and the printed output.
  - There is one function per instruction, and `Execute` does the dispatch in
    the source's order.
  - `Next` is one pass of the `while running` loop.
  - `Loop`, `Continue` and `Run` are the loop with a fuel bound. `Loop` spends
    one unit of fuel per cycle, and `Continue` decides from the cycle's status
    whether the loop goes on.
  - Every exception ends the run with a `Trapped` status. The status carries
    the state at the moment of the exception, including any effect already
    made, such as the stack pointer decremented by PUSH before its write fails.
- `Cpu` (`cpu.dfy`): the `CPU` object itself.
  - RAM and the register file are `array<int>` fields updated in place.
  - `pc`, `op_size` and the output are mutable fields.
  - `RamRead`, `RamWrite`, `ReadRegister` and `WriteRegister` are specified
    against `PyList.Get` and `PyList.Put` on the array's contents. `RamRead`
    and `ReadRegister` change nothing.
  - `Alu`, the `Exec` methods, `Step`, `Run` and `Load` are proved to leave
    the object in exactly the state that the corresponding function of
    `Machine` or `Loader` computes.
- `Loader` (`loader.dfy`): the per-line logic of `load`.
  - Each line is cut at its first `#` and stripped of whitespace.
  - Blank results are skipped.
  - Every other result is read as base 2 and stored at the next address,
    starting from 0.
  - `Scan` is the loop over all lines. `Literals` is an independent reference
    description, and `ScanStoresLiterals` connects the two.
- `Programs` (`programs.dfy`): what each instruction does when its operands are
  in range.
  - It covers short instruction sequences: LDI then PRN, PUSH then POP, two
    pushes then two pops, and CALL then RET.
  - It also covers two complete programs, each run from `run` to HLT.

Where the LS-8 architecture describes more than this code implements, the
model follows `ls8/cpu.py`:

- Only the nine opcodes above exist. There is no CMP, no jumps and no bitwise
  ALU operations.
- Registers and RAM cells hold unbounded integers, so there is no 8-bit
  wrap-around and SUB can go negative.
- An out-of-range access is Python's `IndexError`, and negative indices wrap.
- An unrecognised opcode does nothing. `pc` then moves by the stale `op_size`
  of the last recognised instruction.
  - After CALL or RET that size is 0, so the machine spins in place.
  - Before any recognised instruction it is `None`, and the addition raises
    `TypeError`. The model calls this trap `NoStepSize`.

## Model

| member | source | states |
|---|---|---|
| PyList.Slot | ls8/cpu.py:86-90 | An index is accepted exactly when `-n <= i < n`. A non-negative index names itself and a negative one names `n + i`. |
| PyList.Get | ls8/cpu.py:86-87 | Reading a list fails exactly outside `[-n, n)`. A non-negative index `i` gives `xs[i]`, and a negative one gives `xs[n + i]`. |
| PyList.Put | ls8/cpu.py:89-90 | Writing a list fails exactly outside `[-n, n)`, and never changes its length. A non-negative index `i` updates element `i`, and a negative one updates element `n + i`. |
| PyList.GetAfterPut | ls8/cpu.py:86-90 | After writing `v` at an accepted index, reading that index gives `v`, and every other position keeps its value. |
| Machine.Initial | ls8/cpu.py:8-14 | A new CPU has 256 RAM cells and 8 registers. |
| Machine.ReadRam | ls8/cpu.py:86-87 | `ram_read` fails exactly for addresses outside `[-256, 256)`, without changing anything. Address `a` gives cell `a`, or cell `256 + a` when `a` is negative. |
| Machine.WriteRam | ls8/cpu.py:89-90 | `ram_write` fails exactly outside `[-256, 256)` and leaves the state as it was. Otherwise it changes cell `a` only, or cell `256 + a` when `a` is negative. |
| Machine.ReadReg | ls8/cpu.py:139 | A register read fails exactly outside `[-8, 8)`. Index `i` gives register `i`, or register `8 + i` when `i` is negative. |
| Machine.WriteReg | ls8/cpu.py:104 | A register write fails exactly outside `[-8, 8)`. Otherwise it changes register `i` only, or register `8 + i` when `i` is negative. |
| Machine.Alu | ls8/cpu.py:54-64 | An operation name other than ADD, SUB or MUL raises before anything is read, and changes nothing. A failed register access leaves the state as it was. |
| Machine.Ldi | ls8/cpu.py:100-106 | LDI never touches RAM or the output and moves `pc` by 3. When an operand access raises, the state is the one before the instruction. |
| Machine.Prn | ls8/cpu.py:108-113 | PRN appends exactly one value to the output, changes neither RAM nor registers, and moves `pc` by 2. When it raises, nothing has been printed. |
| Machine.Arith | ls8/cpu.py:116-130 | ADD and MUL never touch RAM or the output and move `pc` by the size `(cmd >> 6) + 1`. When they raise, the state is the one before the instruction. |
| Machine.Push | ls8/cpu.py:137-145 | A PUSH that completes decrements register 7 by 1 and changes no other register, prints nothing and moves `pc` by 2. |
| Machine.Pop | ls8/cpu.py:147-155 | POP never touches RAM or the output and moves `pc` by 2. When it raises, the state is the one before the instruction. |
| Machine.Call | ls8/cpu.py:157-164 | A CALL that completes decrements register 7 by 1, changes no other register, prints nothing, and leaves `pc + 2` in the cell just below the old stack pointer (with Python indexing). |
| Machine.Ret | ls8/cpu.py:166-170 | RET never touches RAM or the output. It increments register 7 by 1 and changes no other register, and the new `pc` is the cell the old stack pointer names. When it raises, the state is unchanged. |
| Machine.Unknown | ls8/cpu.py:172 | An unrecognised byte succeeds exactly when an instruction size is remembered. Otherwise it raises with the state unchanged. It never changes RAM, registers or output. |
| Machine.Execute | ls8/cpu.py:100-170 | No instruction changes the sizes of RAM or the register file, even one that raises, and none takes back printed output. |
| Machine.Next | ls8/cpu.py:97-172 | A fetch outside RAM traps and changes nothing. A cycle that does not trap stops the loop exactly when the fetched byte is HLT. Output only grows. |
| Machine.Loop | ls8/cpu.py:97-172 | Zero cycles leave the state alone, and every state reached is well formed. |
| Machine.Continue | ls8/cpu.py:97-135 | After a cycle that halted or raised, the loop does nothing more: `running` is false. |
| Machine.LoopUnfold | ls8/cpu.py:97-172 | Proof helper, not a separate property of `run`: a loop with fuel left runs one cycle, then goes on from that cycle's state if the cycle kept running, and otherwise ends with that cycle's outcome. |
| Machine.Boot | ls8/cpu.py:95 | `run` sets register 7 to 0xF4 and changes nothing else. |
| Machine.Run | ls8/cpu.py:92-172 | `run` on a well-formed CPU only ever reaches well-formed states. |
| Programs.ReadAfterWrite | ls8/cpu.py:86-90 | `ram_write(a, v)` then `ram_read(a)` gives `v`. Every other cell, the registers, `pc` and the output are unchanged. |
| Programs.AluChangesOnlyTarget | ls8/cpu.py:54-64 | ADD, SUB and MUL set `reg[a]` to `reg[a]+reg[b]`, `reg[a]-reg[b]` or `reg[a]*reg[b]` and change nothing else. Any other name raises with the state unchanged. |
| Programs.OrdinaryInstructionAdvances | ls8/cpu.py:100-172 | The size `(cmd >> 6) + 1` is 3 for LDI, ADD and MUL, 2 for PRN, PUSH and POP, and 1 for HLT. `pc` moves by exactly that, and it is remembered. RAM is unchanged except for PUSH's single cell. |
| Programs.LdiStep | ls8/cpu.py:100-106 | LDI r, v sets `reg[r] = v` and nothing else but `pc` (+3). |
| Programs.PrnStep | ls8/cpu.py:108-113 | PRN r appends `reg[r]` to the output and moves `pc` by 2. |
| Programs.AddStep | ls8/cpu.py:116-122 | ADD a, b sets `reg[a]` to the sum and moves `pc` by 3. |
| Programs.MulStep | ls8/cpu.py:124-130 | MUL a, b sets `reg[a]` to the product and moves `pc` by 3. |
| Programs.HaltStep | ls8/cpu.py:132-135 | HLT stops the loop after moving `pc` by 1, with no other change. |
| Programs.PushStep | ls8/cpu.py:137-145 | PUSH r decrements register 7 by 1 and stores the value `reg[r]` had before the decrement in the new top cell. Nothing else changes. |
| Programs.PopStep | ls8/cpu.py:147-155 | POP r loads the top cell into `reg[r]` and then increments register 7 by 1. For POP R7 the increment applies to the loaded value. |
| Programs.CallStep | ls8/cpu.py:157-164 | CALL r at `p` pushes `p + 2` and sets `pc` to `reg[r]`, read after the stack pointer moved. The remembered size is 0. |
| Programs.RetStep | ls8/cpu.py:166-170 | RET sets `pc` to the top cell and increments register 7. |
| Programs.UnknownOpcode | ls8/cpu.py:98-172 | Any other byte moves `pc` by the remembered size and does nothing else. It traps when there is no remembered size yet. |
| Programs.LdiThenPrn | ls8/cpu.py:100-113 | LDI r, v followed by PRN r prints exactly `v`. The registers differ from the start only in `reg[r]`, and RAM is unchanged. |
| Programs.PushThenPop | ls8/cpu.py:137-155 | PUSH r then POP q copies `reg[r]` into `reg[q]` and restores register 7. |
| Programs.PushPush | ls8/cpu.py:137-145 | Two pushes take two cycles of the loop. They put `reg[a]` and then `reg[b]` in the two cells below the stack pointer and move it down by 2, and the loop goes on from there. |
| Programs.PopPop | ls8/cpu.py:147-155 | Two pops take two cycles of the loop. They load the top cell and then the next one, and move the stack pointer up by 2. |
| Programs.PushPushPopPop | ls8/cpu.py:137-155 | PUSH a, PUSH b, POP c, POP d take four cycles and give `c = reg[b]` and `d = reg[a]` (last in, first out). Register 7 ends where it started, and only the two stack cells change in RAM. |
| Programs.CallThenRet | ls8/cpu.py:157-170 | After CALL at `p`, a RET that finds the stack pointer and the pushed cell as CALL left them resumes at `p + 2`. It restores register 7 to its value before the CALL. |
| Programs.OutputOnlyGrows | ls8/cpu.py:108-113 | Over any number of cycles, what was printed stays a prefix of what is printed. |
| Programs.RunHaltsAtHlt | ls8/cpu.py:92-135 | `run` sets register 7 to 0xF4 before the first fetch. With HLT at `pc`, it stops after one cycle with `pc + 1`. |
| Programs.AddProgramPrints17 | ls8/cpu.py:92-172 | LDI R0,8; LDI R1,9; ADD R0,R1; PRN R0; HLT halts after printing exactly 17. |
| Programs.StackProgramSetup | ls8/cpu.py:95-106 | Booting the stack program and running its two LDIs leaves R2 = 5, R3 = 6, register 7 at 0xF4 and `pc` at 6. |
| Programs.StackProgramRest | ls8/cpu.py:132-155 | From there, the two pushes, two pops and HLT stop the run with R4 = 6, R5 = 5 and register 7 at 0xF4. |
| Programs.StackProgramIsLifo | ls8/cpu.py:92-172 | Pushing 5 and 6 and popping into R4 and R5 leaves R4 = 6 and R5 = 5, and the stack pointer back at 0xF4. |
| Loader.BeforeHashSpec | ls8/cpu.py:44 | `line.split("#")[0]` is the longest prefix without `#`. |
| Loader.TrimStartSpec | ls8/cpu.py:45 | Leading whitespace is removed: the result is a suffix that does not start with whitespace, and only whitespace was dropped. |
| Loader.TrimEndSpec | ls8/cpu.py:45 | Trailing whitespace is removed: the result is a prefix that does not end with whitespace, and only whitespace was dropped. |
| Loader.Strip | ls8/cpu.py:45 | `strip()` never lengthens the text or adds characters, and the result neither starts nor ends with whitespace. |
| Loader.Clean | ls8/cpu.py:44-45 | The text the loader looks at is no longer than the line, holds no `#`, and has no surrounding whitespace. |
| Loader.BinaryValue | ls8/cpu.py:47 | w binary digits denote a value below 2^w. |
| Loader.Classify | ls8/cpu.py:44-49 | A line is skipped exactly when its cleaned text is empty. A stored literal comes from binary text and is below 2^w for its w digits. |
| Loader.CleanSpec | ls8/cpu.py:44-45 | The text the loader reads has no `#` and no surrounding whitespace. Cleaning it again changes nothing. |
| Loader.CommentIgnored | ls8/cpu.py:44 | Appending `#` and any comment to a line changes neither its text nor what it loads. |
| Loader.Feed | ls8/cpu.py:43-51 | One line adds at most one value, and never beyond the 256 RAM cells. |
| Loader.Scan | ls8/cpu.py:42-51 | The loader never stores more values than there are RAM cells or lines. |
| Loader.Literals | ls8/cpu.py:43-46 | The reference list of non-blank lines has at most one entry per line, and every entry is non-empty and free of `#`. |
| Loader.ScanStoresLiterals | ls8/cpu.py:42-51 | Loading succeeds exactly when every non-blank line is base-2 text and they fit in 256 cells. Then the i-th non-blank line's value is at address i, so blank and comment-only lines take no address. |
| Loader.ScanStops | ls8/cpu.py:47-49 | Once a line has raised, later lines change nothing. |
| Loader.BitsRoundTrip | ls8/cpu.py:47 | A value written as w binary digits reads back as the same value. |
| Loader.LineOfBitsLoads | ls8/cpu.py:44-49 | A line holding an instruction byte's binary digits, then a space and a comment, loads as that byte. |
| Cpu.CPU.constructor | ls8/cpu.py:8-23 | A new CPU has zeroed RAM and registers, `pc` 0, no instruction size and no output. |
| Cpu.CPU.RamRead | ls8/cpu.py:86-87 | Reads `ram[address]` with Python indexing. It fails exactly outside `[-256, 256)`. |
| Cpu.CPU.RamWrite | ls8/cpu.py:89-90 | Writes `ram[address]` in place with Python indexing. It fails exactly outside `[-256, 256)` and then leaves RAM unchanged. |
| Cpu.CPU.ReadRegister | ls8/cpu.py:139 | Reads `reg[index]` with Python indexing. |
| Cpu.CPU.WriteRegister | ls8/cpu.py:104 | Writes `reg[index]` in place. It fails exactly outside `[-8, 8)` and then leaves the registers unchanged. |
| Cpu.CPU.Alu | ls8/cpu.py:54-64 | The object ends in the state `Machine.Alu` gives, and raises exactly when it does. |
| Cpu.CPU.Finish | ls8/cpu.py:172 | Records the instruction size and moves `pc` by it. |
| Cpu.CPU.ExecLdi | ls8/cpu.py:100-106 | In-place LDI agrees with `Machine.Ldi`, including the state at an exception. |
| Cpu.CPU.ExecPrn | ls8/cpu.py:108-113 | In-place PRN agrees with `Machine.Prn`. |
| Cpu.CPU.ExecArith | ls8/cpu.py:116-130 | In-place ADD and MUL agree with `Machine.Arith`. |
| Cpu.CPU.ExecPush | ls8/cpu.py:137-145 | In-place PUSH agrees with `Machine.Push`, including a decrement made before a failing write. |
| Cpu.CPU.ExecPop | ls8/cpu.py:147-155 | In-place POP agrees with `Machine.Pop`. |
| Cpu.CPU.ExecCall | ls8/cpu.py:157-164 | In-place CALL agrees with `Machine.Call`. |
| Cpu.CPU.ExecRet | ls8/cpu.py:166-170 | In-place RET agrees with `Machine.Ret`. |
| Cpu.CPU.ExecUnknown | ls8/cpu.py:172 | An unrecognised byte agrees with `Machine.Unknown`: it moves by the stale size, or traps. |
| Cpu.CPU.Step | ls8/cpu.py:97-172 | One pass of the loop on the object leaves exactly the state and status of `Machine.Next`. |
| Cpu.CPU.Run | ls8/cpu.py:92-172 | `run`, for at most `fuel` cycles, leaves exactly the state and status of `Machine.Run`. This is proved with a loop invariant over `Machine.Loop`. |
| Cpu.CPU.Load | ls8/cpu.py:42-51 | Loading lines stores `Loader.Scan`'s values at addresses 0, 1, ... and leaves the cells after them untouched. It reports the same error as `Scan`. |

## Left out

- `trace` (ls8/cpu.py:66-84) only formats and prints the state. It is not modelled.
- `ls8/fileio.py` is not part of this model. It opens a file and parses lines without using the result.
- Opening the file and iterating over it in `load` is not modelled: the loader takes the file's lines as a `seq<string>`.
- `print` in PRN is modelled as appending the value to the `output` sequence.
- `Loader.IsSpace` covers only the ASCII whitespace that Python's `str.strip` removes. Non-ASCII whitespace is not modelled.
- `Loader.Classify` accepts only text made of the digits 0 and 1. Python's `int(text, 2)` also accepts a sign, a `0b` prefix, underscores between digits and non-ASCII digits. Such lines are modelled as malformed, i.e. as raising `ValueError`.
- `Machine.Run` and `Cpu.CPU.Run` take a fuel bound, because `run` need not terminate (for example, an unknown byte right after CALL spins forever). A result still `Running` means the fuel ran out, so non-termination itself is not modelled.
- The exception object of an unsupported ALU operation, an `IndexError` or the `TypeError` of a missing instruction size is not modelled. Each becomes a `Trapped` status naming the cause, with the state at that moment.
- `Programs` step lemmas state their effects only for non-negative, in-range operands and stack pointers. Negative and out-of-range indices are covered by the contracts of `PyList.Get`, `PyList.Put`, `Machine.ReadRam`, `WriteRam`, `ReadReg`, `WriteReg` and `Machine.Next`: a negative index `i` reaches element `n + i`, and an index outside `[-n, n)` traps.
- The instance attributes holding the opcode constants and `sp = 7` (ls8/cpu.py:14-23) are module constants. Nothing in the source reassigns them.
