/** The LS-8 machine as a pure state transition: what one fetch-decode-execute
    cycle of the CPU does to RAM, the register file, the program counter, the
    remembered instruction size and the output stream.

    Registers and RAM cells hold unbounded integers (no 8-bit wrap-around, and
    SUB may go negative). Every list access follows Python's indexing: a
    negative index counts from the end, and an index outside the list raises
    IndexError, which ends the run; the state at the moment of the exception
    (with any effects already made) is kept in the crash. */
module Machine {
  import opened PyList

  const RAM_SIZE := 256
  const REG_COUNT := 8
  /** The stack pointer lives in register 7. */
  const SP := 7
  /** The stack pointer's value when a run starts. */
  const STACK_TOP := 0xF4

  /** The nine opcodes the CPU recognises; the two high bits of each are its
      operand count. */
  const LDI := 0x82   // 0b10000010
  const PRN := 0x47   // 0b01000111
  const HLT := 0x01   // 0b00000001
  const MUL := 0xA2   // 0b10100010
  const ADD := 0xA0   // 0b10100000
  const PUSH := 0x45  // 0b01000101
  const POP := 0x46   // 0b01000110
  const CALL := 0x50  // 0b01010000
  const RET := 0x11   // 0b00010001

  predicate IsOpcode(cmd: int)
  {
    cmd == LDI || cmd == PRN || cmd == HLT || cmd == MUL || cmd == ADD
    || cmd == PUSH || cmd == POP || cmd == CALL || cmd == RET
  }

  /** The CPU's state. `opSize` is the size of the last recognised
      instruction (None before the first one); `out` is what PRN has
      printed, one value per line. */
  datatype State = State(ram: seq<int>, reg: seq<int>, pc: int, opSize: Option<nat>, out: seq<int>)

  predicate WellFormed(s: State)
  {
    |s.ram| == RAM_SIZE && |s.reg| == REG_COUNT
  }

  /** A freshly constructed CPU: RAM and registers zeroed, pc at 0, no
      instruction size yet, nothing printed. */
  function Initial(): (s: State)
    ensures WellFormed(s)
  {
    State(seq(RAM_SIZE, _ => 0), seq(REG_COUNT, _ => 0), 0, None, [])
  }

  /** The exceptions that end a run: IndexError on a list access, the
      TypeError of adding a missing instruction size to pc, and the ALU's
      exception for an operation name it does not support. */
  datatype Trap = IndexOutOfRange | NoStepSize | UnsupportedAluOp

  /** A partial computation: a value, or the exception and the state when it
      was raised. */
  datatype Res<+T> = Ok(value: T) | Crash(at: State, trap: Trap) {
    predicate IsFailure() { Crash? }
    function PropagateFailure<U>(): Res<U> requires Crash? { Crash(at, trap) }
    function Extract(): T requires Ok? { value }
  }

  /** The state a partial computation of a new state ends in. */
  function Settle(r: Res<State>): State
  {
    match r
    case Ok(t) => t
    case Crash(t, _) => t
  }

  /** Whether a state is well formed, including the state of a crash. */
  predicate Sound(r: Res<State>)
  {
    WellFormed(Settle(r))
  }

  /** How a cycle ends: the loop goes on, HLT stopped it, or an exception
      ended the run. */
  datatype Status = Running | Halted | Trapped(trap: Trap)

  datatype Outcome = Outcome(state: State, status: Status)

  // ---- Memory and register access, with Python's indexing ----

  /** `ram[a]`, as `ram_read` does. */
  function ReadRam(s: State, a: int): (r: Res<int>)
    requires WellFormed(s)
    ensures r.Crash? ==> r == Crash(s, IndexOutOfRange)
    ensures r.Ok? <==> -RAM_SIZE <= a < RAM_SIZE
    ensures 0 <= a < RAM_SIZE ==> r == Ok(s.ram[a])
    ensures -RAM_SIZE <= a < 0 ==> r == Ok(s.ram[RAM_SIZE + a])
  {
    match Get(s.ram, a)
    case None => Crash(s, IndexOutOfRange)
    case Some(v) => Ok(v)
  }

  /** `ram[a] = v`, as `ram_write` does: only that cell changes. */
  function WriteRam(s: State, a: int, v: int): (r: Res<State>)
    requires WellFormed(s)
    ensures Sound(r)
    ensures r.Crash? ==> r == Crash(s, IndexOutOfRange)
    ensures r.Ok? <==> -RAM_SIZE <= a < RAM_SIZE
    ensures 0 <= a < RAM_SIZE ==> r == Ok(s.(ram := s.ram[a := v]))
    ensures -RAM_SIZE <= a < 0 ==> r == Ok(s.(ram := s.ram[RAM_SIZE + a := v]))
  {
    match Put(s.ram, a, v)
    case None => Crash(s, IndexOutOfRange)
    case Some(m) => Ok(s.(ram := m))
  }

  /** `reg[i]`. */
  function ReadReg(s: State, i: int): (r: Res<int>)
    requires WellFormed(s)
    ensures r.Crash? ==> r == Crash(s, IndexOutOfRange)
    ensures r.Ok? <==> -REG_COUNT <= i < REG_COUNT
    ensures 0 <= i < REG_COUNT ==> r == Ok(s.reg[i])
    ensures -REG_COUNT <= i < 0 ==> r == Ok(s.reg[REG_COUNT + i])
  {
    match Get(s.reg, i)
    case None => Crash(s, IndexOutOfRange)
    case Some(v) => Ok(v)
  }

  /** `reg[i] = v`: only that register changes. */
  function WriteReg(s: State, i: int, v: int): (r: Res<State>)
    requires WellFormed(s)
    ensures Sound(r)
    ensures r.Crash? ==> r == Crash(s, IndexOutOfRange)
    ensures r.Ok? <==> -REG_COUNT <= i < REG_COUNT
    ensures 0 <= i < REG_COUNT ==> r == Ok(s.(reg := s.reg[i := v]))
    ensures -REG_COUNT <= i < 0 ==> r == Ok(s.(reg := s.reg[REG_COUNT + i := v]))
  {
    match Put(s.reg, i, v)
    case None => Crash(s, IndexOutOfRange)
    case Some(m) => Ok(s.(reg := m))
  }

  /** The stack pointer moved by `delta`. */
  function MoveSp(s: State, delta: int): (t: State)
    requires WellFormed(s)
    ensures WellFormed(t)
  {
    s.(reg := s.reg[SP := s.reg[SP] + delta])
  }

  // ---- The ALU ----

  /** The arithmetic an ALU operation name stands for. */
  function Arithmetic(op: string, x: int, y: int): int
  {
    if op == "ADD" then x + y
    else if op == "SUB" then x - y
    else x * y
  }

  predicate IsAluOp(op: string)
  {
    op == "ADD" || op == "SUB" || op == "MUL"
  }

  /** `alu(op, a, b)`: `reg[a] op= reg[b]` for ADD, SUB and MUL; any other
      name raises before anything is read. */
  function Alu(s: State, op: string, a: int, b: int): (r: Res<State>)
    requires WellFormed(s)
    ensures Sound(r)
    ensures r.Crash? ==> r.at == s
    ensures !IsAluOp(op) ==> r == Crash(s, UnsupportedAluOp)
  {
    if !IsAluOp(op) then Crash(s, UnsupportedAluOp)
    else
      var x :- ReadReg(s, a);
      var y :- ReadReg(s, b);
      WriteReg(s, a, Arithmetic(op, x, y))
  }

  // ---- The instructions ----

  /** `(cmd >> 6) + 1`: the instruction's size, from its operand count. */
  function OpSize(cmd: nat): nat
  {
    cmd / 64 + 1
  }

  /** The end of an ordinary instruction: remember its size and move pc past
      it. */
  function Advance(s: State, cmd: nat): State
  {
    var size := OpSize(cmd);
    s.(opSize := Some(size), pc := s.pc + size)
  }

  /** LDI r, v: `reg[r] = v`. */
  function Ldi(s: State): (r: Res<State>)
    requires WellFormed(s)
    ensures Sound(r)
    ensures r.Crash? ==> r.at == s
    ensures r.Ok? ==> r.value.ram == s.ram && r.value.out == s.out && r.value.pc == s.pc + 3
  {
    var i :- ReadRam(s, s.pc + 1);
    var v :- ReadRam(s, s.pc + 2);
    var t :- WriteReg(s, i, v);
    Ok(Advance(t, LDI))
  }

  /** PRN r: print `reg[r]`. */
  function Prn(s: State): (r: Res<State>)
    requires WellFormed(s)
    ensures Sound(r)
    ensures r.Crash? ==> r.at == s
    ensures r.Ok? ==> r.value.ram == s.ram && r.value.reg == s.reg && r.value.pc == s.pc + 2
    ensures r.Ok? ==> s.out <= r.value.out && |r.value.out| == |s.out| + 1
  {
    var i :- ReadRam(s, s.pc + 1);
    var v :- ReadReg(s, i);
    Ok(Advance(s.(out := s.out + [v]), PRN))
  }

  /** ADD a, b and MUL a, b: the ALU on the two register operands. */
  function Arith(s: State, cmd: nat, op: string): (r: Res<State>)
    requires WellFormed(s)
    ensures Sound(r)
    ensures r.Crash? ==> r.at == s
    ensures r.Ok? ==> r.value.ram == s.ram && r.value.out == s.out && r.value.pc == s.pc + OpSize(cmd)
  {
    var a :- ReadRam(s, s.pc + 1);
    var b :- ReadRam(s, s.pc + 2);
    var t :- Alu(s, op, a, b);
    Ok(Advance(t, cmd))
  }

  /** PUSH r: read `reg[r]`, then decrement the stack pointer, then store the
      value at the cell it now names. */
  function Push(s: State): (r: Res<State>)
    requires WellFormed(s)
    ensures Sound(r)
    ensures r.Ok? ==> r.value.reg == s.reg[SP := s.reg[SP] - 1] && r.value.out == s.out && r.value.pc == s.pc + 2
  {
    var i :- ReadRam(s, s.pc + 1);
    var v :- ReadReg(s, i);
    var t := MoveSp(s, -1);
    var u :- WriteRam(t, t.reg[SP], v);
    Ok(Advance(u, PUSH))
  }

  /** POP r: `reg[r]` gets the cell the stack pointer names, then the stack
      pointer is incremented. */
  function Pop(s: State): (r: Res<State>)
    requires WellFormed(s)
    ensures Sound(r)
    ensures r.Crash? ==> r.at == s
    ensures r.Ok? ==> r.value.ram == s.ram && r.value.out == s.out && r.value.pc == s.pc + 2
  {
    var i :- ReadRam(s, s.pc + 1);
    var v :- ReadRam(s, s.reg[SP]);
    var t :- WriteReg(s, i, v);
    Ok(Advance(MoveSp(t, 1), POP))
  }

  /** CALL r: push `pc + 2` (stack pointer first), then jump to `reg[r]`,
      with r read after the push. */
  function Call(s: State): (r: Res<State>)
    requires WellFormed(s)
    ensures Sound(r)
    ensures r.Ok? ==> r.value.reg == s.reg[SP := s.reg[SP] - 1] && r.value.out == s.out
    ensures r.Ok? ==> Get(r.value.ram, s.reg[SP] - 1) == Some(s.pc + 2)
  {
    var t := MoveSp(s, -1);
    var u :- WriteRam(t, t.reg[SP], s.pc + 2);
    var i :- ReadRam(u, u.pc + 1);
    var target :- ReadReg(u, i);
    Ok(u.(pc := target, opSize := Some(0)))
  }

  /** RET: pc gets the cell the stack pointer names, then the stack pointer
      is incremented. */
  function Ret(s: State): (r: Res<State>)
    requires WellFormed(s)
    ensures Sound(r)
    ensures r.Crash? ==> r.at == s
    ensures r.Ok? ==> r.value.ram == s.ram && r.value.out == s.out && r.value.reg == s.reg[SP := s.reg[SP] + 1]
    ensures r.Ok? ==> Get(s.ram, s.reg[SP]) == Some(r.value.pc)
  {
    var target :- ReadRam(s, s.reg[SP]);
    Ok(MoveSp(s.(pc := target, opSize := Some(0)), 1))
  }

  /** Any other byte: nothing is done, and pc moves by the size remembered
      from the last recognised instruction, which fails when there is none. */
  function Unknown(s: State): (r: Res<State>)
    ensures r.Ok? <==> s.opSize.Some?
    ensures r.Crash? ==> r == Crash(s, NoStepSize)
    ensures r.Ok? ==> r.value.ram == s.ram && r.value.reg == s.reg && r.value.out == s.out
  {
    match s.opSize
    case None => Crash(s, NoStepSize)
    case Some(k) => Ok(s.(pc := s.pc + k))
  }

  /** The dispatch on the fetched byte. */
  function Execute(s: State, cmd: int): (r: Res<State>)
    requires WellFormed(s)
    ensures Sound(r)
    ensures s.out <= Settle(r).out
  {
    if cmd == LDI then Ldi(s)
    else if cmd == PRN then Prn(s)
    else if cmd == ADD then Arith(s, ADD, "ADD")
    else if cmd == MUL then Arith(s, MUL, "MUL")
    else if cmd == HLT then Ok(Advance(s, HLT))
    else if cmd == PUSH then Push(s)
    else if cmd == POP then Pop(s)
    else if cmd == CALL then Call(s)
    else if cmd == RET then Ret(s)
    else Unknown(s)
  }

  /** One pass of the run loop: fetch `ram[pc]`, execute it, and stop after
      HLT. */
  function Next(s: State): (r: Outcome)
    requires WellFormed(s)
    ensures WellFormed(r.state)
    ensures Get(s.ram, s.pc).None? ==> r == Outcome(s, Trapped(IndexOutOfRange))
    ensures !r.status.Trapped? ==> (r.status == Halted <==> Get(s.ram, s.pc) == Some(HLT))
    ensures s.out <= r.state.out
  {
    match ReadRam(s, s.pc)
    case Crash(t, e) => Outcome(t, Trapped(e))
    case Ok(cmd) =>
      match Execute(s, cmd)
      case Crash(t, e) => Outcome(t, Trapped(e))
      case Ok(t) => Outcome(t, if cmd == HLT then Halted else Running)
  }

  /** The run loop with at most `fuel` cycles; `Running` at the end means the
      fuel ran out first. */
  function Loop(s: State, fuel: nat): (r: Outcome)
    requires WellFormed(s)
    ensures WellFormed(r.state)
    ensures fuel == 0 ==> r == Outcome(s, Running)
    decreases fuel, 0
  {
    if fuel == 0 then Outcome(s, Running) else Continue(Next(s), fuel - 1)
  }

  /** The rest of the loop after a cycle that ended in `o`: `running` stays
      true only while no HLT and no exception has happened. */
  function Continue(o: Outcome, fuel: nat): (r: Outcome)
    requires WellFormed(o.state)
    ensures WellFormed(r.state)
    ensures o.status != Running ==> r == o
    decreases fuel, 1
  {
    if o.status == Running then Loop(o.state, fuel) else o
  }

  /** One cycle of the loop, unfolded. */
  lemma LoopUnfold(s: State, fuel: nat)
    requires WellFormed(s) && fuel > 0
    ensures Loop(s, fuel) == if Next(s).status == Running then Loop(Next(s).state, fuel - 1) else Next(s)
  {
  }

  /** `run`: set the stack pointer to 0xF4, then loop. */
  function Boot(s: State): (t: State)
    requires WellFormed(s)
    ensures WellFormed(t) && t.reg[SP] == STACK_TOP
    ensures forall i :: 0 <= i < REG_COUNT && i != SP ==> t.reg[i] == s.reg[i]
    ensures t.ram == s.ram && t.pc == s.pc && t.opSize == s.opSize && t.out == s.out
  {
    s.(reg := s.reg[SP := STACK_TOP])
  }

  function Run(s: State, fuel: nat): (r: Outcome)
    requires WellFormed(s)
    ensures WellFormed(r.state)
  {
    Loop(Boot(s), fuel)
  }
}
