/** The LS-8 CPU object: RAM and the register file as arrays updated in
    place, and the program counter, the remembered instruction size and the
    printed output as fields. Each method is proved to do exactly what the
    corresponding function of module Machine (or Loader) says. */
module Cpu {
  import opened PyList
  import opened Machine
  import Loader

  /** The state a partial computation ends in, and the exception if one was
      raised. */
  function Observe(r: Res<State>): (State, Option<Trap>)
  {
    match r
    case Ok(t) => (t, None)
    case Crash(t, e) => (t, Some(e))
  }

  class CPU {
    const ram: array<int>
    const reg: array<int>
    var pc: int
    var opSize: Option<nat>
    var output: seq<int>

    ghost predicate Valid()
    {
      ram.Length == RAM_SIZE && reg.Length == REG_COUNT
    }

    /** The CPU's state as a value of Machine.State. */
    ghost function Abs(): State
      reads this, ram, reg
    {
      State(ram[..], reg[..], pc, opSize, output)
    }

    /** A new CPU: 256 zeroed cells, eight zeroed registers, pc 0, no
        instruction size yet. */
    constructor ()
      ensures Valid() && Abs() == Initial()
      ensures fresh(ram) && fresh(reg)
    {
      ram := new int[RAM_SIZE](_ => 0);
      reg := new int[REG_COUNT](_ => 0);
      pc, opSize, output := 0, None, [];
    }

    /** `ram_read(address)`; None stands for IndexError. */
    method RamRead(address: int) returns (value: Option<int>)
      requires Valid()
      ensures value == Get(ram[..], address)
      ensures value.Some? <==> -RAM_SIZE <= address < RAM_SIZE
    {
      var slot := Slot(address, ram.Length);
      value := if slot.Some? then Some(ram[slot.value]) else None;
    }

    /** `ram_write(address, value)`; false stands for IndexError, which
        leaves RAM as it was. */
    method RamWrite(address: int, value: int) returns (ok: bool)
      requires Valid()
      modifies ram
      ensures ok <==> -RAM_SIZE <= address < RAM_SIZE
      ensures ram[..] == if ok then Put(old(ram[..]), address, value).value else old(ram[..])
    {
      var slot := Slot(address, ram.Length);
      ok := slot.Some?;
      if ok {
        ram[slot.value] := value;
      }
    }

    method ReadRegister(index: int) returns (value: Option<int>)
      requires Valid()
      ensures value == Get(reg[..], index)
    {
      var slot := Slot(index, reg.Length);
      value := if slot.Some? then Some(reg[slot.value]) else None;
    }

    method WriteRegister(index: int, value: int) returns (ok: bool)
      requires Valid()
      modifies reg
      ensures ok <==> -REG_COUNT <= index < REG_COUNT
      ensures reg[..] == if ok then Put(old(reg[..]), index, value).value else old(reg[..])
    {
      var slot := Slot(index, reg.Length);
      ok := slot.Some?;
      if ok {
        reg[slot.value] := value;
      }
    }

    /** `alu(op, reg_a, reg_b)`. */
    method Alu(op: string, a: int, b: int) returns (trap: Option<Trap>)
      requires Valid()
      modifies reg
      ensures (Abs(), trap) == Observe(Machine.Alu(old(Abs()), op, a, b))
    {
      if Machine.IsAluOp(op) {
        var x := ReadRegister(a);
        if x.None? { return Some(IndexOutOfRange); }
        var y := ReadRegister(b);
        if y.None? { return Some(IndexOutOfRange); }
        var ok := WriteRegister(a, Arithmetic(op, x.value, y.value));
        trap := if ok then None else Some(IndexOutOfRange);
      } else {
        trap := Some(UnsupportedAluOp);
      }
    }

    /** The end of an ordinary instruction. */
    method Finish(cmd: nat)
      modifies this
      ensures pc == old(pc) + OpSize(cmd) && opSize == Some(OpSize(cmd))
      ensures output == old(output)
    {
      opSize := Some(OpSize(cmd));
      pc := pc + OpSize(cmd);
    }

    method ExecLdi() returns (trap: Option<Trap>)
      requires Valid()
      modifies this, reg
      ensures (Abs(), trap) == Observe(Ldi(old(Abs())))
    {
      var index := RamRead(pc + 1);
      if index.None? { return Some(IndexOutOfRange); }
      var value := RamRead(pc + 2);
      if value.None? { return Some(IndexOutOfRange); }
      var ok := WriteRegister(index.value, value.value);
      if !ok { return Some(IndexOutOfRange); }
      Finish(LDI);
      trap := None;
    }

    method ExecPrn() returns (trap: Option<Trap>)
      requires Valid()
      modifies this
      ensures (Abs(), trap) == Observe(Prn(old(Abs())))
    {
      var index := RamRead(pc + 1);
      if index.None? { return Some(IndexOutOfRange); }
      var value := ReadRegister(index.value);
      if value.None? { return Some(IndexOutOfRange); }
      output := output + [value.value];
      Finish(PRN);
      trap := None;
    }

    method ExecArith(cmd: nat, op: string) returns (trap: Option<Trap>)
      requires Valid()
      modifies this, reg
      ensures (Abs(), trap) == Observe(Arith(old(Abs()), cmd, op))
    {
      var a := RamRead(pc + 1);
      if a.None? { return Some(IndexOutOfRange); }
      var b := RamRead(pc + 2);
      if b.None? { return Some(IndexOutOfRange); }
      trap := Alu(op, a.value, b.value);
      if trap.Some? { return; }
      Finish(cmd);
    }

    method ExecPush() returns (trap: Option<Trap>)
      requires Valid()
      modifies this, ram, reg
      ensures (Abs(), trap) == Observe(Push(old(Abs())))
    {
      var index := RamRead(pc + 1);
      if index.None? { return Some(IndexOutOfRange); }
      var value := ReadRegister(index.value);
      if value.None? { return Some(IndexOutOfRange); }
      reg[SP] := reg[SP] - 1;
      var ok := RamWrite(reg[SP], value.value);
      if !ok { return Some(IndexOutOfRange); }
      Finish(PUSH);
      trap := None;
    }

    method ExecPop() returns (trap: Option<Trap>)
      requires Valid()
      modifies this, reg
      ensures (Abs(), trap) == Observe(Pop(old(Abs())))
    {
      var index := RamRead(pc + 1);
      if index.None? { return Some(IndexOutOfRange); }
      var value := RamRead(reg[SP]);
      if value.None? { return Some(IndexOutOfRange); }
      var ok := WriteRegister(index.value, value.value);
      if !ok { return Some(IndexOutOfRange); }
      reg[SP] := reg[SP] + 1;
      Finish(POP);
      trap := None;
    }

    method ExecCall() returns (trap: Option<Trap>)
      requires Valid()
      modifies this, ram, reg
      ensures (Abs(), trap) == Observe(Call(old(Abs())))
    {
      reg[SP] := reg[SP] - 1;
      var ok := RamWrite(reg[SP], pc + 2);
      if !ok { return Some(IndexOutOfRange); }
      var index := RamRead(pc + 1);
      if index.None? { return Some(IndexOutOfRange); }
      var target := ReadRegister(index.value);
      if target.None? { return Some(IndexOutOfRange); }
      pc := target.value;
      opSize := Some(0);
      trap := None;
    }

    method ExecRet() returns (trap: Option<Trap>)
      requires Valid()
      modifies this, reg
      ensures (Abs(), trap) == Observe(Ret(old(Abs())))
    {
      var target := RamRead(reg[SP]);
      if target.None? { return Some(IndexOutOfRange); }
      pc := target.value;
      reg[SP] := reg[SP] + 1;
      opSize := Some(0);
      trap := None;
    }

    method ExecUnknown() returns (trap: Option<Trap>)
      requires Valid()
      modifies this
      ensures (Abs(), trap) == Observe(Unknown(old(Abs())))
    {
      if opSize.None? { return Some(NoStepSize); }
      pc := pc + opSize.value;
      trap := None;
    }

    /** One pass of the loop in `run`. */
    method Step() returns (status: Status)
      requires Valid()
      modifies this, ram, reg
      ensures Valid()
      ensures Outcome(Abs(), status) == Next(old(Abs()))
    {
      var fetched := RamRead(pc);
      if fetched.None? { return Trapped(IndexOutOfRange); }
      var cmd := fetched.value;
      var trap: Option<Trap>;
      if cmd == LDI {
        trap := ExecLdi();
      } else if cmd == PRN {
        trap := ExecPrn();
      } else if cmd == ADD {
        trap := ExecArith(ADD, "ADD");
      } else if cmd == MUL {
        trap := ExecArith(MUL, "MUL");
      } else if cmd == HLT {
        Finish(HLT);
        trap := None;
      } else if cmd == PUSH {
        trap := ExecPush();
      } else if cmd == POP {
        trap := ExecPop();
      } else if cmd == CALL {
        trap := ExecCall();
      } else if cmd == RET {
        trap := ExecRet();
      } else {
        trap := ExecUnknown();
      }
      status := match trap
        case Some(e) => Trapped(e)
        case None => if cmd == HLT then Halted else Running;
    }

    /** `run`, for at most `fuel` cycles: set the stack pointer to 0xF4, then
        step until HLT or an exception. Running as the result means the fuel
        ran out. */
    method Run(fuel: nat) returns (status: Status)
      requires Valid()
      modifies this, ram, reg
      ensures Valid()
      ensures Outcome(Abs(), status) == Machine.Run(old(Abs()), fuel)
    {
      reg[SP] := STACK_TOP;
      var running, remaining := true, fuel;
      status := Running;
      while running && remaining > 0
        invariant running ==> status == Running && Loop(Abs(), remaining) == Machine.Run(old(Abs()), fuel)
        invariant !running ==> Outcome(Abs(), status) == Machine.Run(old(Abs()), fuel)
        decreases remaining
      {
        ghost var before := Abs();
        LoopUnfold(before, remaining);
        status := Step();
        running := status == Running;
        remaining := remaining - 1;
      }
    }

    /** `load`, given the file's lines: store the value of each non-blank
        line at the next address, starting from 0. On an error the cells
        stored so far stay stored. */
    method Load(lines: seq<string>) returns (error: Option<Loader.LoadError>)
      requires Valid()
      modifies ram
      ensures Valid()
      ensures var r := Loader.Scan(lines);
        error == r.error && ram[..] == r.values + old(ram[..])[|r.values|..]
    {
      var address, i := 0, 0;
      error := None;
      ghost var done := Loader.Scanned([], None);
      while i < |lines| && error == None
        invariant 0 <= i <= |lines|
        invariant Loader.Scan(lines[..i]) == done && done.error == error
        invariant address == |done.values| <= RAM_SIZE
        invariant ram[..] == done.values + old(ram[..])[address..]
      {
        ghost var next := Loader.Feed(done, lines[i]);
        assert Loader.Scan(lines[..i + 1]) == next by {
          assert lines[..i + 1][..i] == lines[..i];
        }
        match Loader.Classify(lines[i]) {
          case Blank =>
          case Malformed =>
            error := Some(Loader.BadLiteral);
          case Literal(n) =>
            if address == ram.Length {
              error := Some(Loader.MemoryFull);
            } else {
              ghost var before := ram[..];
              ram[address] := n;
              assert ram[..] == before[address := n];
              Store(done.values, old(ram[..]), n);
              address := address + 1;
            }
        }
        done, i := next, i + 1;
      }
      if error.Some? {
        Stopped(lines, i);
      } else {
        assert lines[..i] == lines;
      }
    }

    /** Storing the next value after the ones already loaded. */
    static lemma Store(loaded: seq<int>, image: seq<int>, n: int)
      requires |loaded| < |image|
      ensures (loaded + image[|loaded|..])[|loaded| := n] == loaded + [n] + image[|loaded| + 1..]
    {
    }

    static lemma Stopped(lines: seq<string>, n: nat)
      requires n <= |lines| && Loader.Scan(lines[..n]).error.Some?
      ensures Loader.Scan(lines) == Loader.Scan(lines[..n])
    {
      Loader.ScanStops(lines[..n], lines[n..]);
      assert lines[..n] + lines[n..] == lines;
    }
  }
}
