/** What the instructions do, one at a time and in short sequences, stated
    over Machine.Next and Machine.Run. The CPU class's Step and Run are proved
    equal to these functions, so everything here holds of the CPU object as
    well. */
module Programs {
  import opened PyList
  import opened Machine

  // ---- Memory and ALU ----

  /** ram_write(a, v) followed by ram_read(a) gives v; every other cell, and
      the rest of the state, is unchanged. */
  lemma ReadAfterWrite(s: State, a: int, v: int)
    requires WellFormed(s) && -RAM_SIZE <= a < RAM_SIZE
    ensures WriteRam(s, a, v).Ok?
    ensures var t := WriteRam(s, a, v).value;
      ReadRam(t, a) == Ok(v)
      && (forall j :: 0 <= j < RAM_SIZE && Some(j) != Slot(a, RAM_SIZE) ==> t.ram[j] == s.ram[j])
      && t.reg == s.reg && t.pc == s.pc && t.opSize == s.opSize && t.out == s.out
  {
    GetAfterPut(s.ram, a, v);
  }

  /** The ALU changes only reg[a], to reg[a] + reg[b], reg[a] - reg[b] or
      reg[a] * reg[b]; any other operation name raises and changes nothing. */
  lemma AluChangesOnlyTarget(s: State, op: string, a: int, b: int)
    requires WellFormed(s) && 0 <= a < REG_COUNT && 0 <= b < REG_COUNT
    ensures var r := Alu(s, op, a, b);
      (op == "ADD" ==> r == Ok(s.(reg := s.reg[a := s.reg[a] + s.reg[b]])))
      && (op == "SUB" ==> r == Ok(s.(reg := s.reg[a := s.reg[a] - s.reg[b]])))
      && (op == "MUL" ==> r == Ok(s.(reg := s.reg[a := s.reg[a] * s.reg[b]])))
      && (op != "ADD" && op != "SUB" && op != "MUL" ==> r == Crash(s, UnsupportedAluOp))
  {
  }

  // ---- One instruction at a time ----

  /** Every instruction but CALL and RET moves pc by (cmd >> 6) + 1, that is
      3 for LDI, ADD and MUL, 2 for PRN, PUSH and POP and 1 for HLT, and
      remembers that size; none of them changes RAM except PUSH, which
      changes one cell. */
  lemma OrdinaryInstructionAdvances(s: State, cmd: int)
    requires WellFormed(s) && Get(s.ram, s.pc) == Some(cmd)
    requires cmd == LDI || cmd == PRN || cmd == ADD || cmd == MUL || cmd == PUSH || cmd == POP || cmd == HLT
    requires !Next(s).status.Trapped?
    ensures var t := Next(s).state; var size := OpSize(cmd);
      size == (if cmd == HLT then 1 else if cmd == PRN || cmd == PUSH || cmd == POP then 2 else 3)
      && t.pc == s.pc + size && t.opSize == Some(size)
    ensures var t := Next(s).state;
      cmd != PUSH ==> t.ram == s.ram
    ensures var t := Next(s).state;
      cmd == PUSH ==> (Slot(s.reg[SP] - 1, RAM_SIZE).Some?
        && forall j :: 0 <= j < RAM_SIZE && Some(j) != Slot(s.reg[SP] - 1, RAM_SIZE) ==> t.ram[j] == s.ram[j])
  {
    if cmd == PUSH {
      var i := ReadRam(s, s.pc + 1).value;
      var v := ReadReg(s, i).value;
      var m := MoveSp(s, -1);
      GetAfterPut(m.ram, m.reg[SP], v);
    }
  }

  /** LDI r, v sets reg[r] to v, changes no other register and no RAM, and
      moves pc by 3. */
  lemma LdiStep(s: State, r: int, v: int)
    requires WellFormed(s) && 0 <= s.pc && s.pc + 2 < RAM_SIZE
    requires s.ram[s.pc] == LDI && s.ram[s.pc + 1] == r && s.ram[s.pc + 2] == v
    requires 0 <= r < REG_COUNT
    ensures Next(s) == Outcome(s.(reg := s.reg[r := v], pc := s.pc + 3, opSize := Some(3)), Running)
  {
  }

  /** PRN r appends reg[r] to the output and changes nothing else but pc. */
  lemma PrnStep(s: State, r: int)
    requires WellFormed(s) && 0 <= s.pc && s.pc + 1 < RAM_SIZE
    requires s.ram[s.pc] == PRN && s.ram[s.pc + 1] == r
    requires 0 <= r < REG_COUNT
    ensures Next(s) == Outcome(s.(out := s.out + [s.reg[r]], pc := s.pc + 2, opSize := Some(2)), Running)
  {
  }

  /** ADD a, b sets reg[a] to reg[a] + reg[b]. */
  lemma AddStep(s: State, a: int, b: int)
    requires WellFormed(s) && 0 <= s.pc && s.pc + 2 < RAM_SIZE
    requires s.ram[s.pc] == ADD && s.ram[s.pc + 1] == a && s.ram[s.pc + 2] == b
    requires 0 <= a < REG_COUNT && 0 <= b < REG_COUNT
    ensures Next(s) == Outcome(s.(reg := s.reg[a := s.reg[a] + s.reg[b]], pc := s.pc + 3, opSize := Some(3)), Running)
  {
  }

  /** MUL a, b sets reg[a] to reg[a] * reg[b]. */
  lemma MulStep(s: State, a: int, b: int)
    requires WellFormed(s) && 0 <= s.pc && s.pc + 2 < RAM_SIZE
    requires s.ram[s.pc] == MUL && s.ram[s.pc + 1] == a && s.ram[s.pc + 2] == b
    requires 0 <= a < REG_COUNT && 0 <= b < REG_COUNT
    ensures Next(s) == Outcome(s.(reg := s.reg[a := s.reg[a] * s.reg[b]], pc := s.pc + 3, opSize := Some(3)), Running)
  {
  }

  /** HLT stops the loop after moving pc by 1, and changes nothing else. */
  lemma HaltStep(s: State)
    requires WellFormed(s) && 0 <= s.pc < RAM_SIZE && s.ram[s.pc] == HLT
    ensures Next(s) == Outcome(s.(pc := s.pc + 1, opSize := Some(1)), Halted)
  {
  }

  /** PUSH r stores the value reg[r] had before the stack pointer moved, at
      the cell the decremented stack pointer names; only that cell and the
      stack pointer change. */
  lemma PushStep(s: State, r: int)
    requires WellFormed(s) && 0 <= s.pc && s.pc + 1 < RAM_SIZE
    requires s.ram[s.pc] == PUSH && s.ram[s.pc + 1] == r
    requires 0 <= r < REG_COUNT && 0 < s.reg[SP] <= RAM_SIZE
    ensures var sp := s.reg[SP] - 1;
      Next(s) == Outcome(s.(ram := s.ram[sp := s.reg[r]], reg := s.reg[SP := sp], pc := s.pc + 2, opSize := Some(2)), Running)
  {
  }

  /** POP r loads the cell the stack pointer names into reg[r], then
      increments the stack pointer; POP R7 therefore leaves register 7 one
      above the popped value. */
  lemma PopStep(s: State, r: int)
    requires WellFormed(s) && 0 <= s.pc && s.pc + 1 < RAM_SIZE
    requires s.ram[s.pc] == POP && s.ram[s.pc + 1] == r
    requires 0 <= r < REG_COUNT && 0 <= s.reg[SP] < RAM_SIZE
    ensures var sp := s.reg[SP]; var t := s.reg[r := s.ram[sp]];
      Next(s) == Outcome(s.(reg := t[SP := t[SP] + 1], pc := s.pc + 2, opSize := Some(2)), Running)
  {
  }

  /** CALL r pushes pc + 2 and jumps to the address in reg[r] (read after
      the stack pointer moved), with no automatic advance. */
  lemma CallStep(s: State, r: int)
    requires WellFormed(s) && 0 <= s.pc && s.pc + 1 < RAM_SIZE
    requires s.ram[s.pc] == CALL && s.ram[s.pc + 1] == r
    requires 0 <= r < REG_COUNT && 0 < s.reg[SP] <= RAM_SIZE
    requires s.reg[SP] - 1 != s.pc + 1
    ensures var sp := s.reg[SP] - 1; var regs := s.reg[SP := sp];
      Next(s) == Outcome(s.(ram := s.ram[sp := s.pc + 2], reg := regs, pc := regs[r], opSize := Some(0)), Running)
  {
  }

  /** RET jumps to the address on top of the stack and pops it. */
  lemma RetStep(s: State)
    requires WellFormed(s) && 0 <= s.pc < RAM_SIZE && s.ram[s.pc] == RET
    requires 0 <= s.reg[SP] < RAM_SIZE
    ensures var sp := s.reg[SP];
      Next(s) == Outcome(s.(pc := s.ram[sp], reg := s.reg[SP := sp + 1], opSize := Some(0)), Running)
  {
  }

  /** A byte that is no opcode does nothing but move pc by the size of the
      last recognised instruction; before any instruction has run there is no
      such size and the run fails. */
  lemma UnknownOpcode(s: State)
    requires WellFormed(s) && 0 <= s.pc < RAM_SIZE && !IsOpcode(s.ram[s.pc])
    ensures s.opSize.None? ==> Next(s) == Outcome(s, Trapped(NoStepSize))
    ensures s.opSize.Some? ==> Next(s) == Outcome(s.(pc := s.pc + s.opSize.value), Running)
  {
  }

  // ---- Instruction sequences ----

  /** LDI r, v immediately followed by PRN r prints exactly v. */
  lemma LdiThenPrn(s: State, r: int, v: int)
    requires WellFormed(s) && 0 <= s.pc && s.pc + 4 < RAM_SIZE
    requires s.ram[s.pc] == LDI && s.ram[s.pc + 1] == r && s.ram[s.pc + 2] == v
    requires s.ram[s.pc + 3] == PRN && s.ram[s.pc + 4] == r
    requires 0 <= r < REG_COUNT
    ensures Next(s).status == Running
    ensures var t := Next(Next(s).state);
      t.status == Running && t.state.out == s.out + [v] && t.state.pc == s.pc + 5
      && t.state.reg == s.reg[r := v] && t.state.ram == s.ram
  {
    LdiStep(s, r, v);
    var t := Next(s).state;
    PrnStep(t, r);
  }

  /** PUSH r followed by POP q copies reg[r] into reg[q] and leaves the stack
      pointer where it was, as long as the stack cell is not one of the POP
      instruction's own bytes. */
  lemma PushThenPop(s: State, r: int, q: int)
    requires WellFormed(s) && 0 <= s.pc && s.pc + 3 < RAM_SIZE
    requires s.ram[s.pc] == PUSH && s.ram[s.pc + 1] == r
    requires s.ram[s.pc + 2] == POP && s.ram[s.pc + 3] == q
    requires 0 <= r < REG_COUNT && 0 <= q < REG_COUNT && q != SP
    requires 0 < s.reg[SP] <= RAM_SIZE
    requires s.reg[SP] - 1 != s.pc + 2 && s.reg[SP] - 1 != s.pc + 3
    ensures Next(s).status == Running
    ensures var t := Next(Next(s).state);
      t.status == Running && t.state.reg == s.reg[q := s.reg[r]] && t.state.pc == s.pc + 4
  {
    PushStep(s, r);
    var t := Next(s).state;
    PopStep(t, q);
    assert t.reg[q := t.ram[t.reg[SP]]][SP := t.reg[SP] + 1] == s.reg[q := s.reg[r]];
  }

  /** PUSH a, PUSH b, as two cycles of the run loop with n cycles left
      after them: the two values land below the stack pointer, reg[a] above
      reg[b]. */
  lemma PushPush(s: State, a: int, b: int, n: nat)
    requires WellFormed(s) && 0 <= s.pc && s.pc + 3 < RAM_SIZE
    requires s.ram[s.pc] == PUSH && s.ram[s.pc + 1] == a
    requires s.ram[s.pc + 2] == PUSH && s.ram[s.pc + 3] == b
    requires 0 <= a < REG_COUNT && 0 <= b < REG_COUNT && b != SP
    requires 1 < s.reg[SP] <= RAM_SIZE
    requires !(s.pc <= s.reg[SP] - 1 < s.pc + 4)
    ensures var sp := s.reg[SP];
      Loop(s, n + 2) == Loop(s.(ram := s.ram[sp - 1 := s.reg[a]][sp - 2 := s.reg[b]], reg := s.reg[SP := sp - 2],
                                pc := s.pc + 4, opSize := Some(2)), n)
  {
    var sp := s.reg[SP];
    var s1 := s.(ram := s.ram[sp - 1 := s.reg[a]], reg := s.reg[SP := sp - 1], pc := s.pc + 2, opSize := Some(2));
    assert Loop(s, n + 2) == Loop(s1, n + 1) by { PushStep(s, a); LoopUnfold(s, n + 2); }
    var s2 := s.(ram := s.ram[sp - 1 := s.reg[a]][sp - 2 := s.reg[b]], reg := s.reg[SP := sp - 2],
                 pc := s.pc + 4, opSize := Some(2));
    assert Next(s1) == Outcome(s2, Running) by {
      PushStep(s1, b);
      assert s1.reg[SP := sp - 2] == s2.reg;
    }
    LoopUnfold(s1, n + 1);
  }

  /** POP c, POP d, as two cycles of the run loop: c gets the cell at the
      stack pointer, d the one above it. */
  lemma PopPop(s: State, c: int, d: int, n: nat)
    requires WellFormed(s) && 0 <= s.pc && s.pc + 3 < RAM_SIZE
    requires s.ram[s.pc] == POP && s.ram[s.pc + 1] == c
    requires s.ram[s.pc + 2] == POP && s.ram[s.pc + 3] == d
    requires 0 <= c < REG_COUNT && 0 <= d < REG_COUNT && c != SP && d != SP
    requires 0 <= s.reg[SP] && s.reg[SP] + 1 < RAM_SIZE
    ensures var sp := s.reg[SP];
      Loop(s, n + 2) == Loop(s.(reg := s.reg[c := s.ram[sp]][d := s.ram[sp + 1]][SP := sp + 2],
                                pc := s.pc + 4, opSize := Some(2)), n)
  {
    var sp := s.reg[SP];
    var s1 := s.(reg := s.reg[c := s.ram[sp]][SP := sp + 1], pc := s.pc + 2, opSize := Some(2));
    assert Next(s) == Outcome(s1, Running) by { PopStep(s, c); }
    assert Loop(s, n + 2) == Loop(s1, n + 1) by { LoopUnfold(s, n + 2); }
    var s2 := s.(reg := s.reg[c := s.ram[sp]][d := s.ram[sp + 1]][SP := sp + 2], pc := s.pc + 4, opSize := Some(2));
    assert Next(s1) == Outcome(s2, Running) by {
      PopStep(s1, d);
      assert s1.reg[d := s.ram[sp + 1]][SP := sp + 2] == s2.reg;
    }
    LoopUnfold(s1, n + 1);
  }

  /** PUSH a, PUSH b, POP c, POP d, as four cycles of the run loop: the value
      pushed last comes off first, so c gets reg[b] and d gets reg[a], and the
      stack pointer ends where it started. */
  lemma PushPushPopPop(s: State, a: int, b: int, c: int, d: int, n: nat)
    requires WellFormed(s) && 0 <= s.pc && s.pc + 7 < RAM_SIZE
    requires s.ram[s.pc] == PUSH && s.ram[s.pc + 1] == a
    requires s.ram[s.pc + 2] == PUSH && s.ram[s.pc + 3] == b
    requires s.ram[s.pc + 4] == POP && s.ram[s.pc + 5] == c
    requires s.ram[s.pc + 6] == POP && s.ram[s.pc + 7] == d
    requires 0 <= a < REG_COUNT && 0 <= b < REG_COUNT && b != SP
    requires 0 <= c < REG_COUNT && 0 <= d < REG_COUNT && c != SP && d != SP
    requires 1 < s.reg[SP] <= RAM_SIZE
    requires !(s.pc <= s.reg[SP] - 2 < s.pc + 8) && !(s.pc <= s.reg[SP] - 1 < s.pc + 8)
    ensures var sp := s.reg[SP];
      Loop(s, n + 4) == Loop(s.(ram := s.ram[sp - 1 := s.reg[a]][sp - 2 := s.reg[b]],
                                reg := s.reg[c := s.reg[b]][d := s.reg[a]],
                                pc := s.pc + 8, opSize := Some(2)), n)
  {
    var sp := s.reg[SP];
    var s2 := s.(ram := s.ram[sp - 1 := s.reg[a]][sp - 2 := s.reg[b]], reg := s.reg[SP := sp - 2],
                 pc := s.pc + 4, opSize := Some(2));
    var f := s.(ram := s2.ram, reg := s.reg[c := s.reg[b]][d := s.reg[a]], pc := s.pc + 8, opSize := Some(2));
    var t := s2.reg[SP];
    var g := s2.(reg := s2.reg[c := s2.ram[t]][d := s2.ram[t + 1]][SP := t + 2], pc := s2.pc + 4, opSize := Some(2));
    assert g.reg == f.reg;
    PushPush(s, a, b, n + 2);
    PopPop(s2, c, d, n);
  }

  /** CALL r at address p followed, after any subroutine body that leaves the
      stack pointer and the pushed cell as CALL left them, by RET: execution
      resumes at p + 2 and the stack pointer is back at its value before the
      CALL. */
  lemma CallThenRet(s: State, r: int, t: State)
    requires WellFormed(s) && 0 <= s.pc && s.pc + 1 < RAM_SIZE
    requires s.ram[s.pc] == CALL && s.ram[s.pc + 1] == r
    requires 0 <= r < REG_COUNT && 0 < s.reg[SP] <= RAM_SIZE
    requires s.reg[SP] - 1 != s.pc + 1
    requires var u := Next(s).state;
      WellFormed(t) && t.reg[SP] == u.reg[SP] && t.ram[t.reg[SP]] == u.ram[u.reg[SP]]
    requires 0 <= t.pc < RAM_SIZE && t.ram[t.pc] == RET
    ensures Next(s).status == Running && Next(t).status == Running
    ensures Next(t).state.pc == s.pc + 2 && Next(t).state.reg[SP] == s.reg[SP]
  {
    CallStep(s, r);
    RetStep(t);
  }

  // ---- Whole runs ----

  /** What a run has printed is never taken back: the output of any number
      of cycles extends the output the run started with. */
  lemma {:induction false} OutputOnlyGrows(s: State, fuel: nat)
    requires WellFormed(s)
    ensures s.out <= Loop(s, fuel).state.out
    decreases fuel
  {
    if fuel > 0 {
      var o := Next(s);
      if o.status == Running {
        OutputOnlyGrows(o.state, fuel - 1);
      }
    }
  }

  /** `run` sets the stack pointer to 0xF4 before the first fetch; with HLT
      at pc the run stops at once with pc moved by 1 and nothing else
      changed. */
  lemma RunHaltsAtHlt(s: State, fuel: nat)
    requires WellFormed(s) && 0 <= s.pc < RAM_SIZE && s.ram[s.pc] == HLT && fuel > 0
    ensures Run(s, fuel) == Outcome(s.(reg := s.reg[SP := STACK_TOP], pc := s.pc + 1, opSize := Some(1)), Halted)
  {
    HaltStep(Boot(s));
  }

  /** Equal slices agree cell by cell: a program (or a part of one) in RAM
      gives the value of each cell it covers. */
  lemma Cells(m: seq<int>, program: seq<int>, lo: nat, hi: nat)
    requires lo <= hi <= |m| && hi <= |program| && m[lo..hi] == program[lo..hi]
    ensures forall i :: lo <= i < hi ==> m[i] == program[i]
  {
    forall i | lo <= i < hi ensures m[i] == program[i] {
      assert m[lo..hi][i - lo] == m[i] && program[lo..hi][i - lo] == program[i];
    }
  }

  /** LDI R0,8; LDI R1,9; ADD R0,R1; PRN R0; HLT */
  const AddProgram: seq<int> := [LDI, 0, 8, LDI, 1, 9, ADD, 0, 1, PRN, 0, HLT]

  /** The program above, loaded at address 0, prints 17 and halts. */
  lemma AddProgramPrints17(s: State)
    requires WellFormed(s) && s.pc == 0 && s.ram[..|AddProgram|] == AddProgram
    ensures var r := Run(s, 5);
      r.status == Halted && r.state.out == s.out + [17] && r.state.pc == |AddProgram|
  {
    var m := s.ram;
    assert m[0] == LDI && m[1] == 0 && m[2] == 8 by { assert m[..12][0] == m[0] && m[..12][1] == m[1] && m[..12][2] == m[2]; }
    assert m[3] == LDI && m[4] == 1 && m[5] == 9 by { assert m[..12][3] == m[3] && m[..12][4] == m[4] && m[..12][5] == m[5]; }
    assert m[6] == ADD && m[7] == 0 && m[8] == 1 by { assert m[..12][6] == m[6] && m[..12][7] == m[7] && m[..12][8] == m[8]; }
    assert m[9] == PRN && m[10] == 0 && m[11] == HLT by { assert m[..12][9] == m[9] && m[..12][10] == m[10] && m[..12][11] == m[11]; }
    var s0 := Boot(s);
    var s1 := s0.(reg := s0.reg[0 := 8], pc := 3, opSize := Some(3));
    assert Next(s0) == Outcome(s1, Running) by { LdiStep(s0, 0, 8); }
    var s2 := s1.(reg := s1.reg[1 := 9], pc := 6, opSize := Some(3));
    assert Next(s1) == Outcome(s2, Running) by { LdiStep(s1, 1, 9); }
    var s3 := s2.(reg := s2.reg[0 := 17], pc := 9, opSize := Some(3));
    assert Next(s2) == Outcome(s3, Running) by { AddStep(s2, 0, 1); }
    var s4 := s3.(out := s.out + [17], pc := 11, opSize := Some(2));
    assert Next(s3) == Outcome(s4, Running) by { PrnStep(s3, 0); }
    var s5 := s4.(pc := 12, opSize := Some(1));
    assert Next(s4) == Outcome(s5, Halted) by { HaltStep(s4); }
    calc {
      Run(s, 5);
      Loop(s0, 5);
      { LoopUnfold(s0, 4); }
      Loop(s1, 4);
      { LoopUnfold(s1, 3); }
      Loop(s2, 3);
      { LoopUnfold(s2, 2); }
      Loop(s3, 2);
      { LoopUnfold(s3, 1); }
      Loop(s4, 1);
      Outcome(s5, Halted);
    }
  }

  /** LDI R2,5; LDI R3,6; PUSH R2; PUSH R3; POP R4; POP R5; HLT */
  const StackProgram: seq<int> := [LDI, 2, 5, LDI, 3, 6, PUSH, 2, PUSH, 3, POP, 4, POP, 5, HLT]

  /** The first two instructions of the program above, after the boot step:
      R2 = 5, R3 = 6, and the stack pointer at 0xF4. */
  lemma StackProgramSetup(s: State)
    requires WellFormed(s) && s.pc == 0 && s.ram[..|StackProgram|] == StackProgram
    ensures var b := Boot(s);
      Run(s, 7) == Loop(b.(reg := b.reg[2 := 5][3 := 6], pc := 6, opSize := Some(3)), 5)
  {
    var m := s.ram;
    assert m[0] == LDI && m[1] == 2 && m[2] == 5 by { assert m[..15][0] == m[0] && m[..15][1] == m[1] && m[..15][2] == m[2]; }
    assert m[3] == LDI && m[4] == 3 && m[5] == 6 by { assert m[..15][3] == m[3] && m[..15][4] == m[4] && m[..15][5] == m[5]; }
    var s0 := Boot(s);
    var s1 := s0.(reg := s0.reg[2 := 5], pc := 3, opSize := Some(3));
    assert Loop(s0, 7) == Loop(s1, 6) by { LdiStep(s0, 2, 5); LoopUnfold(s0, 7); }
    LdiStep(s1, 3, 6);
    LoopUnfold(s1, 6);
  }

  /** The rest of the program above, from address 6 with R2 = 5, R3 = 6 and
      the stack pointer at 0xF4: the two pushes and pops swap the values into
      R4 and R5, and HLT stops the run. */
  lemma StackProgramRest(t: State)
    requires WellFormed(t) && t.pc == 6 && t.ram[6..15] == StackProgram[6..15]
    requires t.reg[SP] == STACK_TOP && t.reg[2] == 5 && t.reg[3] == 6
    ensures var r := Loop(t, 5);
      r.status == Halted && r.state.reg[4] == 6 && r.state.reg[5] == 5 && r.state.reg[SP] == STACK_TOP
  {
    var m := t.ram;
    Cells(m, StackProgram, 6, 15);
    var sp := t.reg[SP];
    var g := t.(ram := m[sp - 1 := t.reg[2]][sp - 2 := t.reg[3]], reg := t.reg[4 := t.reg[3]][5 := t.reg[2]],
                pc := t.pc + 8, opSize := Some(2));
    PushPushPopPop(t, 2, 3, 4, 5, 1);
    HaltStep(g);
    LoopUnfold(g, 1);
  }

  /** The program above, loaded at address 0, leaves R4 = 6 and R5 = 5 (last
      in, first out) and the stack pointer back at 0xF4. */
  lemma StackProgramIsLifo(s: State)
    requires WellFormed(s) && s.pc == 0 && s.ram[..|StackProgram|] == StackProgram
    ensures var r := Run(s, 7);
      r.status == Halted && r.state.reg[4] == 6 && r.state.reg[5] == 5 && r.state.reg[SP] == STACK_TOP
  {
    var b := Boot(s);
    var t := b.(reg := b.reg[2 := 5][3 := 6], pc := 6, opSize := Some(3));
    StackProgramSetup(s);
    assert t.ram[6..15] == s.ram[..15][6..15];
    StackProgramRest(t);
  }
}
