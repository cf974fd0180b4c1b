/**
 * Properties of the value-level CPU model: the effect of each dispatched opcode on one
 * pass of the `run` loop, how the fuel bound composes, and what a whole run never
 * changes.
 */
module CpuProperties {
  import opened Cpu

  // ---------------------------------------------------------------------------
  // Addressing

  /**
   * Indirect_Y is Indirect_X with the roles of X and Y exchanged: Y offsets the
   * zero-page pointer and is not added to the address read through it, whatever
   * X is.
   */
  lemma IndirectYIsPreIndexed(memory: Memory, pc: u16, x: u8, y: u8, otherX: u8)
    ensures OperandAddress(memory, pc, x, y, IndirectY) == OperandAddress(memory, pc, y, otherX, IndirectX)
  {
  }

  /**
   * Hence it differs from the 6502's post-indexed mode, which adds Y to the address
   * read through the pointer. Here the operand (cell 0) is pointer 0; cells 0 and 1
   * hold the address 0x0000 and cells 1 and 2 the address 0x0300. With Y = 1 the
   * model resolves to 0x0300, where post-indexing would give 0x0000 + 1 = 0x0001.
   */
  lemma IndirectYExample(memory: Memory)
    requires memory[0] == 0x00 && memory[1] == 0x00 && memory[2] == 0x03
    ensures OperandAddress(memory, 0, 0, 1, IndirectY) == Ok(0x0300)
    ensures OperandAddress(memory, 0, 0, 0, IndirectY) == Ok(0x0000)
  {
  }

  // ---------------------------------------------------------------------------
  // One pass of the loop, opcode by opcode

  /** LDA #: A becomes the byte after the opcode, the flags follow it, PC moves by 2. */
  lemma StepLdaImmediate(s: State)
    requires s.programCounter + 1 < MEMORY_SIZE && s.memory[s.programCounter] == 0xA9
    ensures var operand := s.memory[s.programCounter + 1];
      s.Step() == Continue(s.(registerA := operand, status := FlagsAfter(s.status, operand),
                              programCounter := s.programCounter + 2))
  {
  }

  /** LDX #: X becomes the byte after the opcode, the flags follow it, PC moves by 2. */
  lemma StepLdxImmediate(s: State)
    requires s.programCounter + 1 < MEMORY_SIZE && s.memory[s.programCounter] == 0xA2
    ensures var operand := s.memory[s.programCounter + 1];
      s.Step() == Continue(s.(registerX := operand, status := FlagsAfter(s.status, operand),
                              programCounter := s.programCounter + 2))
  {
  }

  /** An immediate load whose operand byte would be cell 0xFFFF panics. */
  lemma StepImmediateAtEnd(s: State)
    requires s.programCounter == MEMORY_SIZE - 1 && IsImmediateLoad(s.memory[s.programCounter])
    ensures s.Step() == Fail(OutOfBounds(0xFFFF))
  {
  }

  /** TAX: X becomes A, the flags follow it, PC moves by 1. */
  lemma StepTax(s: State)
    requires s.programCounter < MEMORY_SIZE && s.memory[s.programCounter] == 0xAA
    ensures s.Step() == Continue(s.(registerX := s.registerA, status := FlagsAfter(s.status, s.registerA),
                                    programCounter := s.programCounter + 1))
  {
  }

  /** INX: X becomes (X + 1) mod 256, the flags follow it, PC moves by 1. */
  lemma StepInx(s: State)
    requires s.programCounter < MEMORY_SIZE && s.memory[s.programCounter] == 0xE8
    ensures var x := (s.registerX + 1) % 0x100;
      s.Step() == Continue(s.(registerX := x, status := FlagsAfter(s.status, x),
                              programCounter := s.programCounter + 1))
  {
  }

  /** BRK: the loop returns with PC one past the BRK byte and nothing else changed. */
  lemma StepBrk(s: State)
    requires s.programCounter < MEMORY_SIZE && s.memory[s.programCounter] == 0x00
    ensures s.Step() == Halt(s.(programCounter := s.programCounter + 1))
  {
  }

  // ---------------------------------------------------------------------------
  // The fuel bound

  /** Running `f1 + f2` passes is running `f1` passes and then, if still going, `f2` more. */
  lemma {:induction false} RunSplit(s: State, f1: nat, f2: nat)
    ensures s.Run(f1 + f2) == match s.Run(f1)
      case Continue(next) => next.Run(f2)
      case Halt(final) => Halt(final)
      case Fail(fault) => Fail(fault)
    decreases f1
  {
    if f1 > 0 {
      match s.Step()
      case Continue(next) =>
        assert s.Run(f1 + f2) == next.Run(f1 - 1 + f2);
        assert s.Run(f1) == next.Run(f1 - 1);
        RunSplit(next, f1 - 1, f2);
      case Halt(_) =>
      case Fail(_) =>
    }
  }

  /** Once a run has halted or failed, more fuel gives the same outcome. */
  lemma {:induction false} RunFuelMonotone(s: State, fuel: nat, more: nat)
    requires fuel <= more
    requires !s.Run(fuel).Continue?
    ensures s.Run(more) == s.Run(fuel)
  {
    RunSplit(s, fuel, more - fuel);
  }

  // ---------------------------------------------------------------------------
  // What a run keeps

  /** The status holds no bits besides Zero (bit 1) and Negative (bit 7). */
  predicate OnlyZeroAndNegative(status: bv8)
  {
    status & !(ZERO_FLAG | NEGATIVE_FLAG) == 0
  }

  /** A pass that goes on leaves a status with at most bits 1 and 7 set, whatever it was before. */
  lemma StepStatusShape(s: State)
    requires s.Step().Continue?
    ensures OnlyZeroAndNegative(s.Step().state.status)
  {
    var opcode := s.memory[s.programCounter];
    var fetched := s.(programCounter := s.programCounter + 1);
    assert s.Step() == fetched.Dispatch(opcode);
    var result: u8 :=
      if opcode == 0xA9 then fetched.Lda(Immediate).value.registerA
      else if opcode == 0xA2 then fetched.Ldx(Immediate).value.registerX
      else if opcode == 0xAA then s.registerA
      else (s.registerX + 1) % 0x100;
    assert s.Step().state.status == FlagsAfter(s.status, result);
  }

  /**
   * No dispatched opcode writes memory or Y, and every one that changes the status
   * leaves at most bits 1 and 7 set; so a run that has not failed ends with the memory
   * and Y it started with, and statuses of that shape stay of that shape.
   */
  lemma {:induction false} RunInvariants(s: State, fuel: nat)
    ensures !s.Run(fuel).Fail? ==> s.Run(fuel).state.memory == s.memory
    ensures !s.Run(fuel).Fail? ==> s.Run(fuel).state.registerY == s.registerY
    ensures !s.Run(fuel).Fail? && OnlyZeroAndNegative(s.status) ==> OnlyZeroAndNegative(s.Run(fuel).state.status)
    decreases fuel
  {
    if fuel > 0 {
      match s.Step()
      case Continue(next) =>
        StepStatusShape(s);
        RunInvariants(next, fuel - 1);
      case Halt(_) =>
      case Fail(_) =>
    }
  }

  // ---------------------------------------------------------------------------
  // load and reset

  /** After `load`, `reset` starts execution at the program origin 0x8000. */
  lemma LoadThenReset(s: State, program: seq<u8>)
    requires PROGRAM_ORIGIN + |program| <= MEMORY_SIZE
    ensures s.Load(program).Ok?
    ensures s.Load(program).value.Reset().programCounter == PROGRAM_ORIGIN
  {
  }

  /** After `load_and_run` has halted, the status holds at most bits 1 and 7. */
  lemma LoadAndRunStatus(s: State, program: seq<u8>, fuel: nat)
    requires s.LoadAndRun(program, fuel).Halt?
    ensures OnlyZeroAndNegative(s.LoadAndRun(program, fuel).state.status)
  {
    RunInvariants(s.Load(program).value.Reset(), fuel);
  }
}
