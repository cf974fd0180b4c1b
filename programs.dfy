/**
 * The end-to-end programs of the emulator's test module. Each is stated twice: as a
 * lemma about `load_and_run` from ANY starting state, with any fuel at least the number
 * of loop passes the program needs, and as a client of the `CPU` object that starts
 * from `CPU::new()` exactly as the test does.
 */
module Programs {
  import opened Cpu
  import opened CpuProperties

  /** `load` then `reset`: the program sits at 0x8000, PC points at it, registers are zero. */
  lemma Started(s: State, program: seq<u8>)
    requires PROGRAM_ORIGIN + |program| <= RESET_VECTOR
    ensures s.Load(program).Ok?
    ensures var t := s.Load(program).value.Reset();
      t.programCounter == PROGRAM_ORIGIN && t.registerA == 0 && t.registerX == 0 && t.registerY == 0 && t.status == 0 &&
      forall i :: 0 <= i < |program| ==> t.memory[PROGRAM_ORIGIN + i] == program[i]
  {
  }

  /** `[LDA #$05, BRK]` halts with A = 5 and neither Zero nor Negative set. */
  lemma LdaImmediateLoadData(s: State, fuel: nat)
    requires fuel >= 2
    ensures s.LoadAndRun([0xA9, 0x05, 0x00], fuel).Halt?
    ensures var t := s.LoadAndRun([0xA9, 0x05, 0x00], fuel).state;
      t.registerA == 0x05 && t.status & ZERO_FLAG == 0 && t.status & NEGATIVE_FLAG == 0
  {
    var program: seq<u8> := [0xA9, 0x05, 0x00];
    Started(s, program);
    var t0 := s.Load(program).value.Reset();
    assert t0.memory[PROGRAM_ORIGIN] == program[0] && t0.memory[PROGRAM_ORIGIN + 1] == program[1];
    StepLdaImmediate(t0);
    var t1 := t0.Step().state;
    assert t1.memory[t1.programCounter] == program[2];
    StepBrk(t1);
    assert t0.Run(2) == Halt(t1.(programCounter := t1.programCounter + 1));
    RunFuelMonotone(t0, 2, fuel);
  }

  /** `[LDA #$00, BRK]` halts with Zero set. */
  lemma LdaZeroFlag(s: State, fuel: nat)
    requires fuel >= 2
    ensures s.LoadAndRun([0xA9, 0x00, 0x00], fuel).Halt?
    ensures s.LoadAndRun([0xA9, 0x00, 0x00], fuel).state.status & ZERO_FLAG == ZERO_FLAG
  {
    var program: seq<u8> := [0xA9, 0x00, 0x00];
    Started(s, program);
    var t0 := s.Load(program).value.Reset();
    assert t0.memory[PROGRAM_ORIGIN] == program[0] && t0.memory[PROGRAM_ORIGIN + 1] == program[1];
    StepLdaImmediate(t0);
    var t1 := t0.Step().state;
    assert t1.memory[t1.programCounter] == program[2];
    StepBrk(t1);
    assert t0.Run(2) == Halt(t1.(programCounter := t1.programCounter + 1));
    RunFuelMonotone(t0, 2, fuel);
  }

  /** `[LDA #$0A, TAX, BRK]` halts with X = 10. */
  lemma TaxMoveAToX(s: State, fuel: nat)
    requires fuel >= 3
    ensures s.LoadAndRun([0xA9, 0x0A, 0xAA, 0x00], fuel).Halt?
    ensures s.LoadAndRun([0xA9, 0x0A, 0xAA, 0x00], fuel).state.registerX == 10
  {
    var program: seq<u8> := [0xA9, 0x0A, 0xAA, 0x00];
    Started(s, program);
    var t0 := s.Load(program).value.Reset();
    assert t0.memory[PROGRAM_ORIGIN] == program[0] && t0.memory[PROGRAM_ORIGIN + 1] == program[1];
    StepLdaImmediate(t0);
    var t1 := t0.Step().state;
    assert t1.memory[t1.programCounter] == program[2];
    StepTax(t1);
    var t2 := t1.Step().state;
    assert t2.memory[t2.programCounter] == program[3];
    StepBrk(t2);
    assert t0.Run(3) == Halt(t2.(programCounter := t2.programCounter + 1));
    RunFuelMonotone(t0, 3, fuel);
  }

  /** `[LDA #$C0, TAX, INX, BRK]` halts with X = 0xC1. */
  lemma FiveOpsWorkingTogether(s: State, fuel: nat)
    requires fuel >= 4
    ensures s.LoadAndRun([0xA9, 0xC0, 0xAA, 0xE8, 0x00], fuel).Halt?
    ensures s.LoadAndRun([0xA9, 0xC0, 0xAA, 0xE8, 0x00], fuel).state.registerX == 0xC1
  {
    var program: seq<u8> := [0xA9, 0xC0, 0xAA, 0xE8, 0x00];
    Started(s, program);
    var t0 := s.Load(program).value.Reset();
    assert t0.memory[PROGRAM_ORIGIN] == program[0] && t0.memory[PROGRAM_ORIGIN + 1] == program[1];
    StepLdaImmediate(t0);
    var t1 := t0.Step().state;
    assert t1.memory[t1.programCounter] == program[2];
    StepTax(t1);
    var t2 := t1.Step().state;
    assert t2.memory[t2.programCounter] == program[3];
    StepInx(t2);
    var t3 := t2.Step().state;
    assert t3.memory[t3.programCounter] == program[4];
    StepBrk(t3);
    assert t0.Run(4) == Halt(t3.(programCounter := t3.programCounter + 1));
    RunFuelMonotone(t0, 4, fuel);
  }

  /** `[LDX #$FF, INX, INX, BRK]` halts with X = 1: the first INX wraps to 0 without failing. */
  lemma InxOverflow(s: State, fuel: nat)
    requires fuel >= 4
    ensures s.LoadAndRun([0xA2, 0xFF, 0xE8, 0xE8, 0x00], fuel).Halt?
    ensures s.LoadAndRun([0xA2, 0xFF, 0xE8, 0xE8, 0x00], fuel).state.registerX == 1
  {
    var program: seq<u8> := [0xA2, 0xFF, 0xE8, 0xE8, 0x00];
    Started(s, program);
    var t0 := s.Load(program).value.Reset();
    assert t0.memory[PROGRAM_ORIGIN] == program[0] && t0.memory[PROGRAM_ORIGIN + 1] == program[1];
    StepLdxImmediate(t0);
    var t1 := t0.Step().state;
    assert t1.memory[t1.programCounter] == program[2];
    StepInx(t1);
    var t2 := t1.Step().state;
    assert t2.registerX == 0;
    assert t2.memory[t2.programCounter] == program[3];
    StepInx(t2);
    var t3 := t2.Step().state;
    assert t3.memory[t3.programCounter] == program[4];
    StepBrk(t3);
    assert t0.Run(4) == Halt(t3.(programCounter := t3.programCounter + 1));
    RunFuelMonotone(t0, 4, fuel);
  }

  // ---------------------------------------------------------------------------
  // The same programs on a fresh CPU object

  method TestLdaImmediateLoadData() returns (a: u8, status: bv8)
    ensures a == 0x05 && status & ZERO_FLAG == 0 && status & NEGATIVE_FLAG == 0
  {
    var cpu := new CPU();
    var r := cpu.LoadAndRun([0xA9, 0x05, 0x00], 2);
    LdaImmediateLoadData(POWER_ON, 2);
    a, status := cpu.registerA, cpu.status;
  }

  method TestLdaZeroFlag() returns (status: bv8)
    ensures status & ZERO_FLAG == ZERO_FLAG
  {
    var cpu := new CPU();
    var r := cpu.LoadAndRun([0xA9, 0x00, 0x00], 2);
    LdaZeroFlag(POWER_ON, 2);
    status := cpu.status;
  }

  method TestTaxMoveAToX() returns (x: u8)
    ensures x == 10
  {
    var cpu := new CPU();
    var r := cpu.LoadAndRun([0xA9, 0x0A, 0xAA, 0x00], 3);
    TaxMoveAToX(POWER_ON, 3);
    x := cpu.registerX;
  }

  method TestFiveOpsWorkingTogether() returns (x: u8)
    ensures x == 0xC1
  {
    var cpu := new CPU();
    var r := cpu.LoadAndRun([0xA9, 0xC0, 0xAA, 0xE8, 0x00], 4);
    FiveOpsWorkingTogether(POWER_ON, 4);
    x := cpu.registerX;
  }

  method TestInxOverflow() returns (x: u8)
    ensures x == 1
  {
    var cpu := new CPU();
    var r := cpu.LoadAndRun([0xA2, 0xFF, 0xE8, 0xE8, 0x00], 4);
    InxOverflow(POWER_ON, 4);
    x := cpu.registerX;
  }
}
