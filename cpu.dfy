/**
 * The 8-bit accumulator CPU of the emulator (a MOS 6502 subset): its register file,
 * its 0xFFFF-cell memory, the addressing-mode resolver, the handlers LDA, LDX, TAX
 * and INX, and the fetch-dispatch loop.
 *
 * The pure part is stated on values: a `State` record and functions on it. The class
 * `CPU` holds the same state in mutable fields and a memory array, and each of its
 * methods is proved to move the object from `old(Snapshot())` to the state the
 * matching `State` function computes. A Rust panic becomes a `Fault`.
 */
module Cpu {

  /** Rust `u8`: registers and memory cells. */
  type u8 = x: int | 0 <= x < 0x100

  /** Rust `u16`: addresses and the program counter. */
  type u16 = x: int | 0 <= x < 0x1_0000

  /** The memory array has 0xFFFF cells, not 0x10000: address 0xFFFF is out of bounds. */
  const MEMORY_SIZE: nat := 0xFFFF

  /** Where `load` puts the program. */
  const PROGRAM_ORIGIN: u16 := 0x8000

  /** Where `load` stores, and `reset` reads, the little-endian start address. */
  const RESET_VECTOR: u16 := 0xFFFC

  /** Status bit 1. */
  const ZERO_FLAG: bv8 := 0x02

  /** Status bit 7. */
  const NEGATIVE_FLAG: bv8 := 0x80

  type Memory = m: seq<u8> | |m| == MEMORY_SIZE witness seq(MEMORY_SIZE, _ => 0)

  datatype AddressingMode =
    | Immediate
    | ZeroPage
    | ZeroPageX
    | ZeroPageY
    | Absolute
    | AbsoluteX
    | AbsoluteY
    | IndirectX
    | IndirectY
    | NonAddressing

  /** The ways the source panics. */
  datatype Fault =
    | OutOfBounds(index: int)                 // an index (or slice end) past the memory array
    | AddOverflow                             // a `u16 + 1`, overflow-checked in debug builds, overflowed
    | UnsupportedMode(mode: AddressingMode)   // `panic!` in get_operand_address
    | UnknownOpcode(opcode: u8)               // `todo!` in run

  datatype Result<+T> = Ok(value: T) | Err(error: Fault)
  {
    predicate IsFailure() { Err? }

    function PropagateFailure<U>(): Result<U>
      requires Err?
    {
      Err(error)
    }

    function Extract(): T
      requires Ok?
    {
      value
    }
  }

  /** `u8::wrapping_add`. */
  function WrappingAdd8(a: u8, b: u8): (r: u8)
    ensures r == (a + b) % 0x100
  {
    if a + b < 0x100 then a + b else a + b - 0x100
  }

  /** `u16::wrapping_add`. */
  function WrappingAdd16(a: u16, b: u16): (r: u16)
    ensures r == (a + b) % 0x1_0000
  {
    if a + b < 0x1_0000 then a + b else a + b - 0x1_0000
  }

  // ---------------------------------------------------------------------------
  // Memory access

  /** `mem_read`: only address 0xFFFF is out of bounds. */
  function ReadByte(memory: Memory, addr: u16): (r: Result<u8>)
    ensures r.Ok? <==> addr != 0xFFFF
    ensures r.Ok? ==> r.value == memory[addr]
    ensures r.Err? ==> r.error == OutOfBounds(0xFFFF)
  {
    if addr < MEMORY_SIZE then Ok(memory[addr]) else Err(OutOfBounds(addr))
  }

  /** `mem_write`: the cell at `addr` becomes `data` and no other cell changes. */
  function WriteByte(memory: Memory, addr: u16, data: u8): (r: Result<Memory>)
    ensures r.Ok? <==> addr != 0xFFFF
    ensures r.Ok? ==> ReadByte(r.value, addr) == Ok(data)
    ensures r.Ok? ==> forall i :: 0 <= i < MEMORY_SIZE && i != addr ==> r.value[i] == memory[i]
    ensures r.Err? ==> r.error == OutOfBounds(0xFFFF)
  {
    if addr < MEMORY_SIZE then Ok(memory[addr := data]) else Err(OutOfBounds(addr))
  }

  /**
   * `mem_read_u16`: little-endian, low byte at `addr`, high byte at `addr + 1`. The
   * `addr + 1`, overflow-checked in debug builds, panics at 0xFFFF; at 0xFFFE the high
   * byte's index is out of bounds.
   */
  function ReadWord(memory: Memory, addr: u16): (r: Result<u16>)
    ensures r.Ok? <==> addr + 1 < MEMORY_SIZE
    ensures addr == 0xFFFF ==> r == Err(AddOverflow)
    ensures addr == 0xFFFE ==> r == Err(OutOfBounds(0xFFFF))
    ensures r.Ok? ==> r.value == memory[addr] + memory[addr + 1] as int * 0x100
  {
    if addr == 0xFFFF then Err(AddOverflow)
    else
      // the high byte is read first, as in the source
      var high :- ReadByte(memory, addr + 1);
      // this read cannot fail once the one at `addr + 1` succeeded
      var low := ReadByte(memory, addr).value;
      Ok(high * 0x100 + low)
  }

  /**
   * `mem_write_u16`: the low byte goes to `addr`, the high byte to `addr + 1`, and
   * no other cell changes.
   */
  function WriteWord(memory: Memory, addr: u16, data: u16): (r: Result<Memory>)
    ensures r.Ok? <==> addr + 1 < MEMORY_SIZE
    ensures r.Err? ==> r.error == OutOfBounds(0xFFFF)
    ensures r.Ok? ==> r.value[addr] == data % 0x100 && r.value[addr + 1] == data / 0x100
    ensures r.Ok? ==> forall i :: 0 <= i < MEMORY_SIZE && i != addr && i != addr + 1 ==> r.value[i] == memory[i]
  {
    var low :- WriteByte(memory, addr, data % 0x100);
    // `addr + 1` cannot overflow here: the write at `addr` succeeded, so addr < 0xFFFF
    WriteByte(low, addr + 1, data / 0x100)
  }

  /** The 16-bit round trip: a word written where it fits is read back unchanged. */
  lemma WriteWordReadWord(memory: Memory, addr: u16, data: u16)
    requires addr + 1 < MEMORY_SIZE
    ensures WriteWord(memory, addr, data).Ok?
    ensures ReadWord(WriteWord(memory, addr, data).value, addr) == Ok(data)
  {
    var written := WriteWord(memory, addr, data).value;
    var read := ReadWord(written, addr).value;
    assert read % 0x100 == data % 0x100 && read / 0x100 == data / 0x100;
  }

  // ---------------------------------------------------------------------------
  // Addressing modes

  /** The zero-page pointer modes read one operand byte; the resolved address stays in page zero. */
  predicate IsZeroPageMode(mode: AddressingMode)
  {
    mode == ZeroPage || mode == ZeroPageX || mode == ZeroPageY
  }

  /** The absolute modes read a two-byte operand. */
  predicate IsAbsoluteMode(mode: AddressingMode)
  {
    mode == Absolute || mode == AbsoluteX || mode == AbsoluteY
  }

  /** The indirect modes read a zero-page pointer byte. */
  predicate IsIndirectMode(mode: AddressingMode)
  {
    mode == IndirectX || mode == IndirectY
  }

  /**
   * `get_operand_address`: `pc` points at the first operand byte. Indirect_Y offsets
   * the zero-page pointer by Y exactly as Indirect_X does by X; Y is never added to
   * the resolved address.
   */
  function OperandAddress(memory: Memory, pc: u16, x: u8, y: u8, mode: AddressingMode): (r: Result<u16>)
    ensures mode == Immediate ==> r == Ok(pc)
    ensures mode == NonAddressing ==> r == Err(UnsupportedMode(NonAddressing))
    ensures IsZeroPageMode(mode) || IsIndirectMode(mode) ==> (r.Ok? <==> pc != 0xFFFF)
    ensures IsAbsoluteMode(mode) ==> (r.Ok? <==> pc + 1 < MEMORY_SIZE)
    ensures IsAbsoluteMode(mode) && r.Err? ==> Err(r.error) == ReadWord(memory, pc)
    ensures IsZeroPageMode(mode) && r.Ok? ==> r.value < 0x100
    ensures mode == ZeroPage && r.Ok? ==> r.value == memory[pc]
    ensures mode == ZeroPageX && r.Ok? ==> r.value == (memory[pc] + x) % 0x100
    ensures mode == ZeroPageY && r.Ok? ==> r.value == (memory[pc] + y) % 0x100
    ensures mode == Absolute ==> r == ReadWord(memory, pc)
    ensures mode == AbsoluteX && r.Ok? ==> r.value == (ReadWord(memory, pc).value + x) % 0x1_0000
    ensures mode == AbsoluteY && r.Ok? ==> r.value == (ReadWord(memory, pc).value + y) % 0x1_0000
    ensures mode == IndirectX && r.Ok? ==> r == IndirectPointer(memory, (memory[pc] + x) % 0x100)
    ensures mode == IndirectY && r.Ok? ==> r == IndirectPointer(memory, (memory[pc] + y) % 0x100)
  {
    match mode
    case Immediate => Ok(pc)
    case ZeroPage =>
      var base :- ReadByte(memory, pc);
      Ok(base)
    case Absolute => ReadWord(memory, pc)
    case ZeroPageX => ZeroPageIndexed(memory, pc, x)
    case ZeroPageY => ZeroPageIndexed(memory, pc, y)
    case AbsoluteX => AbsoluteIndexed(memory, pc, x)
    case AbsoluteY => AbsoluteIndexed(memory, pc, y)
    case IndirectX => IndirectIndexed(memory, pc, x)
    case IndirectY => IndirectIndexed(memory, pc, y)
    case NonAddressing => Err(UnsupportedMode(mode))
  }

  /** ZeroPage_X and ZeroPage_Y: the operand byte plus the index, wrapped to 8 bits. */
  function ZeroPageIndexed(memory: Memory, pc: u16, index: u8): (r: Result<u16>)
    ensures r.Ok? <==> pc != 0xFFFF
    ensures r.Ok? ==> r.value < 0x100 && r.value == (memory[pc] + index) % 0x100
  {
    var base :- ReadByte(memory, pc);
    Ok(WrappingAdd8(base, index))
  }

  /** Absolute_X and Absolute_Y: the operand word plus the index, wrapped to 16 bits. */
  function AbsoluteIndexed(memory: Memory, pc: u16, index: u8): (r: Result<u16>)
    ensures r.Ok? <==> pc + 1 < MEMORY_SIZE
    ensures r.Err? ==> Err(r.error) == ReadWord(memory, pc)
    ensures r.Ok? ==> r.value == (ReadWord(memory, pc).value + index) % 0x1_0000
  {
    var base :- ReadWord(memory, pc);
    Ok(WrappingAdd16(base, index))
  }

  /**
   * Indirect_X and Indirect_Y in the source: the operand byte plus the index, wrapped to
   * 8 bits, is a zero-page pointer to the resolved address.
   */
  function IndirectIndexed(memory: Memory, pc: u16, index: u8): (r: Result<u16>)
    ensures r.Ok? <==> pc != 0xFFFF
    ensures r.Ok? ==> r == IndirectPointer(memory, (memory[pc] + index) % 0x100)
  {
    var base :- ReadByte(memory, pc);
    IndirectPointer(memory, WrappingAdd8(base, index))
  }

  /**
   * The little-endian address stored at zero-page pointer `ptr`: both bytes are read
   * inside page zero (the high byte at `ptr + 1` wrapped to 8 bits), so neither read fails.
   */
  function IndirectPointer(memory: Memory, ptr: u8): (r: Result<u16>)
    ensures r.Ok?
    ensures r.value == memory[(ptr + 1) % 0x100] as int * 0x100 + memory[ptr]
  {
    var high := ReadByte(memory, WrappingAdd8(ptr, 1)).value;
    var low := ReadByte(memory, ptr).value;
    Ok(high * 0x100 + low)
  }

  // ---------------------------------------------------------------------------
  // Status flags

  /**
   * `update_zero_and_negative_flags`, as written: bit 7 follows bit 7 of the result;
   * bit 1 is set by a zero result and otherwise keeps its old value (a nonzero result
   * does not clear it); every other bit of the status is cleared.
   */
  function FlagsAfter(status: bv8, result: u8): (r: bv8)
    ensures r & NEGATIVE_FLAG == (if result >= 0x80 then NEGATIVE_FLAG else 0)
    ensures r & ZERO_FLAG == (if result == 0 then ZERO_FLAG else status & ZERO_FLAG)
    ensures r & !(ZERO_FLAG | NEGATIVE_FLAG) == 0
  {
    var zeroed := if result == 0 then status | ZERO_FLAG else status & ZERO_FLAG;
    // `result & 0x80!= 0` on a u8 is `result >= 0x80`
    if result >= 0x80 then zeroed | NEGATIVE_FLAG else zeroed & ZERO_FLAG
  }

  // ---------------------------------------------------------------------------
  // The machine state and its transitions, as values

  /** What one pass of the `run` loop ends in. */
  datatype Outcome =
    | Continue(state: State)   // the loop goes on from `state`
    | Halt(state: State)       // BRK returned; `state` is final
    | Fail(fault: Fault)       // the source panicked

  /** The fields of the `CPU` struct. */
  datatype State = State(
    registerA: u8,
    registerX: u8,
    registerY: u8,
    status: bv8,
    programCounter: u16,
    memory: Memory)
  {
    /** `reset`: registers and status become 0 and PC is read from the reset vector. */
    function Reset(): (r: State)
      ensures r.registerA == 0 && r.registerX == 0 && r.registerY == 0 && r.status == 0
      ensures r.memory == memory
      ensures ReadWord(memory, RESET_VECTOR) == Ok(r.programCounter)
      ensures r.programCounter == memory[RESET_VECTOR + 1] as int * 0x100 + memory[RESET_VECTOR]
    {
      State(0, 0, 0, 0, ReadWord(memory, RESET_VECTOR).value, memory)
    }

    /**
     * `load`: copy `program` to PROGRAM_ORIGIN, then write PROGRAM_ORIGIN into the
     * reset vector. A program longer than 0x7FFF bytes makes the slice end out of range.
     */
    function Load(program: seq<u8>): (r: Result<State>)
      ensures r.Ok? <==> PROGRAM_ORIGIN + |program| <= MEMORY_SIZE
      ensures r.Err? ==> r.error == OutOfBounds(PROGRAM_ORIGIN + |program|)
      ensures r.Ok? ==> r.value == this.(memory := r.value.memory)
      ensures r.Ok? ==> r.value.memory[RESET_VECTOR] == 0x00 && r.value.memory[RESET_VECTOR + 1] == 0x80
      ensures r.Ok? ==> forall i :: (0 <= i < |program| && PROGRAM_ORIGIN + i != RESET_VECTOR &&
        PROGRAM_ORIGIN + i != RESET_VECTOR + 1) ==>
        r.value.memory[PROGRAM_ORIGIN + i] == program[i]
      ensures r.Ok? ==> forall i :: 0 <= i < MEMORY_SIZE && !Loaded(|program|, i) ==> r.value.memory[i] == memory[i]
    {
      if PROGRAM_ORIGIN + |program| > MEMORY_SIZE then Err(OutOfBounds(PROGRAM_ORIGIN + |program|))
      else
        var copied: Memory := memory[..PROGRAM_ORIGIN] + program + memory[PROGRAM_ORIGIN + |program|..];
        assert forall i :: 0 <= i < |program| ==> copied[PROGRAM_ORIGIN + i] == program[i];
        // the reset vector lies inside the memory array, so this write cannot fail
        var vectored := WriteWord(copied, RESET_VECTOR, PROGRAM_ORIGIN).value;
        Ok(this.(memory := vectored))
    }

    /** `lda`: A becomes the operand, the flags follow it, nothing else changes. */
    function Lda(mode: AddressingMode): (r: Result<State>)
      ensures r.Ok? <==> (OperandAddress(memory, programCounter, registerX, registerY, mode).Ok?
        && ReadByte(memory, OperandAddress(memory, programCounter, registerX, registerY, mode).value).Ok?)
      ensures r.Ok? ==> r.value == this.(registerA := r.value.registerA, status := FlagsAfter(status, r.value.registerA))
      ensures r.Ok? ==> (Ok(r.value.registerA) ==
        ReadByte(memory, OperandAddress(memory, programCounter, registerX, registerY, mode).value))
      ensures mode == Immediate ==> (r.Ok? <==> programCounter != 0xFFFF)
      ensures mode == Immediate && r.Ok? ==> r.value.registerA == memory[programCounter]
    {
      var addr :- OperandAddress(memory, programCounter, registerX, registerY, mode);
      var value :- ReadByte(memory, addr);
      Ok(this.(registerA := value, status := FlagsAfter(status, value)))
    }

    /** `ldx`: X becomes the operand, the flags follow it, nothing else changes. */
    function Ldx(mode: AddressingMode): (r: Result<State>)
      ensures r.Ok? <==> (OperandAddress(memory, programCounter, registerX, registerY, mode).Ok?
        && ReadByte(memory, OperandAddress(memory, programCounter, registerX, registerY, mode).value).Ok?)
      ensures r.Ok? ==> r.value == this.(registerX := r.value.registerX, status := FlagsAfter(status, r.value.registerX))
      ensures r.Ok? ==> (Ok(r.value.registerX) ==
        ReadByte(memory, OperandAddress(memory, programCounter, registerX, registerY, mode).value))
      ensures mode == Immediate ==> (r.Ok? <==> programCounter != 0xFFFF)
      ensures mode == Immediate && r.Ok? ==> r.value.registerX == memory[programCounter]
    {
      var addr :- OperandAddress(memory, programCounter, registerX, registerY, mode);
      var value :- ReadByte(memory, addr);
      Ok(this.(registerX := value, status := FlagsAfter(status, value)))
    }

    /** `tax`: X becomes A, the flags follow it, nothing else changes. */
    function Tax(): (r: State)
      ensures r.registerX == registerA
      ensures r.status == FlagsAfter(status, registerA)
      ensures r.(registerX := registerX, status := status) == this
    {
      this.(registerX := registerA, status := FlagsAfter(status, registerA))
    }

    /** `inx`: X is incremented with wrap-around (0xFF becomes 0x00), the flags follow it. */
    function Inx(): (r: State)
      ensures r.registerX == if registerX == 0xFF then 0 else registerX + 1
      ensures r.status == FlagsAfter(status, r.registerX)
      ensures r.(registerX := registerX, status := status) == this
    {
      var x := WrappingAdd8(registerX, 1);
      this.(registerX := x, status := FlagsAfter(status, x))
    }

    /**
     * One pass of the `run` loop: fetch the opcode at PC, advance PC, and dispatch on
     * the five hard-coded opcodes; any other byte is fatal.
     */
    function Step(): (r: Outcome)
      ensures r.Fail? <==> (programCounter == 0xFFFF || !IsDispatched(memory[programCounter])
        || (IsImmediateLoad(memory[programCounter]) && programCounter == 0xFFFE))
      ensures programCounter == 0xFFFF ==> r == Fail(OutOfBounds(0xFFFF))
      ensures programCounter != 0xFFFF && !IsDispatched(memory[programCounter]) ==>
        r == Fail(UnknownOpcode(memory[programCounter]))
      ensures r.Halt? ==> memory[programCounter] == 0x00 && r.state == this.(programCounter := programCounter + 1)
      ensures !r.Fail? ==> r.state.memory == memory && r.state.registerY == registerY
      ensures r.Continue? ==>
        r.state.programCounter == programCounter + DispatchLength(memory[programCounter])
    {
      match ReadByte(memory, programCounter)
      case Err(fault) => Fail(fault)
      case Ok(opcode) =>
        // `program_counter += 1` cannot overflow: the fetch at PC succeeded
        this.(programCounter := programCounter + 1).Dispatch(opcode)
    }

    /** The `match` of the `run` loop, entered with PC already past the opcode byte. */
    function Dispatch(opcode: u8): (r: Outcome)
      ensures r.Fail? <==> (!IsDispatched(opcode) || (IsImmediateLoad(opcode) && programCounter == 0xFFFF))
    {
      if opcode == 0xA9 then
        match Lda(Immediate)
        case Err(fault) => Fail(fault)
        case Ok(loaded) => Continue(loaded.(programCounter := loaded.programCounter + 1))
      else if opcode == 0xA2 then
        match Ldx(Immediate)
        case Err(fault) => Fail(fault)
        case Ok(loaded) => Continue(loaded.(programCounter := loaded.programCounter + 1))
      else if opcode == 0xAA then Continue(Tax())
      else if opcode == 0xE8 then Continue(Inx())
      else if opcode == 0x00 then Halt(this)
      else Fail(UnknownOpcode(opcode))
    }

    /**
     * `run`, bounded by `fuel` passes of its loop. `Continue` means the fuel ran out
     * before BRK or a fault; a run that returns has just executed a BRK byte.
     */
    function Run(fuel: nat): (r: Outcome)
      ensures fuel == 0 ==> r == Continue(this)
      ensures r.Halt? ==> 0 < r.state.programCounter && r.state.memory[r.state.programCounter - 1] == 0x00
      decreases fuel
    {
      if fuel == 0 then Continue(this)
      else
        match Step()
        case Continue(next) => next.Run(fuel - 1)
        case Halt(final) => Halt(final)
        case Fail(fault) => Fail(fault)
    }

    /** `load_and_run`: `load`, then `reset`, then `run`. */
    function LoadAndRun(program: seq<u8>, fuel: nat): (r: Outcome)
      ensures PROGRAM_ORIGIN + |program| > MEMORY_SIZE ==> r == Fail(OutOfBounds(PROGRAM_ORIGIN + |program|))
    {
      match Load(program)
      case Err(fault) => Fail(fault)
      case Ok(loaded) => loaded.Reset().Run(fuel)
    }
  }

  /** Whether `load` of a program of `length` bytes writes cell `i`: the copy, or the reset vector. */
  predicate Loaded(length: nat, i: int)
  {
    (PROGRAM_ORIGIN <= i < PROGRAM_ORIGIN + length) || i == RESET_VECTOR || i == RESET_VECTOR + 1
  }

  /** The opcodes `run` handles itself: LDA #, LDX #, TAX, INX and BRK. */
  predicate IsDispatched(opcode: u8)
  {
    opcode == 0xA9 || opcode == 0xA2 || opcode == 0xAA || opcode == 0xE8 || opcode == 0x00
  }

  /** LDA # and LDX # read one operand byte. */
  predicate IsImmediateLoad(opcode: u8)
  {
    opcode == 0xA9 || opcode == 0xA2
  }

  /** How far one pass of `run` moves PC for a dispatched opcode. */
  function DispatchLength(opcode: u8): nat
  {
    if IsImmediateLoad(opcode) then 2 else 1
  }

  /** `CPU::new()`: every register, the status and every memory cell are zero. */
  const POWER_ON: State := State(0, 0, 0, 0, 0, seq(MEMORY_SIZE, _ => 0))

  /** How a call of `CPU.Run` ended, as an `Outcome` of the state the object is left in. */
  function Observed(r: Result<bool>, s: State): Outcome
  {
    match r
    case Ok(halted) => if halted then Halt(s) else Continue(s)
    case Err(fault) => Fail(fault)
  }

  // ---------------------------------------------------------------------------
  // The CPU object

  class CPU {
    var registerA: u8
    var registerX: u8
    var registerY: u8
    var status: bv8
    var programCounter: u16
    const memory: array<u8>

    ghost predicate Valid()
      reads this
    {
      memory.Length == MEMORY_SIZE
    }

    /** The object's fields as a `State` value. */
    ghost function Snapshot(): State
      reads this, memory
      requires Valid()
    {
      State(registerA, registerX, registerY, status, programCounter, memory[..])
    }

    /** `CPU::new`. */
    constructor ()
      ensures Valid() && fresh(memory)
      ensures Snapshot() == POWER_ON
    {
      registerA, registerX, registerY, status, programCounter := 0, 0, 0, 0, 0;
      memory := new u8[MEMORY_SIZE](_ => 0);
      new;
      assert memory[..] == seq(MEMORY_SIZE, _ => 0);
    }

    /** `mem_write`. */
    method MemWrite(addr: u16, data: u8) returns (r: Result<()>)
      requires Valid()
      modifies memory
      ensures WriteByte(old(memory[..]), addr, data) == if r.Ok? then Ok(memory[..]) else Err(r.error)
      ensures r.Err? ==> unchanged(memory)
    {
      if addr >= memory.Length {
        return Err(OutOfBounds(addr));
      }
      memory[addr] := data;
      return Ok(());
    }

    /** `mem_write_u16`: the low byte first, then the high byte. */
    method MemWriteU16(addr: u16, data: u16) returns (r: Result<()>)
      requires Valid()
      modifies memory
      ensures WriteWord(old(memory[..]), addr, data) == if r.Ok? then Ok(memory[..]) else Err(r.error)
    {
      var low :- MemWrite(addr, data % 0x100);
      // `addr + 1` cannot overflow: the write at `addr` succeeded
      r := MemWrite(addr + 1, data / 0x100);
    }

    /** `reset`. */
    method Reset()
      requires Valid()
      modifies this
      ensures Snapshot() == old(Snapshot()).Reset()
    {
      registerA := 0;
      registerX := 0;
      registerY := 0;
      status := 0;
      programCounter := ReadWord(memory[..], RESET_VECTOR).value;
    }

    /** `load`: a slice copy into the memory array, then the reset vector. */
    method Load(program: seq<u8>) returns (r: Result<()>)
      requires Valid()
      modifies memory
      ensures old(Snapshot()).Load(program) == if r.Ok? then Ok(Snapshot()) else Err(r.error)
      ensures r.Err? ==> unchanged(memory)
    {
      if PROGRAM_ORIGIN + |program| > memory.Length {
        return Err(OutOfBounds(PROGRAM_ORIGIN + |program|));
      }
      forall i | 0 <= i < |program| {
        memory[PROGRAM_ORIGIN + i] := program[i];
      }
      assert memory[..] == old(memory[..PROGRAM_ORIGIN]) + program + old(memory[PROGRAM_ORIGIN + |program|..]);
      r := MemWriteU16(RESET_VECTOR, PROGRAM_ORIGIN);
    }

    /** `update_zero_and_negative_flags`: two masks applied in turn to `status`. */
    method UpdateZeroAndNegativeFlags(result: u8)
      modifies this`status
      ensures status == FlagsAfter(old(status), result)
    {
      if result == 0 {
        status := status | ZERO_FLAG;
      } else {
        status := status & ZERO_FLAG;
      }
      if result >= 0x80 {
        status := status | NEGATIVE_FLAG;
      } else {
        status := status & ZERO_FLAG;
      }
    }

    /** `lda`. */
    method Lda(mode: AddressingMode) returns (r: Result<()>)
      requires Valid()
      modifies this
      ensures old(Snapshot()).Lda(mode) == if r.Ok? then Ok(Snapshot()) else Err(r.error)
      ensures r.Err? ==> unchanged(this)
    {
      var addr :- OperandAddress(memory[..], programCounter, registerX, registerY, mode);
      var value :- ReadByte(memory[..], addr);
      registerA := value;
      UpdateZeroAndNegativeFlags(registerA);
      return Ok(());
    }

    /** `ldx`. */
    method Ldx(mode: AddressingMode) returns (r: Result<()>)
      requires Valid()
      modifies this
      ensures old(Snapshot()).Ldx(mode) == if r.Ok? then Ok(Snapshot()) else Err(r.error)
      ensures r.Err? ==> unchanged(this)
    {
      var addr :- OperandAddress(memory[..], programCounter, registerX, registerY, mode);
      var value :- ReadByte(memory[..], addr);
      registerX := value;
      UpdateZeroAndNegativeFlags(registerX);
      return Ok(());
    }

    /** `tax`. */
    method Tax()
      requires Valid()
      modifies this
      ensures Snapshot() == old(Snapshot()).Tax()
    {
      registerX := registerA;
      UpdateZeroAndNegativeFlags(registerX);
    }

    /** `inx`: `overflowing_add(1)`, keeping the wrapped value. */
    method Inx()
      requires Valid()
      modifies this
      ensures Snapshot() == old(Snapshot()).Inx()
    {
      registerX := WrappingAdd8(registerX, 1);
      UpdateZeroAndNegativeFlags(registerX);
    }

    /** The `match` of the `run` loop, entered with PC already past the opcode byte. */
    method Dispatch(opcode: u8) returns (r: Result<bool>)
      requires Valid()
      modifies this
      ensures old(Snapshot()).Dispatch(opcode) == Observed(r, Snapshot())
    {
      if opcode == 0xA9 {
        var loaded :- Lda(Immediate);
        programCounter := programCounter + 1;
      } else if opcode == 0xA2 {
        var loaded :- Ldx(Immediate);
        programCounter := programCounter + 1;
      } else if opcode == 0xAA {
        Tax();
      } else if opcode == 0xE8 {
        Inx();
      } else if opcode == 0x00 {
        return Ok(true);
      } else {
        return Err(UnknownOpcode(opcode));
      }
      return Ok(false);
    }

    /**
     * `run`, for at most `fuel` passes of its loop. The result is `Ok(true)` when BRK
     * returned, `Ok(false)` when the fuel ran out, and `Err` when the source panics.
     */
    method Run(fuel: nat) returns (r: Result<bool>)
      requires Valid()
      modifies this
      ensures old(Snapshot()).Run(fuel) == Observed(r, Snapshot())
    {
      var remaining := fuel;
      while remaining > 0
        invariant old(Snapshot()).Run(fuel) == Snapshot().Run(remaining)
        decreases remaining
      {
        ghost var before := Snapshot();
        var opcode :- ReadByte(memory[..], programCounter);
        programCounter := programCounter + 1;
        assert before.Step() == Snapshot().Dispatch(opcode);
        var halted :- Dispatch(opcode);
        if halted {
          return Ok(true);
        }
        remaining := remaining - 1;
      }
      return Ok(false);
    }

    /** `load_and_run`, with `run` bounded by `fuel`. */
    method LoadAndRun(program: seq<u8>, fuel: nat) returns (r: Result<bool>)
      requires Valid()
      modifies this, memory
      ensures old(Snapshot()).LoadAndRun(program, fuel) == Observed(r, Snapshot())
    {
      var loaded :- Load(program);
      Reset();
      r := Run(fuel);
    }
  }
}
