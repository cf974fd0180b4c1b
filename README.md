# A verified model of the emulator's 6502-subset CPU

This project models the CPU core of a small NES emulator written in Rust. The core is an 8-bit accumulator machine, a subset of the MOS 6502, with these parts:

- the registers A, X and Y, an 8-bit status byte and a 16-bit program counter;
- a memory array of exactly 0xFFFF cells, so address 0xFFFF is out of bounds;
- little-endian 16-bit memory access;
- a resolver for ten addressing modes;
- `load` (program at 0x8000, reset vector at 0xFFFC) and `reset`;
- the handlers LDA, LDX, TAX and INX and the Zero/Negative flag update;
- the fetch-dispatch loop `run`, which hard-codes five opcodes: `0xA9` LDA #, `0xA2` LDX #, `0xAA` TAX, `0xE8` INX and `0x00` BRK. Any other byte is fatal.

The emulator also keeps a table of opcode descriptions (`OPCODES`) and a map from byte to row (`OPCODES_MAP`). These are modelled too, but `run` does not consult them.

Files:

- `cpu.dfy` (module `Cpu`) holds the model of `src/cpu.rs`.
  - The pure reads (`mem_read`, `mem_read_u16`, `get_operand_address`) are functions over a `Memory` value.
  - Every state change is a function on the value `State`, which has the fields of the `CPU` struct.
  - The class `CPU` has the same fields and a memory `array`. Each of its methods is the imperative code of the matching Rust function, proved to take the object from `old(Snapshot())` to the state, memory or status that the matching function computes (a `State` function, `WriteByte`, `WriteWord` or `FlagsAfter`), whenever no panic occurs.
- `cpu_properties.dfy` (module `CpuProperties`) holds lemmas about the `State` model: the effect of one loop pass per opcode, how the fuel bound composes, and what a run never changes.
- `opcodes.dfy` (module `Opcodes`) holds the table of `src/main.rs`, the map built from it, and their well-formedness.
- `programs.dfy` (module `Programs`) holds the five end-to-end test programs of `src/main.rs`.
  - Each is a lemma from any starting state and any sufficient fuel.
  - Each is also a client method on a fresh `CPU` object, as in the test.

Representation:

- Registers, memory cells and addresses are bounded integers (`u8`, `u16`). Every wrap-around is written out, such as `wrapping_add` and INX's `overflowing_add`.
- The status is a `bv8`, because the source only changes it with `|=` and `&=` masks.
- Each Rust panic is a `Fault` value:
  - an index past the array: `OutOfBounds`;
  - the `addr + 1` in `mem_read_u16`, overflow-checked in debug builds as the tests run: `AddOverflow`;
  - the `panic!` for NonAddressing: `UnsupportedMode`;
  - the `todo!` for other opcodes: `UnknownOpcode`.
- The `program_counter += 1` steps of `run` cannot overflow: the read at that PC has already failed whenever PC is 0xFFFF. The model shows this by proving that `+ 1` stays within `u16`.

Where the code departs from the MOS 6502, the model follows the code:

- The memory has 0xFFFF cells, not the 6502's 0x10000.
- There is no stack pointer, no stack and no ADC, AND, ASL, BIT, compare, branch, JSR, RTS, RTI or flag-clear handler.
- Dispatch is hard-coded; it does not look up the table.
- Indirect_Y offsets the zero-page pointer by Y, exactly like Indirect_X, instead of adding Y to the address read through the pointer.
- The flag update does not clear Zero on a nonzero result, and it clears every status bit other than 1 and 7. This is modelled as written.

## Model

| member | source | states |
|---|---|---|
| `Cpu.ReadByte` | src/cpu.rs:61-63 | reading succeeds exactly when the address is not 0xFFFF, and then yields that cell |
| `Cpu.WriteByte` | src/cpu.rs:65-67 | writing fails exactly at 0xFFFF; otherwise the cell reads back as the data and no other cell changes |
| `Cpu.ReadWord` | src/cpu.rs:69-74 | the word is `memory[addr] + 256 * memory[addr+1]` (low byte first); at 0xFFFF the `addr + 1`, overflow-checked in debug builds, panics, at 0xFFFE the high byte's index is out of bounds |
| `Cpu.WriteWord` | src/cpu.rs:76-80 | the low byte goes to `addr` and the high byte to `addr + 1`; no other cell changes; addresses 0xFFFE and 0xFFFF fail |
| `Cpu.WriteWordReadWord` | src/cpu.rs:69-80 | writing a word where it fits, then reading it back, returns the word |
| `Cpu.OperandAddress` | src/cpu.rs:23-59 | Immediate resolves to PC. The zero-page modes are `mem[pc]` (+X or +Y) mod 256 and stay below 0x100. Absolute is the word at PC; Absolute_X/Y add the index mod 65536. The indirect modes read a zero-page pointer (`mem[pc]` + X or + Y, mod 256) and its high byte at pointer+1 mod 256. NonAddressing fails. It also states when each mode's operand reads fail |
| `Cpu.ZeroPageIndexed` | src/cpu.rs:28-29 | ZeroPage_X/Y fail exactly when PC is 0xFFFF; otherwise the address is `(mem[pc] + index) mod 256`, below 0x100 |
| `Cpu.AbsoluteIndexed` | src/cpu.rs:30-31 | Absolute_X/Y fail exactly when the operand word does not fit, with the word read's fault; otherwise the address is the word plus the index mod 65536 |
| `Cpu.IndirectIndexed` | src/cpu.rs:32-53 | Indirect_X/Y fail exactly when PC is 0xFFFF; otherwise the address is the one stored at pointer `(mem[pc] + index) mod 256` |
| `Cpu.IndirectPointer` | src/cpu.rs:32-53 | the address at a zero-page pointer is `mem[(ptr+1) mod 256] * 256 + mem[ptr]`, and its reads never fail |
| `Cpu.FlagsAfter` | src/cpu.rs:168-180 | bit 7 becomes bit 7 of the result; bit 1 is set by a zero result and otherwise keeps its old value; every other status bit is cleared |
| `Cpu.State.Reset` | src/cpu.rs:82-89 | A, X, Y and status become 0, memory is unchanged, and PC is the little-endian word at 0xFFFC |
| `Cpu.State.Load` | src/cpu.rs:91-94 | fails, with the slice end as its index, exactly when `0x8000 + len > 0xFFFF`. Otherwise: registers are unchanged; cell 0xFFFC is 0x00 and cell 0xFFFD is 0x80; every program byte outside cells 0xFFFC and 0xFFFD sits at 0x8000+i; no other cell changes |
| `Cpu.State.Lda` | src/cpu.rs:140-146 | succeeds exactly when the address resolves and its read succeeds. Then A is the byte there, the status is the flag update of it, and nothing else changes. In Immediate mode A is `mem[pc]` |
| `Cpu.State.Ldx` | src/cpu.rs:148-154 | the same as LDA, with X as the target |
| `Cpu.State.Tax` | src/cpu.rs:158-161 | X becomes A; the status is the flag update of A, so Zero and Negative follow A and every other status bit is cleared; nothing else changes |
| `Cpu.State.Inx` | src/cpu.rs:163-166 | X becomes X+1, and 0xFF becomes 0x00; the status is the flag update of the new X; nothing else changes |
| `Cpu.State.Step` | src/cpu.rs:102-130 | a loop pass fails exactly when PC is 0xFFFF, the opcode is not one of the five, or an immediate load's operand would be cell 0xFFFF; an undispatched opcode gives UnknownOpcode; BRK halts with only PC changed, to one past it; a non-failing pass changes neither memory nor Y; a continuing pass moves PC by 2 for LDA/LDX # and by 1 for TAX/INX |
| `Cpu.State.Dispatch` | src/cpu.rs:107-128 | the match fails exactly on an opcode other than the five, or on an immediate load whose operand is out of bounds |
| `Cpu.State.Run` | src/cpu.rs:102-130 | the loop bounded by `fuel` passes; with no fuel it is still running from the state it started in; a run that returns has just executed a BRK byte, which sits in memory right before the final PC |
| `Cpu.State.LoadAndRun` | src/cpu.rs:96-100 | a program too long to load fails before anything runs |
| `Cpu.CPU.constructor` | src/cpu.rs:12-21 | a new CPU has zero registers, zero status, zero PC and 0xFFFF zeroed cells |
| `Cpu.CPU.MemWrite` | src/cpu.rs:65-67 | the array afterwards is `WriteByte` of the old contents; it is untouched on failure |
| `Cpu.CPU.MemWriteU16` | src/cpu.rs:76-80 | two byte writes, low byte first, whose result is `WriteWord` of the old contents |
| `Cpu.CPU.Reset` | src/cpu.rs:82-89 | the object afterwards is `State.Reset` of the object before |
| `Cpu.CPU.Load` | src/cpu.rs:91-94 | an in-place slice copy plus the reset vector, whose result is `State.Load` of the object before; a program too long to load leaves the memory untouched |
| `Cpu.CPU.UpdateZeroAndNegativeFlags` | src/cpu.rs:168-180 | the two masking steps leave the status equal to `FlagsAfter` of the old status |
| `Cpu.CPU.Lda` | src/cpu.rs:140-146 | the object afterwards is `State.Lda` of the object before; a failed call changes nothing |
| `Cpu.CPU.Ldx` | src/cpu.rs:148-154 | the object afterwards is `State.Ldx` of the object before; a failed call changes nothing |
| `Cpu.CPU.Tax` | src/cpu.rs:158-161 | the object afterwards is `State.Tax` of the object before |
| `Cpu.CPU.Inx` | src/cpu.rs:163-166 | the object afterwards is `State.Inx` of the object before |
| `Cpu.CPU.Dispatch` | src/cpu.rs:107-128 | the match on the fetched opcode ends in the outcome `State.Dispatch` gives for the object before; after a continuing or halting opcode, the object holds that state |
| `Cpu.CPU.Run` | src/cpu.rs:102-130 | the loop, bounded by fuel, ends in the outcome `State.Run` gives for the object before: halted, out of fuel or panicked. On halting or running out of fuel, the object holds that state |
| `Cpu.CPU.LoadAndRun` | src/cpu.rs:96-100 | load, reset and the bounded run end in the outcome `State.LoadAndRun` gives |
| `CpuProperties.IndirectYIsPreIndexed` | src/cpu.rs:32-53 | Indirect_Y with Y is Indirect_X with X replaced by Y, whatever X is |
| `CpuProperties.IndirectYExample` | src/cpu.rs:43-53 | a concrete memory where Indirect_Y with Y = 1 resolves to 0x0300, where the 6502 post-indexed rule would give 0x0001 |
| `CpuProperties.StepLdaImmediate` | src/cpu.rs:104-115 | opcode 0xA9 loads the next byte into A, updates the flags and moves PC by 2 |
| `CpuProperties.StepLdxImmediate` | src/cpu.rs:116-123 | opcode 0xA2 loads the next byte into X, updates the flags and moves PC by 2 |
| `CpuProperties.StepImmediateAtEnd` | src/cpu.rs:108-123 | an immediate load at 0xFFFE panics on reading its operand at 0xFFFF |
| `CpuProperties.StepTax` | src/cpu.rs:124 | opcode 0xAA copies A to X, updates the flags and moves PC by 1 |
| `CpuProperties.StepInx` | src/cpu.rs:125 | opcode 0xE8 makes X = (X+1) mod 256, updates the flags and moves PC by 1 |
| `CpuProperties.StepBrk` | src/cpu.rs:126 | opcode 0x00 halts with PC one past the BRK byte and nothing else changed |
| `CpuProperties.RunSplit` | src/cpu.rs:102-130 | running f1+f2 passes is running f1 passes, then f2 more if still running |
| `CpuProperties.RunFuelMonotone` | src/cpu.rs:102-130 | once a run halts or fails, any larger fuel gives the same outcome |
| `CpuProperties.StepStatusShape` | src/cpu.rs:107-125 | after a pass that goes on (LDA #, LDX #, TAX or INX), the status has no bits other than 1 and 7, whatever it held before |
| `CpuProperties.RunInvariants` | src/cpu.rs:102-130 | a run that does not fail leaves memory and Y as they were; a status holding only bits 1 and 7 keeps that shape |
| `CpuProperties.LoadThenReset` | src/cpu.rs:82-94 | after a successful `load`, `reset` sets PC to 0x8000 |
| `CpuProperties.LoadAndRunStatus` | src/cpu.rs:96-100 | after `load_and_run` halts, the status has no bits other than 1 and 7 |
| `Opcodes.OPCODES` | src/main.rs:22-201 | the 23 rows of the table in source order (LDA, LDX and STA in their modes, then TAX, INX and BRK); their well-formedness is stated by `Opcodes.LengthsMatchModes` and `Opcodes.CodesDistinct` |
| `Opcodes.Inserted` | src/main.rs:202-208 | inserting the rows in order yields a map whose keys are exactly the rows' bytes, with every key mapped to a row carrying that byte |
| `Opcodes.OPCODES_MAP` | src/main.rs:202-208 | the map built from `OPCODES` by that insertion; `Opcodes.OpcodesMapExact` states its keys and values |
| `Opcodes.InsertedLookup` | src/main.rs:202-208 | after inserting the rows in order, the keys are exactly the rows' bytes, and each key maps to the last row inserted with that byte |
| `Opcodes.BuildOpcodesMap` | src/main.rs:202-208 | the insertion loop builds exactly that map, whose keys are the rows' bytes |
| `Opcodes.LengthsMatchModes` | src/main.rs:22-201 | every row's length is 1 for NonAddressing, 3 for the absolute modes and 2 for the others |
| `Opcodes.CodesDistinct` | src/main.rs:22-201 | no two rows of the table share a byte |
| `Opcodes.OpcodesMapExact` | src/main.rs:202-208 | the map's keys are exactly the table's bytes, and each byte maps to its own row |
| `Opcodes.DispatchMatchesTable` | src/cpu.rs:107-128 | for each of the five dispatched opcodes, a pass moves PC by that opcode's table length |
| `Opcodes.TableOpcodesRunRejects` | src/cpu.rs:127 | a table opcode that `run` does not dispatch (for example any STA) is the fatal unknown-opcode case |
| `Programs.Started` | src/cpu.rs:82-94 | for every program that ends below the reset vector, `load` then `reset` leaves PC at 0x8000, A, X, Y and the status at zero, and the program bytes at 0x8000 |
| `Programs.LdaImmediateLoadData` | src/main.rs:224-230 | `[A9 05 00]` halts with A = 5 and Zero and Negative clear, from any state |
| `Programs.LdaZeroFlag` | src/main.rs:233-237 | `[A9 00 00]` halts with Zero set |
| `Programs.TaxMoveAToX` | src/main.rs:240-245 | `[A9 0A AA 00]` halts with X = 10 |
| `Programs.FiveOpsWorkingTogether` | src/main.rs:248-253 | `[A9 C0 AA E8 00]` halts with X = 0xC1 |
| `Programs.InxOverflow` | src/main.rs:256-261 | `[A2 FF E8 E8 00]` halts with X = 1, wrapping through 0 without a fault |
| `Programs.TestLdaImmediateLoadData` | src/main.rs:224-230 | a new CPU given `[A9 05 00]` ends with A = 5 and Zero and Negative clear |
| `Programs.TestLdaZeroFlag` | src/main.rs:233-237 | a new CPU given `[A9 00 00]` ends with Zero set |
| `Programs.TestTaxMoveAToX` | src/main.rs:240-245 | a new CPU given `[A9 0A AA 00]` ends with X = 10 |
| `Programs.TestFiveOpsWorkingTogether` | src/main.rs:248-253 | a new CPU given `[A9 C0 AA E8 00]` ends with X = 0xC1 |
| `Programs.TestInxOverflow` | src/main.rs:256-261 | a new CPU given `[A2 FF E8 E8 00]` ends with X = 1 |

## Left out

- `main()` (src/main.rs:211-217) only prints to the console, so it is I/O.
- `lazy_static!` and `HashMap`: `OPCODES` is a constant sequence and `OPCODES_MAP` a Dafny `map`, with no model of lazy initialisation or hashing.
- The `cycles` field of `OpCode` (src/opcode.rs:8) has no behavioural effect. The `byte` field is named `code`.
- Commented-out code in both files is not modelled.
- `run` loops without bound and stops only at BRK or a panic. The model bounds it by `fuel` passes. Running out of fuel is reported as `Continue`, which leaves the behaviour of non-terminating programs beyond the bound unmodelled.
- Panics are `Fault` values. The process abort itself, and the partly updated object a panic leaves behind, are not modelled.
- Cpu.State.Step: a failing pass reports only the fault, not the state at the moment of the panic.
- Cpu.CPU.Dispatch: after a panic its contract gives the fault but not the object's fields.
- Cpu.CPU.Run: after a panic its contract gives the fault but not the object's fields.
- Cpu.CPU.MemWriteU16: when the second byte write panics (address 0xFFFE), its contract gives the fault but not the partly written array.
- Cpu.CPU.LoadAndRun: after a panic its contract gives the fault but not the object's fields.
- Wrapping release-build arithmetic is not modelled. The model follows debug-build semantics, in which `u16 + 1` overflow panics, as the tests run.
- The `usize` sum `0x8000 + program.len()` in `load` is not checked for overflow, because no real program is that long.
