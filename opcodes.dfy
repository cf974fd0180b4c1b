/**
 * The opcode metadata table `OPCODES` and its byte-indexed map `OPCODES_MAP`. The
 * table is constant data: no two rows share a byte, and each row's length agrees with
 * its addressing mode. The `run` loop does not consult it; the lemmas at the end
 * relate the table to what `run` does.
 */
module Opcodes {
  import opened Cpu

  /** One row of the table (the cycle count is left out). */
  datatype OpCode = OpCode(code: u8, name: string, len: nat, mode: AddressingMode)

  const OPCODES: seq<OpCode> := [
    OpCode(0xA9, "LDA", 2, Immediate),
    OpCode(0xA5, "LDA", 2, ZeroPage),
    OpCode(0xB5, "LDA", 2, ZeroPageX),
    OpCode(0xAD, "LDA", 3, Absolute),
    OpCode(0xBD, "LDA", 3, AbsoluteX),
    OpCode(0xB9, "LDA", 3, AbsoluteY),
    OpCode(0xA1, "LDA", 2, IndirectX),
    OpCode(0xB1, "LDA", 2, IndirectY),
    OpCode(0xA2, "LDX", 2, Immediate),
    OpCode(0xA6, "LDX", 2, ZeroPage),
    OpCode(0xB6, "LDX", 2, ZeroPageY),
    OpCode(0xAE, "LDX", 3, Absolute),
    OpCode(0xBE, "LDX", 3, AbsoluteY),
    OpCode(0x85, "STA", 2, ZeroPage),
    OpCode(0x95, "STA", 2, ZeroPageX),
    OpCode(0x8D, "STA", 3, Absolute),
    OpCode(0x9D, "STA", 3, AbsoluteX),
    OpCode(0x99, "STA", 3, AbsoluteY),
    OpCode(0x81, "STA", 2, IndirectX),
    OpCode(0x91, "STA", 2, IndirectY),
    OpCode(0xAA, "TAX", 1, NonAddressing),
    OpCode(0xE8, "INX", 1, NonAddressing),
    OpCode(0x00, "BRK", 1, NonAddressing)
  ]

  /**
   * The map the `for_each` loop leaves after inserting every row in order (a later row
   * wins): its keys are the rows' bytes, and every key maps to a row with that byte.
   */
  function Inserted(rows: seq<OpCode>): (r: map<u8, OpCode>)
    ensures r.Keys == set i | 0 <= i < |rows| :: rows[i].code
    ensures forall b :: b in r ==> r[b].code == b
    decreases |rows|
  {
    if rows == [] then map[]
    else Inserted(rows[..|rows| - 1])[rows[|rows| - 1].code := rows[|rows| - 1]]
  }

  const OPCODES_MAP: map<u8, OpCode> := Inserted(OPCODES)

  /** Row `k` is the last row of `rows` whose byte is `b`. */
  ghost predicate IsLastWith(rows: seq<OpCode>, k: int, b: u8)
  {
    0 <= k < |rows| && rows[k].code == b && forall j :: k < j < |rows| ==> rows[j].code != b
  }

  /**
   * The bytes of the rows are exactly the keys of the map, and each key maps to the last
   * row inserted with that byte.
   */
  lemma {:induction false} InsertedLookup(rows: seq<OpCode>, b: u8)
    ensures b in Inserted(rows) <==> exists k :: 0 <= k < |rows| && rows[k].code == b
    ensures b in Inserted(rows) ==> exists k :: IsLastWith(rows, k, b) && rows[k] == Inserted(rows)[b]
    decreases |rows|
  {
    if rows != [] {
      var n := |rows| - 1;
      var front := rows[..n];
      InsertedLookup(front, b);
      if rows[n].code == b {
        assert IsLastWith(rows, n, b);
      } else if b in Inserted(front) {
        var k :| IsLastWith(front, k, b) && front[k] == Inserted(front)[b];
        assert IsLastWith(rows, k, b);
      } else {
        forall k | 0 <= k < |rows| ensures rows[k].code != b {
          if k < n {
            assert front[k] == rows[k];
          }
        }
      }
    }
  }

  /** The `for_each` that builds the map. */
  method BuildOpcodesMap(rows: seq<OpCode>) returns (m: map<u8, OpCode>)
    ensures m == Inserted(rows)
    ensures forall b :: b in m <==> exists k :: 0 <= k < |rows| && rows[k].code == b
  {
    m := map[];
    for i := 0 to |rows|
      invariant m == Inserted(rows[..i])
    {
      assert rows[..i + 1][..i] == rows[..i];
      m := m[rows[i].code := rows[i]];
    }
    assert rows[..|rows|] == rows;
    forall b: u8 ensures b in m <==> exists k :: 0 <= k < |rows| && rows[k].code == b {
      InsertedLookup(rows, b);
    }
  }

  /** The instruction length each addressing mode implies: the opcode plus its operand bytes. */
  function ModeLength(mode: AddressingMode): nat
  {
    match mode
    case NonAddressing => 1
    case Absolute | AbsoluteX | AbsoluteY => 3
    case Immediate | ZeroPage | ZeroPageX | ZeroPageY | IndirectX | IndirectY => 2
  }

  /** Every row's `len` is the length its mode implies. */
  lemma LengthsMatchModes()
    ensures forall i :: 0 <= i < |OPCODES| ==> OPCODES[i].len == ModeLength(OPCODES[i].mode)
  {
  }

  /** No two rows share a byte. */
  lemma CodesDistinct()
    ensures forall i, j :: 0 <= i < j < |OPCODES| ==> OPCODES[i].code != OPCODES[j].code
  {
  }

  /** `OPCODES_MAP` has exactly the table's bytes as keys, and each maps to its own row. */
  lemma OpcodesMapExact()
    ensures forall b :: b in OPCODES_MAP <==> exists k :: 0 <= k < |OPCODES| && OPCODES[k].code == b
    ensures forall k :: 0 <= k < |OPCODES| ==> OPCODES_MAP[OPCODES[k].code] == OPCODES[k]
  {
    forall b: u8 ensures b in OPCODES_MAP <==> exists k :: 0 <= k < |OPCODES| && OPCODES[k].code == b {
      InsertedLookup(OPCODES, b);
    }
    forall k | 0 <= k < |OPCODES| ensures OPCODES_MAP[OPCODES[k].code] == OPCODES[k] {
      var b := OPCODES[k].code;
      InsertedLookup(OPCODES, b);
      var last :| IsLastWith(OPCODES, last, b) && OPCODES[last] == OPCODES_MAP[b];
      CodesDistinct();
    }
  }

  /**
   * For each opcode `run` dispatches, one pass moves PC by that opcode's table length:
   * LDA # and LDX # by 2, TAX, INX and BRK by 1.
   */
  lemma DispatchMatchesTable(s: State)
    requires s.programCounter < MEMORY_SIZE && IsDispatched(s.memory[s.programCounter])
    requires !s.Step().Fail?
    ensures s.memory[s.programCounter] in OPCODES_MAP
    ensures s.Step().state.programCounter == s.programCounter + OPCODES_MAP[s.memory[s.programCounter]].len
  {
    OpcodesMapExact();
    var b := s.memory[s.programCounter];
    var k := if b == 0xA9 then 0 else if b == 0xA2 then 8 else if b == 0xAA then 20 else if b == 0xE8 then 21 else 22;
    assert OPCODES[k].code == b;
  }

  /**
   * The table lists opcodes that `run` does not dispatch (every LDA and LDX mode other
   * than immediate, and every STA row): fetching one is the fatal unknown-opcode case.
   */
  lemma TableOpcodesRunRejects(s: State)
    requires s.programCounter < MEMORY_SIZE
    requires s.memory[s.programCounter] in OPCODES_MAP && !IsDispatched(s.memory[s.programCounter])
    ensures s.Step() == Fail(UnknownOpcode(s.memory[s.programCounter]))
  {
  }
}
