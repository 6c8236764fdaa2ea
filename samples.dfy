/**
  Decoding particular byte strings: one instruction of each form, a trailing
  immediate, both byte orders, reserved opcodes and truncated inputs.

  Each decoding lemma holds for any valid tables that have the entry it uses;
  the *Entry lemmas show that the tables as written (BonjourTables.Tables) have
  it, and BonjourTables.TablesValid that they are valid. Reserved opcodes fail on
  every valid set of tables, since validity fixes where the BAD entries are.
*/
module BonjourSamples {
  import opened Wrappers
  import opened BonjourFormat
  import opened BonjourTags
  import opened BonjourTables
  import opened BonjourBytes
  import opened BonjourDecoder

  /** The fields of 0x0523. */
  lemma UnpackAdd()
    ensures Unpack(0x0523) == Fields(Form1, 0x05, 2, 3, 0)
  {
  }

  /** The fields of 0x0120. */
  lemma UnpackLoadImmediate()
    ensures Unpack(0x0120) == Fields(Form1, 0x01, 2, 0, 0)
  {
  }

  /** The fields of 0x82FF. */
  lemma UnpackIncrement()
    ensures Unpack(0x82FF) == Fields(Form2, 0, 2, 0, 0xFF)
  {
  }

  /** The fields of 0xC3FF. */
  lemma UnpackBranch()
    ensures Unpack(0xC3FF) == Fields(Form3, 0, 0, 0, 0x3FF)
  {
  }

  /** The fields of 0x0000. */
  lemma UnpackZero()
    ensures Unpack(0) == Fields(Form1, 0, 0, 0, 0)
  {
  }

  /** The fields of 0xFFFF. */
  lemma UnpackAllOnes()
    ensures Unpack(0xFFFF) == Fields(Form3, 0xF, 0, 0, 0x3FF)
  {
  }

  /** Form 1, opcode 0x05 is "add", which names registers A and B. */
  lemma AddEntry()
    ensures 0x05 < |Tables.Of(Form1)| && Tables.Of(Form1)[0x05] == OpcInfo(0x05, F1AB, "add")
  {
  }

  /** 0x0523 is form 1, opcode 0x05 ("add"), A = 2, B = 3. */
  lemma DecodeAdd(tables: OpcodeTables, bytes: seq<Byte>)
    requires tables.Valid()
    requires 0x05 < |tables.Of(Form1)| && tables.Of(Form1)[0x05] == OpcInfo(0x05, F1AB, "add")
    requires bytes == [0x05, 0x23]
    ensures Decode(tables, bytes, 0, BigEndian) == Success(Instruction(Fields(Form1, 0x05, 2, 3, 0), F1AB, "add", 0))
  {
    assert WordAt(bytes, 0, BigEndian) == 0x0523;
    UnpackAdd();
    DecodeWith(tables, bytes, 0, BigEndian, Fields(Form1, 0x05, 2, 3, 0), OpcInfo(0x05, F1AB, "add"));
  }

  /** The same instruction, stored low byte first. */
  lemma DecodeAddLittleEndian(tables: OpcodeTables, bytes: seq<Byte>)
    requires tables.Valid()
    requires 0x05 < |tables.Of(Form1)| && tables.Of(Form1)[0x05] == OpcInfo(0x05, F1AB, "add")
    requires bytes == [0x23, 0x05]
    ensures Decode(tables, bytes, 0, LittleEndian) == Success(Instruction(Fields(Form1, 0x05, 2, 3, 0), F1AB, "add", 0))
  {
    assert WordAt(bytes, 0, LittleEndian) == 0x0523;
    UnpackAdd();
    DecodeWith(tables, bytes, 0, LittleEndian, Fields(Form1, 0x05, 2, 3, 0), OpcInfo(0x05, F1AB, "add"));
  }

  lemma AddOperands()
    ensures Operands(Instruction(Fields(Form1, 0x05, 2, 3, 0), F1AB, "add", 0)) == [Reg(2), Reg(3)]
  {
  }

  /** Form 1, opcode 0x01 is "ldi.l", which takes a 4-byte immediate. */
  lemma LoadImmediateEntry()
    ensures 0x01 < |Tables.Of(Form1)| && Tables.Of(Form1)[0x01] == OpcInfo(0x01, F1A4, "ldi.l")
  {
  }

  /** 0x0120 is "ldi.l" with A = 2, followed by its 4-byte immediate. */
  lemma DecodeLoadImmediate(tables: OpcodeTables, bytes: seq<Byte>)
    requires tables.Valid()
    requires 0x01 < |tables.Of(Form1)| && tables.Of(Form1)[0x01] == OpcInfo(0x01, F1A4, "ldi.l")
    requires bytes == [0x01, 0x20, 0x12, 0x34, 0x56, 0x78]
    ensures Decode(tables, bytes, 0, BigEndian)
         == Success(Instruction(Fields(Form1, 0x01, 2, 0, 0), F1A4, "ldi.l", 0x1234_5678))
  {
    assert WordAt(bytes, 0, BigEndian) == 0x0120;
    UnpackLoadImmediate();
    ImmediateValue(bytes);
    DecodeWith(tables, bytes, 0, BigEndian, Fields(Form1, 0x01, 2, 0, 0), OpcInfo(0x01, F1A4, "ldi.l"));
  }

  lemma ImmediateValue(bytes: seq<Byte>)
    requires bytes == [0x01, 0x20, 0x12, 0x34, 0x56, 0x78]
    ensures ValueOf(bytes[2..2 + 4], BigEndian) == 0x1234_5678
  {
    var tail := bytes[2..2 + 4];
    assert tail == [0x12, 0x34, 0x56, 0x78];
    assert tail[..1][..0] == [];
    assert BigEndianValue(tail[..1]) == 0x12;
    assert tail[..2][..1] == tail[..1];
    assert BigEndianValue(tail[..2]) == 0x1234;
    assert tail[..3][..2] == tail[..2];
    assert BigEndianValue(tail[..3]) == 0x12_3456;
    assert tail[..4][..3] == tail[..3];
  }

  lemma LoadImmediateOperands()
    ensures Pow2(32) == 0x1_0000_0000
    ensures Operands(Instruction(Fields(Form1, 0x01, 2, 0, 0), F1A4, "ldi.l", 0x1234_5678))
         == [Reg(2), Literal(Imm32, 0x1234_5678)]
  {
    ValueFieldCounts();
    Pow2Plus8(16);
    Pow2Plus8(24);
  }

  /** "ldi.l" needs six bytes; three are too few. */
  lemma DecodeLoadImmediateTruncated(tables: OpcodeTables, bytes: seq<Byte>)
    requires tables.Valid()
    requires 0x01 < |tables.Of(Form1)| && tables.Of(Form1)[0x01] == OpcInfo(0x01, F1A4, "ldi.l")
    requires bytes == [0x01, 0x20, 0x12]
    ensures Decode(tables, bytes, 0, BigEndian) == Failure(TruncatedInput)
  {
    assert WordAt(bytes, 0, BigEndian) == 0x0120;
    UnpackLoadImmediate();
    DecodeWith(tables, bytes, 0, BigEndian, Fields(Form1, 0x01, 2, 0, 0), OpcInfo(0x01, F1A4, "ldi.l"));
  }

  /** Form 2, opcode 0 is "inc". */
  lemma IncrementEntry()
    ensures 0 < |Tables.Of(Form2)| && Tables.Of(Form2)[0] == OpcInfo(0, F2A8V, "inc")
  {
  }

  /** 0x82FF is form 2, opcode 0 ("inc"), A = 2, value 0xFF. */
  lemma DecodeIncrement(tables: OpcodeTables, bytes: seq<Byte>)
    requires tables.Valid()
    requires 0 < |tables.Of(Form2)| && tables.Of(Form2)[0] == OpcInfo(0, F2A8V, "inc")
    requires bytes == [0x82, 0xFF]
    ensures Decode(tables, bytes, 0, BigEndian) == Success(Instruction(Fields(Form2, 0, 2, 0, 0xFF), F2A8V, "inc", 0))
  {
    assert WordAt(bytes, 0, BigEndian) == 0x82FF;
    UnpackIncrement();
    DecodeWith(tables, bytes, 0, BigEndian, Fields(Form2, 0, 2, 0, 0xFF), OpcInfo(0, F2A8V, "inc"));
  }

  lemma IncrementOperands()
    ensures Operands(Instruction(Fields(Form2, 0, 2, 0, 0xFF), F2A8V, "inc", 0)) == [Reg(2), Literal(Imm8, 0xFF)]
  {
  }

  /** Form 3, opcode 0 is "beq". */
  lemma BranchEntry()
    ensures 0 < |Tables.Of(Form3)| && Tables.Of(Form3)[0] == OpcInfo(0, F3PcRel, "beq")
  {
  }

  /** 0xC3FF is form 3, opcode 0 ("beq"), 10-bit field 0x3FF. */
  lemma DecodeBranch(tables: OpcodeTables, bytes: seq<Byte>)
    requires tables.Valid()
    requires 0 < |tables.Of(Form3)| && tables.Of(Form3)[0] == OpcInfo(0, F3PcRel, "beq")
    requires bytes == [0xC3, 0xFF]
    ensures Decode(tables, bytes, 0, BigEndian) == Success(Instruction(Fields(Form3, 0, 0, 0, 0x3FF), F3PcRel, "beq", 0))
  {
    assert WordAt(bytes, 0, BigEndian) == 0xC3FF;
    UnpackBranch();
    DecodeWith(tables, bytes, 0, BigEndian, Fields(Form3, 0, 0, 0, 0x3FF), OpcInfo(0, F3PcRel, "beq"));
  }

  lemma BranchOperands()
    ensures Operands(Instruction(Fields(Form3, 0, 0, 0, 0x3FF), F3PcRel, "beq", 0)) == [Literal(PcRel10, 0x3FF)]
  {
  }

  /** Opcode 0 of form 1 is BAD in any valid tables. */
  lemma DecodeZeroWord(tables: OpcodeTables, bytes: seq<Byte>)
    requires tables.Valid()
    requires bytes == [0x00, 0x00]
    ensures Decode(tables, bytes, 0, BigEndian) == Failure(InvalidOpcode(Form1, 0))
  {
    assert WordAt(bytes, 0, BigEndian) == 0;
    UnpackZero();
    DecodeFailure(tables, bytes, 0, BigEndian);
  }

  /** Opcode 0xF of form 3 is BAD in any valid tables. */
  lemma DecodeAllOnes(tables: OpcodeTables, bytes: seq<Byte>)
    requires tables.Valid()
    requires bytes == [0xFF, 0xFF]
    ensures Decode(tables, bytes, 0, LittleEndian) == Failure(InvalidOpcode(Form3, 0xF))
  {
    assert WordAt(bytes, 0, LittleEndian) == 0xFFFF;
    UnpackAllOnes();
    DecodeFailure(tables, bytes, 0, LittleEndian);
  }
}
