/**
  Decoding and encoding whole instructions: the leading 16-bit word is split into
  its form's fields, the opcode field selects the form's table entry, and the
  entry's tag says how many bytes follow the word and which fields are operands.
  A BAD entry marks an opcode that is not an instruction.

  The decoder consults the tables it is given and relies only on their being
  valid (OpcodeTables.Valid); BonjourTables.TablesValid shows that the tables as
  written are.
*/
module BonjourDecoder {
  import opened Wrappers
  import opened BonjourFormat
  import opened BonjourTags
  import opened BonjourTables
  import opened BonjourBytes

  datatype DecodeError =
    | TruncatedInput                          // fewer bytes than the instruction needs
    | InvalidOpcode(form: Form, opcode: nat)  // the opcode field selects a BAD entry

  /**
    Looks up the entry of the given form's table at an opcode; a BAD entry means the
    opcode is not an instruction.
  */
  function Lookup(tables: OpcodeTables, form: Form, opcode: nat): (r: Result<OpcInfo, DecodeError>)
    requires tables.Valid()
    requires opcode < Pow2(OpcodeBits(form))
    ensures r.Failure? <==> Reserved(form, opcode)
    ensures r.Failure? ==> r.error == InvalidOpcode(form, opcode)
    ensures r.Success? ==>
      && opcode < |tables.Of(form)|
      && r.value == tables.Of(form)[opcode]
      && r.value.opcode == opcode
      && r.value.itype != Bad
      && FamilyOf(r.value.itype) == Some(form)
  {
    var e := tables.Of(form)[opcode];
    assert WellFormedEntry(form, 0 + opcode, e);
    if e.itype == Bad then Failure(InvalidOpcode(form, opcode)) else Success(e)
  }

  /**
    A decoded instruction: the fields of its leading word, the tag and mnemonic of
    the table entry they select, and the number stored in the bytes that follow the
    word (0 when none do).
  */
  datatype Instruction = Instruction(fields: Fields, tag: Tag, name: string, extra: nat)

  /**
    An instruction whose parts fit together: its fields fit their widths, its tag
    belongs to its form, and its trailing value fits in the bytes the tag gives it.
  */
  predicate WellShaped(insn: Instruction)
  {
    && insn.fields.InRange()
    && FamilyOf(insn.tag) == Some(insn.fields.form)
    && insn.extra < Pow2(8 * TrailingBytes(insn.tag))
  }

  /** An instruction that some bytes encode: its fields select its own non-BAD entry of the tables. */
  predicate ValidInstruction(tables: OpcodeTables, insn: Instruction)
  {
    && WellShaped(insn)
    && insn.fields.opcode < |tables.Of(insn.fields.form)|
    && tables.Of(insn.fields.form)[insn.fields.opcode] == OpcInfo(insn.fields.opcode, insn.tag, insn.name)
    && insn.tag != Bad
  }

  /** The leading word stored at offset. */
  function WordAt(bytes: seq<Byte>, offset: nat, order: ByteOrder): (w: Word)
    requires offset + 2 <= |bytes|
    ensures order == BigEndian ==> w == bytes[offset] as nat * 0x100 + bytes[offset + 1]
    ensures order == LittleEndian ==> w == bytes[offset + 1] as nat * 0x100 + bytes[offset]
  {
    ValueFieldCounts();
    WordByteOrder(bytes[offset..offset + 2]);
    ValueOf(bytes[offset..offset + 2], order)
  }

  /** Decodes the instruction that starts at offset. */
  function Decode(tables: OpcodeTables, bytes: seq<Byte>, offset: nat, order: ByteOrder): (r: Result<Instruction, DecodeError>)
    requires tables.Valid()
    ensures |bytes| < offset + 2 ==> r == Failure(TruncatedInput)
    ensures r.Success? ==>
      && ValidInstruction(tables, r.value)
      && offset + Length(r.value.tag) <= |bytes|
      && r.value.fields == Unpack(WordAt(bytes, offset, order))
      && r.value.extra == ValueOf(bytes[offset + 2..offset + Length(r.value.tag)], order)
  {
    if |bytes| < offset + 2 then Failure(TruncatedInput)
    else
      var f := Unpack(WordAt(bytes, offset, order));
      match Lookup(tables, f.form, f.opcode)
      case Failure(e) => Failure(e)
      case Success(e) =>
        var end := offset + Length(e.itype);
        if |bytes| < end then Failure(TruncatedInput)
        else Success(Instruction(f, e.itype, e.name, ValueOf(bytes[offset + 2..end], order)))
  }

  /**
    Decoding fails with InvalidOpcode exactly when the leading word's opcode field
    selects a reserved entry, and with TruncatedInput otherwise only when the bytes
    stop before the length the entry's tag gives.
  */
  lemma DecodeFailure(tables: OpcodeTables, bytes: seq<Byte>, offset: nat, order: ByteOrder)
    requires tables.Valid()
    requires offset + 2 <= |bytes|
    ensures var f := Unpack(WordAt(bytes, offset, order));
      && (Decode(tables, bytes, offset, order).Failure? && Decode(tables, bytes, offset, order).error.InvalidOpcode?
          <==> Reserved(f.form, f.opcode))
      && (Decode(tables, bytes, offset, order).Failure? && Decode(tables, bytes, offset, order).error.InvalidOpcode?
          ==> Decode(tables, bytes, offset, order).error == InvalidOpcode(f.form, f.opcode))
      && (Decode(tables, bytes, offset, order) == Failure(TruncatedInput)
          <==> !Reserved(f.form, f.opcode) && |bytes| < offset + Length(Lookup(tables, f.form, f.opcode).value.itype))
  {
  }

  /**
    Once the leading word's fields and their table entry are known, the entry's
    length decides between a truncated input and a decoded instruction.
  */
  lemma DecodeWith(tables: OpcodeTables, bytes: seq<Byte>, offset: nat, order: ByteOrder, f: Fields, e: OpcInfo)
    requires tables.Valid()
    requires offset + 2 <= |bytes|
    requires Unpack(WordAt(bytes, offset, order)) == f
    requires f.opcode < Pow2(OpcodeBits(f.form))
    requires Lookup(tables, f.form, f.opcode) == Success(e)
    ensures |bytes| < offset + Length(e.itype) ==> Decode(tables, bytes, offset, order) == Failure(TruncatedInput)
    ensures offset + Length(e.itype) <= |bytes| ==>
      Decode(tables, bytes, offset, order)
      == Success(Instruction(f, e.itype, e.name, ValueOf(bytes[offset + 2..offset + Length(e.itype)], order)))
  {
  }

  /**
    The bytes at offset decode to a valid instruction when they hold its packed word
    followed by its trailing value.
  */
  lemma DecodeAt(tables: OpcodeTables, bytes: seq<Byte>, offset: nat, order: ByteOrder, insn: Instruction)
    requires tables.Valid()
    requires ValidInstruction(tables, insn)
    requires offset + Length(insn.tag) <= |bytes|
    requires WordAt(bytes, offset, order) == Pack(insn.fields)
    requires ValueOf(bytes[offset + 2..offset + Length(insn.tag)], order) == insn.extra
    ensures Decode(tables, bytes, offset, order) == Success(insn)
  {
    UnpackPack(insn.fields);
  }

  /** The bytes of an instruction: its packed leading word, then its trailing value. */
  function Encode(insn: Instruction, order: ByteOrder): (bs: seq<Byte>)
    requires WellShaped(insn)
    ensures |bs| == Length(insn.tag)
  {
    ValueFieldCounts();
    BytesOf(Pack(insn.fields), 2, order) + BytesOf(insn.extra, TrailingBytes(insn.tag), order)
  }

  /** Decoding the encoding of a valid instruction, wherever it sits in a byte stream, gives it back. */
  lemma DecodeEncode(tables: OpcodeTables, insn: Instruction, order: ByteOrder, before: seq<Byte>, after: seq<Byte>)
    requires tables.Valid()
    requires ValidInstruction(tables, insn)
    ensures Decode(tables, before + Encode(insn, order) + after, |before|, order) == Success(insn)
  {
    ValueFieldCounts();
    var head := BytesOf(Pack(insn.fields), 2, order);
    var tail := BytesOf(insn.extra, TrailingBytes(insn.tag), order);
    SlicesOfConcat(before, head, tail, after);
    UnpackPack(insn.fields);
  }

  /** A successful decode reads exactly the bytes that encoding its result writes. */
  lemma EncodeDecode(tables: OpcodeTables, bytes: seq<Byte>, offset: nat, order: ByteOrder)
    requires tables.Valid()
    requires Decode(tables, bytes, offset, order).Success?
    ensures Encode(Decode(tables, bytes, offset, order).value, order)
         == bytes[offset..offset + Length(Decode(tables, bytes, offset, order).value.tag)]
  {
    var insn := Decode(tables, bytes, offset, order).value;
    var n := Length(insn.tag);
    var head := bytes[offset..offset + 2];
    var tail := bytes[offset + 2..offset + n];
    PackUnpack(WordAt(bytes, offset, order));
    BytesOfValue(head, order);
    BytesOfValue(tail, order);
    SliceSplit(bytes, offset, offset + 2, offset + n);
  }

  /**
    The tag of a valid instruction belongs to its form; the only tags of forms 2 and
    3 that valid tables use are the ones with operands.
  */
  lemma ValidInstructionTag(tables: OpcodeTables, insn: Instruction)
    requires tables.Valid()
    requires ValidInstruction(tables, insn)
    ensures FamilyOf(insn.tag) == Some(insn.fields.form)
    ensures insn.tag != F2Narg && insn.tag != F3Narg
    ensures insn.fields.form == Form2 ==> insn.tag == F2A8V
    ensures insn.fields.form == Form3 ==> insn.tag == F3PcRel
  {
    EntryInvariants(tables, insn.fields.form, insn.fields.opcode);
  }

  /**
    The mnemonic of a valid instruction names it alone: when the tables' mnemonics
    are unique, looking it up finds the instruction's form and opcode again.
  */
  lemma ValidInstructionMnemonic(tables: OpcodeTables, insn: Instruction)
    requires tables.Valid() && tables.MnemonicsUnique()
    requires ValidInstruction(tables, insn)
    ensures insn.name != "bad"
    ensures FindMnemonic(tables, insn.name) == Some((insn.fields.form, insn.fields.opcode))
  {
    EntryInvariants(tables, insn.fields.form, insn.fields.opcode);
    FindMnemonicOfEntry(tables, insn.fields.form, insn.fields.opcode);
  }

  /** One operand of a decoded instruction. */
  datatype Operand =
    | Reg(index: nat)                      // a register
    | RegIndirect(index: nat)              // the memory a register points at
    | Literal(kind: ValueKind, value: nat) // an immediate, address, offset or PC-relative field

  /** The operand a register field gives under a use: none, the register, or the memory it points at. */
  function RegOperands(use: RegUse, index: nat): (ops: seq<Operand>)
    ensures |ops| <= 1
    ensures forall k | 0 <= k < |ops| :: !ops[k].Literal? && ops[k].index == index
    ensures use == Direct ==> ops == [Reg(index)]
    ensures use == Indirect ==> ops == [RegIndirect(index)]
    ensures use == NoReg || use == Unspecified ==> ops == []
  {
    match use
    case Direct => [Reg(index)]
    case Indirect => [RegIndirect(index)]
    case NoReg => []
    case Unspecified => []
  }

  /**
    The value an instruction carries: the bytes after the word in form 1, the value
    field of the word in forms 2 and 3.
  */
  function CarriedValue(insn: Instruction): nat
  {
    if insn.fields.form == Form1 then insn.extra else insn.fields.value
  }

  /** The value an instruction carries fits the width of its tag's kind of value. */
  lemma CarriedValueFits(insn: Instruction)
    requires WellShaped(insn) && ShapeOf(insn.tag).value.Some?
    ensures CarriedValue(insn) < Pow2(ValueBits(ShapeOf(insn.tag).value.value))
  {
    ValueFieldCounts();
  }

  /**
    The operands of an instruction, as its tag's shape lists them: the register
    operands first (A, then B), then the value the instruction carries, if any.
  */
  function Operands(insn: Instruction): (ops: seq<Operand>)
    requires WellShaped(insn)
    ensures |ops| <= 3
    ensures forall k | 0 <= k < |ops| && !ops[k].Literal? :: k < 2 && ops[k].index < 0x10
    ensures forall k | 0 <= k < |ops| && ops[k].Literal? ::
      k == |ops| - 1 && ops[k].value < Pow2(ValueBits(ops[k].kind))
    ensures ShapeOf(insn.tag).value.Some? <==> |ops| > 0 && ops[|ops| - 1].Literal?
    ensures ShapeOf(insn.tag).value.None? ==>
      ops == RegOperands(ShapeOf(insn.tag).a, insn.fields.a) + RegOperands(ShapeOf(insn.tag).b, insn.fields.b)
    ensures ShapeOf(insn.tag).value.Some? ==>
      ops == RegOperands(ShapeOf(insn.tag).a, insn.fields.a) + RegOperands(ShapeOf(insn.tag).b, insn.fields.b)
             + [Literal(ShapeOf(insn.tag).value.value, CarriedValue(insn))]
  {
    var s := ShapeOf(insn.tag);
    var regs := RegOperands(s.a, insn.fields.a) + RegOperands(s.b, insn.fields.b);
    if s.value.Some? then
      CarriedValueFits(insn);
      regs + [Literal(s.value.value, CarriedValue(insn))]
    else
      regs
  }

  /**
    The operands of each tag, written out from the header's description: A before
    B, an indirect field as the memory it points at, and the carried value last.
  */
  lemma OperandsByTag(insn: Instruction)
    requires WellShaped(insn)
    ensures insn.tag in {F1Narg, F2Narg, F3Narg} ==> Operands(insn) == []
    ensures insn.tag == F1A ==> Operands(insn) == [Reg(insn.fields.a)]
    ensures insn.tag == F1AB ==> Operands(insn) == [Reg(insn.fields.a), Reg(insn.fields.b)]
    ensures insn.tag == F1A4 ==> Operands(insn) == [Reg(insn.fields.a), Literal(Imm32, insn.extra)]
    ensures insn.tag == F1Imm4 ==> Operands(insn) == [Literal(Imm32, insn.extra)]
    ensures insn.tag == F1Mem ==> Operands(insn) == [Literal(Addr32, insn.extra)]
    ensures insn.tag == F1AiB ==> Operands(insn) == [RegIndirect(insn.fields.a), Reg(insn.fields.b)]
    ensures insn.tag == F1ABi ==> Operands(insn) == [Reg(insn.fields.a), RegIndirect(insn.fields.b)]
    ensures insn.tag == F1Imm4A ==> Operands(insn) == [Literal(Imm32, insn.extra)]
    ensures insn.tag == F1AiB2 ==>
      Operands(insn) == [RegIndirect(insn.fields.a), Reg(insn.fields.b), Literal(Offset16, insn.extra)]
    ensures insn.tag == F1ABi2 ==>
      Operands(insn) == [Reg(insn.fields.a), RegIndirect(insn.fields.b), Literal(Offset16, insn.extra)]
    ensures insn.tag == F2A8V ==> Operands(insn) == [Reg(insn.fields.a), Literal(Imm8, insn.fields.value)]
    ensures insn.tag == F3PcRel ==> Operands(insn) == [Literal(PcRel10, insn.fields.value)]
  {
  }
}
