/**
  The operand-layout tags of include/opcode/bonjour.h and what each one says an
  instruction carries: which register fields it reads, whether it carries a value,
  and how many bytes follow the leading 16-bit word.
*/
module BonjourTags {
  import opened Wrappers
  import opened BonjourFormat

  /**
    One constructor per #define. F1Imm4 is BONJOUR_F1_4, F1Imm4A is BONJOUR_F1_4A
    and F1Mem is BONJOUR_F1_M; the value 0x103 (BONJOUR_F1_ABC) is commented out
    in the header and has no constructor.
  */
  datatype Tag =
    | F1Narg | F1A | F1AB | F1A4 | F1Imm4 | F1AiB | F1ABi | F1Imm4A | F1AiB2 | F1ABi2 | F1Mem
    | F2Narg | F2A8V
    | F3Narg | F3PcRel
    | Bad

  /** The numeric value the header gives each tag. */
  function Value(t: Tag): (v: nat)
    ensures v / 0x100 in {1, 2, 3, 4} && v % 0x100 <= 0x0b
  {
    match t
    case F1Narg => 0x100
    case F1A => 0x101
    case F1AB => 0x102
    case F1A4 => 0x104
    case F1Imm4 => 0x105
    case F1AiB => 0x106
    case F1ABi => 0x107
    case F1Imm4A => 0x108
    case F1AiB2 => 0x109
    case F1ABi2 => 0x10a
    case F1Mem => 0x10b
    case F2Narg => 0x200
    case F2A8V => 0x201
    case F3Narg => 0x300
    case F3PcRel => 0x301
    case Bad => 0x400
  }

  /** The tag a numeric value names, if any: the inverse of Value. */
  function FromValue(v: nat): (r: Option<Tag>)
    ensures r.Some? ==> v / 0x100 in {1, 2, 3, 4}
  {
    if v == 0x100 then Some(F1Narg)
    else if v == 0x101 then Some(F1A)
    else if v == 0x102 then Some(F1AB)
    else if v == 0x104 then Some(F1A4)
    else if v == 0x105 then Some(F1Imm4)
    else if v == 0x106 then Some(F1AiB)
    else if v == 0x107 then Some(F1ABi)
    else if v == 0x108 then Some(F1Imm4A)
    else if v == 0x109 then Some(F1AiB2)
    else if v == 0x10a then Some(F1ABi2)
    else if v == 0x10b then Some(F1Mem)
    else if v == 0x200 then Some(F2Narg)
    else if v == 0x201 then Some(F2A8V)
    else if v == 0x300 then Some(F3Narg)
    else if v == 0x301 then Some(F3PcRel)
    else if v == 0x400 then Some(Bad)
    else None
  }

  /** Reading a tag's value back gives the tag. */
  lemma FromValueOfValue(t: Tag)
    ensures FromValue(Value(t)) == Some(t)
  {
    match t
    case F1Narg => case F1A => case F1AB => case F1A4 => case F1Imm4 => case F1AiB =>
    case F1ABi => case F1Imm4A => case F1AiB2 => case F1ABi2 => case F1Mem =>
    case F2Narg => case F2A8V => case F3Narg => case F3PcRel => case Bad =>
  }

  /** A value that names a tag is that tag's value. */
  lemma ValueOfFromValue(v: nat, t: Tag)
    requires FromValue(v) == Some(t)
    ensures Value(t) == v
  {
  }

  /** No two tags share a value. */
  lemma ValuesDistinct(t: Tag, u: Tag)
    requires Value(t) == Value(u)
    ensures t == u
  {
    FromValueOfValue(t);
    FromValueOfValue(u);
  }

  /** The form whose table a tag belongs to; Bad belongs to none. */
  function FamilyOf(t: Tag): (r: Option<Form>)
    ensures r.None? <==> t == Bad
  {
    match t
    case F1Narg | F1A | F1AB | F1A4 | F1Imm4 | F1AiB | F1ABi | F1Imm4A | F1AiB2 | F1ABi2 | F1Mem => Some(Form1)
    case F2Narg | F2A8V => Some(Form2)
    case F3Narg | F3PcRel => Some(Form3)
    case Bad => None
  }

  /** A tag's value divided by 0x100 names its family, and each family has its own range. */
  lemma FamilyByValue(t: Tag)
    ensures FamilyOf(t) == Some(Form1) <==> Value(t) / 0x100 == 1
    ensures FamilyOf(t) == Some(Form2) <==> Value(t) / 0x100 == 2
    ensures FamilyOf(t) == Some(Form3) <==> Value(t) / 0x100 == 3
    ensures FamilyOf(t) == None <==> Value(t) / 0x100 == 4
    ensures FamilyOf(t) == Some(Form1) ==> 0x100 <= Value(t) <= 0x10b
    ensures FamilyOf(t) == Some(Form2) ==> 0x200 <= Value(t) <= 0x201
    ensures FamilyOf(t) == Some(Form3) ==> 0x300 <= Value(t) <= 0x301
    ensures t == Bad <==> Value(t) == 0x400
  {
    match t
    case F1Narg => case F1A => case F1AB => case F1A4 => case F1Imm4 => case F1AiB =>
    case F1ABi => case F1Imm4A => case F1AiB2 => case F1ABi2 => case F1Mem =>
    case F2Narg => case F2A8V => case F3Narg => case F3PcRel => case Bad =>
  }

  /** How an instruction uses one register field. */
  datatype RegUse =
    | NoReg        // the field is not an operand
    | Direct       // the register itself
    | Indirect     // the memory the register points at
    | Unspecified  // the header says the instruction "uses X" without naming the field

  /** The kinds of value an instruction can carry, with where each is stored. */
  datatype ValueKind =
    | Imm32      // 4-byte immediate after the leading word
    | Addr32     // 4-byte memory address after the leading word
    | Offset16   // 2-byte offset after the leading word
    | Imm8       // 8-bit value inside the leading word (form 2)
    | PcRel10    // 10-bit PC-relative field inside the leading word (form 3)

  /** Width of each kind of value, in bits. */
  function ValueBits(k: ValueKind): nat
  {
    match k
    case Imm32 => 32
    case Addr32 => 32
    case Offset16 => 16
    case Imm8 => 8
    case PcRel10 => 10
  }

  /** True for the values stored in bytes after the leading word. */
  predicate IsTrailing(k: ValueKind)
  {
    k == Imm32 || k == Addr32 || k == Offset16
  }

  /** The operand shape of a tag: how it uses fields A and B and which value it carries. */
  datatype Shape = Shape(a: RegUse, b: RegUse, value: Option<ValueKind>)

  /** The operand shape the header's comment gives each tag. */
  function ShapeOf(t: Tag): (s: Shape)
    ensures s.value.Some? <==> t in {F1A4, F1Imm4, F1Mem, F1Imm4A, F1AiB2, F1ABi2, F2A8V, F3PcRel}
  {
    match t
    case F1Narg => Shape(NoReg, NoReg, None)                       // no arguments
    case F1A => Shape(Direct, NoReg, None)                         // only A
    case F1AB => Shape(Direct, Direct, None)                       // A and B
    case F1A4 => Shape(Direct, NoReg, Some(Imm32))                 // A and a 4-byte immediate
    case F1Imm4 => Shape(NoReg, NoReg, Some(Imm32))                // just a 4-byte immediate
    case F1Mem => Shape(NoReg, NoReg, Some(Addr32))                // just a 4-byte address
    case F1AiB => Shape(Indirect, Direct, None)                    // B and an indirect A
    case F1ABi => Shape(Direct, Indirect, None)                    // A and an indirect B
    case F1Imm4A => Shape(Unspecified, Unspecified, Some(Imm32))   // a 4-byte immediate and "X"
    case F1AiB2 => Shape(Indirect, Direct, Some(Offset16))         // B, indirect A, 2-byte offset
    case F1ABi2 => Shape(Direct, Indirect, Some(Offset16))         // A, indirect B, 2-byte offset
    case F2Narg => Shape(NoReg, NoReg, None)                       // no arguments
    case F2A8V => Shape(Direct, NoReg, Some(Imm8))                 // A and an 8-bit value
    case F3Narg => Shape(NoReg, NoReg, None)                       // no arguments
    case F3PcRel => Shape(NoReg, NoReg, Some(PcRel10))             // a 10-bit PC-relative field
    case Bad => Shape(NoReg, NoReg, None)
  }

  /**
    Which register fields each tag uses, and how: A directly for the tags that
    "use A", A indirectly for the "indirect A" tags, B likewise, and neither field
    named for F1_4A, which only says it "uses X".
  */
  lemma RegisterUse(t: Tag)
    ensures ShapeOf(t).a == Direct <==> t in {F1A, F1AB, F1A4, F1ABi, F1ABi2, F2A8V}
    ensures ShapeOf(t).a == Indirect <==> t in {F1AiB, F1AiB2}
    ensures ShapeOf(t).b == Direct <==> t in {F1AB, F1AiB, F1AiB2}
    ensures ShapeOf(t).b == Indirect <==> t in {F1ABi, F1ABi2}
    ensures ShapeOf(t).a == Unspecified <==> t == F1Imm4A
    ensures ShapeOf(t).b == Unspecified <==> t == F1Imm4A
  {
  }

  /** Number of bytes that follow the leading word, derived from the tag's shape. */
  function TrailingBytes(t: Tag): (n: nat)
    ensures n == 4 <==> t in {F1A4, F1Imm4, F1Mem, F1Imm4A}
    ensures n == 2 <==> t in {F1AiB2, F1ABi2}
    ensures n == 0 <==> t !in {F1A4, F1Imm4, F1Mem, F1Imm4A, F1AiB2, F1ABi2}
  {
    match ShapeOf(t).value
    case Some(k) => if IsTrailing(k) then ValueBits(k) / 8 else 0
    case None => 0
  }

  /** Total encoded length of an instruction with this tag, in bytes. */
  function Length(t: Tag): (n: nat)
    ensures n in {2, 4, 6}
    ensures n > 2 ==> FamilyOf(t) == Some(Form1)
  {
    2 + TrailingBytes(t)
  }

  /**
    The shape of a tag never asks for a field its form does not have: form 2 has
    no B field, form 3 has neither A nor B, and only form 1 is followed by bytes.
    A value kept in the word is the form's own value field.
  */
  lemma ShapeFitsLayout(t: Tag)
    ensures FamilyOf(t) != Some(Form1) ==> ShapeOf(t).b == NoReg && TrailingBytes(t) == 0
    ensures FamilyOf(t) != Some(Form1) && FamilyOf(t) != Some(Form2) ==> ShapeOf(t).a == NoReg
    ensures ShapeOf(t).value == Some(Imm8) <==> t == F2A8V
    ensures ShapeOf(t).value == Some(PcRel10) <==> t == F3PcRel
    ensures FamilyOf(t) == Some(Form2) ==> ShapeOf(t).value != Some(PcRel10)
  {
  }
}
