/**
  The bit layout of a Bonjour instruction word (opcodes/bonjour-opc.c, lines 25-51).

  Every instruction starts with one 16-bit word. In the layout diagrams bit 0 is
  the most significant bit, so the form is chosen by the leading one or two bits:

    Form 1:  0ooooooo aaaabbbb   7-bit opcode, register fields A and B
    Form 2:  10ooaaaa vvvvvvvv   2-bit opcode, register field A, 8-bit value
    Form 3:  11oooovv vvvvvvvv   4-bit opcode, 10-bit value

  (The comment introducing these diagrams says "two forms" but describes three.)
  The word is a bounded natural; a shift right by k is a division by 2^k and a
  mask of n low bits is a remainder modulo 2^n.
*/
module BonjourFormat {

  datatype Form = Form1 | Form2 | Form3

  /** One 16-bit instruction word. */
  type Word = w: nat | w < 0x1_0000

  function Pow2(n: nat): (r: nat)
    ensures r >= 1
  {
    if n == 0 then 1 else 2 * Pow2(n - 1)
  }

  /** Adding eight bits multiplies the number of values by 256. */
  lemma {:induction false} Pow2Plus8(m: nat)
    ensures Pow2(m + 8) == 0x100 * Pow2(m)
  {
    assert Pow2(m + 8) == 2 * Pow2(m + 7);
    assert Pow2(m + 7) == 2 * Pow2(m + 6);
    assert Pow2(m + 6) == 2 * Pow2(m + 5);
    assert Pow2(m + 5) == 2 * Pow2(m + 4);
    assert Pow2(m + 4) == 2 * Pow2(m + 3);
    assert Pow2(m + 3) == 2 * Pow2(m + 2);
    assert Pow2(m + 2) == 2 * Pow2(m + 1);
  }

  /** Width in bits of the opcode field of each form. */
  function OpcodeBits(f: Form): nat
  {
    match f
    case Form1 => 7
    case Form2 => 2
    case Form3 => 4
  }

  /** The form a word belongs to, read from its leading bits. */
  function FormOf(w: Word): (f: Form)
    ensures f == Form1 <==> w < 0x8000
    ensures f == Form2 <==> 0x8000 <= w < 0xC000
    ensures f == Form3 <==> 0xC000 <= w
  {
    if w / 0x8000 == 0 then Form1        // w >> 15 == 0b0
    else if w / 0x4000 == 2 then Form2   // w >> 14 == 0b10
    else Form3                           // w >> 14 == 0b11
  }

  /**
    The fields of a word: its form, its opcode, the register fields A and B and the
    value field. A field the form does not have is zero.
  */
  datatype Fields = Fields(form: Form, opcode: nat, a: nat, b: nat, value: nat)
  {
    /** Every field fits the width the layout of its form gives it. */
    predicate InRange()
    {
      match form
      case Form1 => opcode < 0x80 && a < 0x10 && b < 0x10 && value == 0
      case Form2 => opcode < 0x4 && a < 0x10 && b == 0 && value < 0x100
      case Form3 => opcode < 0x10 && a == 0 && b == 0 && value < 0x400
    }
  }

  /** The opcode field of an in-range set of fields has exactly OpcodeBits bits. */
  lemma OpcodeFitsWidth(f: Fields)
    requires f.InRange()
    ensures f.opcode < Pow2(OpcodeBits(f.form))
  {
    OpcodeValueCounts();
  }

  /** 2^7, 2^2 and 2^4: the number of values of each form's opcode field. */
  lemma OpcodeValueCounts()
    ensures Pow2(OpcodeBits(Form1)) == 128
    ensures Pow2(OpcodeBits(Form2)) == 4
    ensures Pow2(OpcodeBits(Form3)) == 16
  {
    assert Pow2(2) == 4;
    assert Pow2(4) == 16 by { assert Pow2(3) == 8; }
    assert Pow2(7) == 128 by { assert Pow2(6) == 64 by { assert Pow2(5) == 32; } }
  }

  /**
    The number of values of the 8- and 10-bit value fields of forms 2 and 3, and of
    a 16-bit word.
  */
  lemma ValueFieldCounts()
    ensures Pow2(8) == 0x100 && Pow2(10) == 0x400 && Pow2(16) == 0x1_0000
  {
    Pow2Plus8(0);
    Pow2Plus8(2);
    Pow2Plus8(8);
    assert Pow2(2) == 4;
  }

  /** Splits a word into the fields of its form with shifts and masks. */
  function Unpack(w: Word): (f: Fields)
    ensures f.InRange()
    ensures f.form == FormOf(w)
    ensures f.opcode < Pow2(OpcodeBits(FormOf(w)))
  {
    OpcodeValueCounts();
    match FormOf(w)
    case Form1 =>
      // (w >> 8) & 0x7f, (w >> 4) & 0xf, w & 0xf
      Fields(Form1, (w / 0x100) % 0x80, (w / 0x10) % 0x10, w % 0x10, 0)
    case Form2 =>
      // (w >> 12) & 0x3, (w >> 8) & 0xf, w & 0xff
      Fields(Form2, (w / 0x1000) % 0x4, (w / 0x100) % 0x10, 0, w % 0x100)
    case Form3 =>
      // (w >> 10) & 0xf, w & 0x3ff
      Fields(Form3, (w / 0x400) % 0x10, 0, 0, w % 0x400)
  }

  /** Builds the word of a form from fields that fit their widths. */
  function Pack(f: Fields): (w: Word)
    requires f.InRange()
    ensures FormOf(w) == f.form
  {
    match f.form
    case Form1 => f.opcode * 0x100 + f.a * 0x10 + f.b
    case Form2 => 0x8000 + f.opcode * 0x1000 + f.a * 0x100 + f.value
    case Form3 => 0xC000 + f.opcode * 0x400 + f.value
  }

  /** Extracting the fields of a packed word gives back the fields. */
  lemma UnpackPack(f: Fields)
    requires f.InRange()
    ensures Unpack(Pack(f)) == f
  {
    match f.form
    case Form1 => UnpackPack1(f.opcode, f.a, f.b);
    case Form2 => UnpackPack2(f.opcode, f.a, f.value);
    case Form3 => UnpackPack3(f.opcode, f.value);
  }

  lemma UnpackPack1(o: nat, a: nat, b: nat)
    requires o < 0x80 && a < 0x10 && b < 0x10
    ensures Unpack(o * 0x100 + a * 0x10 + b) == Fields(Form1, o, a, b, 0)
  {
    var w := o * 0x100 + a * 0x10 + b;
    assert w / 0x100 == o;
    assert w / 0x10 == o * 0x10 + a;
  }

  lemma UnpackPack2(o: nat, a: nat, v: nat)
    requires o < 0x4 && a < 0x10 && v < 0x100
    ensures Unpack(0x8000 + o * 0x1000 + a * 0x100 + v) == Fields(Form2, o, a, 0, v)
  {
    var w := 0x8000 + o * 0x1000 + a * 0x100 + v;
    assert w / 0x1000 == 8 + o;
    assert w / 0x100 == 0x80 + o * 0x10 + a;
  }

  lemma UnpackPack3(o: nat, v: nat)
    requires o < 0x10 && v < 0x400
    ensures Unpack(0xC000 + o * 0x400 + v) == Fields(Form3, o, 0, 0, v)
  {
    var w := 0xC000 + o * 0x400 + v;
    assert w / 0x400 == 0x30 + o;
  }

  /** Re-packing the fields extracted from a word gives back the word. */
  lemma PackUnpack(w: Word)
    ensures Pack(Unpack(w)) == w
  {
    if w < 0x8000 {
      PackUnpack1(w);
    } else if w < 0xC000 {
      PackUnpack2(w);
    } else {
      PackUnpack3(w);
    }
  }

  lemma PackUnpack1(w: Word)
    requires w < 0x8000
    ensures Pack(Fields(Form1, (w / 0x100) % 0x80, (w / 0x10) % 0x10, w % 0x10, 0)) == w
  {
    var q := w / 0x10;
    var r := q / 0x10;
    assert w == 0x100 * r + 0x10 * (q % 0x10) + w % 0x10;
    assert w / 0x100 == r;
  }

  lemma PackUnpack2(w: Word)
    requires 0x8000 <= w < 0xC000
    ensures Pack(Fields(Form2, (w / 0x1000) % 0x4, (w / 0x100) % 0x10, 0, w % 0x100)) == w
  {
    var q := w / 0x100;
    var r := q / 0x10;
    assert w == 0x1000 * r + 0x100 * (q % 0x10) + w % 0x100;
    assert w / 0x1000 == r && r % 0x4 == r - 8;
  }

  lemma PackUnpack3(w: Word)
    requires 0xC000 <= w
    ensures Pack(Fields(Form3, (w / 0x400) % 0x10, 0, 0, w % 0x400)) == w
  {
    assert (w / 0x400) % 0x10 == w / 0x400 - 0x30;
  }
}
