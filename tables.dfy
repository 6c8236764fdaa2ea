/**
  The three opcode tables of opcodes/bonjour-opc.c (lines 53-211): one entry per
  value of each form's opcode field, with BAD entries for the unassigned values,
  and the reverse lookup from a mnemonic to its form and opcode.

  The 128 entries of the form 1 table are written as sixteen blocks of eight
  (Form1Block00 holds opcodes 0x00-0x07, Form1Block08 opcodes 0x08-0x0f, ...),
  so that facts about them can be proved block by block.
*/
module BonjourTables {
  import opened Wrappers
  import opened BonjourFormat
  import opened BonjourTags

  /** One table entry (bonjour_opc_info_t): its opcode, layout tag and mnemonic. */
  datatype OpcInfo = OpcInfo(opcode: nat, itype: Tag, name: string)

  const Form1Block00: seq<OpcInfo> := [
    OpcInfo(0x00, Bad, "bad"),
    OpcInfo(0x01, F1A4, "ldi.l"),
    OpcInfo(0x02, F1AB, "mov"),
    OpcInfo(0x03, F1Mem, "jsra"),
    OpcInfo(0x04, F1Narg, "ret"),
    OpcInfo(0x05, F1AB, "add"),
    OpcInfo(0x06, F1AB, "push"),
    OpcInfo(0x07, F1AB, "pop")
  ]

  const Form1Block08: seq<OpcInfo> := [
    OpcInfo(0x08, F1A4, "lda.l"),
    OpcInfo(0x09, F1Imm4A, "sta.l"),
    OpcInfo(0x0a, F1ABi, "ld.l"),
    OpcInfo(0x0b, F1AiB, "st.l"),
    OpcInfo(0x0c, F1ABi2, "ldo.l"),
    OpcInfo(0x0d, F1AiB2, "sto.l"),
    OpcInfo(0x0e, F1AB, "cmp"),
    OpcInfo(0x0f, F1Narg, "nop")
  ]

  const Form1Block10: seq<OpcInfo> := [
    OpcInfo(0x10, F1AB, "sex.b"),
    OpcInfo(0x11, F1AB, "sex.s"),
    OpcInfo(0x12, F1AB, "zex.b"),
    OpcInfo(0x13, F1AB, "zex.s"),
    OpcInfo(0x14, F1AB, "umul.x"),
    OpcInfo(0x15, F1AB, "mul.x"),
    OpcInfo(0x16, Bad, "bad"),
    OpcInfo(0x17, Bad, "bad")
  ]

  const Form1Block18: seq<OpcInfo> := [
    OpcInfo(0x18, Bad, "bad"),
    OpcInfo(0x19, F1A, "jsr"),
    OpcInfo(0x1a, F1Mem, "jmpa"),
    OpcInfo(0x1b, F1A4, "ldi.b"),
    OpcInfo(0x1c, F1ABi, "ld.b"),
    OpcInfo(0x1d, F1A4, "lda.b"),
    OpcInfo(0x1e, F1AiB, "st.b"),
    OpcInfo(0x1f, F1Imm4A, "sta.b")
  ]

  const Form1Block20: seq<OpcInfo> := [
    OpcInfo(0x20, F1A4, "ldi.s"),
    OpcInfo(0x21, F1ABi, "ld.s"),
    OpcInfo(0x22, F1A4, "lda.s"),
    OpcInfo(0x23, F1AiB, "st.s"),
    OpcInfo(0x24, F1Imm4A, "sta.s"),
    OpcInfo(0x25, F1A, "jmp"),
    OpcInfo(0x26, F1AB, "and"),
    OpcInfo(0x27, F1AB, "lshr")
  ]

  const Form1Block28: seq<OpcInfo> := [
    OpcInfo(0x28, F1AB, "ashl"),
    OpcInfo(0x29, F1AB, "sub"),
    OpcInfo(0x2a, F1AB, "neg"),
    OpcInfo(0x2b, F1AB, "or"),
    OpcInfo(0x2c, F1AB, "not"),
    OpcInfo(0x2d, F1AB, "ashr"),
    OpcInfo(0x2e, F1AB, "xor"),
    OpcInfo(0x2f, F1AB, "mul")
  ]

  const Form1Block30: seq<OpcInfo> := [
    OpcInfo(0x30, F1Imm4, "swi"),
    OpcInfo(0x31, F1AB, "div"),
    OpcInfo(0x32, F1AB, "udiv"),
    OpcInfo(0x33, F1AB, "mod"),
    OpcInfo(0x34, F1AB, "umod"),
    OpcInfo(0x35, F1Narg, "brk"),
    OpcInfo(0x36, F1ABi2, "ldo.b"),
    OpcInfo(0x37, F1AiB2, "sto.b")
  ]

  const Form1Block38: seq<OpcInfo> := [
    OpcInfo(0x38, F1ABi2, "ldo.s"),
    OpcInfo(0x39, F1AiB2, "sto.s"),
    OpcInfo(0x3a, Bad, "bad"),
    OpcInfo(0x3b, Bad, "bad"),
    OpcInfo(0x3c, Bad, "bad"),
    OpcInfo(0x3d, Bad, "bad"),
    OpcInfo(0x3e, Bad, "bad"),
    OpcInfo(0x3f, Bad, "bad")
  ]

  const Form1Block40: seq<OpcInfo> := [
    OpcInfo(0x40, Bad, "bad"),
    OpcInfo(0x41, Bad, "bad"),
    OpcInfo(0x42, Bad, "bad"),
    OpcInfo(0x43, Bad, "bad"),
    OpcInfo(0x44, Bad, "bad"),
    OpcInfo(0x45, Bad, "bad"),
    OpcInfo(0x46, Bad, "bad"),
    OpcInfo(0x47, Bad, "bad")
  ]

  const Form1Block48: seq<OpcInfo> := [
    OpcInfo(0x48, Bad, "bad"),
    OpcInfo(0x49, Bad, "bad"),
    OpcInfo(0x4a, Bad, "bad"),
    OpcInfo(0x4b, Bad, "bad"),
    OpcInfo(0x4c, Bad, "bad"),
    OpcInfo(0x4d, Bad, "bad"),
    OpcInfo(0x4e, Bad, "bad"),
    OpcInfo(0x4f, Bad, "bad")
  ]

  const Form1Block50: seq<OpcInfo> := [
    OpcInfo(0x50, Bad, "bad"),
    OpcInfo(0x51, Bad, "bad"),
    OpcInfo(0x52, Bad, "bad"),
    OpcInfo(0x53, Bad, "bad"),
    OpcInfo(0x54, Bad, "bad"),
    OpcInfo(0x55, Bad, "bad"),
    OpcInfo(0x56, Bad, "bad"),
    OpcInfo(0x57, Bad, "bad")
  ]

  const Form1Block58: seq<OpcInfo> := [
    OpcInfo(0x58, Bad, "bad"),
    OpcInfo(0x59, Bad, "bad"),
    OpcInfo(0x5a, Bad, "bad"),
    OpcInfo(0x5b, Bad, "bad"),
    OpcInfo(0x5c, Bad, "bad"),
    OpcInfo(0x5d, Bad, "bad"),
    OpcInfo(0x5e, Bad, "bad"),
    OpcInfo(0x5f, Bad, "bad")
  ]

  const Form1Block60: seq<OpcInfo> := [
    OpcInfo(0x60, Bad, "bad"),
    OpcInfo(0x61, Bad, "bad"),
    OpcInfo(0x62, Bad, "bad"),
    OpcInfo(0x63, Bad, "bad"),
    OpcInfo(0x64, Bad, "bad"),
    OpcInfo(0x65, Bad, "bad"),
    OpcInfo(0x66, Bad, "bad"),
    OpcInfo(0x67, Bad, "bad")
  ]

  const Form1Block68: seq<OpcInfo> := [
    OpcInfo(0x68, Bad, "bad"),
    OpcInfo(0x69, Bad, "bad"),
    OpcInfo(0x6a, Bad, "bad"),
    OpcInfo(0x6b, Bad, "bad"),
    OpcInfo(0x6c, Bad, "bad"),
    OpcInfo(0x6d, Bad, "bad"),
    OpcInfo(0x6e, Bad, "bad"),
    OpcInfo(0x6f, Bad, "bad")
  ]

  const Form1Block70: seq<OpcInfo> := [
    OpcInfo(0x70, Bad, "bad"),
    OpcInfo(0x71, Bad, "bad"),
    OpcInfo(0x72, Bad, "bad"),
    OpcInfo(0x73, Bad, "bad"),
    OpcInfo(0x74, Bad, "bad"),
    OpcInfo(0x75, Bad, "bad"),
    OpcInfo(0x76, Bad, "bad"),
    OpcInfo(0x77, Bad, "bad")
  ]

  const Form1Block78: seq<OpcInfo> := [
    OpcInfo(0x78, Bad, "bad"),
    OpcInfo(0x79, Bad, "bad"),
    OpcInfo(0x7a, Bad, "bad"),
    OpcInfo(0x7b, Bad, "bad"),
    OpcInfo(0x7c, Bad, "bad"),
    OpcInfo(0x7d, Bad, "bad"),
    OpcInfo(0x7e, Bad, "bad"),
    OpcInfo(0x7f, Bad, "bad")
  ]

  /** bonjour_form1_opc_info[128] */
  const Form1Table: seq<OpcInfo> :=
    Form1Block00 + Form1Block08 + Form1Block10 + Form1Block18
    + Form1Block20 + Form1Block28 + Form1Block30 + Form1Block38
    + Form1Block40 + Form1Block48 + Form1Block50 + Form1Block58
    + Form1Block60 + Form1Block68 + Form1Block70 + Form1Block78

  /** bonjour_form2_opc_info[4] */
  const Form2Table: seq<OpcInfo> := [
    OpcInfo(0x00, F2A8V, "inc"),
    OpcInfo(0x01, F2A8V, "dec"),
    OpcInfo(0x02, F2A8V, "gsr"),
    OpcInfo(0x03, F2A8V, "ssr")
  ]

  const Form3Block00: seq<OpcInfo> := [
    OpcInfo(0x00, F3PcRel, "beq"),
    OpcInfo(0x01, F3PcRel, "bne"),
    OpcInfo(0x02, F3PcRel, "blt"),
    OpcInfo(0x03, F3PcRel, "bgt"),
    OpcInfo(0x04, F3PcRel, "bltu"),
    OpcInfo(0x05, F3PcRel, "bgtu"),
    OpcInfo(0x06, F3PcRel, "bge"),
    OpcInfo(0x07, F3PcRel, "ble")
  ]

  const Form3Block08: seq<OpcInfo> := [
    OpcInfo(0x08, F3PcRel, "bgeu"),
    OpcInfo(0x09, F3PcRel, "bleu"),
    OpcInfo(0x0a, Bad, "bad"),
    OpcInfo(0x0b, Bad, "bad"),
    OpcInfo(0x0c, Bad, "bad"),
    OpcInfo(0x0d, Bad, "bad"),
    OpcInfo(0x0e, Bad, "bad"),
    OpcInfo(0x0f, Bad, "bad")
  ]

  /** bonjour_form3_opc_info[16] */
  const Form3Table: seq<OpcInfo> := Form3Block00 + Form3Block08

  /**
    The three tables as a disassembler or an assembler consults them, each indexed
    by its form's opcode field.
  */
  datatype OpcodeTables = OpcodeTables(form1: seq<OpcInfo>, form2: seq<OpcInfo>, form3: seq<OpcInfo>)
  {
    /** The table of a form. */
    function Of(f: Form): seq<OpcInfo>
    {
      match f
      case Form1 => form1
      case Form2 => form2
      case Form3 => form3
    }

    /**
      What a decoder relies on: each table has one entry per value of its form's
      opcode field, and every entry is well formed at its own index.
    */
    predicate Valid()
    {
      && (forall f: Form :: |Of(f)| == Pow2(OpcodeBits(f)))
      && (forall f: Form :: EntriesWellFormed(f, 0, Of(f)))
    }

    /**
      What an assembler relies on: no two entries that are not BAD share a
      mnemonic, within a table or across the three.
    */
    predicate MnemonicsUnique()
    {
      forall f1: Form, o1, f2: Form, o2 |
        && 0 <= o1 < |Of(f1)| && 0 <= o2 < |Of(f2)|
        && Of(f1)[o1].itype != Bad && Of(f2)[o2].itype != Bad
        && Of(f1)[o1].name == Of(f2)[o2].name
        :: f1 == f2 && o1 == o2
    }
  }

  /** bonjour_form1_opc_info, bonjour_form2_opc_info and bonjour_form3_opc_info. */
  const Tables: OpcodeTables := OpcodeTables(Form1Table, Form2Table, Form3Table)

  /** The opcodes each table marks BAD: unassigned or reserved encodings. */
  predicate Reserved(f: Form, o: nat)
  {
    match f
    case Form1 => o == 0x00 || 0x16 <= o <= 0x18 || 0x3a <= o
    case Form2 => false
    case Form3 => 0x0a <= o
  }

  /** What the entry for opcode o of form f's table satisfies. */
  predicate WellFormedEntry(f: Form, o: nat, e: OpcInfo)
  {
    && e.opcode == o
    && (e.itype == Bad <==> e.name == "bad")
    && (e.itype == Bad <==> Reserved(f, o))
    && (e.itype != Bad ==> FamilyOf(e.itype) == Some(f))
    && e.itype != F2Narg && e.itype != F3Narg
  }

  /** Every entry of t is well formed when t starts at opcode base. */
  predicate EntriesWellFormed(f: Form, base: nat, t: seq<OpcInfo>)
  {
    forall j | 0 <= j < |t| :: WellFormedEntry(f, base + j, t[j])
  }

  lemma {:induction false} EntriesAppend(f: Form, base: nat, s: seq<OpcInfo>, t: seq<OpcInfo>)
    requires EntriesWellFormed(f, base, s)
    requires EntriesWellFormed(f, base + |s|, t)
    ensures EntriesWellFormed(f, base, s + t)
  {
    forall j | 0 <= j < |s + t|
      ensures WellFormedEntry(f, base + j, (s + t)[j])
    {
      if j >= |s| {
        assert (s + t)[j] == t[j - |s|];
        assert WellFormedEntry(f, base + |s| + (j - |s|), t[j - |s|]);
      }
    }
  }

  lemma Form1Block00WellFormed() ensures EntriesWellFormed(Form1, 0x00, Form1Block00) {}
  lemma Form1Block08WellFormed() ensures EntriesWellFormed(Form1, 0x08, Form1Block08) {}
  lemma Form1Block10WellFormed() ensures EntriesWellFormed(Form1, 0x10, Form1Block10) {}
  lemma Form1Block18WellFormed() ensures EntriesWellFormed(Form1, 0x18, Form1Block18) {}
  lemma Form1Block20WellFormed() ensures EntriesWellFormed(Form1, 0x20, Form1Block20) {}
  lemma Form1Block28WellFormed() ensures EntriesWellFormed(Form1, 0x28, Form1Block28) {}
  lemma Form1Block30WellFormed() ensures EntriesWellFormed(Form1, 0x30, Form1Block30) {}
  lemma Form1Block38WellFormed() ensures EntriesWellFormed(Form1, 0x38, Form1Block38) {}
  lemma Form1Block40WellFormed() ensures EntriesWellFormed(Form1, 0x40, Form1Block40) {}
  lemma Form1Block48WellFormed() ensures EntriesWellFormed(Form1, 0x48, Form1Block48) {}
  lemma Form1Block50WellFormed() ensures EntriesWellFormed(Form1, 0x50, Form1Block50) {}
  lemma Form1Block58WellFormed() ensures EntriesWellFormed(Form1, 0x58, Form1Block58) {}
  lemma Form1Block60WellFormed() ensures EntriesWellFormed(Form1, 0x60, Form1Block60) {}
  lemma Form1Block68WellFormed() ensures EntriesWellFormed(Form1, 0x68, Form1Block68) {}
  lemma Form1Block70WellFormed() ensures EntriesWellFormed(Form1, 0x70, Form1Block70) {}
  lemma Form1Block78WellFormed() ensures EntriesWellFormed(Form1, 0x78, Form1Block78) {}
  lemma Form2TableWellFormed() ensures EntriesWellFormed(Form2, 0, Form2Table) {}
  lemma Form3Block00WellFormed() ensures EntriesWellFormed(Form3, 0x00, Form3Block00) {}
  lemma Form3Block08WellFormed() ensures EntriesWellFormed(Form3, 0x08, Form3Block08) {}

  lemma Form3TableWellFormed()
    ensures EntriesWellFormed(Form3, 0, Form3Table)
  {
    Form3Block00WellFormed();
    Form3Block08WellFormed();
    EntriesAppend(Form3, 0, Form3Block00, Form3Block08);
  }

  lemma Form1PrefixWellFormed18()
    ensures EntriesWellFormed(Form1, 0, Form1Block00 + Form1Block08 + Form1Block10 + Form1Block18)
  {
    Form1Block00WellFormed();
    Form1Block08WellFormed();
    Form1Block10WellFormed();
    Form1Block18WellFormed();
    var t := Form1Block00;
    EntriesAppend(Form1, 0, t, Form1Block08); t := t + Form1Block08;
    EntriesAppend(Form1, 0, t, Form1Block10); t := t + Form1Block10;
    EntriesAppend(Form1, 0, t, Form1Block18); t := t + Form1Block18;
  }

  lemma Form1PrefixWellFormed38()
    ensures EntriesWellFormed(Form1, 0, Form1Block00 + Form1Block08 + Form1Block10 + Form1Block18 + Form1Block20 + Form1Block28 + Form1Block30 + Form1Block38)
  {
    Form1PrefixWellFormed18();
    Form1Block20WellFormed();
    Form1Block28WellFormed();
    Form1Block30WellFormed();
    Form1Block38WellFormed();
    var t := Form1Block00 + Form1Block08 + Form1Block10 + Form1Block18;
    EntriesAppend(Form1, 0, t, Form1Block20); t := t + Form1Block20;
    EntriesAppend(Form1, 0, t, Form1Block28); t := t + Form1Block28;
    EntriesAppend(Form1, 0, t, Form1Block30); t := t + Form1Block30;
    EntriesAppend(Form1, 0, t, Form1Block38); t := t + Form1Block38;
  }

  lemma Form1PrefixWellFormed58()
    ensures EntriesWellFormed(Form1, 0, Form1Block00 + Form1Block08 + Form1Block10 + Form1Block18 + Form1Block20 + Form1Block28 + Form1Block30 + Form1Block38 + Form1Block40 + Form1Block48 + Form1Block50 + Form1Block58)
  {
    Form1PrefixWellFormed38();
    Form1Block40WellFormed();
    Form1Block48WellFormed();
    Form1Block50WellFormed();
    Form1Block58WellFormed();
    var t := Form1Block00 + Form1Block08 + Form1Block10 + Form1Block18 + Form1Block20 + Form1Block28 + Form1Block30 + Form1Block38;
    EntriesAppend(Form1, 0, t, Form1Block40); t := t + Form1Block40;
    EntriesAppend(Form1, 0, t, Form1Block48); t := t + Form1Block48;
    EntriesAppend(Form1, 0, t, Form1Block50); t := t + Form1Block50;
    EntriesAppend(Form1, 0, t, Form1Block58); t := t + Form1Block58;
  }

  lemma Form1PrefixWellFormed78()
    ensures EntriesWellFormed(Form1, 0, Form1Block00 + Form1Block08 + Form1Block10 + Form1Block18 + Form1Block20 + Form1Block28 + Form1Block30 + Form1Block38 + Form1Block40 + Form1Block48 + Form1Block50 + Form1Block58 + Form1Block60 + Form1Block68 + Form1Block70 + Form1Block78)
  {
    Form1PrefixWellFormed58();
    Form1Block60WellFormed();
    Form1Block68WellFormed();
    Form1Block70WellFormed();
    Form1Block78WellFormed();
    var t := Form1Block00 + Form1Block08 + Form1Block10 + Form1Block18 + Form1Block20 + Form1Block28 + Form1Block30 + Form1Block38 + Form1Block40 + Form1Block48 + Form1Block50 + Form1Block58;
    EntriesAppend(Form1, 0, t, Form1Block60); t := t + Form1Block60;
    EntriesAppend(Form1, 0, t, Form1Block68); t := t + Form1Block68;
    EntriesAppend(Form1, 0, t, Form1Block70); t := t + Form1Block70;
    EntriesAppend(Form1, 0, t, Form1Block78); t := t + Form1Block78;
  }

  lemma Form1TableWellFormed()
    ensures EntriesWellFormed(Form1, 0, Form1Table)
  {
    Form1PrefixWellFormed78();
  }

  /** Each table has one entry per value of its form's opcode field: 128, 4 and 16. */
  lemma TableSize(f: Form)
    ensures |Tables.Of(f)| == Pow2(OpcodeBits(f))
  {
    OpcodeValueCounts();
  }

  /** Each table has the size of its opcode field, and every entry is well formed at its own index. */
  lemma TableWellFormed(f: Form)
    ensures |Tables.Of(f)| == Pow2(OpcodeBits(f))
    ensures EntriesWellFormed(f, 0, Tables.Of(f))
  {
    OpcodeValueCounts();
    match f
    case Form1 => Form1TableWellFormed();
    case Form2 => Form2TableWellFormed();
    case Form3 => Form3TableWellFormed();
  }

  /**
    The structural invariants of valid tables at every index: the table is dense
    (index o holds opcode o), an entry is BAD exactly when it is named "bad" and
    exactly at the reserved opcodes, every other entry has a tag of its own form's
    family, and the F2_NARG and F3_NARG tags are never used, which leaves one tag
    for every entry of form 2 and one for every assigned entry of form 3.
  */
  lemma EntryInvariants(tables: OpcodeTables, f: Form, o: nat)
    requires tables.Valid()
    requires o < |tables.Of(f)|
    ensures tables.Of(f)[o].opcode == o
    ensures tables.Of(f)[o].itype == Bad <==> tables.Of(f)[o].name == "bad"
    ensures tables.Of(f)[o].itype == Bad <==> Reserved(f, o)
    ensures tables.Of(f)[o].itype != Bad ==> FamilyOf(tables.Of(f)[o].itype) == Some(f)
    ensures f == Form2 ==> tables.Of(f)[o].itype == F2A8V
    ensures f == Form3 && tables.Of(f)[o].itype != Bad ==> tables.Of(f)[o].itype == F3PcRel
    ensures tables.Of(f)[o].itype != F2Narg && tables.Of(f)[o].itype != F3Narg
  {
    assert WellFormedEntry(f, 0 + o, tables.Of(f)[o]);
  }

  /** The tables as written satisfy everything a decoder relies on. */
  lemma TablesValid()
    ensures Tables.Valid()
  {
    forall f: Form
      ensures |Tables.Of(f)| == Pow2(OpcodeBits(f)) && EntriesWellFormed(f, 0, Tables.Of(f))
    {
      TableWellFormed(f);
    }
  }

  /** No two entries of t that are not BAD share a mnemonic. */
  predicate NamesDistinct(t: seq<OpcInfo>)
  {
    forall i, j | 0 <= i < j < |t| && t[i].itype != Bad && t[j].itype != Bad :: t[i].name != t[j].name
  }

  /** No entry of s shares a mnemonic with an entry of t, BAD entries aside. */
  predicate NamesDisjoint(s: seq<OpcInfo>, t: seq<OpcInfo>)
  {
    forall i, j | 0 <= i < |s| && 0 <= j < |t| && s[i].itype != Bad && t[j].itype != Bad :: s[i].name != t[j].name
  }

  lemma {:induction false} NamesDistinctAppend(s: seq<OpcInfo>, t: seq<OpcInfo>)
    requires NamesDistinct(s) && NamesDistinct(t) && NamesDisjoint(s, t)
    ensures NamesDistinct(s + t)
  {
    forall i, j | 0 <= i < j < |s + t| && (s + t)[i].itype != Bad && (s + t)[j].itype != Bad
      ensures (s + t)[i].name != (s + t)[j].name
    {
      if j < |s| {
        assert (s + t)[i] == s[i] && (s + t)[j] == s[j];
      } else if i < |s| {
        assert (s + t)[i] == s[i] && (s + t)[j] == t[j - |s|];
      } else {
        assert (s + t)[i] == t[i - |s|] && (s + t)[j] == t[j - |s|];
      }
    }
  }

  lemma {:induction false} NamesDisjointAppend(s1: seq<OpcInfo>, s2: seq<OpcInfo>, t: seq<OpcInfo>)
    requires NamesDisjoint(s1, t) && NamesDisjoint(s2, t)
    ensures NamesDisjoint(s1 + s2, t)
  {
    forall i, j | 0 <= i < |s1 + s2| && 0 <= j < |t| && (s1 + s2)[i].itype != Bad && t[j].itype != Bad
      ensures (s1 + s2)[i].name != t[j].name
    {
      if i < |s1| {
        assert (s1 + s2)[i] == s1[i];
      } else {
        assert (s1 + s2)[i] == s2[i - |s1|];
      }
    }
  }

  lemma {:induction false} NamesDisjointAppendRight(s: seq<OpcInfo>, t1: seq<OpcInfo>, t2: seq<OpcInfo>)
    requires NamesDisjoint(s, t1) && NamesDisjoint(s, t2)
    ensures NamesDisjoint(s, t1 + t2)
  {
    forall i, j | 0 <= i < |s| && 0 <= j < |t1 + t2| && s[i].itype != Bad && (t1 + t2)[j].itype != Bad
      ensures s[i].name != (t1 + t2)[j].name
    {
      if j < |t1| {
        assert (t1 + t2)[j] == t1[j];
      } else {
        assert (t1 + t2)[j] == t2[j - |t1|];
      }
    }
  }

  /** A block of form 1 opcodes at or above 0x3a is all BAD, so it clashes with no mnemonic. */
  lemma ReservedBlockNames(base: nat, block: seq<OpcInfo>, other: seq<OpcInfo>)
    requires 0x3a <= base && EntriesWellFormed(Form1, base, block)
    ensures NamesDistinct(block) && NamesDisjoint(other, block) && NamesDisjoint(block, other)
  {
    assert forall j | 0 <= j < |block| :: WellFormedEntry(Form1, base + j, block[j]);
  }

  lemma Block00NamesDistinct() ensures NamesDistinct(Form1Block00) {}
  lemma Block08NamesDistinct() ensures NamesDistinct(Form1Block08) {}
  lemma Block10NamesDistinct() ensures NamesDistinct(Form1Block10) {}
  lemma Block18NamesDistinct() ensures NamesDistinct(Form1Block18) {}
  lemma Block20NamesDistinct() ensures NamesDistinct(Form1Block20) {}
  lemma Block28NamesDistinct() ensures NamesDistinct(Form1Block28) {}
  lemma Block30NamesDistinct() ensures NamesDistinct(Form1Block30) {}
  lemma Block38NamesDistinct() ensures NamesDistinct(Form1Block38) {}
  lemma Form2NamesDistinct() ensures NamesDistinct(Form2Table) {}
  lemma Form3Block00NamesDistinct() ensures NamesDistinct(Form3Block00) {}
  lemma Form3Block08NamesDistinct() ensures NamesDistinct(Form3Block08) {}
  lemma Form3BlocksDisjoint() ensures NamesDisjoint(Form3Block00, Form3Block08) {}
  lemma Form3NamesDistinct()
    ensures NamesDistinct(Form3Table)
  {
    Form3Block00NamesDistinct();
    Form3Block08NamesDistinct();
    Form3BlocksDisjoint();
    NamesDistinctAppend(Form3Block00, Form3Block08);
  }
  lemma Blocks0008Disjoint() ensures NamesDisjoint(Form1Block00, Form1Block08) {}
  lemma Blocks0010Disjoint() ensures NamesDisjoint(Form1Block00, Form1Block10) {}
  lemma Blocks0018Disjoint() ensures NamesDisjoint(Form1Block00, Form1Block18) {}
  lemma Blocks0020Disjoint() ensures NamesDisjoint(Form1Block00, Form1Block20) {}
  lemma Blocks0028Disjoint() ensures NamesDisjoint(Form1Block00, Form1Block28) {}
  lemma Blocks0030Disjoint() ensures NamesDisjoint(Form1Block00, Form1Block30) {}
  lemma Blocks0038Disjoint() ensures NamesDisjoint(Form1Block00, Form1Block38) {}
  lemma Blocks0810Disjoint() ensures NamesDisjoint(Form1Block08, Form1Block10) {}
  lemma Blocks0818Disjoint() ensures NamesDisjoint(Form1Block08, Form1Block18) {}
  lemma Blocks0820Disjoint() ensures NamesDisjoint(Form1Block08, Form1Block20) {}
  lemma Blocks0828Disjoint() ensures NamesDisjoint(Form1Block08, Form1Block28) {}
  lemma Blocks0830Disjoint() ensures NamesDisjoint(Form1Block08, Form1Block30) {}
  lemma Blocks0838Disjoint() ensures NamesDisjoint(Form1Block08, Form1Block38) {}
  lemma Blocks1018Disjoint() ensures NamesDisjoint(Form1Block10, Form1Block18) {}
  lemma Blocks1020Disjoint() ensures NamesDisjoint(Form1Block10, Form1Block20) {}
  lemma Blocks1028Disjoint() ensures NamesDisjoint(Form1Block10, Form1Block28) {}
  lemma Blocks1030Disjoint() ensures NamesDisjoint(Form1Block10, Form1Block30) {}
  lemma Blocks1038Disjoint() ensures NamesDisjoint(Form1Block10, Form1Block38) {}
  lemma Blocks1820Disjoint() ensures NamesDisjoint(Form1Block18, Form1Block20) {}
  lemma Blocks1828Disjoint() ensures NamesDisjoint(Form1Block18, Form1Block28) {}
  lemma Blocks1830Disjoint() ensures NamesDisjoint(Form1Block18, Form1Block30) {}
  lemma Blocks1838Disjoint() ensures NamesDisjoint(Form1Block18, Form1Block38) {}
  lemma Blocks2028Disjoint() ensures NamesDisjoint(Form1Block20, Form1Block28) {}
  lemma Blocks2030Disjoint() ensures NamesDisjoint(Form1Block20, Form1Block30) {}
  lemma Blocks2038Disjoint() ensures NamesDisjoint(Form1Block20, Form1Block38) {}
  lemma Blocks2830Disjoint() ensures NamesDisjoint(Form1Block28, Form1Block30) {}
  lemma Blocks2838Disjoint() ensures NamesDisjoint(Form1Block28, Form1Block38) {}
  lemma Blocks3038Disjoint() ensures NamesDisjoint(Form1Block30, Form1Block38) {}
  lemma Block00Form2Disjoint() ensures NamesDisjoint(Form1Block00, Form2Table) {}
  lemma Block00Form3Block00Disjoint() ensures NamesDisjoint(Form1Block00, Form3Block00) {}
  lemma Block00Form3Block08Disjoint() ensures NamesDisjoint(Form1Block00, Form3Block08) {}
  lemma Block00Form3Disjoint()
    ensures NamesDisjoint(Form1Block00, Form3Table)
  {
    Block00Form3Block00Disjoint();
    Block00Form3Block08Disjoint();
    NamesDisjointAppendRight(Form1Block00, Form3Block00, Form3Block08);
  }
  lemma Block08Form2Disjoint() ensures NamesDisjoint(Form1Block08, Form2Table) {}
  lemma Block08Form3Block00Disjoint() ensures NamesDisjoint(Form1Block08, Form3Block00) {}
  lemma Block08Form3Block08Disjoint() ensures NamesDisjoint(Form1Block08, Form3Block08) {}
  lemma Block08Form3Disjoint()
    ensures NamesDisjoint(Form1Block08, Form3Table)
  {
    Block08Form3Block00Disjoint();
    Block08Form3Block08Disjoint();
    NamesDisjointAppendRight(Form1Block08, Form3Block00, Form3Block08);
  }
  lemma Block10Form2Disjoint() ensures NamesDisjoint(Form1Block10, Form2Table) {}
  lemma Block10Form3Block00Disjoint() ensures NamesDisjoint(Form1Block10, Form3Block00) {}
  lemma Block10Form3Block08Disjoint() ensures NamesDisjoint(Form1Block10, Form3Block08) {}
  lemma Block10Form3Disjoint()
    ensures NamesDisjoint(Form1Block10, Form3Table)
  {
    Block10Form3Block00Disjoint();
    Block10Form3Block08Disjoint();
    NamesDisjointAppendRight(Form1Block10, Form3Block00, Form3Block08);
  }
  lemma Block18Form2Disjoint() ensures NamesDisjoint(Form1Block18, Form2Table) {}
  lemma Block18Form3Block00Disjoint() ensures NamesDisjoint(Form1Block18, Form3Block00) {}
  lemma Block18Form3Block08Disjoint() ensures NamesDisjoint(Form1Block18, Form3Block08) {}
  lemma Block18Form3Disjoint()
    ensures NamesDisjoint(Form1Block18, Form3Table)
  {
    Block18Form3Block00Disjoint();
    Block18Form3Block08Disjoint();
    NamesDisjointAppendRight(Form1Block18, Form3Block00, Form3Block08);
  }
  lemma Block20Form2Disjoint() ensures NamesDisjoint(Form1Block20, Form2Table) {}
  lemma Block20Form3Block00Disjoint() ensures NamesDisjoint(Form1Block20, Form3Block00) {}
  lemma Block20Form3Block08Disjoint() ensures NamesDisjoint(Form1Block20, Form3Block08) {}
  lemma Block20Form3Disjoint()
    ensures NamesDisjoint(Form1Block20, Form3Table)
  {
    Block20Form3Block00Disjoint();
    Block20Form3Block08Disjoint();
    NamesDisjointAppendRight(Form1Block20, Form3Block00, Form3Block08);
  }
  lemma Block28Form2Disjoint() ensures NamesDisjoint(Form1Block28, Form2Table) {}
  lemma Block28Form3Block00Disjoint() ensures NamesDisjoint(Form1Block28, Form3Block00) {}
  lemma Block28Form3Block08Disjoint() ensures NamesDisjoint(Form1Block28, Form3Block08) {}
  lemma Block28Form3Disjoint()
    ensures NamesDisjoint(Form1Block28, Form3Table)
  {
    Block28Form3Block00Disjoint();
    Block28Form3Block08Disjoint();
    NamesDisjointAppendRight(Form1Block28, Form3Block00, Form3Block08);
  }
  lemma Block30Form2Disjoint() ensures NamesDisjoint(Form1Block30, Form2Table) {}
  lemma Block30Form3Block00Disjoint() ensures NamesDisjoint(Form1Block30, Form3Block00) {}
  lemma Block30Form3Block08Disjoint() ensures NamesDisjoint(Form1Block30, Form3Block08) {}
  lemma Block30Form3Disjoint()
    ensures NamesDisjoint(Form1Block30, Form3Table)
  {
    Block30Form3Block00Disjoint();
    Block30Form3Block08Disjoint();
    NamesDisjointAppendRight(Form1Block30, Form3Block00, Form3Block08);
  }
  lemma Block38Form2Disjoint() ensures NamesDisjoint(Form1Block38, Form2Table) {}
  lemma Block38Form3Block00Disjoint() ensures NamesDisjoint(Form1Block38, Form3Block00) {}
  lemma Block38Form3Block08Disjoint() ensures NamesDisjoint(Form1Block38, Form3Block08) {}
  lemma Block38Form3Disjoint()
    ensures NamesDisjoint(Form1Block38, Form3Table)
  {
    Block38Form3Block00Disjoint();
    Block38Form3Block08Disjoint();
    NamesDisjointAppendRight(Form1Block38, Form3Block00, Form3Block08);
  }
  lemma Form2Form3Block00Disjoint() ensures NamesDisjoint(Form2Table, Form3Block00) {}
  lemma Form2Form3Block08Disjoint() ensures NamesDisjoint(Form2Table, Form3Block08) {}
  lemma Form2Form3Disjoint()
    ensures NamesDisjoint(Form2Table, Form3Table)
  {
    Form2Form3Block00Disjoint();
    Form2Form3Block08Disjoint();
    NamesDisjointAppendRight(Form2Table, Form3Block00, Form3Block08);
  }

  lemma Form1NamesDistinct()
    ensures NamesDistinct(Form1Table)
  {
    Form1Block40WellFormed();
    Form1Block48WellFormed();
    Form1Block50WellFormed();
    Form1Block58WellFormed();
    Form1Block60WellFormed();
    Form1Block68WellFormed();
    Form1Block70WellFormed();
    Form1Block78WellFormed();
    var t := Form1Block00;
    Block00NamesDistinct();
    Block08NamesDistinct();
    Blocks0008Disjoint();
    var p := Form1Block00;
    NamesDistinctAppend(t, Form1Block08); t := t + Form1Block08;
    Block10NamesDistinct();
    Blocks0010Disjoint();
    var p10 := Form1Block00;
    Blocks0810Disjoint(); NamesDisjointAppend(p10, Form1Block08, Form1Block10); p10 := p10 + Form1Block08;
    NamesDistinctAppend(t, Form1Block10); t := t + Form1Block10;
    Block18NamesDistinct();
    Blocks0018Disjoint();
    var p18 := Form1Block00;
    Blocks0818Disjoint(); NamesDisjointAppend(p18, Form1Block08, Form1Block18); p18 := p18 + Form1Block08;
    Blocks1018Disjoint(); NamesDisjointAppend(p18, Form1Block10, Form1Block18); p18 := p18 + Form1Block10;
    NamesDistinctAppend(t, Form1Block18); t := t + Form1Block18;
    Block20NamesDistinct();
    Blocks0020Disjoint();
    var p20 := Form1Block00;
    Blocks0820Disjoint(); NamesDisjointAppend(p20, Form1Block08, Form1Block20); p20 := p20 + Form1Block08;
    Blocks1020Disjoint(); NamesDisjointAppend(p20, Form1Block10, Form1Block20); p20 := p20 + Form1Block10;
    Blocks1820Disjoint(); NamesDisjointAppend(p20, Form1Block18, Form1Block20); p20 := p20 + Form1Block18;
    NamesDistinctAppend(t, Form1Block20); t := t + Form1Block20;
    Block28NamesDistinct();
    Blocks0028Disjoint();
    var p28 := Form1Block00;
    Blocks0828Disjoint(); NamesDisjointAppend(p28, Form1Block08, Form1Block28); p28 := p28 + Form1Block08;
    Blocks1028Disjoint(); NamesDisjointAppend(p28, Form1Block10, Form1Block28); p28 := p28 + Form1Block10;
    Blocks1828Disjoint(); NamesDisjointAppend(p28, Form1Block18, Form1Block28); p28 := p28 + Form1Block18;
    Blocks2028Disjoint(); NamesDisjointAppend(p28, Form1Block20, Form1Block28); p28 := p28 + Form1Block20;
    NamesDistinctAppend(t, Form1Block28); t := t + Form1Block28;
    Block30NamesDistinct();
    Blocks0030Disjoint();
    var p30 := Form1Block00;
    Blocks0830Disjoint(); NamesDisjointAppend(p30, Form1Block08, Form1Block30); p30 := p30 + Form1Block08;
    Blocks1030Disjoint(); NamesDisjointAppend(p30, Form1Block10, Form1Block30); p30 := p30 + Form1Block10;
    Blocks1830Disjoint(); NamesDisjointAppend(p30, Form1Block18, Form1Block30); p30 := p30 + Form1Block18;
    Blocks2030Disjoint(); NamesDisjointAppend(p30, Form1Block20, Form1Block30); p30 := p30 + Form1Block20;
    Blocks2830Disjoint(); NamesDisjointAppend(p30, Form1Block28, Form1Block30); p30 := p30 + Form1Block28;
    NamesDistinctAppend(t, Form1Block30); t := t + Form1Block30;
    Block38NamesDistinct();
    Blocks0038Disjoint();
    var p38 := Form1Block00;
    Blocks0838Disjoint(); NamesDisjointAppend(p38, Form1Block08, Form1Block38); p38 := p38 + Form1Block08;
    Blocks1038Disjoint(); NamesDisjointAppend(p38, Form1Block10, Form1Block38); p38 := p38 + Form1Block10;
    Blocks1838Disjoint(); NamesDisjointAppend(p38, Form1Block18, Form1Block38); p38 := p38 + Form1Block18;
    Blocks2038Disjoint(); NamesDisjointAppend(p38, Form1Block20, Form1Block38); p38 := p38 + Form1Block20;
    Blocks2838Disjoint(); NamesDisjointAppend(p38, Form1Block28, Form1Block38); p38 := p38 + Form1Block28;
    Blocks3038Disjoint(); NamesDisjointAppend(p38, Form1Block30, Form1Block38); p38 := p38 + Form1Block30;
    NamesDistinctAppend(t, Form1Block38); t := t + Form1Block38;
    ReservedBlockNames(0x40, Form1Block40, t); NamesDistinctAppend(t, Form1Block40); t := t + Form1Block40;
    ReservedBlockNames(0x48, Form1Block48, t); NamesDistinctAppend(t, Form1Block48); t := t + Form1Block48;
    ReservedBlockNames(0x50, Form1Block50, t); NamesDistinctAppend(t, Form1Block50); t := t + Form1Block50;
    ReservedBlockNames(0x58, Form1Block58, t); NamesDistinctAppend(t, Form1Block58); t := t + Form1Block58;
    ReservedBlockNames(0x60, Form1Block60, t); NamesDistinctAppend(t, Form1Block60); t := t + Form1Block60;
    ReservedBlockNames(0x68, Form1Block68, t); NamesDistinctAppend(t, Form1Block68); t := t + Form1Block68;
    ReservedBlockNames(0x70, Form1Block70, t); NamesDistinctAppend(t, Form1Block70); t := t + Form1Block70;
    ReservedBlockNames(0x78, Form1Block78, t); NamesDistinctAppend(t, Form1Block78); t := t + Form1Block78;
  }

  lemma Form1Form2Disjoint()
    ensures NamesDisjoint(Form1Table, Form2Table)
  {
    Form1Block40WellFormed();
    Form1Block48WellFormed();
    Form1Block50WellFormed();
    Form1Block58WellFormed();
    Form1Block60WellFormed();
    Form1Block68WellFormed();
    Form1Block70WellFormed();
    Form1Block78WellFormed();
    var t := Form1Block00;
    Block00Form2Disjoint();
    Block08Form2Disjoint(); NamesDisjointAppend(t, Form1Block08, Form2Table); t := t + Form1Block08;
    Block10Form2Disjoint(); NamesDisjointAppend(t, Form1Block10, Form2Table); t := t + Form1Block10;
    Block18Form2Disjoint(); NamesDisjointAppend(t, Form1Block18, Form2Table); t := t + Form1Block18;
    Block20Form2Disjoint(); NamesDisjointAppend(t, Form1Block20, Form2Table); t := t + Form1Block20;
    Block28Form2Disjoint(); NamesDisjointAppend(t, Form1Block28, Form2Table); t := t + Form1Block28;
    Block30Form2Disjoint(); NamesDisjointAppend(t, Form1Block30, Form2Table); t := t + Form1Block30;
    Block38Form2Disjoint(); NamesDisjointAppend(t, Form1Block38, Form2Table); t := t + Form1Block38;
    ReservedBlockNames(0x40, Form1Block40, Form2Table); NamesDisjointAppend(t, Form1Block40, Form2Table); t := t + Form1Block40;
    ReservedBlockNames(0x48, Form1Block48, Form2Table); NamesDisjointAppend(t, Form1Block48, Form2Table); t := t + Form1Block48;
    ReservedBlockNames(0x50, Form1Block50, Form2Table); NamesDisjointAppend(t, Form1Block50, Form2Table); t := t + Form1Block50;
    ReservedBlockNames(0x58, Form1Block58, Form2Table); NamesDisjointAppend(t, Form1Block58, Form2Table); t := t + Form1Block58;
    ReservedBlockNames(0x60, Form1Block60, Form2Table); NamesDisjointAppend(t, Form1Block60, Form2Table); t := t + Form1Block60;
    ReservedBlockNames(0x68, Form1Block68, Form2Table); NamesDisjointAppend(t, Form1Block68, Form2Table); t := t + Form1Block68;
    ReservedBlockNames(0x70, Form1Block70, Form2Table); NamesDisjointAppend(t, Form1Block70, Form2Table); t := t + Form1Block70;
    ReservedBlockNames(0x78, Form1Block78, Form2Table); NamesDisjointAppend(t, Form1Block78, Form2Table); t := t + Form1Block78;
  }

  lemma Form1Form3Disjoint()
    ensures NamesDisjoint(Form1Table, Form3Table)
  {
    Form1Block40WellFormed();
    Form1Block48WellFormed();
    Form1Block50WellFormed();
    Form1Block58WellFormed();
    Form1Block60WellFormed();
    Form1Block68WellFormed();
    Form1Block70WellFormed();
    Form1Block78WellFormed();
    var t := Form1Block00;
    Block00Form3Disjoint();
    Block08Form3Disjoint(); NamesDisjointAppend(t, Form1Block08, Form3Table); t := t + Form1Block08;
    Block10Form3Disjoint(); NamesDisjointAppend(t, Form1Block10, Form3Table); t := t + Form1Block10;
    Block18Form3Disjoint(); NamesDisjointAppend(t, Form1Block18, Form3Table); t := t + Form1Block18;
    Block20Form3Disjoint(); NamesDisjointAppend(t, Form1Block20, Form3Table); t := t + Form1Block20;
    Block28Form3Disjoint(); NamesDisjointAppend(t, Form1Block28, Form3Table); t := t + Form1Block28;
    Block30Form3Disjoint(); NamesDisjointAppend(t, Form1Block30, Form3Table); t := t + Form1Block30;
    Block38Form3Disjoint(); NamesDisjointAppend(t, Form1Block38, Form3Table); t := t + Form1Block38;
    ReservedBlockNames(0x40, Form1Block40, Form3Table); NamesDisjointAppend(t, Form1Block40, Form3Table); t := t + Form1Block40;
    ReservedBlockNames(0x48, Form1Block48, Form3Table); NamesDisjointAppend(t, Form1Block48, Form3Table); t := t + Form1Block48;
    ReservedBlockNames(0x50, Form1Block50, Form3Table); NamesDisjointAppend(t, Form1Block50, Form3Table); t := t + Form1Block50;
    ReservedBlockNames(0x58, Form1Block58, Form3Table); NamesDisjointAppend(t, Form1Block58, Form3Table); t := t + Form1Block58;
    ReservedBlockNames(0x60, Form1Block60, Form3Table); NamesDisjointAppend(t, Form1Block60, Form3Table); t := t + Form1Block60;
    ReservedBlockNames(0x68, Form1Block68, Form3Table); NamesDisjointAppend(t, Form1Block68, Form3Table); t := t + Form1Block68;
    ReservedBlockNames(0x70, Form1Block70, Form3Table); NamesDisjointAppend(t, Form1Block70, Form3Table); t := t + Form1Block70;
    ReservedBlockNames(0x78, Form1Block78, Form3Table); NamesDisjointAppend(t, Form1Block78, Form3Table); t := t + Form1Block78;
  }

  /**
    No two entries of the tables as written that are not BAD share a mnemonic,
    within a table or across the three: a mnemonic names at most one (form, opcode).
  */
  lemma TablesMnemonicsUnique()
    ensures Tables.MnemonicsUnique()
  {
    Form1NamesDistinct(); Form2NamesDistinct(); Form3NamesDistinct();
    Form1Form2Disjoint(); Form1Form3Disjoint(); Form2Form3Disjoint();
    forall f1: Form, o1, f2: Form, o2 |
      && 0 <= o1 < |Tables.Of(f1)| && 0 <= o2 < |Tables.Of(f2)|
      && Tables.Of(f1)[o1].itype != Bad && Tables.Of(f2)[o2].itype != Bad
      && Tables.Of(f1)[o1].name == Tables.Of(f2)[o2].name
      ensures f1 == f2 && o1 == o2
    {
      if f1 == f2 {
        assert !(o1 < o2) && !(o2 < o1);
      }
    }
  }

  /** The first index at or after i whose entry is not BAD and carries this mnemonic. */
  function FindIn(t: seq<OpcInfo>, name: string, i: nat): (r: Option<nat>)
    requires i <= |t|
    ensures r.Some? ==> i <= r.value < |t| && t[r.value].itype != Bad && t[r.value].name == name
    ensures r.Some? ==> forall j | i <= j < r.value :: t[j].itype == Bad || t[j].name != name
    ensures r.None? ==> forall j | i <= j < |t| :: t[j].itype == Bad || t[j].name != name
    decreases |t| - i
  {
    if i == |t| then None
    else if t[i].itype != Bad && t[i].name == name then Some(i)
    else FindIn(t, name, i + 1)
  }

  /**
    Reverse lookup for an assembler: the form and opcode whose entry carries this
    mnemonic, searching form 1, then form 2, then form 3, each from opcode 0.
    BAD entries are never found.
  */
  function FindMnemonic(tables: OpcodeTables, name: string): (r: Option<(Form, nat)>)
    ensures r.Some? ==> r.value.1 < |tables.Of(r.value.0)|
    ensures r.Some? ==>
      tables.Of(r.value.0)[r.value.1].itype != Bad && tables.Of(r.value.0)[r.value.1].name == name
    ensures r.None? ==>
      forall f: Form, o | 0 <= o < |tables.Of(f)| :: tables.Of(f)[o].itype == Bad || tables.Of(f)[o].name != name
    ensures r.Some? ==> FindIn(tables.Of(r.value.0), name, 0) == Some(r.value.1)
    ensures r.Some? && r.value.0 != Form1 ==> FindIn(tables.Of(Form1), name, 0).None?
    ensures r.Some? && r.value.0 == Form3 ==> FindIn(tables.Of(Form2), name, 0).None?
  {
    match FindIn(tables.Of(Form1), name, 0)
    case Some(o) => Some((Form1, o))
    case None =>
      match FindIn(tables.Of(Form2), name, 0)
      case Some(o) => Some((Form2, o))
      case None =>
        match FindIn(tables.Of(Form3), name, 0)
        case Some(o) => Some((Form3, o))
        case None => NotInAnyTable(tables, name); None
  }

  lemma NotInAnyTable(tables: OpcodeTables, name: string)
    requires FindIn(tables.Of(Form1), name, 0).None?
    requires FindIn(tables.Of(Form2), name, 0).None?
    requires FindIn(tables.Of(Form3), name, 0).None?
    ensures forall f: Form, o | 0 <= o < |tables.Of(f)| :: tables.Of(f)[o].itype == Bad || tables.Of(f)[o].name != name
  {
    forall f: Form, o | 0 <= o < |tables.Of(f)|
      ensures tables.Of(f)[o].itype == Bad || tables.Of(f)[o].name != name
    {
      assert FindIn(tables.Of(f), name, 0).None?;
    }
  }

  /**
    When mnemonics are unique, looking up the mnemonic of any entry that is not BAD
    finds that entry's form and opcode.
  */
  lemma FindMnemonicOfEntry(tables: OpcodeTables, f: Form, o: nat)
    requires tables.MnemonicsUnique()
    requires o < |tables.Of(f)| && tables.Of(f)[o].itype != Bad
    ensures FindMnemonic(tables, tables.Of(f)[o].name) == Some((f, o))
  {
    var r := FindMnemonic(tables, tables.Of(f)[o].name);
    assert r.Some?;
  }

  /** "bad" is not a mnemonic an assembler can look up in valid tables. */
  lemma BadIsNoMnemonic(tables: OpcodeTables)
    requires tables.Valid()
    ensures FindMnemonic(tables, "bad") == None
  {
    var r := FindMnemonic(tables, "bad");
    if r.Some? {
      EntryInvariants(tables, r.value.0, r.value.1);
    }
  }
}
