# Bonjour instruction encoding, in Dafny

A model of the instruction encoding of the Bonjour 16-bit processor (a Moxie-style
ISA), as its binutils port describes it:

- the bit layout of the three instruction forms (the comment at the top of
  `opcodes/bonjour-opc.c`);
- the operand-layout tags of `include/opcode/bonjour.h` and what each one says an
  instruction carries;
- the three opcode tables `bonjour_form1_opc_info[128]`,
  `bonjour_form2_opc_info[4]` and `bonjour_form3_opc_info[16]`, transcribed entry
  by entry.

The port itself contains no decoding routine; the layout comment and the tables
fully determine one, and that decoder is what the model builds and proves things
about. It reads the leading 16-bit word, classifies it by its leading bits,
extracts the form's fields, indexes the form's table, reports a BAD entry as an
invalid opcode, and reads the bytes the entry's tag says follow the word. An
encoder (`Encode`, built on `Pack`) and a reverse lookup from mnemonic to
(form, opcode) (`FindMnemonic`) are its inverses.

Files and modules:

| file | module | contents |
|---|---|---|
| `wrappers.dfy` | `Wrappers` | `Option` and `Result` |
| `format.dfy` | `BonjourFormat` | forms, 16-bit words, the `Fields` of a word, `Unpack`/`Pack` and their round trips |
| `tags.dfy` | `BonjourTags` | the `BONJOUR_*` tags, their values and families, operand shapes, trailing bytes and instruction length |
| `tables.dfy` | `BonjourTables` | the `bonjour_opc_info_t` record, the three tables, their invariants, unique mnemonics, reverse lookup |
| `bytes.dfy` | `BonjourBytes` | bytes, byte order, numbers stored in a run of bytes |
| `decoder.dfy` | `BonjourDecoder` | table lookup, `Decode`, `Encode`, the decode/encode round trips, operands |
| `samples.dfy` | `BonjourSamples` | particular words and byte strings decoded |

The decoder takes the tables as a parameter (`OpcodeTables`), much as the C
tables are `extern` arrays consulted by their users. Everything it promises holds
for any tables satisfying `OpcodeTables.Valid` (right sizes; every entry dense,
BAD exactly at the reserved slots and named "bad" exactly there, tagged from its
own form's family, never F2_NARG or F3_NARG). `BonjourTables.TablesValid` proves
that the tables as written are valid, and `BonjourTables.TablesMnemonicsUnique`
that their mnemonics are unique. So every decoder lemma applies to
`BonjourTables.Tables`. The worked examples in `samples.dfy` likewise hold for any
valid tables that have the one entry they use, and a companion `*Entry` lemma
shows that the tables as written have it.

## Model

| member | source | states |
|---|---|---|
| BonjourFormat.FormOf | opcodes/bonjour-opc.c:25-51 | a word is form 1 exactly when its top bit is 0, form 2 exactly when its top bits are 10, form 3 exactly when they are 11, so every word has exactly one form |
| BonjourFormat.OpcodeFitsWidth | opcodes/bonjour-opc.c:29-50 | the opcode field of in-range fields is below 2 to the width of the form's opcode field (7, 2 or 4 bits) |
| BonjourFormat.OpcodeValueCounts | opcodes/bonjour-opc.c:32-50 | the 7-, 2- and 4-bit opcode fields take 128, 4 and 16 values |
| BonjourFormat.Unpack | opcodes/bonjour-opc.c:25-51 | the fields extracted from a word are in range for its form (opcode below 128/4/16, A and B below 16, value below 256 in form 2 and below 1024 in form 3, absent fields zero) and carry the word's form |
| BonjourFormat.Pack | opcodes/bonjour-opc.c:25-51 | packing in-range fields gives a word of the fields' form |
| BonjourFormat.UnpackPack | opcodes/bonjour-opc.c:29-47 | extracting the fields of a packed word gives back the fields, in every form |
| BonjourFormat.PackUnpack | opcodes/bonjour-opc.c:29-47 | re-packing the fields extracted from any word gives back the word |
| BonjourTags.Value | include/opcode/bonjour.h:44-63 | every tag's #define value lies in 0x100-0x10b, 0x200-0x20b, 0x300-0x30b or 0x400-0x40b; its partners `FromValueOfValue` and `ValuesDistinct` show the values are the header's and are distinct |
| BonjourTags.FamilyOf | include/opcode/bonjour.h:44-63 | only BAD belongs to no form's table; `FamilyByValue` ties each family to value / 0x100 |
| BonjourTags.FromValue | include/opcode/bonjour.h:44-63 | a value that names a tag lies in one of the four families 0x1xx to 0x4xx |
| BonjourTags.FromValueOfValue | include/opcode/bonjour.h:44-63 | reading back any tag's #define value gives the tag |
| BonjourTags.ValueOfFromValue | include/opcode/bonjour.h:44-63 | a value read as a tag is that tag's #define value |
| BonjourTags.ValuesDistinct | include/opcode/bonjour.h:44-63 | no two tags share a value |
| BonjourTags.FamilyByValue | include/opcode/bonjour.h:44-63 | value / 0x100 is 1, 2, 3 or 4 exactly for the form-1, form-2, form-3 tags and BAD; F1 tags lie in 0x100-0x10b, F2 in 0x200-0x201, F3 in 0x300-0x301, BAD is 0x400 |
| BonjourTags.ShapeOf | include/opcode/bonjour.h:20-42 | exactly F1_A4, F1_4, F1_M, F1_4A, F1_AiB2, F1_ABi2, F2_A8V and F3_PCREL carry a value; `RegisterUse` states which register fields each tag uses |
| BonjourTags.RegisterUse | include/opcode/bonjour.h:20-42 | A is used directly exactly by F1_A, F1_AB, F1_A4, F1_ABi, F1_ABi2 and F2_A8V, and indirectly exactly by F1_AiB and F1_AiB2; B is used directly exactly by F1_AB, F1_AiB and F1_AiB2, and indirectly exactly by F1_ABi and F1_ABi2; the unnamed "X" of F1_4A is the only unspecified use; every other tag uses no register field |
| BonjourTags.TrailingBytes | include/opcode/bonjour.h:20-32 | exactly F1_A4, F1_4, F1_M and F1_4A are followed by 4 bytes, exactly F1_AiB2 and F1_ABi2 by 2, every other tag by none |
| BonjourTags.Length | include/opcode/bonjour.h:20-42 | an instruction is 2, 4 or 6 bytes long, and longer than its word only in form 1 |
| BonjourTags.ShapeFitsLayout | include/opcode/bonjour.h:20-42 | forms 2 and 3 use no B field and no trailing bytes, form 3 no A field; an 8-bit value is carried exactly by F2_A8V and a 10-bit PC-relative field exactly by F3_PCREL |
| BonjourTables.TableSize | include/opcode/bonjour.h:72-74 | the tables have 128, 4 and 16 entries, one per value of the form's opcode field |
| BonjourTables.TableWellFormed | opcodes/bonjour-opc.c:53-211 | each table has its opcode field's size and every entry is well formed at its own index |
| BonjourTables.TablesValid | opcodes/bonjour-opc.c:53-211 | the tables as written satisfy `OpcodeTables.Valid` |
| BonjourTables.EntryInvariants | opcodes/bonjour-opc.c:53-211 | in valid tables, entry o carries opcode o; it is BAD exactly when named "bad" and exactly at form 1 0x00, 0x16-0x18, 0x3a-0x7f and form 3 0x0a-0x0f (none in form 2); otherwise its tag is of its form's family; form 2 entries are F2_A8V, assigned form 3 entries F3_PCREL, and F2_NARG/F3_NARG never occur |
| BonjourTables.TablesMnemonicsUnique | opcodes/bonjour-opc.c:53-211 | no two non-BAD entries of the tables as written share a mnemonic, within or across tables |
| BonjourTables.FindIn | opcodes/bonjour-opc.c:53-211 | the search returns the first non-BAD index carrying the mnemonic, or none when no non-BAD entry carries it |
| BonjourTables.FindMnemonic | opcodes/bonjour-opc.c:53-211 | a found (form, opcode) holds a non-BAD entry with that mnemonic; none is found only when no non-BAD entry of any table carries it; the search takes form 1 first, then form 2, then form 3, and the first matching opcode of that form |
| BonjourTables.NotInAnyTable | opcodes/bonjour-opc.c:53-211 | a mnemonic missing from all three searches is carried by no non-BAD entry |
| BonjourTables.FindMnemonicOfEntry | opcodes/bonjour-opc.c:53-211 | with unique mnemonics, looking up any non-BAD entry's mnemonic finds exactly its form and opcode: reverse lookup inverts table lookup |
| BonjourTables.BadIsNoMnemonic | opcodes/bonjour-opc.c:55 | "bad" is never found by reverse lookup in valid tables |
| BonjourDecoder.Lookup | opcodes/bonjour-opc.c:53-211 | indexing a form's table fails exactly at the reserved opcodes, with InvalidOpcode naming them; otherwise it gives the entry at that index, which carries the opcode and a tag of the form's family |
| BonjourDecoder.WordAt | opcodes/bonjour-opc.c:25 | the leading word is the two bytes at the offset, high byte first in big-endian order and second in little-endian order |
| BonjourDecoder.Decode | opcodes/bonjour-opc.c:25-211 | fewer than 2 bytes is TruncatedInput; a decoded instruction is valid, fits in the input, has the fields of the word at the offset and the value of the bytes its tag says follow |
| BonjourDecoder.DecodeFailure | opcodes/bonjour-opc.c:53-211 | decoding fails with InvalidOpcode exactly when the word's opcode field selects a reserved (BAD) slot, and with TruncatedInput otherwise exactly when the bytes stop before the tag's length |
| BonjourDecoder.DecodeWith | opcodes/bonjour-opc.c:25-211 | once the word's fields and their entry are known, the tag's length alone decides between truncation and the decoded instruction |
| BonjourDecoder.DecodeAt | opcodes/bonjour-opc.c:25-51 | bytes holding a valid instruction's packed word followed by its trailing value decode to that instruction |
| BonjourDecoder.Encode | include/opcode/bonjour.h:20-32 | an encoded instruction is exactly as long as its tag says |
| BonjourDecoder.DecodeEncode | opcodes/bonjour-opc.c:25-51 | decoding the encoding of a valid instruction, wherever it sits in a byte stream and in either byte order, gives it back |
| BonjourDecoder.EncodeDecode | opcodes/bonjour-opc.c:25-51 | encoding a decoded instruction reproduces exactly the bytes it was decoded from |
| BonjourDecoder.ValidInstructionTag | opcodes/bonjour-opc.c:185-211 | a valid instruction's tag is of its form's family, never F2_NARG or F3_NARG, F2_A8V in form 2 and F3_PCREL in form 3 |
| BonjourDecoder.ValidInstructionMnemonic | opcodes/bonjour-opc.c:53-211 | a valid instruction's mnemonic is not "bad", and reverse lookup of it finds the instruction's form and opcode |
| BonjourDecoder.RegOperands | include/opcode/bonjour.h:20-42 | a field used directly gives the register with the field's index, a field used indirectly the memory that register points at, and an unused or unnamed field no operand |
| BonjourDecoder.CarriedValueFits | include/opcode/bonjour.h:20-42 | the value an instruction carries fits the width of its tag's value kind (32, 16, 8 or 10 bits) |
| BonjourDecoder.Operands | include/opcode/bonjour.h:20-42 | at most three operands: the operand of field A under the tag's use of A, then that of field B, then, exactly when the tag carries a value, that value of the tag's kind, within its width |
| BonjourDecoder.OperandsByTag | include/opcode/bonjour.h:20-42 | the operand list of every tag written out: no operands for the NARG tags; A; A and B; A and a 32-bit immediate; a 32-bit immediate; a 32-bit address; indirect A and B; A and indirect B; the 32-bit immediate of F1_4A; indirect A, B and a 16-bit offset; A, indirect B and a 16-bit offset; A and an 8-bit value; the 10-bit PC-relative field |
| BonjourSamples.UnpackAdd | opcodes/bonjour-opc.c:29-34 | 0x0523 is form 1, opcode 5, A = 2, B = 3 |
| BonjourSamples.UnpackLoadImmediate | opcodes/bonjour-opc.c:29-34 | 0x0120 is form 1, opcode 1, A = 2 |
| BonjourSamples.UnpackIncrement | opcodes/bonjour-opc.c:38-43 | 0x82FF is form 2, opcode 0, A = 2, value 0xFF |
| BonjourSamples.UnpackBranch | opcodes/bonjour-opc.c:47-51 | 0xC3FF is form 3, opcode 0, 10-bit field 0x3FF |
| BonjourSamples.UnpackZero | opcodes/bonjour-opc.c:29-34 | 0x0000 is form 1, opcode 0 |
| BonjourSamples.UnpackAllOnes | opcodes/bonjour-opc.c:47-51 | 0xFFFF is form 3, opcode 0xF, field 0x3FF |
| BonjourSamples.AddEntry | opcodes/bonjour-opc.c:60 | form 1 opcode 0x05 is "add" with F1_AB |
| BonjourSamples.LoadImmediateEntry | opcodes/bonjour-opc.c:56 | form 1 opcode 0x01 is "ldi.l" with F1_A4 |
| BonjourSamples.IncrementEntry | opcodes/bonjour-opc.c:187 | form 2 opcode 0 is "inc" with F2_A8V |
| BonjourSamples.BranchEntry | opcodes/bonjour-opc.c:195 | form 3 opcode 0 is "beq" with F3_PCREL |
| BonjourSamples.DecodeAdd | opcodes/bonjour-opc.c:60 | bytes 05 23, big-endian, decode to add A=2 B=3 |
| BonjourSamples.DecodeAddLittleEndian | opcodes/bonjour-opc.c:60 | bytes 23 05, little-endian, decode to the same add |
| BonjourSamples.AddOperands | include/opcode/bonjour.h:24 | add's operands are registers 2 and 3 |
| BonjourSamples.DecodeLoadImmediate | opcodes/bonjour-opc.c:56 | bytes 01 20 12 34 56 78 decode to ldi.l A=2 with immediate 0x12345678 |
| BonjourSamples.ImmediateValue | include/opcode/bonjour.h:25 | the four bytes after the word are read as 0x12345678 |
| BonjourSamples.LoadImmediateOperands | include/opcode/bonjour.h:25 | ldi.l's operands are register 2 and the 32-bit immediate |
| BonjourSamples.DecodeLoadImmediateTruncated | opcodes/bonjour-opc.c:56 | ldi.l with only one byte after its word is TruncatedInput |
| BonjourSamples.DecodeIncrement | opcodes/bonjour-opc.c:187 | bytes 82 FF decode to inc A=2 with value 255 |
| BonjourSamples.IncrementOperands | include/opcode/bonjour.h:37 | inc's operands are register 2 and the 8-bit value 255 |
| BonjourSamples.DecodeBranch | opcodes/bonjour-opc.c:195 | bytes C3 FF decode to beq with 10-bit field 0x3FF |
| BonjourSamples.BranchOperands | include/opcode/bonjour.h:42 | beq's only operand is the 10-bit PC-relative field |
| BonjourSamples.DecodeZeroWord | opcodes/bonjour-opc.c:55 | the zero word is an invalid opcode (form 1, 0) in any valid tables |
| BonjourSamples.DecodeAllOnes | opcodes/bonjour-opc.c:210 | the all-ones word is an invalid opcode (form 3, 0xF) in any valid tables |

## Left out

- The debugger's register numbering (`gdb/bonjour-tdep.h`) is not part of this model. Register fields stay 4-bit indices and are not tied to those numbers.
- Byte order: the port does not fix it. `Decode` and `Encode` take it as a parameter, and the same order is used for the leading word and for the bytes that follow it.
- The meaning of the form-3 10-bit field is not modelled: its sign, its base address and any scaling. It is kept as the raw field, and no branch-target arithmetic is stated.
- BonjourDecoder.Operands: for F1_4A, the register the header says the instruction "uses" is not named, so no register operand is produced; only its 4 trailing bytes are recorded.
- Disassembly printing, assembler text parsing, relocation and symbols, and execution semantics are not modelled, since the port has no code for them here. The whole toolchain plumbing that consumes the tables is also left out.
- There is no assembler-style encoder that takes a mnemonic and an operand list and rejects unknown mnemonics, operands of the wrong shape or out-of-range values. `Encode` takes a whole `Instruction` and requires it to be `WellShaped`, and `FindMnemonic` gives the (form, opcode) of a mnemonic; matching operands against a shape is assembler parsing, which is not modelled.
- BonjourFormat.Unpack: `Fields` is one record for all three forms, and a field the form does not have is zero (B and the value in form 1, B in form 2, A and B in form 3), where the C layouts simply have no such field.
- The layout comment opens with "come in two forms" (opcodes/bonjour-opc.c:25) but then describes three. The model follows the three described layouts.
- The opcode of 0x82FF is (0x82FF >> 12) & 3 = 0, which is "inc" (opcodes/bonjour-opc.c:38, 187). The opcode of 0xC3FF is (0xC3FF >> 10) & 0xf = 0, which is "beq" (opcodes/bonjour-opc.c:47, 195). Its 10-bit field 0x3FF is kept raw (`UnpackIncrement`, `UnpackBranch`, `DecodeIncrement`, `DecodeBranch`).
- The decoder is proved for any tables satisfying `OpcodeTables.Valid`, and the tables as written are proved to satisfy it. This keeps the 128-entry literal out of the decoder's proofs; the worked decodes in `samples.dfy` are stated that way too.
