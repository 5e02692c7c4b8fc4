/** Facts about the instruction catalog of assembler.h: the mnemonic table has no
    repeated entry, which mnemonics can be looked up bare in OPCODE_TABLE, and where
    the opcodes used by the worked examples sit. Everything here is a property of the
    constant tables, checked entry by entry. */
module CatalogFacts {
  import opened Common
  import opened Ascii
  import opened Catalog

  /** No entry of `s` occurs twice. */
  ghost predicate Distinct(s: seq<string>) {
    forall i, j | 0 <= i < j < |s| :: s[i] != s[j]
  }

  /** No entry of `a` occurs in `b`. */
  ghost predicate Disjoint(a: seq<string>, b: seq<string>) {
    forall x | x in a :: x !in b
  }

  lemma DistinctAppend(a: seq<string>, b: seq<string>)
    requires Distinct(a) && Distinct(b) && Disjoint(a, b)
    ensures Distinct(a + b)
  {
    forall i, j | 0 <= i < j < |a + b|
      ensures (a + b)[i] != (a + b)[j]
    {
      if j < |a| {
      } else if |a| <= i {
        assert (a + b)[i] == b[i - |a|] && (a + b)[j] == b[j - |a|];
      } else {
        assert (a + b)[i] == a[i] && a[i] in a;
        assert (a + b)[j] == b[j - |a|] && b[j - |a|] in b;
      }
    }
  }

  lemma DisjointAppendLeft(a: seq<string>, b: seq<string>, c: seq<string>)
    requires Disjoint(a, c) && Disjoint(b, c)
    ensures Disjoint(a + b, c)
  {
  }

  lemma DisjointAppendRight(a: seq<string>, b: seq<string>, c: seq<string>)
    requires Disjoint(a, b) && Disjoint(a, c)
    ensures Disjoint(a, b + c)
  {
  }

  lemma MnemonicRow00()
    ensures Distinct(MNEMONICS_00)
  {
  }

  lemma MnemonicRows00And08()
    ensures Disjoint(MNEMONICS_00, MNEMONICS_08)
  {
  }

  lemma MnemonicRows00And16()
    ensures Disjoint(MNEMONICS_00, MNEMONICS_16)
  {
  }

  lemma MnemonicRows00And24()
    ensures Disjoint(MNEMONICS_00, MNEMONICS_24)
  {
  }

  lemma MnemonicRows00And32()
    ensures Disjoint(MNEMONICS_00, MNEMONICS_32)
  {
  }

  lemma MnemonicRows00And40()
    ensures Disjoint(MNEMONICS_00, MNEMONICS_40)
  {
  }

  lemma MnemonicRows00And48()
    ensures Disjoint(MNEMONICS_00, MNEMONICS_48)
  {
  }

  lemma MnemonicRows00And56()
    ensures Disjoint(MNEMONICS_00, MNEMONICS_56)
  {
  }

  lemma MnemonicRows00And64()
    ensures Disjoint(MNEMONICS_00, MNEMONICS_64)
  {
  }

  lemma MnemonicRows00And72()
    ensures Disjoint(MNEMONICS_00, MNEMONICS_72)
  {
  }

  lemma MnemonicRow08()
    ensures Distinct(MNEMONICS_08)
  {
  }

  lemma MnemonicRows08And16()
    ensures Disjoint(MNEMONICS_08, MNEMONICS_16)
  {
  }

  lemma MnemonicRows08And24()
    ensures Disjoint(MNEMONICS_08, MNEMONICS_24)
  {
  }

  lemma MnemonicRows08And32()
    ensures Disjoint(MNEMONICS_08, MNEMONICS_32)
  {
  }

  lemma MnemonicRows08And40()
    ensures Disjoint(MNEMONICS_08, MNEMONICS_40)
  {
  }

  lemma MnemonicRows08And48()
    ensures Disjoint(MNEMONICS_08, MNEMONICS_48)
  {
  }

  lemma MnemonicRows08And56()
    ensures Disjoint(MNEMONICS_08, MNEMONICS_56)
  {
  }

  lemma MnemonicRows08And64()
    ensures Disjoint(MNEMONICS_08, MNEMONICS_64)
  {
  }

  lemma MnemonicRows08And72()
    ensures Disjoint(MNEMONICS_08, MNEMONICS_72)
  {
  }

  lemma MnemonicRow16()
    ensures Distinct(MNEMONICS_16)
  {
  }

  lemma MnemonicRows16And24()
    ensures Disjoint(MNEMONICS_16, MNEMONICS_24)
  {
  }

  lemma MnemonicRows16And32()
    ensures Disjoint(MNEMONICS_16, MNEMONICS_32)
  {
  }

  lemma MnemonicRows16And40()
    ensures Disjoint(MNEMONICS_16, MNEMONICS_40)
  {
  }

  lemma MnemonicRows16And48()
    ensures Disjoint(MNEMONICS_16, MNEMONICS_48)
  {
  }

  lemma MnemonicRows16And56()
    ensures Disjoint(MNEMONICS_16, MNEMONICS_56)
  {
  }

  lemma MnemonicRows16And64()
    ensures Disjoint(MNEMONICS_16, MNEMONICS_64)
  {
  }

  lemma MnemonicRows16And72()
    ensures Disjoint(MNEMONICS_16, MNEMONICS_72)
  {
  }

  lemma MnemonicRow24()
    ensures Distinct(MNEMONICS_24)
  {
  }

  lemma MnemonicRows24And32()
    ensures Disjoint(MNEMONICS_24, MNEMONICS_32)
  {
  }

  lemma MnemonicRows24And40()
    ensures Disjoint(MNEMONICS_24, MNEMONICS_40)
  {
  }

  lemma MnemonicRows24And48()
    ensures Disjoint(MNEMONICS_24, MNEMONICS_48)
  {
  }

  lemma MnemonicRows24And56()
    ensures Disjoint(MNEMONICS_24, MNEMONICS_56)
  {
  }

  lemma MnemonicRows24And64()
    ensures Disjoint(MNEMONICS_24, MNEMONICS_64)
  {
  }

  lemma MnemonicRows24And72()
    ensures Disjoint(MNEMONICS_24, MNEMONICS_72)
  {
  }

  lemma MnemonicRow32()
    ensures Distinct(MNEMONICS_32)
  {
  }

  lemma MnemonicRows32And40()
    ensures Disjoint(MNEMONICS_32, MNEMONICS_40)
  {
  }

  lemma MnemonicRows32And48()
    ensures Disjoint(MNEMONICS_32, MNEMONICS_48)
  {
  }

  lemma MnemonicRows32And56()
    ensures Disjoint(MNEMONICS_32, MNEMONICS_56)
  {
  }

  lemma MnemonicRows32And64()
    ensures Disjoint(MNEMONICS_32, MNEMONICS_64)
  {
  }

  lemma MnemonicRows32And72()
    ensures Disjoint(MNEMONICS_32, MNEMONICS_72)
  {
  }

  lemma MnemonicRow40()
    ensures Distinct(MNEMONICS_40)
  {
  }

  lemma MnemonicRows40And48()
    ensures Disjoint(MNEMONICS_40, MNEMONICS_48)
  {
  }

  lemma MnemonicRows40And56()
    ensures Disjoint(MNEMONICS_40, MNEMONICS_56)
  {
  }

  lemma MnemonicRows40And64()
    ensures Disjoint(MNEMONICS_40, MNEMONICS_64)
  {
  }

  lemma MnemonicRows40And72()
    ensures Disjoint(MNEMONICS_40, MNEMONICS_72)
  {
  }

  lemma MnemonicRow48()
    ensures Distinct(MNEMONICS_48)
  {
  }

  lemma MnemonicRows48And56()
    ensures Disjoint(MNEMONICS_48, MNEMONICS_56)
  {
  }

  lemma MnemonicRows48And64()
    ensures Disjoint(MNEMONICS_48, MNEMONICS_64)
  {
  }

  lemma MnemonicRows48And72()
    ensures Disjoint(MNEMONICS_48, MNEMONICS_72)
  {
  }

  lemma MnemonicRow56()
    ensures Distinct(MNEMONICS_56)
  {
  }

  lemma MnemonicRows56And64()
    ensures Disjoint(MNEMONICS_56, MNEMONICS_64)
  {
  }

  lemma MnemonicRows56And72()
    ensures Disjoint(MNEMONICS_56, MNEMONICS_72)
  {
  }

  lemma MnemonicRow64()
    ensures Distinct(MNEMONICS_64)
  {
  }

  lemma MnemonicRows64And72()
    ensures Disjoint(MNEMONICS_64, MNEMONICS_72)
  {
  }

  lemma MnemonicRow72()
    ensures Distinct(MNEMONICS_72)
  {
  }

  /** The 78 mnemonics of INSTRUCTION_TABLE_NO_OPERAND are pairwise distinct, so the
      first match find_instruction_no_operand reports is the only one. */
  lemma MnemonicsDistinct()
    ensures Distinct(INSTRUCTION_TABLE_NO_OPERAND)
  {
    MnemonicRow00();
    MnemonicRow08();
    MnemonicRow16();
    MnemonicRow24();
    MnemonicRow32();
    MnemonicRow40();
    MnemonicRow48();
    MnemonicRow56();
    MnemonicRow64();
    MnemonicRow72();
    MnemonicRows00And08();
    MnemonicRows00And16();
    MnemonicRows00And24();
    MnemonicRows00And32();
    MnemonicRows00And40();
    MnemonicRows00And48();
    MnemonicRows00And56();
    MnemonicRows00And64();
    MnemonicRows00And72();
    MnemonicRows08And16();
    MnemonicRows08And24();
    MnemonicRows08And32();
    MnemonicRows08And40();
    MnemonicRows08And48();
    MnemonicRows08And56();
    MnemonicRows08And64();
    MnemonicRows08And72();
    MnemonicRows16And24();
    MnemonicRows16And32();
    MnemonicRows16And40();
    MnemonicRows16And48();
    MnemonicRows16And56();
    MnemonicRows16And64();
    MnemonicRows16And72();
    MnemonicRows24And32();
    MnemonicRows24And40();
    MnemonicRows24And48();
    MnemonicRows24And56();
    MnemonicRows24And64();
    MnemonicRows24And72();
    MnemonicRows32And40();
    MnemonicRows32And48();
    MnemonicRows32And56();
    MnemonicRows32And64();
    MnemonicRows32And72();
    MnemonicRows40And48();
    MnemonicRows40And56();
    MnemonicRows40And64();
    MnemonicRows40And72();
    MnemonicRows48And56();
    MnemonicRows48And64();
    MnemonicRows48And72();
    MnemonicRows56And64();
    MnemonicRows56And72();
    MnemonicRows64And72();
    DistinctAppend(MNEMONICS_00, MNEMONICS_08);
    DistinctAppend(MNEMONICS_16, MNEMONICS_24);
    DisjointAppendRight(MNEMONICS_00, MNEMONICS_16, MNEMONICS_24);
    DisjointAppendRight(MNEMONICS_08, MNEMONICS_16, MNEMONICS_24);
    DisjointAppendLeft(MNEMONICS_00, MNEMONICS_08, MNEMONICS_16 + MNEMONICS_24);
    DistinctAppend(MNEMONICS_00 + MNEMONICS_08, MNEMONICS_16 + MNEMONICS_24);
    DistinctAppend(MNEMONICS_32, MNEMONICS_40);
    DistinctAppend(MNEMONICS_48, MNEMONICS_56);
    DisjointAppendRight(MNEMONICS_32, MNEMONICS_48, MNEMONICS_56);
    DisjointAppendRight(MNEMONICS_40, MNEMONICS_48, MNEMONICS_56);
    DisjointAppendLeft(MNEMONICS_32, MNEMONICS_40, MNEMONICS_48 + MNEMONICS_56);
    DistinctAppend(MNEMONICS_32 + MNEMONICS_40, MNEMONICS_48 + MNEMONICS_56);
    DisjointAppendRight(MNEMONICS_00, MNEMONICS_32, MNEMONICS_40);
    DisjointAppendRight(MNEMONICS_00, MNEMONICS_48, MNEMONICS_56);
    DisjointAppendRight(MNEMONICS_00, MNEMONICS_32 + MNEMONICS_40, MNEMONICS_48 + MNEMONICS_56);
    DisjointAppendRight(MNEMONICS_08, MNEMONICS_32, MNEMONICS_40);
    DisjointAppendRight(MNEMONICS_08, MNEMONICS_48, MNEMONICS_56);
    DisjointAppendRight(MNEMONICS_08, MNEMONICS_32 + MNEMONICS_40, MNEMONICS_48 + MNEMONICS_56);
    DisjointAppendLeft(MNEMONICS_00, MNEMONICS_08, (MNEMONICS_32 + MNEMONICS_40) + (MNEMONICS_48 + MNEMONICS_56));
    DisjointAppendRight(MNEMONICS_16, MNEMONICS_32, MNEMONICS_40);
    DisjointAppendRight(MNEMONICS_16, MNEMONICS_48, MNEMONICS_56);
    DisjointAppendRight(MNEMONICS_16, MNEMONICS_32 + MNEMONICS_40, MNEMONICS_48 + MNEMONICS_56);
    DisjointAppendRight(MNEMONICS_24, MNEMONICS_32, MNEMONICS_40);
    DisjointAppendRight(MNEMONICS_24, MNEMONICS_48, MNEMONICS_56);
    DisjointAppendRight(MNEMONICS_24, MNEMONICS_32 + MNEMONICS_40, MNEMONICS_48 + MNEMONICS_56);
    DisjointAppendLeft(MNEMONICS_16, MNEMONICS_24, (MNEMONICS_32 + MNEMONICS_40) + (MNEMONICS_48 + MNEMONICS_56));
    DisjointAppendLeft(MNEMONICS_00 + MNEMONICS_08, MNEMONICS_16 + MNEMONICS_24, (MNEMONICS_32 + MNEMONICS_40) + (MNEMONICS_48 + MNEMONICS_56));
    DistinctAppend((MNEMONICS_00 + MNEMONICS_08) + (MNEMONICS_16 + MNEMONICS_24), (MNEMONICS_32 + MNEMONICS_40) + (MNEMONICS_48 + MNEMONICS_56));
    DistinctAppend(MNEMONICS_64, MNEMONICS_72);
    DisjointAppendRight(MNEMONICS_00, MNEMONICS_64, MNEMONICS_72);
    DisjointAppendRight(MNEMONICS_08, MNEMONICS_64, MNEMONICS_72);
    DisjointAppendLeft(MNEMONICS_00, MNEMONICS_08, MNEMONICS_64 + MNEMONICS_72);
    DisjointAppendRight(MNEMONICS_16, MNEMONICS_64, MNEMONICS_72);
    DisjointAppendRight(MNEMONICS_24, MNEMONICS_64, MNEMONICS_72);
    DisjointAppendLeft(MNEMONICS_16, MNEMONICS_24, MNEMONICS_64 + MNEMONICS_72);
    DisjointAppendLeft(MNEMONICS_00 + MNEMONICS_08, MNEMONICS_16 + MNEMONICS_24, MNEMONICS_64 + MNEMONICS_72);
    DisjointAppendRight(MNEMONICS_32, MNEMONICS_64, MNEMONICS_72);
    DisjointAppendRight(MNEMONICS_40, MNEMONICS_64, MNEMONICS_72);
    DisjointAppendLeft(MNEMONICS_32, MNEMONICS_40, MNEMONICS_64 + MNEMONICS_72);
    DisjointAppendRight(MNEMONICS_48, MNEMONICS_64, MNEMONICS_72);
    DisjointAppendRight(MNEMONICS_56, MNEMONICS_64, MNEMONICS_72);
    DisjointAppendLeft(MNEMONICS_48, MNEMONICS_56, MNEMONICS_64 + MNEMONICS_72);
    DisjointAppendLeft(MNEMONICS_32 + MNEMONICS_40, MNEMONICS_48 + MNEMONICS_56, MNEMONICS_64 + MNEMONICS_72);
    DisjointAppendLeft((MNEMONICS_00 + MNEMONICS_08) + (MNEMONICS_16 + MNEMONICS_24), (MNEMONICS_32 + MNEMONICS_40) + (MNEMONICS_48 + MNEMONICS_56), MNEMONICS_64 + MNEMONICS_72);
    DistinctAppend(((MNEMONICS_00 + MNEMONICS_08) + (MNEMONICS_16 + MNEMONICS_24)) + ((MNEMONICS_32 + MNEMONICS_40) + (MNEMONICS_48 + MNEMONICS_56)), MNEMONICS_64 + MNEMONICS_72);
  }

  /** get_operand_type on any spelling of the k-th mnemonic yields the k-th operand shape:
      the mnemonics are distinct, so the first match is entry k itself. */
  lemma ShapeOfMnemonic(token: Token, k: nat)
    requires k < |INSTRUCTION_TABLE_NO_OPERAND| && Lower(token) == INSTRUCTION_TABLE_NO_OPERAND[k]
    ensures GetOperandType(token) == Ok(OPERAND_TYPE_TABLE[k])
  {
    TableSizes();
    MnemonicsDistinct();
    var i := FindInstruction(Lower(token));
    FindInstructionSpec(Lower(token));
    assert i != -1 by {
      assert INSTRUCTION_TABLE_NO_OPERAND[k] in INSTRUCTION_TABLE_NO_OPERAND;
    }
  }

  /** The operand shapes whose opcode generate_byte_code looks up with the bare mnemonic
      as the key (the others append the register operands to the key). */
  predicate UsesBareKey(shape: OperandType) {
    shape.OpNone? || shape.OpD8? || shape.OpPort? || shape.OpD16? || shape.OpAddress? || shape.OpRpD16?
  }

  /** The bare-key mnemonics that OPCODE_TABLE does not list under their bare name; their
      opcode lookup fails. */
  const UNLISTED_BARE_KEYS: set<string> := {"inr", "dcr", "in", "out", "lxi"}

  /** A key absent from every row is absent from OPCODE_TABLE. */
  lemma NotAnOpcode(key: string)
    requires key !in OPCODES_00
    requires key !in OPCODES_08
    requires key !in OPCODES_10
    requires key !in OPCODES_18
    requires key !in OPCODES_20
    requires key !in OPCODES_28
    requires key !in OPCODES_30
    requires key !in OPCODES_38
    requires key !in OPCODES_40
    requires key !in OPCODES_48
    requires key !in OPCODES_50
    requires key !in OPCODES_58
    requires key !in OPCODES_60
    requires key !in OPCODES_68
    requires key !in OPCODES_70
    requires key !in OPCODES_78
    requires key !in OPCODES_80
    requires key !in OPCODES_88
    requires key !in OPCODES_90
    requires key !in OPCODES_98
    requires key !in OPCODES_A0
    requires key !in OPCODES_A8
    requires key !in OPCODES_B0
    requires key !in OPCODES_B8
    requires key !in OPCODES_C0
    requires key !in OPCODES_C8
    requires key !in OPCODES_D0
    requires key !in OPCODES_D8
    requires key !in OPCODES_E0
    requires key !in OPCODES_E8
    requires key !in OPCODES_F0
    requires key !in OPCODES_F8
    ensures key !in OPCODE_TABLE
  {
  }

  lemma DcrAbsentFromRows00To38()
    ensures "dcr" !in OPCODES_00
    ensures "dcr" !in OPCODES_08
    ensures "dcr" !in OPCODES_10
    ensures "dcr" !in OPCODES_18
    ensures "dcr" !in OPCODES_20
    ensures "dcr" !in OPCODES_28
    ensures "dcr" !in OPCODES_30
    ensures "dcr" !in OPCODES_38
  {
  }

  lemma DcrAbsentFromRows40To78()
    ensures "dcr" !in OPCODES_40
    ensures "dcr" !in OPCODES_48
    ensures "dcr" !in OPCODES_50
    ensures "dcr" !in OPCODES_58
    ensures "dcr" !in OPCODES_60
    ensures "dcr" !in OPCODES_68
    ensures "dcr" !in OPCODES_70
    ensures "dcr" !in OPCODES_78
  {
  }

  lemma DcrAbsentFromRows80ToB8()
    ensures "dcr" !in OPCODES_80
    ensures "dcr" !in OPCODES_88
    ensures "dcr" !in OPCODES_90
    ensures "dcr" !in OPCODES_98
    ensures "dcr" !in OPCODES_A0
    ensures "dcr" !in OPCODES_A8
    ensures "dcr" !in OPCODES_B0
    ensures "dcr" !in OPCODES_B8
  {
  }

  lemma DcrAbsentFromRowsC0ToF8()
    ensures "dcr" !in OPCODES_C0
    ensures "dcr" !in OPCODES_C8
    ensures "dcr" !in OPCODES_D0
    ensures "dcr" !in OPCODES_D8
    ensures "dcr" !in OPCODES_E0
    ensures "dcr" !in OPCODES_E8
    ensures "dcr" !in OPCODES_F0
    ensures "dcr" !in OPCODES_F8
  {
  }

  lemma DcrNotAnOpcode()
    ensures "dcr" !in OPCODE_TABLE
  {
    DcrAbsentFromRows00To38();
    DcrAbsentFromRows40To78();
    DcrAbsentFromRows80ToB8();
    DcrAbsentFromRowsC0ToF8();
    NotAnOpcode("dcr");
  }

  lemma InAbsentFromRows00To38()
    ensures "in" !in OPCODES_00
    ensures "in" !in OPCODES_08
    ensures "in" !in OPCODES_10
    ensures "in" !in OPCODES_18
    ensures "in" !in OPCODES_20
    ensures "in" !in OPCODES_28
    ensures "in" !in OPCODES_30
    ensures "in" !in OPCODES_38
  {
  }

  lemma InAbsentFromRows40To78()
    ensures "in" !in OPCODES_40
    ensures "in" !in OPCODES_48
    ensures "in" !in OPCODES_50
    ensures "in" !in OPCODES_58
    ensures "in" !in OPCODES_60
    ensures "in" !in OPCODES_68
    ensures "in" !in OPCODES_70
    ensures "in" !in OPCODES_78
  {
  }

  lemma InAbsentFromRows80ToB8()
    ensures "in" !in OPCODES_80
    ensures "in" !in OPCODES_88
    ensures "in" !in OPCODES_90
    ensures "in" !in OPCODES_98
    ensures "in" !in OPCODES_A0
    ensures "in" !in OPCODES_A8
    ensures "in" !in OPCODES_B0
    ensures "in" !in OPCODES_B8
  {
  }

  lemma InAbsentFromRowsC0ToF8()
    ensures "in" !in OPCODES_C0
    ensures "in" !in OPCODES_C8
    ensures "in" !in OPCODES_D0
    ensures "in" !in OPCODES_D8
    ensures "in" !in OPCODES_E0
    ensures "in" !in OPCODES_E8
    ensures "in" !in OPCODES_F0
    ensures "in" !in OPCODES_F8
  {
  }

  lemma InNotAnOpcode()
    ensures "in" !in OPCODE_TABLE
  {
    InAbsentFromRows00To38();
    InAbsentFromRows40To78();
    InAbsentFromRows80ToB8();
    InAbsentFromRowsC0ToF8();
    NotAnOpcode("in");
  }

  lemma InrAbsentFromRows00To38()
    ensures "inr" !in OPCODES_00
    ensures "inr" !in OPCODES_08
    ensures "inr" !in OPCODES_10
    ensures "inr" !in OPCODES_18
    ensures "inr" !in OPCODES_20
    ensures "inr" !in OPCODES_28
    ensures "inr" !in OPCODES_30
    ensures "inr" !in OPCODES_38
  {
  }

  lemma InrAbsentFromRows40To78()
    ensures "inr" !in OPCODES_40
    ensures "inr" !in OPCODES_48
    ensures "inr" !in OPCODES_50
    ensures "inr" !in OPCODES_58
    ensures "inr" !in OPCODES_60
    ensures "inr" !in OPCODES_68
    ensures "inr" !in OPCODES_70
    ensures "inr" !in OPCODES_78
  {
  }

  lemma InrAbsentFromRows80ToB8()
    ensures "inr" !in OPCODES_80
    ensures "inr" !in OPCODES_88
    ensures "inr" !in OPCODES_90
    ensures "inr" !in OPCODES_98
    ensures "inr" !in OPCODES_A0
    ensures "inr" !in OPCODES_A8
    ensures "inr" !in OPCODES_B0
    ensures "inr" !in OPCODES_B8
  {
  }

  lemma InrAbsentFromRowsC0ToF8()
    ensures "inr" !in OPCODES_C0
    ensures "inr" !in OPCODES_C8
    ensures "inr" !in OPCODES_D0
    ensures "inr" !in OPCODES_D8
    ensures "inr" !in OPCODES_E0
    ensures "inr" !in OPCODES_E8
    ensures "inr" !in OPCODES_F0
    ensures "inr" !in OPCODES_F8
  {
  }

  lemma InrNotAnOpcode()
    ensures "inr" !in OPCODE_TABLE
  {
    InrAbsentFromRows00To38();
    InrAbsentFromRows40To78();
    InrAbsentFromRows80ToB8();
    InrAbsentFromRowsC0ToF8();
    NotAnOpcode("inr");
  }

  lemma LxiAbsentFromRows00To38()
    ensures "lxi" !in OPCODES_00
    ensures "lxi" !in OPCODES_08
    ensures "lxi" !in OPCODES_10
    ensures "lxi" !in OPCODES_18
    ensures "lxi" !in OPCODES_20
    ensures "lxi" !in OPCODES_28
    ensures "lxi" !in OPCODES_30
    ensures "lxi" !in OPCODES_38
  {
  }

  lemma LxiAbsentFromRows40To78()
    ensures "lxi" !in OPCODES_40
    ensures "lxi" !in OPCODES_48
    ensures "lxi" !in OPCODES_50
    ensures "lxi" !in OPCODES_58
    ensures "lxi" !in OPCODES_60
    ensures "lxi" !in OPCODES_68
    ensures "lxi" !in OPCODES_70
    ensures "lxi" !in OPCODES_78
  {
  }

  lemma LxiAbsentFromRows80ToB8()
    ensures "lxi" !in OPCODES_80
    ensures "lxi" !in OPCODES_88
    ensures "lxi" !in OPCODES_90
    ensures "lxi" !in OPCODES_98
    ensures "lxi" !in OPCODES_A0
    ensures "lxi" !in OPCODES_A8
    ensures "lxi" !in OPCODES_B0
    ensures "lxi" !in OPCODES_B8
  {
  }

  lemma LxiAbsentFromRowsC0ToF8()
    ensures "lxi" !in OPCODES_C0
    ensures "lxi" !in OPCODES_C8
    ensures "lxi" !in OPCODES_D0
    ensures "lxi" !in OPCODES_D8
    ensures "lxi" !in OPCODES_E0
    ensures "lxi" !in OPCODES_E8
    ensures "lxi" !in OPCODES_F0
    ensures "lxi" !in OPCODES_F8
  {
  }

  lemma LxiNotAnOpcode()
    ensures "lxi" !in OPCODE_TABLE
  {
    LxiAbsentFromRows00To38();
    LxiAbsentFromRows40To78();
    LxiAbsentFromRows80ToB8();
    LxiAbsentFromRowsC0ToF8();
    NotAnOpcode("lxi");
  }

  lemma OutAbsentFromRows00To38()
    ensures "out" !in OPCODES_00
    ensures "out" !in OPCODES_08
    ensures "out" !in OPCODES_10
    ensures "out" !in OPCODES_18
    ensures "out" !in OPCODES_20
    ensures "out" !in OPCODES_28
    ensures "out" !in OPCODES_30
    ensures "out" !in OPCODES_38
  {
  }

  lemma OutAbsentFromRows40To78()
    ensures "out" !in OPCODES_40
    ensures "out" !in OPCODES_48
    ensures "out" !in OPCODES_50
    ensures "out" !in OPCODES_58
    ensures "out" !in OPCODES_60
    ensures "out" !in OPCODES_68
    ensures "out" !in OPCODES_70
    ensures "out" !in OPCODES_78
  {
  }

  lemma OutAbsentFromRows80ToB8()
    ensures "out" !in OPCODES_80
    ensures "out" !in OPCODES_88
    ensures "out" !in OPCODES_90
    ensures "out" !in OPCODES_98
    ensures "out" !in OPCODES_A0
    ensures "out" !in OPCODES_A8
    ensures "out" !in OPCODES_B0
    ensures "out" !in OPCODES_B8
  {
  }

  lemma OutAbsentFromRowsC0ToF8()
    ensures "out" !in OPCODES_C0
    ensures "out" !in OPCODES_C8
    ensures "out" !in OPCODES_D0
    ensures "out" !in OPCODES_D8
    ensures "out" !in OPCODES_E0
    ensures "out" !in OPCODES_E8
    ensures "out" !in OPCODES_F0
    ensures "out" !in OPCODES_F8
  {
  }

  lemma OutNotAnOpcode()
    ensures "out" !in OPCODE_TABLE
  {
    OutAbsentFromRows00To38();
    OutAbsentFromRows40To78();
    OutAbsentFromRows80ToB8();
    OutAbsentFromRowsC0ToF8();
    NotAnOpcode("out");
  }

  /** A key listed in some row is listed in OPCODE_TABLE. */
  lemma AnOpcode(key: string)
    requires key in OPCODES_00
          || key in OPCODES_08
          || key in OPCODES_10
          || key in OPCODES_18
          || key in OPCODES_20
          || key in OPCODES_28
          || key in OPCODES_30
          || key in OPCODES_38
          || key in OPCODES_40
          || key in OPCODES_48
          || key in OPCODES_50
          || key in OPCODES_58
          || key in OPCODES_60
          || key in OPCODES_68
          || key in OPCODES_70
          || key in OPCODES_78
          || key in OPCODES_80
          || key in OPCODES_88
          || key in OPCODES_90
          || key in OPCODES_98
          || key in OPCODES_A0
          || key in OPCODES_A8
          || key in OPCODES_B0
          || key in OPCODES_B8
          || key in OPCODES_C0
          || key in OPCODES_C8
          || key in OPCODES_D0
          || key in OPCODES_D8
          || key in OPCODES_E0
          || key in OPCODES_E8
          || key in OPCODES_F0
          || key in OPCODES_F8
    ensures key in OPCODE_TABLE
  {
  }

  lemma LdaIsAnOpcode()
    ensures "lda" in OPCODE_TABLE
  {
    assert "lda" in OPCODES_38;
    AnOpcode("lda");
  }

  lemma StaIsAnOpcode()
    ensures "sta" in OPCODE_TABLE
  {
    assert "sta" in OPCODES_30;
    AnOpcode("sta");
  }

  lemma LhldIsAnOpcode()
    ensures "lhld" in OPCODE_TABLE
  {
    assert "lhld" in OPCODES_28;
    AnOpcode("lhld");
  }

  lemma ShldIsAnOpcode()
    ensures "shld" in OPCODE_TABLE
  {
    assert "shld" in OPCODES_20;
    AnOpcode("shld");
  }

  lemma XchgIsAnOpcode()
    ensures "xchg" in OPCODE_TABLE
  {
    assert "xchg" in OPCODES_E8;
    AnOpcode("xchg");
  }

  lemma AdiIsAnOpcode()
    ensures "adi" in OPCODE_TABLE
  {
    assert "adi" in OPCODES_C0;
    AnOpcode("adi");
  }

  lemma AciIsAnOpcode()
    ensures "aci" in OPCODE_TABLE
  {
    assert "aci" in OPCODES_C8;
    AnOpcode("aci");
  }

  lemma SuiIsAnOpcode()
    ensures "sui" in OPCODE_TABLE
  {
    assert "sui" in OPCODES_D0;
    AnOpcode("sui");
  }

  lemma SbiIsAnOpcode()
    ensures "sbi" in OPCODE_TABLE
  {
    assert "sbi" in OPCODES_D8;
    AnOpcode("sbi");
  }

  lemma DaaIsAnOpcode()
    ensures "daa" in OPCODE_TABLE
  {
    assert "daa" in OPCODES_20;
    AnOpcode("daa");
  }

  lemma AniIsAnOpcode()
    ensures "ani" in OPCODE_TABLE
  {
    assert "ani" in OPCODES_E0;
    AnOpcode("ani");
  }

  lemma OriIsAnOpcode()
    ensures "ori" in OPCODE_TABLE
  {
    assert "ori" in OPCODES_F0;
    AnOpcode("ori");
  }

  lemma XriIsAnOpcode()
    ensures "xri" in OPCODE_TABLE
  {
    assert "xri" in OPCODES_E8;
    AnOpcode("xri");
  }

  lemma CpiIsAnOpcode()
    ensures "cpi" in OPCODE_TABLE
  {
    assert "cpi" in OPCODES_F8;
    AnOpcode("cpi");
  }

  lemma RlcIsAnOpcode()
    ensures "rlc" in OPCODE_TABLE
  {
    assert "rlc" in OPCODES_00;
    AnOpcode("rlc");
  }

  lemma RrcIsAnOpcode()
    ensures "rrc" in OPCODE_TABLE
  {
    assert "rrc" in OPCODES_08;
    AnOpcode("rrc");
  }

  lemma RalIsAnOpcode()
    ensures "ral" in OPCODE_TABLE
  {
    assert "ral" in OPCODES_10;
    AnOpcode("ral");
  }

  lemma RarIsAnOpcode()
    ensures "rar" in OPCODE_TABLE
  {
    assert "rar" in OPCODES_18;
    AnOpcode("rar");
  }

  lemma CmaIsAnOpcode()
    ensures "cma" in OPCODE_TABLE
  {
    assert "cma" in OPCODES_28;
    AnOpcode("cma");
  }

  lemma CmcIsAnOpcode()
    ensures "cmc" in OPCODE_TABLE
  {
    assert "cmc" in OPCODES_38;
    AnOpcode("cmc");
  }

  lemma StcIsAnOpcode()
    ensures "stc" in OPCODE_TABLE
  {
    assert "stc" in OPCODES_30;
    AnOpcode("stc");
  }

  lemma JmpIsAnOpcode()
    ensures "jmp" in OPCODE_TABLE
  {
    assert "jmp" in OPCODES_C0;
    AnOpcode("jmp");
  }

  lemma JnzIsAnOpcode()
    ensures "jnz" in OPCODE_TABLE
  {
    assert "jnz" in OPCODES_C0;
    AnOpcode("jnz");
  }

  lemma JncIsAnOpcode()
    ensures "jnc" in OPCODE_TABLE
  {
    assert "jnc" in OPCODES_D0;
    AnOpcode("jnc");
  }

  lemma JpoIsAnOpcode()
    ensures "jpo" in OPCODE_TABLE
  {
    assert "jpo" in OPCODES_E0;
    AnOpcode("jpo");
  }

  lemma JpIsAnOpcode()
    ensures "jp" in OPCODE_TABLE
  {
    assert "jp" in OPCODES_F0;
    AnOpcode("jp");
  }

  lemma JzIsAnOpcode()
    ensures "jz" in OPCODE_TABLE
  {
    assert "jz" in OPCODES_C8;
    AnOpcode("jz");
  }

  lemma JcIsAnOpcode()
    ensures "jc" in OPCODE_TABLE
  {
    assert "jc" in OPCODES_D8;
    AnOpcode("jc");
  }

  lemma JpeIsAnOpcode()
    ensures "jpe" in OPCODE_TABLE
  {
    assert "jpe" in OPCODES_E8;
    AnOpcode("jpe");
  }

  lemma JmIsAnOpcode()
    ensures "jm" in OPCODE_TABLE
  {
    assert "jm" in OPCODES_F8;
    AnOpcode("jm");
  }

  lemma CallIsAnOpcode()
    ensures "call" in OPCODE_TABLE
  {
    assert "call" in OPCODES_C8;
    AnOpcode("call");
  }

  lemma CnzIsAnOpcode()
    ensures "cnz" in OPCODE_TABLE
  {
    assert "cnz" in OPCODES_C0;
    AnOpcode("cnz");
  }

  lemma CncIsAnOpcode()
    ensures "cnc" in OPCODE_TABLE
  {
    assert "cnc" in OPCODES_D0;
    AnOpcode("cnc");
  }

  lemma CpoIsAnOpcode()
    ensures "cpo" in OPCODE_TABLE
  {
    assert "cpo" in OPCODES_E0;
    AnOpcode("cpo");
  }

  lemma CpIsAnOpcode()
    ensures "cp" in OPCODE_TABLE
  {
    assert "cp" in OPCODES_F0;
    AnOpcode("cp");
  }

  lemma CzIsAnOpcode()
    ensures "cz" in OPCODE_TABLE
  {
    assert "cz" in OPCODES_C8;
    AnOpcode("cz");
  }

  lemma CcIsAnOpcode()
    ensures "cc" in OPCODE_TABLE
  {
    assert "cc" in OPCODES_D8;
    AnOpcode("cc");
  }

  lemma CpeIsAnOpcode()
    ensures "cpe" in OPCODE_TABLE
  {
    assert "cpe" in OPCODES_E8;
    AnOpcode("cpe");
  }

  lemma CmIsAnOpcode()
    ensures "cm" in OPCODE_TABLE
  {
    assert "cm" in OPCODES_F8;
    AnOpcode("cm");
  }

  lemma RetIsAnOpcode()
    ensures "ret" in OPCODE_TABLE
  {
    assert "ret" in OPCODES_C8;
    AnOpcode("ret");
  }

  lemma RnzIsAnOpcode()
    ensures "rnz" in OPCODE_TABLE
  {
    assert "rnz" in OPCODES_C0;
    AnOpcode("rnz");
  }

  lemma RncIsAnOpcode()
    ensures "rnc" in OPCODE_TABLE
  {
    assert "rnc" in OPCODES_D0;
    AnOpcode("rnc");
  }

  lemma RpoIsAnOpcode()
    ensures "rpo" in OPCODE_TABLE
  {
    assert "rpo" in OPCODES_E0;
    AnOpcode("rpo");
  }

  lemma RpIsAnOpcode()
    ensures "rp" in OPCODE_TABLE
  {
    assert "rp" in OPCODES_F0;
    AnOpcode("rp");
  }

  lemma RzIsAnOpcode()
    ensures "rz" in OPCODE_TABLE
  {
    assert "rz" in OPCODES_C8;
    AnOpcode("rz");
  }

  lemma RcIsAnOpcode()
    ensures "rc" in OPCODE_TABLE
  {
    assert "rc" in OPCODES_D8;
    AnOpcode("rc");
  }

  lemma RpeIsAnOpcode()
    ensures "rpe" in OPCODE_TABLE
  {
    assert "rpe" in OPCODES_E8;
    AnOpcode("rpe");
  }

  lemma RmIsAnOpcode()
    ensures "rm" in OPCODE_TABLE
  {
    assert "rm" in OPCODES_F8;
    AnOpcode("rm");
  }

  lemma PchlIsAnOpcode()
    ensures "pchl" in OPCODE_TABLE
  {
    assert "pchl" in OPCODES_E8;
    AnOpcode("pchl");
  }

  lemma XthlIsAnOpcode()
    ensures "xthl" in OPCODE_TABLE
  {
    assert "xthl" in OPCODES_E0;
    AnOpcode("xthl");
  }

  lemma SphlIsAnOpcode()
    ensures "sphl" in OPCODE_TABLE
  {
    assert "sphl" in OPCODES_F8;
    AnOpcode("sphl");
  }

  lemma EiIsAnOpcode()
    ensures "ei" in OPCODE_TABLE
  {
    assert "ei" in OPCODES_F8;
    AnOpcode("ei");
  }

  lemma DiIsAnOpcode()
    ensures "di" in OPCODE_TABLE
  {
    assert "di" in OPCODES_F0;
    AnOpcode("di");
  }

  lemma HltIsAnOpcode()
    ensures "hlt" in OPCODE_TABLE
  {
    assert "hlt" in OPCODES_70;
    AnOpcode("hlt");
  }

  lemma NopIsAnOpcode()
    ensures "nop" in OPCODE_TABLE
  {
    assert "nop" in OPCODES_00;
    AnOpcode("nop");
  }

  lemma MnemonicsAt00()
    ensures forall k | 0 <= k < 8 :: INSTRUCTION_TABLE_NO_OPERAND[k] == MNEMONICS_00[k - 0]
    ensures forall k | 0 <= k < 8 :: OPERAND_TYPE_TABLE[k] == OPERAND_TYPES_00[k - 0]
  {
    TableSizes();
  }

  lemma BareKeysInRow00()
    ensures forall k | 0 <= k < |MNEMONICS_00| && UsesBareKey(OPERAND_TYPES_00[k]) ::
              (MNEMONICS_00[k] in OPCODE_TABLE <==> MNEMONICS_00[k] !in UNLISTED_BARE_KEYS)
  {
    LxiNotAnOpcode();
    LdaIsAnOpcode();
    StaIsAnOpcode();
    LhldIsAnOpcode();
    ShldIsAnOpcode();
  }

  lemma BareKeysAt00()
    ensures forall k | 0 <= k < 8 && UsesBareKey(OPERAND_TYPE_TABLE[k]) ::
              (INSTRUCTION_TABLE_NO_OPERAND[k] in OPCODE_TABLE <==> INSTRUCTION_TABLE_NO_OPERAND[k] !in UNLISTED_BARE_KEYS)
  {
    BareKeysInRow00();
    MnemonicsAt00();
  }

  lemma MnemonicsAt08()
    ensures forall k | 8 <= k < 16 :: INSTRUCTION_TABLE_NO_OPERAND[k] == MNEMONICS_08[k - 8]
    ensures forall k | 8 <= k < 16 :: OPERAND_TYPE_TABLE[k] == OPERAND_TYPES_08[k - 8]
  {
    TableSizes();
  }

  lemma BareKeysInRow08()
    ensures forall k | 0 <= k < |MNEMONICS_08| && UsesBareKey(OPERAND_TYPES_08[k]) ::
              (MNEMONICS_08[k] in OPCODE_TABLE <==> MNEMONICS_08[k] !in UNLISTED_BARE_KEYS)
  {
    XchgIsAnOpcode();
    AdiIsAnOpcode();
    AciIsAnOpcode();
    SuiIsAnOpcode();
  }

  lemma BareKeysAt08()
    ensures forall k | 8 <= k < 16 && UsesBareKey(OPERAND_TYPE_TABLE[k]) ::
              (INSTRUCTION_TABLE_NO_OPERAND[k] in OPCODE_TABLE <==> INSTRUCTION_TABLE_NO_OPERAND[k] !in UNLISTED_BARE_KEYS)
  {
    BareKeysInRow08();
    MnemonicsAt08();
  }

  lemma MnemonicsAt16()
    ensures forall k | 16 <= k < 24 :: INSTRUCTION_TABLE_NO_OPERAND[k] == MNEMONICS_16[k - 16]
    ensures forall k | 16 <= k < 24 :: OPERAND_TYPE_TABLE[k] == OPERAND_TYPES_16[k - 16]
  {
    TableSizes();
  }

  lemma BareKeysInRow16()
    ensures forall k | 0 <= k < |MNEMONICS_16| && UsesBareKey(OPERAND_TYPES_16[k]) ::
              (MNEMONICS_16[k] in OPCODE_TABLE <==> MNEMONICS_16[k] !in UNLISTED_BARE_KEYS)
  {
    SbiIsAnOpcode();
    InrNotAnOpcode();
    DcrNotAnOpcode();
    DaaIsAnOpcode();
  }

  lemma BareKeysAt16()
    ensures forall k | 16 <= k < 24 && UsesBareKey(OPERAND_TYPE_TABLE[k]) ::
              (INSTRUCTION_TABLE_NO_OPERAND[k] in OPCODE_TABLE <==> INSTRUCTION_TABLE_NO_OPERAND[k] !in UNLISTED_BARE_KEYS)
  {
    BareKeysInRow16();
    MnemonicsAt16();
  }

  lemma MnemonicsAt24()
    ensures forall k | 24 <= k < 32 :: INSTRUCTION_TABLE_NO_OPERAND[k] == MNEMONICS_24[k - 24]
    ensures forall k | 24 <= k < 32 :: OPERAND_TYPE_TABLE[k] == OPERAND_TYPES_24[k - 24]
  {
    TableSizes();
  }

  lemma BareKeysInRow24()
    ensures forall k | 0 <= k < |MNEMONICS_24| && UsesBareKey(OPERAND_TYPES_24[k]) ::
              (MNEMONICS_24[k] in OPCODE_TABLE <==> MNEMONICS_24[k] !in UNLISTED_BARE_KEYS)
  {
    AniIsAnOpcode();
    OriIsAnOpcode();
    XriIsAnOpcode();
    CpiIsAnOpcode();
  }

  lemma BareKeysAt24()
    ensures forall k | 24 <= k < 32 && UsesBareKey(OPERAND_TYPE_TABLE[k]) ::
              (INSTRUCTION_TABLE_NO_OPERAND[k] in OPCODE_TABLE <==> INSTRUCTION_TABLE_NO_OPERAND[k] !in UNLISTED_BARE_KEYS)
  {
    BareKeysInRow24();
    MnemonicsAt24();
  }

  lemma MnemonicsAt32()
    ensures forall k | 32 <= k < 40 :: INSTRUCTION_TABLE_NO_OPERAND[k] == MNEMONICS_32[k - 32]
    ensures forall k | 32 <= k < 40 :: OPERAND_TYPE_TABLE[k] == OPERAND_TYPES_32[k - 32]
  {
    TableSizes();
  }

  lemma BareKeysInRow32()
    ensures forall k | 0 <= k < |MNEMONICS_32| && UsesBareKey(OPERAND_TYPES_32[k]) ::
              (MNEMONICS_32[k] in OPCODE_TABLE <==> MNEMONICS_32[k] !in UNLISTED_BARE_KEYS)
  {
    RlcIsAnOpcode();
    RrcIsAnOpcode();
    RalIsAnOpcode();
    RarIsAnOpcode();
    CmaIsAnOpcode();
    CmcIsAnOpcode();
    StcIsAnOpcode();
    JmpIsAnOpcode();
  }

  lemma BareKeysAt32()
    ensures forall k | 32 <= k < 40 && UsesBareKey(OPERAND_TYPE_TABLE[k]) ::
              (INSTRUCTION_TABLE_NO_OPERAND[k] in OPCODE_TABLE <==> INSTRUCTION_TABLE_NO_OPERAND[k] !in UNLISTED_BARE_KEYS)
  {
    BareKeysInRow32();
    MnemonicsAt32();
  }

  lemma MnemonicsAt40()
    ensures forall k | 40 <= k < 48 :: INSTRUCTION_TABLE_NO_OPERAND[k] == MNEMONICS_40[k - 40]
    ensures forall k | 40 <= k < 48 :: OPERAND_TYPE_TABLE[k] == OPERAND_TYPES_40[k - 40]
  {
    TableSizes();
  }

  lemma BareKeysInRow40()
    ensures forall k | 0 <= k < |MNEMONICS_40| && UsesBareKey(OPERAND_TYPES_40[k]) ::
              (MNEMONICS_40[k] in OPCODE_TABLE <==> MNEMONICS_40[k] !in UNLISTED_BARE_KEYS)
  {
    JnzIsAnOpcode();
    JncIsAnOpcode();
    JpoIsAnOpcode();
    JpIsAnOpcode();
    JzIsAnOpcode();
    JcIsAnOpcode();
    JpeIsAnOpcode();
    JmIsAnOpcode();
  }

  lemma BareKeysAt40()
    ensures forall k | 40 <= k < 48 && UsesBareKey(OPERAND_TYPE_TABLE[k]) ::
              (INSTRUCTION_TABLE_NO_OPERAND[k] in OPCODE_TABLE <==> INSTRUCTION_TABLE_NO_OPERAND[k] !in UNLISTED_BARE_KEYS)
  {
    BareKeysInRow40();
    MnemonicsAt40();
  }

  lemma MnemonicsAt48()
    ensures forall k | 48 <= k < 56 :: INSTRUCTION_TABLE_NO_OPERAND[k] == MNEMONICS_48[k - 48]
    ensures forall k | 48 <= k < 56 :: OPERAND_TYPE_TABLE[k] == OPERAND_TYPES_48[k - 48]
  {
    TableSizes();
  }

  lemma BareKeysInRow48()
    ensures forall k | 0 <= k < |MNEMONICS_48| && UsesBareKey(OPERAND_TYPES_48[k]) ::
              (MNEMONICS_48[k] in OPCODE_TABLE <==> MNEMONICS_48[k] !in UNLISTED_BARE_KEYS)
  {
    CallIsAnOpcode();
    CnzIsAnOpcode();
    CncIsAnOpcode();
    CpoIsAnOpcode();
    CpIsAnOpcode();
    CzIsAnOpcode();
    CcIsAnOpcode();
    CpeIsAnOpcode();
  }

  lemma BareKeysAt48()
    ensures forall k | 48 <= k < 56 && UsesBareKey(OPERAND_TYPE_TABLE[k]) ::
              (INSTRUCTION_TABLE_NO_OPERAND[k] in OPCODE_TABLE <==> INSTRUCTION_TABLE_NO_OPERAND[k] !in UNLISTED_BARE_KEYS)
  {
    BareKeysInRow48();
    MnemonicsAt48();
  }

  lemma MnemonicsAt56()
    ensures forall k | 56 <= k < 64 :: INSTRUCTION_TABLE_NO_OPERAND[k] == MNEMONICS_56[k - 56]
    ensures forall k | 56 <= k < 64 :: OPERAND_TYPE_TABLE[k] == OPERAND_TYPES_56[k - 56]
  {
    TableSizes();
  }

  lemma BareKeysInRow56()
    ensures forall k | 0 <= k < |MNEMONICS_56| && UsesBareKey(OPERAND_TYPES_56[k]) ::
              (MNEMONICS_56[k] in OPCODE_TABLE <==> MNEMONICS_56[k] !in UNLISTED_BARE_KEYS)
  {
    CmIsAnOpcode();
    RetIsAnOpcode();
    RnzIsAnOpcode();
    RncIsAnOpcode();
    RpoIsAnOpcode();
    RpIsAnOpcode();
    RzIsAnOpcode();
    RcIsAnOpcode();
  }

  lemma BareKeysAt56()
    ensures forall k | 56 <= k < 64 && UsesBareKey(OPERAND_TYPE_TABLE[k]) ::
              (INSTRUCTION_TABLE_NO_OPERAND[k] in OPCODE_TABLE <==> INSTRUCTION_TABLE_NO_OPERAND[k] !in UNLISTED_BARE_KEYS)
  {
    BareKeysInRow56();
    MnemonicsAt56();
  }

  lemma MnemonicsAt64()
    ensures forall k | 64 <= k < 72 :: INSTRUCTION_TABLE_NO_OPERAND[k] == MNEMONICS_64[k - 64]
    ensures forall k | 64 <= k < 72 :: OPERAND_TYPE_TABLE[k] == OPERAND_TYPES_64[k - 64]
  {
    TableSizes();
  }

  lemma BareKeysInRow64()
    ensures forall k | 0 <= k < |MNEMONICS_64| && UsesBareKey(OPERAND_TYPES_64[k]) ::
              (MNEMONICS_64[k] in OPCODE_TABLE <==> MNEMONICS_64[k] !in UNLISTED_BARE_KEYS)
  {
    RpeIsAnOpcode();
    RmIsAnOpcode();
    PchlIsAnOpcode();
    XthlIsAnOpcode();
    SphlIsAnOpcode();
  }

  lemma BareKeysAt64()
    ensures forall k | 64 <= k < 72 && UsesBareKey(OPERAND_TYPE_TABLE[k]) ::
              (INSTRUCTION_TABLE_NO_OPERAND[k] in OPCODE_TABLE <==> INSTRUCTION_TABLE_NO_OPERAND[k] !in UNLISTED_BARE_KEYS)
  {
    BareKeysInRow64();
    MnemonicsAt64();
  }

  lemma MnemonicsAt72()
    ensures forall k | 72 <= k < 78 :: INSTRUCTION_TABLE_NO_OPERAND[k] == MNEMONICS_72[k - 72]
    ensures forall k | 72 <= k < 78 :: OPERAND_TYPE_TABLE[k] == OPERAND_TYPES_72[k - 72]
  {
    TableSizes();
  }

  lemma BareKeysInRow72()
    ensures forall k | 0 <= k < |MNEMONICS_72| && UsesBareKey(OPERAND_TYPES_72[k]) ::
              (MNEMONICS_72[k] in OPCODE_TABLE <==> MNEMONICS_72[k] !in UNLISTED_BARE_KEYS)
  {
    InNotAnOpcode();
    OutNotAnOpcode();
    EiIsAnOpcode();
    DiIsAnOpcode();
    HltIsAnOpcode();
    NopIsAnOpcode();
  }

  lemma BareKeysAt72()
    ensures forall k | 72 <= k < 78 && UsesBareKey(OPERAND_TYPE_TABLE[k]) ::
              (INSTRUCTION_TABLE_NO_OPERAND[k] in OPCODE_TABLE <==> INSTRUCTION_TABLE_NO_OPERAND[k] !in UNLISTED_BARE_KEYS)
  {
    BareKeysInRow72();
    MnemonicsAt72();
  }

  /** Of the mnemonics that generate_byte_code looks up bare, exactly those in
      UNLISTED_BARE_KEYS are missing from OPCODE_TABLE. */
  lemma BareKeyLookups()
    ensures forall k | 0 <= k < |INSTRUCTION_TABLE_NO_OPERAND| && UsesBareKey(OPERAND_TYPE_TABLE[k]) ::
              (INSTRUCTION_TABLE_NO_OPERAND[k] in OPCODE_TABLE <==> INSTRUCTION_TABLE_NO_OPERAND[k] !in UNLISTED_BARE_KEYS)
  {
    TableSizes();
    BareKeysAt00();
    BareKeysAt08();
    BareKeysAt16();
    BareKeysAt24();
    BareKeysAt32();
    BareKeysAt40();
    BareKeysAt48();
    BareKeysAt56();
    BareKeysAt64();
    BareKeysAt72();
  }

  /** find_opcode reports the first index holding the key. */
  lemma FindOpcodeAt(key: string, r: nat)
    requires r < |OPCODE_TABLE| && OPCODE_TABLE[r] == key && key !in OPCODE_TABLE[..r]
    ensures FindOpcode(key) == r
  {
    FindOpcodeSpec(key);
    assert key in OPCODE_TABLE;
  }

  lemma NopOpcode()
    ensures FindOpcode("nop") == 0x00
  {
    TableSizes();
    assert "nop" !in OPCODE_TABLE[..0x00];
    assert OPCODE_TABLE[0x00] == "nop";
    FindOpcodeAt("nop", 0x00);
  }

  lemma MviAAbsentFromLowerRows()
    ensures "mvi a" !in OPCODES_00
    ensures "mvi a" !in OPCODES_08
    ensures "mvi a" !in OPCODES_10
    ensures "mvi a" !in OPCODES_18
    ensures "mvi a" !in OPCODES_20
    ensures "mvi a" !in OPCODES_28
    ensures "mvi a" !in OPCODES_30
  {
  }

  lemma MviAOpcode()
    ensures FindOpcode("mvi a") == 0x3E
  {
    TableSizes();
    MviAAbsentFromLowerRows();
    assert "mvi a" !in OPCODES_38[..6];
    assert "mvi a" !in OPCODE_TABLE[..0x3E];
    assert OPCODE_TABLE[0x3E] == "mvi a";
    FindOpcodeAt("mvi a", 0x3E);
  }

  lemma MovABAbsentFromRows00To38()
    ensures "mov a,b" !in OPCODES_00
    ensures "mov a,b" !in OPCODES_08
    ensures "mov a,b" !in OPCODES_10
    ensures "mov a,b" !in OPCODES_18
    ensures "mov a,b" !in OPCODES_20
    ensures "mov a,b" !in OPCODES_28
    ensures "mov a,b" !in OPCODES_30
    ensures "mov a,b" !in OPCODES_38
  {
  }

  lemma MovABAbsentFromRows40To70()
    ensures "mov a,b" !in OPCODES_40
    ensures "mov a,b" !in OPCODES_48
    ensures "mov a,b" !in OPCODES_50
    ensures "mov a,b" !in OPCODES_58
    ensures "mov a,b" !in OPCODES_60
    ensures "mov a,b" !in OPCODES_68
    ensures "mov a,b" !in OPCODES_70
  {
  }

  lemma MovABAbsentFromLowerRows()
    ensures "mov a,b" !in OPCODES_00
    ensures "mov a,b" !in OPCODES_08
    ensures "mov a,b" !in OPCODES_10
    ensures "mov a,b" !in OPCODES_18
    ensures "mov a,b" !in OPCODES_20
    ensures "mov a,b" !in OPCODES_28
    ensures "mov a,b" !in OPCODES_30
    ensures "mov a,b" !in OPCODES_38
    ensures "mov a,b" !in OPCODES_40
    ensures "mov a,b" !in OPCODES_48
    ensures "mov a,b" !in OPCODES_50
    ensures "mov a,b" !in OPCODES_58
    ensures "mov a,b" !in OPCODES_60
    ensures "mov a,b" !in OPCODES_68
    ensures "mov a,b" !in OPCODES_70
  {
    MovABAbsentFromRows00To38();
    MovABAbsentFromRows40To70();
  }

  lemma MovABOpcode()
    ensures FindOpcode("mov a,b") == 0x78
  {
    TableSizes();
    MovABAbsentFromLowerRows();
    assert "mov a,b" !in OPCODE_TABLE[..0x78];
    assert OPCODE_TABLE[0x78] == "mov a,b";
    FindOpcodeAt("mov a,b", 0x78);
  }

  lemma HltAbsentFromRows00To38()
    ensures "hlt" !in OPCODES_00
    ensures "hlt" !in OPCODES_08
    ensures "hlt" !in OPCODES_10
    ensures "hlt" !in OPCODES_18
    ensures "hlt" !in OPCODES_20
    ensures "hlt" !in OPCODES_28
    ensures "hlt" !in OPCODES_30
    ensures "hlt" !in OPCODES_38
  {
  }

  lemma HltAbsentFromRows40To68()
    ensures "hlt" !in OPCODES_40
    ensures "hlt" !in OPCODES_48
    ensures "hlt" !in OPCODES_50
    ensures "hlt" !in OPCODES_58
    ensures "hlt" !in OPCODES_60
    ensures "hlt" !in OPCODES_68
  {
  }

  lemma HltAbsentFromLowerRows()
    ensures "hlt" !in OPCODES_00
    ensures "hlt" !in OPCODES_08
    ensures "hlt" !in OPCODES_10
    ensures "hlt" !in OPCODES_18
    ensures "hlt" !in OPCODES_20
    ensures "hlt" !in OPCODES_28
    ensures "hlt" !in OPCODES_30
    ensures "hlt" !in OPCODES_38
    ensures "hlt" !in OPCODES_40
    ensures "hlt" !in OPCODES_48
    ensures "hlt" !in OPCODES_50
    ensures "hlt" !in OPCODES_58
    ensures "hlt" !in OPCODES_60
    ensures "hlt" !in OPCODES_68
  {
    HltAbsentFromRows00To38();
    HltAbsentFromRows40To68();
  }

  lemma HltOpcode()
    ensures FindOpcode("hlt") == 0x76
  {
    TableSizes();
    HltAbsentFromLowerRows();
    assert "hlt" !in OPCODES_70[..6];
    assert "hlt" !in OPCODE_TABLE[..0x76];
    assert OPCODE_TABLE[0x76] == "hlt";
    FindOpcodeAt("hlt", 0x76);
  }

  lemma JmpAbsentFromRows00To38()
    ensures "jmp" !in OPCODES_00
    ensures "jmp" !in OPCODES_08
    ensures "jmp" !in OPCODES_10
    ensures "jmp" !in OPCODES_18
    ensures "jmp" !in OPCODES_20
    ensures "jmp" !in OPCODES_28
    ensures "jmp" !in OPCODES_30
    ensures "jmp" !in OPCODES_38
  {
  }

  lemma JmpAbsentFromRows40To78()
    ensures "jmp" !in OPCODES_40
    ensures "jmp" !in OPCODES_48
    ensures "jmp" !in OPCODES_50
    ensures "jmp" !in OPCODES_58
    ensures "jmp" !in OPCODES_60
    ensures "jmp" !in OPCODES_68
    ensures "jmp" !in OPCODES_70
    ensures "jmp" !in OPCODES_78
  {
  }

  lemma JmpAbsentFromRows80ToB8()
    ensures "jmp" !in OPCODES_80
    ensures "jmp" !in OPCODES_88
    ensures "jmp" !in OPCODES_90
    ensures "jmp" !in OPCODES_98
    ensures "jmp" !in OPCODES_A0
    ensures "jmp" !in OPCODES_A8
    ensures "jmp" !in OPCODES_B0
    ensures "jmp" !in OPCODES_B8
  {
  }

  lemma JmpAbsentFromLowerRows()
    ensures "jmp" !in OPCODES_00
    ensures "jmp" !in OPCODES_08
    ensures "jmp" !in OPCODES_10
    ensures "jmp" !in OPCODES_18
    ensures "jmp" !in OPCODES_20
    ensures "jmp" !in OPCODES_28
    ensures "jmp" !in OPCODES_30
    ensures "jmp" !in OPCODES_38
    ensures "jmp" !in OPCODES_40
    ensures "jmp" !in OPCODES_48
    ensures "jmp" !in OPCODES_50
    ensures "jmp" !in OPCODES_58
    ensures "jmp" !in OPCODES_60
    ensures "jmp" !in OPCODES_68
    ensures "jmp" !in OPCODES_70
    ensures "jmp" !in OPCODES_78
    ensures "jmp" !in OPCODES_80
    ensures "jmp" !in OPCODES_88
    ensures "jmp" !in OPCODES_90
    ensures "jmp" !in OPCODES_98
    ensures "jmp" !in OPCODES_A0
    ensures "jmp" !in OPCODES_A8
    ensures "jmp" !in OPCODES_B0
    ensures "jmp" !in OPCODES_B8
  {
    JmpAbsentFromRows00To38();
    JmpAbsentFromRows40To78();
    JmpAbsentFromRows80ToB8();
  }

  lemma JmpOpcode()
    ensures FindOpcode("jmp") == 0xC3
  {
    TableSizes();
    JmpAbsentFromLowerRows();
    assert "jmp" !in OPCODES_C0[..3];
    assert "jmp" !in OPCODE_TABLE[..0xC3];
    assert OPCODE_TABLE[0xC3] == "jmp";
    FindOpcodeAt("jmp", 0xC3);
  }
}
