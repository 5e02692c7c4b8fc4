/** The opcode table of assembler.h lists every instruction text once: apart from the
    placeholder "x" of the unused opcodes, no entry occurs twice. So the first index
    find_opcode reports for an entry is the entry's own opcode. The table is checked row
    against row: one lemma per row of eight entries, one lemma per pair of rows, and
    lemmas that join them along the nesting of OPCODE_TABLE's concatenations. */
module OpcodeFacts {
  import opened Catalog

  /** The placeholder OPCODE_TABLE holds at unused opcodes. */
  const PLACEHOLDER: string := "x"

  /** No entry of `s` other than the placeholder occurs twice. */
  ghost predicate DistinctKeys(s: seq<string>) {
    forall i, j | 0 <= i < j < |s| && s[i] != PLACEHOLDER :: s[i] != s[j]
  }

  /** No entry of `a` other than the placeholder occurs in `b`. */
  ghost predicate DisjointKeys(a: seq<string>, b: seq<string>) {
    forall x | x in a && x != PLACEHOLDER :: x !in b
  }

  lemma DistinctKeysAppend(a: seq<string>, b: seq<string>)
    requires DistinctKeys(a) && DistinctKeys(b) && DisjointKeys(a, b)
    ensures DistinctKeys(a + b)
  {
    forall i, j | 0 <= i < j < |a + b| && (a + b)[i] != PLACEHOLDER
      ensures (a + b)[i] != (a + b)[j]
    {
      if j < |a| {
        assert (a + b)[i] == a[i] && (a + b)[j] == a[j];
      } else if |a| <= i {
        assert (a + b)[i] == b[i - |a|] && (a + b)[j] == b[j - |a|];
      } else {
        assert (a + b)[i] == a[i] && a[i] in a;
        assert (a + b)[j] == b[j - |a|] && b[j - |a|] in b;
      }
    }
  }

  lemma DisjointKeysLeft(a: seq<string>, b: seq<string>, c: seq<string>)
    requires DisjointKeys(a, c) && DisjointKeys(b, c)
    ensures DisjointKeys(a + b, c)
  {
  }

  lemma DisjointKeysRight(a: seq<string>, b: seq<string>, c: seq<string>)
    requires DisjointKeys(a, b) && DisjointKeys(a, c)
    ensures DisjointKeys(a, b + c)
  {
  }

  lemma OpcodeRow00()
    ensures DistinctKeys(OPCODES_00)
  {
  }

  lemma OpcodeRow08()
    ensures DistinctKeys(OPCODES_08)
  {
  }

  lemma OpcodeRow10()
    ensures DistinctKeys(OPCODES_10)
  {
  }

  lemma OpcodeRow18()
    ensures DistinctKeys(OPCODES_18)
  {
  }

  lemma OpcodeRow20()
    ensures DistinctKeys(OPCODES_20)
  {
  }

  lemma OpcodeRow28()
    ensures DistinctKeys(OPCODES_28)
  {
  }

  lemma OpcodeRow30()
    ensures DistinctKeys(OPCODES_30)
  {
  }

  lemma OpcodeRow38()
    ensures DistinctKeys(OPCODES_38)
  {
  }

  lemma OpcodeRow40()
    ensures DistinctKeys(OPCODES_40)
  {
  }

  lemma OpcodeRow48()
    ensures DistinctKeys(OPCODES_48)
  {
  }

  lemma OpcodeRow50()
    ensures DistinctKeys(OPCODES_50)
  {
  }

  lemma OpcodeRow58()
    ensures DistinctKeys(OPCODES_58)
  {
  }

  lemma OpcodeRow60()
    ensures DistinctKeys(OPCODES_60)
  {
  }

  lemma OpcodeRow68()
    ensures DistinctKeys(OPCODES_68)
  {
  }

  lemma OpcodeRow70()
    ensures DistinctKeys(OPCODES_70)
  {
  }

  lemma OpcodeRow78()
    ensures DistinctKeys(OPCODES_78)
  {
  }

  lemma OpcodeRow80()
    ensures DistinctKeys(OPCODES_80)
  {
  }

  lemma OpcodeRow88()
    ensures DistinctKeys(OPCODES_88)
  {
  }

  lemma OpcodeRow90()
    ensures DistinctKeys(OPCODES_90)
  {
  }

  lemma OpcodeRow98()
    ensures DistinctKeys(OPCODES_98)
  {
  }

  lemma OpcodeRowA0()
    ensures DistinctKeys(OPCODES_A0)
  {
  }

  lemma OpcodeRowA8()
    ensures DistinctKeys(OPCODES_A8)
  {
  }

  lemma OpcodeRowB0()
    ensures DistinctKeys(OPCODES_B0)
  {
  }

  lemma OpcodeRowB8()
    ensures DistinctKeys(OPCODES_B8)
  {
  }

  lemma OpcodeRowC0()
    ensures DistinctKeys(OPCODES_C0)
  {
  }

  lemma OpcodeRowC8()
    ensures DistinctKeys(OPCODES_C8)
  {
  }

  lemma OpcodeRowD0()
    ensures DistinctKeys(OPCODES_D0)
  {
  }

  lemma OpcodeRowD8()
    ensures DistinctKeys(OPCODES_D8)
  {
  }

  lemma OpcodeRowE0()
    ensures DistinctKeys(OPCODES_E0)
  {
  }

  lemma OpcodeRowE8()
    ensures DistinctKeys(OPCODES_E8)
  {
  }

  lemma OpcodeRowF0()
    ensures DistinctKeys(OPCODES_F0)
  {
  }

  lemma OpcodeRowF8()
    ensures DistinctKeys(OPCODES_F8)
  {
  }

  lemma OpcodeRows00And08()
    ensures DisjointKeys(OPCODES_00, OPCODES_08)
  {
  }

  lemma OpcodeRows00And10()
    ensures DisjointKeys(OPCODES_00, OPCODES_10)
  {
  }

  lemma OpcodeRows00And18()
    ensures DisjointKeys(OPCODES_00, OPCODES_18)
  {
  }

  lemma OpcodeRows00And20()
    ensures DisjointKeys(OPCODES_00, OPCODES_20)
  {
  }

  lemma OpcodeRows00And28()
    ensures DisjointKeys(OPCODES_00, OPCODES_28)
  {
  }

  lemma OpcodeRows00And30()
    ensures DisjointKeys(OPCODES_00, OPCODES_30)
  {
  }

  lemma OpcodeRows00And38()
    ensures DisjointKeys(OPCODES_00, OPCODES_38)
  {
  }

  lemma OpcodeRows00And40()
    ensures DisjointKeys(OPCODES_00, OPCODES_40)
  {
  }

  lemma OpcodeRows00And48()
    ensures DisjointKeys(OPCODES_00, OPCODES_48)
  {
  }

  lemma OpcodeRows00And50()
    ensures DisjointKeys(OPCODES_00, OPCODES_50)
  {
  }

  lemma OpcodeRows00And58()
    ensures DisjointKeys(OPCODES_00, OPCODES_58)
  {
  }

  lemma OpcodeRows00And60()
    ensures DisjointKeys(OPCODES_00, OPCODES_60)
  {
  }

  lemma OpcodeRows00And68()
    ensures DisjointKeys(OPCODES_00, OPCODES_68)
  {
  }

  lemma OpcodeRows00And70()
    ensures DisjointKeys(OPCODES_00, OPCODES_70)
  {
  }

  lemma OpcodeRows00And78()
    ensures DisjointKeys(OPCODES_00, OPCODES_78)
  {
  }

  lemma OpcodeRows00And80()
    ensures DisjointKeys(OPCODES_00, OPCODES_80)
  {
  }

  lemma OpcodeRows00And88()
    ensures DisjointKeys(OPCODES_00, OPCODES_88)
  {
  }

  lemma OpcodeRows00And90()
    ensures DisjointKeys(OPCODES_00, OPCODES_90)
  {
  }

  lemma OpcodeRows00And98()
    ensures DisjointKeys(OPCODES_00, OPCODES_98)
  {
  }

  lemma OpcodeRows00AndA0()
    ensures DisjointKeys(OPCODES_00, OPCODES_A0)
  {
  }

  lemma OpcodeRows00AndA8()
    ensures DisjointKeys(OPCODES_00, OPCODES_A8)
  {
  }

  lemma OpcodeRows00AndB0()
    ensures DisjointKeys(OPCODES_00, OPCODES_B0)
  {
  }

  lemma OpcodeRows00AndB8()
    ensures DisjointKeys(OPCODES_00, OPCODES_B8)
  {
  }

  lemma OpcodeRows00AndC0()
    ensures DisjointKeys(OPCODES_00, OPCODES_C0)
  {
  }

  lemma OpcodeRows00AndC8()
    ensures DisjointKeys(OPCODES_00, OPCODES_C8)
  {
  }

  lemma OpcodeRows00AndD0()
    ensures DisjointKeys(OPCODES_00, OPCODES_D0)
  {
  }

  lemma OpcodeRows00AndD8()
    ensures DisjointKeys(OPCODES_00, OPCODES_D8)
  {
  }

  lemma OpcodeRows00AndE0()
    ensures DisjointKeys(OPCODES_00, OPCODES_E0)
  {
  }

  lemma OpcodeRows00AndE8()
    ensures DisjointKeys(OPCODES_00, OPCODES_E8)
  {
  }

  lemma OpcodeRows00AndF0()
    ensures DisjointKeys(OPCODES_00, OPCODES_F0)
  {
  }

  lemma OpcodeRows00AndF8()
    ensures DisjointKeys(OPCODES_00, OPCODES_F8)
  {
  }

  lemma OpcodeRows08And10()
    ensures DisjointKeys(OPCODES_08, OPCODES_10)
  {
  }

  lemma OpcodeRows08And18()
    ensures DisjointKeys(OPCODES_08, OPCODES_18)
  {
  }

  lemma OpcodeRows08And20()
    ensures DisjointKeys(OPCODES_08, OPCODES_20)
  {
  }

  lemma OpcodeRows08And28()
    ensures DisjointKeys(OPCODES_08, OPCODES_28)
  {
  }

  lemma OpcodeRows08And30()
    ensures DisjointKeys(OPCODES_08, OPCODES_30)
  {
  }

  lemma OpcodeRows08And38()
    ensures DisjointKeys(OPCODES_08, OPCODES_38)
  {
  }

  lemma OpcodeRows08And40()
    ensures DisjointKeys(OPCODES_08, OPCODES_40)
  {
  }

  lemma OpcodeRows08And48()
    ensures DisjointKeys(OPCODES_08, OPCODES_48)
  {
  }

  lemma OpcodeRows08And50()
    ensures DisjointKeys(OPCODES_08, OPCODES_50)
  {
  }

  lemma OpcodeRows08And58()
    ensures DisjointKeys(OPCODES_08, OPCODES_58)
  {
  }

  lemma OpcodeRows08And60()
    ensures DisjointKeys(OPCODES_08, OPCODES_60)
  {
  }

  lemma OpcodeRows08And68()
    ensures DisjointKeys(OPCODES_08, OPCODES_68)
  {
  }

  lemma OpcodeRows08And70()
    ensures DisjointKeys(OPCODES_08, OPCODES_70)
  {
  }

  lemma OpcodeRows08And78()
    ensures DisjointKeys(OPCODES_08, OPCODES_78)
  {
  }

  lemma OpcodeRows08And80()
    ensures DisjointKeys(OPCODES_08, OPCODES_80)
  {
  }

  lemma OpcodeRows08And88()
    ensures DisjointKeys(OPCODES_08, OPCODES_88)
  {
  }

  lemma OpcodeRows08And90()
    ensures DisjointKeys(OPCODES_08, OPCODES_90)
  {
  }

  lemma OpcodeRows08And98()
    ensures DisjointKeys(OPCODES_08, OPCODES_98)
  {
  }

  lemma OpcodeRows08AndA0()
    ensures DisjointKeys(OPCODES_08, OPCODES_A0)
  {
  }

  lemma OpcodeRows08AndA8()
    ensures DisjointKeys(OPCODES_08, OPCODES_A8)
  {
  }

  lemma OpcodeRows08AndB0()
    ensures DisjointKeys(OPCODES_08, OPCODES_B0)
  {
  }

  lemma OpcodeRows08AndB8()
    ensures DisjointKeys(OPCODES_08, OPCODES_B8)
  {
  }

  lemma OpcodeRows08AndC0()
    ensures DisjointKeys(OPCODES_08, OPCODES_C0)
  {
  }

  lemma OpcodeRows08AndC8()
    ensures DisjointKeys(OPCODES_08, OPCODES_C8)
  {
  }

  lemma OpcodeRows08AndD0()
    ensures DisjointKeys(OPCODES_08, OPCODES_D0)
  {
  }

  lemma OpcodeRows08AndD8()
    ensures DisjointKeys(OPCODES_08, OPCODES_D8)
  {
  }

  lemma OpcodeRows08AndE0()
    ensures DisjointKeys(OPCODES_08, OPCODES_E0)
  {
  }

  lemma OpcodeRows08AndE8()
    ensures DisjointKeys(OPCODES_08, OPCODES_E8)
  {
  }

  lemma OpcodeRows08AndF0()
    ensures DisjointKeys(OPCODES_08, OPCODES_F0)
  {
  }

  lemma OpcodeRows08AndF8()
    ensures DisjointKeys(OPCODES_08, OPCODES_F8)
  {
  }

  lemma OpcodeRows10And18()
    ensures DisjointKeys(OPCODES_10, OPCODES_18)
  {
  }

  lemma OpcodeRows10And20()
    ensures DisjointKeys(OPCODES_10, OPCODES_20)
  {
  }

  lemma OpcodeRows10And28()
    ensures DisjointKeys(OPCODES_10, OPCODES_28)
  {
  }

  lemma OpcodeRows10And30()
    ensures DisjointKeys(OPCODES_10, OPCODES_30)
  {
  }

  lemma OpcodeRows10And38()
    ensures DisjointKeys(OPCODES_10, OPCODES_38)
  {
  }

  lemma OpcodeRows10And40()
    ensures DisjointKeys(OPCODES_10, OPCODES_40)
  {
  }

  lemma OpcodeRows10And48()
    ensures DisjointKeys(OPCODES_10, OPCODES_48)
  {
  }

  lemma OpcodeRows10And50()
    ensures DisjointKeys(OPCODES_10, OPCODES_50)
  {
  }

  lemma OpcodeRows10And58()
    ensures DisjointKeys(OPCODES_10, OPCODES_58)
  {
  }

  lemma OpcodeRows10And60()
    ensures DisjointKeys(OPCODES_10, OPCODES_60)
  {
  }

  lemma OpcodeRows10And68()
    ensures DisjointKeys(OPCODES_10, OPCODES_68)
  {
  }

  lemma OpcodeRows10And70()
    ensures DisjointKeys(OPCODES_10, OPCODES_70)
  {
  }

  lemma OpcodeRows10And78()
    ensures DisjointKeys(OPCODES_10, OPCODES_78)
  {
  }

  lemma OpcodeRows10And80()
    ensures DisjointKeys(OPCODES_10, OPCODES_80)
  {
  }

  lemma OpcodeRows10And88()
    ensures DisjointKeys(OPCODES_10, OPCODES_88)
  {
  }

  lemma OpcodeRows10And90()
    ensures DisjointKeys(OPCODES_10, OPCODES_90)
  {
  }

  lemma OpcodeRows10And98()
    ensures DisjointKeys(OPCODES_10, OPCODES_98)
  {
  }

  lemma OpcodeRows10AndA0()
    ensures DisjointKeys(OPCODES_10, OPCODES_A0)
  {
  }

  lemma OpcodeRows10AndA8()
    ensures DisjointKeys(OPCODES_10, OPCODES_A8)
  {
  }

  lemma OpcodeRows10AndB0()
    ensures DisjointKeys(OPCODES_10, OPCODES_B0)
  {
  }

  lemma OpcodeRows10AndB8()
    ensures DisjointKeys(OPCODES_10, OPCODES_B8)
  {
  }

  lemma OpcodeRows10AndC0()
    ensures DisjointKeys(OPCODES_10, OPCODES_C0)
  {
  }

  lemma OpcodeRows10AndC8()
    ensures DisjointKeys(OPCODES_10, OPCODES_C8)
  {
  }

  lemma OpcodeRows10AndD0()
    ensures DisjointKeys(OPCODES_10, OPCODES_D0)
  {
  }

  lemma OpcodeRows10AndD8()
    ensures DisjointKeys(OPCODES_10, OPCODES_D8)
  {
  }

  lemma OpcodeRows10AndE0()
    ensures DisjointKeys(OPCODES_10, OPCODES_E0)
  {
  }

  lemma OpcodeRows10AndE8()
    ensures DisjointKeys(OPCODES_10, OPCODES_E8)
  {
  }

  lemma OpcodeRows10AndF0()
    ensures DisjointKeys(OPCODES_10, OPCODES_F0)
  {
  }

  lemma OpcodeRows10AndF8()
    ensures DisjointKeys(OPCODES_10, OPCODES_F8)
  {
  }

  lemma OpcodeRows18And20()
    ensures DisjointKeys(OPCODES_18, OPCODES_20)
  {
  }

  lemma OpcodeRows18And28()
    ensures DisjointKeys(OPCODES_18, OPCODES_28)
  {
  }

  lemma OpcodeRows18And30()
    ensures DisjointKeys(OPCODES_18, OPCODES_30)
  {
  }

  lemma OpcodeRows18And38()
    ensures DisjointKeys(OPCODES_18, OPCODES_38)
  {
  }

  lemma OpcodeRows18And40()
    ensures DisjointKeys(OPCODES_18, OPCODES_40)
  {
  }

  lemma OpcodeRows18And48()
    ensures DisjointKeys(OPCODES_18, OPCODES_48)
  {
  }

  lemma OpcodeRows18And50()
    ensures DisjointKeys(OPCODES_18, OPCODES_50)
  {
  }

  lemma OpcodeRows18And58()
    ensures DisjointKeys(OPCODES_18, OPCODES_58)
  {
  }

  lemma OpcodeRows18And60()
    ensures DisjointKeys(OPCODES_18, OPCODES_60)
  {
  }

  lemma OpcodeRows18And68()
    ensures DisjointKeys(OPCODES_18, OPCODES_68)
  {
  }

  lemma OpcodeRows18And70()
    ensures DisjointKeys(OPCODES_18, OPCODES_70)
  {
  }

  lemma OpcodeRows18And78()
    ensures DisjointKeys(OPCODES_18, OPCODES_78)
  {
  }

  lemma OpcodeRows18And80()
    ensures DisjointKeys(OPCODES_18, OPCODES_80)
  {
  }

  lemma OpcodeRows18And88()
    ensures DisjointKeys(OPCODES_18, OPCODES_88)
  {
  }

  lemma OpcodeRows18And90()
    ensures DisjointKeys(OPCODES_18, OPCODES_90)
  {
  }

  lemma OpcodeRows18And98()
    ensures DisjointKeys(OPCODES_18, OPCODES_98)
  {
  }

  lemma OpcodeRows18AndA0()
    ensures DisjointKeys(OPCODES_18, OPCODES_A0)
  {
  }

  lemma OpcodeRows18AndA8()
    ensures DisjointKeys(OPCODES_18, OPCODES_A8)
  {
  }

  lemma OpcodeRows18AndB0()
    ensures DisjointKeys(OPCODES_18, OPCODES_B0)
  {
  }

  lemma OpcodeRows18AndB8()
    ensures DisjointKeys(OPCODES_18, OPCODES_B8)
  {
  }

  lemma OpcodeRows18AndC0()
    ensures DisjointKeys(OPCODES_18, OPCODES_C0)
  {
  }

  lemma OpcodeRows18AndC8()
    ensures DisjointKeys(OPCODES_18, OPCODES_C8)
  {
  }

  lemma OpcodeRows18AndD0()
    ensures DisjointKeys(OPCODES_18, OPCODES_D0)
  {
  }

  lemma OpcodeRows18AndD8()
    ensures DisjointKeys(OPCODES_18, OPCODES_D8)
  {
  }

  lemma OpcodeRows18AndE0()
    ensures DisjointKeys(OPCODES_18, OPCODES_E0)
  {
  }

  lemma OpcodeRows18AndE8()
    ensures DisjointKeys(OPCODES_18, OPCODES_E8)
  {
  }

  lemma OpcodeRows18AndF0()
    ensures DisjointKeys(OPCODES_18, OPCODES_F0)
  {
  }

  lemma OpcodeRows18AndF8()
    ensures DisjointKeys(OPCODES_18, OPCODES_F8)
  {
  }

  lemma OpcodeRows20And28()
    ensures DisjointKeys(OPCODES_20, OPCODES_28)
  {
  }

  lemma OpcodeRows20And30()
    ensures DisjointKeys(OPCODES_20, OPCODES_30)
  {
  }

  lemma OpcodeRows20And38()
    ensures DisjointKeys(OPCODES_20, OPCODES_38)
  {
  }

  lemma OpcodeRows20And40()
    ensures DisjointKeys(OPCODES_20, OPCODES_40)
  {
  }

  lemma OpcodeRows20And48()
    ensures DisjointKeys(OPCODES_20, OPCODES_48)
  {
  }

  lemma OpcodeRows20And50()
    ensures DisjointKeys(OPCODES_20, OPCODES_50)
  {
  }

  lemma OpcodeRows20And58()
    ensures DisjointKeys(OPCODES_20, OPCODES_58)
  {
  }

  lemma OpcodeRows20And60()
    ensures DisjointKeys(OPCODES_20, OPCODES_60)
  {
  }

  lemma OpcodeRows20And68()
    ensures DisjointKeys(OPCODES_20, OPCODES_68)
  {
  }

  lemma OpcodeRows20And70()
    ensures DisjointKeys(OPCODES_20, OPCODES_70)
  {
  }

  lemma OpcodeRows20And78()
    ensures DisjointKeys(OPCODES_20, OPCODES_78)
  {
  }

  lemma OpcodeRows20And80()
    ensures DisjointKeys(OPCODES_20, OPCODES_80)
  {
  }

  lemma OpcodeRows20And88()
    ensures DisjointKeys(OPCODES_20, OPCODES_88)
  {
  }

  lemma OpcodeRows20And90()
    ensures DisjointKeys(OPCODES_20, OPCODES_90)
  {
  }

  lemma OpcodeRows20And98()
    ensures DisjointKeys(OPCODES_20, OPCODES_98)
  {
  }

  lemma OpcodeRows20AndA0()
    ensures DisjointKeys(OPCODES_20, OPCODES_A0)
  {
  }

  lemma OpcodeRows20AndA8()
    ensures DisjointKeys(OPCODES_20, OPCODES_A8)
  {
  }

  lemma OpcodeRows20AndB0()
    ensures DisjointKeys(OPCODES_20, OPCODES_B0)
  {
  }

  lemma OpcodeRows20AndB8()
    ensures DisjointKeys(OPCODES_20, OPCODES_B8)
  {
  }

  lemma OpcodeRows20AndC0()
    ensures DisjointKeys(OPCODES_20, OPCODES_C0)
  {
  }

  lemma OpcodeRows20AndC8()
    ensures DisjointKeys(OPCODES_20, OPCODES_C8)
  {
  }

  lemma OpcodeRows20AndD0()
    ensures DisjointKeys(OPCODES_20, OPCODES_D0)
  {
  }

  lemma OpcodeRows20AndD8()
    ensures DisjointKeys(OPCODES_20, OPCODES_D8)
  {
  }

  lemma OpcodeRows20AndE0()
    ensures DisjointKeys(OPCODES_20, OPCODES_E0)
  {
  }

  lemma OpcodeRows20AndE8()
    ensures DisjointKeys(OPCODES_20, OPCODES_E8)
  {
  }

  lemma OpcodeRows20AndF0()
    ensures DisjointKeys(OPCODES_20, OPCODES_F0)
  {
  }

  lemma OpcodeRows20AndF8()
    ensures DisjointKeys(OPCODES_20, OPCODES_F8)
  {
  }

  lemma OpcodeRows28And30()
    ensures DisjointKeys(OPCODES_28, OPCODES_30)
  {
  }

  lemma OpcodeRows28And38()
    ensures DisjointKeys(OPCODES_28, OPCODES_38)
  {
  }

  lemma OpcodeRows28And40()
    ensures DisjointKeys(OPCODES_28, OPCODES_40)
  {
  }

  lemma OpcodeRows28And48()
    ensures DisjointKeys(OPCODES_28, OPCODES_48)
  {
  }

  lemma OpcodeRows28And50()
    ensures DisjointKeys(OPCODES_28, OPCODES_50)
  {
  }

  lemma OpcodeRows28And58()
    ensures DisjointKeys(OPCODES_28, OPCODES_58)
  {
  }

  lemma OpcodeRows28And60()
    ensures DisjointKeys(OPCODES_28, OPCODES_60)
  {
  }

  lemma OpcodeRows28And68()
    ensures DisjointKeys(OPCODES_28, OPCODES_68)
  {
  }

  lemma OpcodeRows28And70()
    ensures DisjointKeys(OPCODES_28, OPCODES_70)
  {
  }

  lemma OpcodeRows28And78()
    ensures DisjointKeys(OPCODES_28, OPCODES_78)
  {
  }

  lemma OpcodeRows28And80()
    ensures DisjointKeys(OPCODES_28, OPCODES_80)
  {
  }

  lemma OpcodeRows28And88()
    ensures DisjointKeys(OPCODES_28, OPCODES_88)
  {
  }

  lemma OpcodeRows28And90()
    ensures DisjointKeys(OPCODES_28, OPCODES_90)
  {
  }

  lemma OpcodeRows28And98()
    ensures DisjointKeys(OPCODES_28, OPCODES_98)
  {
  }

  lemma OpcodeRows28AndA0()
    ensures DisjointKeys(OPCODES_28, OPCODES_A0)
  {
  }

  lemma OpcodeRows28AndA8()
    ensures DisjointKeys(OPCODES_28, OPCODES_A8)
  {
  }

  lemma OpcodeRows28AndB0()
    ensures DisjointKeys(OPCODES_28, OPCODES_B0)
  {
  }

  lemma OpcodeRows28AndB8()
    ensures DisjointKeys(OPCODES_28, OPCODES_B8)
  {
  }

  lemma OpcodeRows28AndC0()
    ensures DisjointKeys(OPCODES_28, OPCODES_C0)
  {
  }

  lemma OpcodeRows28AndC8()
    ensures DisjointKeys(OPCODES_28, OPCODES_C8)
  {
  }

  lemma OpcodeRows28AndD0()
    ensures DisjointKeys(OPCODES_28, OPCODES_D0)
  {
  }

  lemma OpcodeRows28AndD8()
    ensures DisjointKeys(OPCODES_28, OPCODES_D8)
  {
  }

  lemma OpcodeRows28AndE0()
    ensures DisjointKeys(OPCODES_28, OPCODES_E0)
  {
  }

  lemma OpcodeRows28AndE8()
    ensures DisjointKeys(OPCODES_28, OPCODES_E8)
  {
  }

  lemma OpcodeRows28AndF0()
    ensures DisjointKeys(OPCODES_28, OPCODES_F0)
  {
  }

  lemma OpcodeRows28AndF8()
    ensures DisjointKeys(OPCODES_28, OPCODES_F8)
  {
  }

  lemma OpcodeRows30And38()
    ensures DisjointKeys(OPCODES_30, OPCODES_38)
  {
  }

  lemma OpcodeRows30And40()
    ensures DisjointKeys(OPCODES_30, OPCODES_40)
  {
  }

  lemma OpcodeRows30And48()
    ensures DisjointKeys(OPCODES_30, OPCODES_48)
  {
  }

  lemma OpcodeRows30And50()
    ensures DisjointKeys(OPCODES_30, OPCODES_50)
  {
  }

  lemma OpcodeRows30And58()
    ensures DisjointKeys(OPCODES_30, OPCODES_58)
  {
  }

  lemma OpcodeRows30And60()
    ensures DisjointKeys(OPCODES_30, OPCODES_60)
  {
  }

  lemma OpcodeRows30And68()
    ensures DisjointKeys(OPCODES_30, OPCODES_68)
  {
  }

  lemma OpcodeRows30And70()
    ensures DisjointKeys(OPCODES_30, OPCODES_70)
  {
  }

  lemma OpcodeRows30And78()
    ensures DisjointKeys(OPCODES_30, OPCODES_78)
  {
  }

  lemma OpcodeRows30And80()
    ensures DisjointKeys(OPCODES_30, OPCODES_80)
  {
  }

  lemma OpcodeRows30And88()
    ensures DisjointKeys(OPCODES_30, OPCODES_88)
  {
  }

  lemma OpcodeRows30And90()
    ensures DisjointKeys(OPCODES_30, OPCODES_90)
  {
  }

  lemma OpcodeRows30And98()
    ensures DisjointKeys(OPCODES_30, OPCODES_98)
  {
  }

  lemma OpcodeRows30AndA0()
    ensures DisjointKeys(OPCODES_30, OPCODES_A0)
  {
  }

  lemma OpcodeRows30AndA8()
    ensures DisjointKeys(OPCODES_30, OPCODES_A8)
  {
  }

  lemma OpcodeRows30AndB0()
    ensures DisjointKeys(OPCODES_30, OPCODES_B0)
  {
  }

  lemma OpcodeRows30AndB8()
    ensures DisjointKeys(OPCODES_30, OPCODES_B8)
  {
  }

  lemma OpcodeRows30AndC0()
    ensures DisjointKeys(OPCODES_30, OPCODES_C0)
  {
  }

  lemma OpcodeRows30AndC8()
    ensures DisjointKeys(OPCODES_30, OPCODES_C8)
  {
  }

  lemma OpcodeRows30AndD0()
    ensures DisjointKeys(OPCODES_30, OPCODES_D0)
  {
  }

  lemma OpcodeRows30AndD8()
    ensures DisjointKeys(OPCODES_30, OPCODES_D8)
  {
  }

  lemma OpcodeRows30AndE0()
    ensures DisjointKeys(OPCODES_30, OPCODES_E0)
  {
  }

  lemma OpcodeRows30AndE8()
    ensures DisjointKeys(OPCODES_30, OPCODES_E8)
  {
  }

  lemma OpcodeRows30AndF0()
    ensures DisjointKeys(OPCODES_30, OPCODES_F0)
  {
  }

  lemma OpcodeRows30AndF8()
    ensures DisjointKeys(OPCODES_30, OPCODES_F8)
  {
  }

  lemma OpcodeRows38And40()
    ensures DisjointKeys(OPCODES_38, OPCODES_40)
  {
  }

  lemma OpcodeRows38And48()
    ensures DisjointKeys(OPCODES_38, OPCODES_48)
  {
  }

  lemma OpcodeRows38And50()
    ensures DisjointKeys(OPCODES_38, OPCODES_50)
  {
  }

  lemma OpcodeRows38And58()
    ensures DisjointKeys(OPCODES_38, OPCODES_58)
  {
  }

  lemma OpcodeRows38And60()
    ensures DisjointKeys(OPCODES_38, OPCODES_60)
  {
  }

  lemma OpcodeRows38And68()
    ensures DisjointKeys(OPCODES_38, OPCODES_68)
  {
  }

  lemma OpcodeRows38And70()
    ensures DisjointKeys(OPCODES_38, OPCODES_70)
  {
  }

  lemma OpcodeRows38And78()
    ensures DisjointKeys(OPCODES_38, OPCODES_78)
  {
  }

  lemma OpcodeRows38And80()
    ensures DisjointKeys(OPCODES_38, OPCODES_80)
  {
  }

  lemma OpcodeRows38And88()
    ensures DisjointKeys(OPCODES_38, OPCODES_88)
  {
  }

  lemma OpcodeRows38And90()
    ensures DisjointKeys(OPCODES_38, OPCODES_90)
  {
  }

  lemma OpcodeRows38And98()
    ensures DisjointKeys(OPCODES_38, OPCODES_98)
  {
  }

  lemma OpcodeRows38AndA0()
    ensures DisjointKeys(OPCODES_38, OPCODES_A0)
  {
  }

  lemma OpcodeRows38AndA8()
    ensures DisjointKeys(OPCODES_38, OPCODES_A8)
  {
  }

  lemma OpcodeRows38AndB0()
    ensures DisjointKeys(OPCODES_38, OPCODES_B0)
  {
  }

  lemma OpcodeRows38AndB8()
    ensures DisjointKeys(OPCODES_38, OPCODES_B8)
  {
  }

  lemma OpcodeRows38AndC0()
    ensures DisjointKeys(OPCODES_38, OPCODES_C0)
  {
  }

  lemma OpcodeRows38AndC8()
    ensures DisjointKeys(OPCODES_38, OPCODES_C8)
  {
  }

  lemma OpcodeRows38AndD0()
    ensures DisjointKeys(OPCODES_38, OPCODES_D0)
  {
  }

  lemma OpcodeRows38AndD8()
    ensures DisjointKeys(OPCODES_38, OPCODES_D8)
  {
  }

  lemma OpcodeRows38AndE0()
    ensures DisjointKeys(OPCODES_38, OPCODES_E0)
  {
  }

  lemma OpcodeRows38AndE8()
    ensures DisjointKeys(OPCODES_38, OPCODES_E8)
  {
  }

  lemma OpcodeRows38AndF0()
    ensures DisjointKeys(OPCODES_38, OPCODES_F0)
  {
  }

  lemma OpcodeRows38AndF8()
    ensures DisjointKeys(OPCODES_38, OPCODES_F8)
  {
  }

  lemma OpcodeRows40And48()
    ensures DisjointKeys(OPCODES_40, OPCODES_48)
  {
  }

  lemma OpcodeRows40And50()
    ensures DisjointKeys(OPCODES_40, OPCODES_50)
  {
  }

  lemma OpcodeRows40And58()
    ensures DisjointKeys(OPCODES_40, OPCODES_58)
  {
  }

  lemma OpcodeRows40And60()
    ensures DisjointKeys(OPCODES_40, OPCODES_60)
  {
  }

  lemma OpcodeRows40And68()
    ensures DisjointKeys(OPCODES_40, OPCODES_68)
  {
  }

  lemma OpcodeRows40And70()
    ensures DisjointKeys(OPCODES_40, OPCODES_70)
  {
  }

  lemma OpcodeRows40And78()
    ensures DisjointKeys(OPCODES_40, OPCODES_78)
  {
  }

  lemma OpcodeRows40And80()
    ensures DisjointKeys(OPCODES_40, OPCODES_80)
  {
  }

  lemma OpcodeRows40And88()
    ensures DisjointKeys(OPCODES_40, OPCODES_88)
  {
  }

  lemma OpcodeRows40And90()
    ensures DisjointKeys(OPCODES_40, OPCODES_90)
  {
  }

  lemma OpcodeRows40And98()
    ensures DisjointKeys(OPCODES_40, OPCODES_98)
  {
  }

  lemma OpcodeRows40AndA0()
    ensures DisjointKeys(OPCODES_40, OPCODES_A0)
  {
  }

  lemma OpcodeRows40AndA8()
    ensures DisjointKeys(OPCODES_40, OPCODES_A8)
  {
  }

  lemma OpcodeRows40AndB0()
    ensures DisjointKeys(OPCODES_40, OPCODES_B0)
  {
  }

  lemma OpcodeRows40AndB8()
    ensures DisjointKeys(OPCODES_40, OPCODES_B8)
  {
  }

  lemma OpcodeRows40AndC0()
    ensures DisjointKeys(OPCODES_40, OPCODES_C0)
  {
  }

  lemma OpcodeRows40AndC8()
    ensures DisjointKeys(OPCODES_40, OPCODES_C8)
  {
  }

  lemma OpcodeRows40AndD0()
    ensures DisjointKeys(OPCODES_40, OPCODES_D0)
  {
  }

  lemma OpcodeRows40AndD8()
    ensures DisjointKeys(OPCODES_40, OPCODES_D8)
  {
  }

  lemma OpcodeRows40AndE0()
    ensures DisjointKeys(OPCODES_40, OPCODES_E0)
  {
  }

  lemma OpcodeRows40AndE8()
    ensures DisjointKeys(OPCODES_40, OPCODES_E8)
  {
  }

  lemma OpcodeRows40AndF0()
    ensures DisjointKeys(OPCODES_40, OPCODES_F0)
  {
  }

  lemma OpcodeRows40AndF8()
    ensures DisjointKeys(OPCODES_40, OPCODES_F8)
  {
  }

  lemma OpcodeRows48And50()
    ensures DisjointKeys(OPCODES_48, OPCODES_50)
  {
  }

  lemma OpcodeRows48And58()
    ensures DisjointKeys(OPCODES_48, OPCODES_58)
  {
  }

  lemma OpcodeRows48And60()
    ensures DisjointKeys(OPCODES_48, OPCODES_60)
  {
  }

  lemma OpcodeRows48And68()
    ensures DisjointKeys(OPCODES_48, OPCODES_68)
  {
  }

  lemma OpcodeRows48And70()
    ensures DisjointKeys(OPCODES_48, OPCODES_70)
  {
  }

  lemma OpcodeRows48And78()
    ensures DisjointKeys(OPCODES_48, OPCODES_78)
  {
  }

  lemma OpcodeRows48And80()
    ensures DisjointKeys(OPCODES_48, OPCODES_80)
  {
  }

  lemma OpcodeRows48And88()
    ensures DisjointKeys(OPCODES_48, OPCODES_88)
  {
  }

  lemma OpcodeRows48And90()
    ensures DisjointKeys(OPCODES_48, OPCODES_90)
  {
  }

  lemma OpcodeRows48And98()
    ensures DisjointKeys(OPCODES_48, OPCODES_98)
  {
  }

  lemma OpcodeRows48AndA0()
    ensures DisjointKeys(OPCODES_48, OPCODES_A0)
  {
  }

  lemma OpcodeRows48AndA8()
    ensures DisjointKeys(OPCODES_48, OPCODES_A8)
  {
  }

  lemma OpcodeRows48AndB0()
    ensures DisjointKeys(OPCODES_48, OPCODES_B0)
  {
  }

  lemma OpcodeRows48AndB8()
    ensures DisjointKeys(OPCODES_48, OPCODES_B8)
  {
  }

  lemma OpcodeRows48AndC0()
    ensures DisjointKeys(OPCODES_48, OPCODES_C0)
  {
  }

  lemma OpcodeRows48AndC8()
    ensures DisjointKeys(OPCODES_48, OPCODES_C8)
  {
  }

  lemma OpcodeRows48AndD0()
    ensures DisjointKeys(OPCODES_48, OPCODES_D0)
  {
  }

  lemma OpcodeRows48AndD8()
    ensures DisjointKeys(OPCODES_48, OPCODES_D8)
  {
  }

  lemma OpcodeRows48AndE0()
    ensures DisjointKeys(OPCODES_48, OPCODES_E0)
  {
  }

  lemma OpcodeRows48AndE8()
    ensures DisjointKeys(OPCODES_48, OPCODES_E8)
  {
  }

  lemma OpcodeRows48AndF0()
    ensures DisjointKeys(OPCODES_48, OPCODES_F0)
  {
  }

  lemma OpcodeRows48AndF8()
    ensures DisjointKeys(OPCODES_48, OPCODES_F8)
  {
  }

  lemma OpcodeRows50And58()
    ensures DisjointKeys(OPCODES_50, OPCODES_58)
  {
  }

  lemma OpcodeRows50And60()
    ensures DisjointKeys(OPCODES_50, OPCODES_60)
  {
  }

  lemma OpcodeRows50And68()
    ensures DisjointKeys(OPCODES_50, OPCODES_68)
  {
  }

  lemma OpcodeRows50And70()
    ensures DisjointKeys(OPCODES_50, OPCODES_70)
  {
  }

  lemma OpcodeRows50And78()
    ensures DisjointKeys(OPCODES_50, OPCODES_78)
  {
  }

  lemma OpcodeRows50And80()
    ensures DisjointKeys(OPCODES_50, OPCODES_80)
  {
  }

  lemma OpcodeRows50And88()
    ensures DisjointKeys(OPCODES_50, OPCODES_88)
  {
  }

  lemma OpcodeRows50And90()
    ensures DisjointKeys(OPCODES_50, OPCODES_90)
  {
  }

  lemma OpcodeRows50And98()
    ensures DisjointKeys(OPCODES_50, OPCODES_98)
  {
  }

  lemma OpcodeRows50AndA0()
    ensures DisjointKeys(OPCODES_50, OPCODES_A0)
  {
  }

  lemma OpcodeRows50AndA8()
    ensures DisjointKeys(OPCODES_50, OPCODES_A8)
  {
  }

  lemma OpcodeRows50AndB0()
    ensures DisjointKeys(OPCODES_50, OPCODES_B0)
  {
  }

  lemma OpcodeRows50AndB8()
    ensures DisjointKeys(OPCODES_50, OPCODES_B8)
  {
  }

  lemma OpcodeRows50AndC0()
    ensures DisjointKeys(OPCODES_50, OPCODES_C0)
  {
  }

  lemma OpcodeRows50AndC8()
    ensures DisjointKeys(OPCODES_50, OPCODES_C8)
  {
  }

  lemma OpcodeRows50AndD0()
    ensures DisjointKeys(OPCODES_50, OPCODES_D0)
  {
  }

  lemma OpcodeRows50AndD8()
    ensures DisjointKeys(OPCODES_50, OPCODES_D8)
  {
  }

  lemma OpcodeRows50AndE0()
    ensures DisjointKeys(OPCODES_50, OPCODES_E0)
  {
  }

  lemma OpcodeRows50AndE8()
    ensures DisjointKeys(OPCODES_50, OPCODES_E8)
  {
  }

  lemma OpcodeRows50AndF0()
    ensures DisjointKeys(OPCODES_50, OPCODES_F0)
  {
  }

  lemma OpcodeRows50AndF8()
    ensures DisjointKeys(OPCODES_50, OPCODES_F8)
  {
  }

  lemma OpcodeRows58And60()
    ensures DisjointKeys(OPCODES_58, OPCODES_60)
  {
  }

  lemma OpcodeRows58And68()
    ensures DisjointKeys(OPCODES_58, OPCODES_68)
  {
  }

  lemma OpcodeRows58And70()
    ensures DisjointKeys(OPCODES_58, OPCODES_70)
  {
  }

  lemma OpcodeRows58And78()
    ensures DisjointKeys(OPCODES_58, OPCODES_78)
  {
  }

  lemma OpcodeRows58And80()
    ensures DisjointKeys(OPCODES_58, OPCODES_80)
  {
  }

  lemma OpcodeRows58And88()
    ensures DisjointKeys(OPCODES_58, OPCODES_88)
  {
  }

  lemma OpcodeRows58And90()
    ensures DisjointKeys(OPCODES_58, OPCODES_90)
  {
  }

  lemma OpcodeRows58And98()
    ensures DisjointKeys(OPCODES_58, OPCODES_98)
  {
  }

  lemma OpcodeRows58AndA0()
    ensures DisjointKeys(OPCODES_58, OPCODES_A0)
  {
  }

  lemma OpcodeRows58AndA8()
    ensures DisjointKeys(OPCODES_58, OPCODES_A8)
  {
  }

  lemma OpcodeRows58AndB0()
    ensures DisjointKeys(OPCODES_58, OPCODES_B0)
  {
  }

  lemma OpcodeRows58AndB8()
    ensures DisjointKeys(OPCODES_58, OPCODES_B8)
  {
  }

  lemma OpcodeRows58AndC0()
    ensures DisjointKeys(OPCODES_58, OPCODES_C0)
  {
  }

  lemma OpcodeRows58AndC8()
    ensures DisjointKeys(OPCODES_58, OPCODES_C8)
  {
  }

  lemma OpcodeRows58AndD0()
    ensures DisjointKeys(OPCODES_58, OPCODES_D0)
  {
  }

  lemma OpcodeRows58AndD8()
    ensures DisjointKeys(OPCODES_58, OPCODES_D8)
  {
  }

  lemma OpcodeRows58AndE0()
    ensures DisjointKeys(OPCODES_58, OPCODES_E0)
  {
  }

  lemma OpcodeRows58AndE8()
    ensures DisjointKeys(OPCODES_58, OPCODES_E8)
  {
  }

  lemma OpcodeRows58AndF0()
    ensures DisjointKeys(OPCODES_58, OPCODES_F0)
  {
  }

  lemma OpcodeRows58AndF8()
    ensures DisjointKeys(OPCODES_58, OPCODES_F8)
  {
  }

  lemma OpcodeRows60And68()
    ensures DisjointKeys(OPCODES_60, OPCODES_68)
  {
  }

  lemma OpcodeRows60And70()
    ensures DisjointKeys(OPCODES_60, OPCODES_70)
  {
  }

  lemma OpcodeRows60And78()
    ensures DisjointKeys(OPCODES_60, OPCODES_78)
  {
  }

  lemma OpcodeRows60And80()
    ensures DisjointKeys(OPCODES_60, OPCODES_80)
  {
  }

  lemma OpcodeRows60And88()
    ensures DisjointKeys(OPCODES_60, OPCODES_88)
  {
  }

  lemma OpcodeRows60And90()
    ensures DisjointKeys(OPCODES_60, OPCODES_90)
  {
  }

  lemma OpcodeRows60And98()
    ensures DisjointKeys(OPCODES_60, OPCODES_98)
  {
  }

  lemma OpcodeRows60AndA0()
    ensures DisjointKeys(OPCODES_60, OPCODES_A0)
  {
  }

  lemma OpcodeRows60AndA8()
    ensures DisjointKeys(OPCODES_60, OPCODES_A8)
  {
  }

  lemma OpcodeRows60AndB0()
    ensures DisjointKeys(OPCODES_60, OPCODES_B0)
  {
  }

  lemma OpcodeRows60AndB8()
    ensures DisjointKeys(OPCODES_60, OPCODES_B8)
  {
  }

  lemma OpcodeRows60AndC0()
    ensures DisjointKeys(OPCODES_60, OPCODES_C0)
  {
  }

  lemma OpcodeRows60AndC8()
    ensures DisjointKeys(OPCODES_60, OPCODES_C8)
  {
  }

  lemma OpcodeRows60AndD0()
    ensures DisjointKeys(OPCODES_60, OPCODES_D0)
  {
  }

  lemma OpcodeRows60AndD8()
    ensures DisjointKeys(OPCODES_60, OPCODES_D8)
  {
  }

  lemma OpcodeRows60AndE0()
    ensures DisjointKeys(OPCODES_60, OPCODES_E0)
  {
  }

  lemma OpcodeRows60AndE8()
    ensures DisjointKeys(OPCODES_60, OPCODES_E8)
  {
  }

  lemma OpcodeRows60AndF0()
    ensures DisjointKeys(OPCODES_60, OPCODES_F0)
  {
  }

  lemma OpcodeRows60AndF8()
    ensures DisjointKeys(OPCODES_60, OPCODES_F8)
  {
  }

  lemma OpcodeRows68And70()
    ensures DisjointKeys(OPCODES_68, OPCODES_70)
  {
  }

  lemma OpcodeRows68And78()
    ensures DisjointKeys(OPCODES_68, OPCODES_78)
  {
  }

  lemma OpcodeRows68And80()
    ensures DisjointKeys(OPCODES_68, OPCODES_80)
  {
  }

  lemma OpcodeRows68And88()
    ensures DisjointKeys(OPCODES_68, OPCODES_88)
  {
  }

  lemma OpcodeRows68And90()
    ensures DisjointKeys(OPCODES_68, OPCODES_90)
  {
  }

  lemma OpcodeRows68And98()
    ensures DisjointKeys(OPCODES_68, OPCODES_98)
  {
  }

  lemma OpcodeRows68AndA0()
    ensures DisjointKeys(OPCODES_68, OPCODES_A0)
  {
  }

  lemma OpcodeRows68AndA8()
    ensures DisjointKeys(OPCODES_68, OPCODES_A8)
  {
  }

  lemma OpcodeRows68AndB0()
    ensures DisjointKeys(OPCODES_68, OPCODES_B0)
  {
  }

  lemma OpcodeRows68AndB8()
    ensures DisjointKeys(OPCODES_68, OPCODES_B8)
  {
  }

  lemma OpcodeRows68AndC0()
    ensures DisjointKeys(OPCODES_68, OPCODES_C0)
  {
  }

  lemma OpcodeRows68AndC8()
    ensures DisjointKeys(OPCODES_68, OPCODES_C8)
  {
  }

  lemma OpcodeRows68AndD0()
    ensures DisjointKeys(OPCODES_68, OPCODES_D0)
  {
  }

  lemma OpcodeRows68AndD8()
    ensures DisjointKeys(OPCODES_68, OPCODES_D8)
  {
  }

  lemma OpcodeRows68AndE0()
    ensures DisjointKeys(OPCODES_68, OPCODES_E0)
  {
  }

  lemma OpcodeRows68AndE8()
    ensures DisjointKeys(OPCODES_68, OPCODES_E8)
  {
  }

  lemma OpcodeRows68AndF0()
    ensures DisjointKeys(OPCODES_68, OPCODES_F0)
  {
  }

  lemma OpcodeRows68AndF8()
    ensures DisjointKeys(OPCODES_68, OPCODES_F8)
  {
  }

  lemma OpcodeRows70And78()
    ensures DisjointKeys(OPCODES_70, OPCODES_78)
  {
  }

  lemma OpcodeRows70And80()
    ensures DisjointKeys(OPCODES_70, OPCODES_80)
  {
  }

  lemma OpcodeRows70And88()
    ensures DisjointKeys(OPCODES_70, OPCODES_88)
  {
  }

  lemma OpcodeRows70And90()
    ensures DisjointKeys(OPCODES_70, OPCODES_90)
  {
  }

  lemma OpcodeRows70And98()
    ensures DisjointKeys(OPCODES_70, OPCODES_98)
  {
  }

  lemma OpcodeRows70AndA0()
    ensures DisjointKeys(OPCODES_70, OPCODES_A0)
  {
  }

  lemma OpcodeRows70AndA8()
    ensures DisjointKeys(OPCODES_70, OPCODES_A8)
  {
  }

  lemma OpcodeRows70AndB0()
    ensures DisjointKeys(OPCODES_70, OPCODES_B0)
  {
  }

  lemma OpcodeRows70AndB8()
    ensures DisjointKeys(OPCODES_70, OPCODES_B8)
  {
  }

  lemma OpcodeRows70AndC0()
    ensures DisjointKeys(OPCODES_70, OPCODES_C0)
  {
  }

  lemma OpcodeRows70AndC8()
    ensures DisjointKeys(OPCODES_70, OPCODES_C8)
  {
  }

  lemma OpcodeRows70AndD0()
    ensures DisjointKeys(OPCODES_70, OPCODES_D0)
  {
  }

  lemma OpcodeRows70AndD8()
    ensures DisjointKeys(OPCODES_70, OPCODES_D8)
  {
  }

  lemma OpcodeRows70AndE0()
    ensures DisjointKeys(OPCODES_70, OPCODES_E0)
  {
  }

  lemma OpcodeRows70AndE8()
    ensures DisjointKeys(OPCODES_70, OPCODES_E8)
  {
  }

  lemma OpcodeRows70AndF0()
    ensures DisjointKeys(OPCODES_70, OPCODES_F0)
  {
  }

  lemma OpcodeRows70AndF8()
    ensures DisjointKeys(OPCODES_70, OPCODES_F8)
  {
  }

  lemma OpcodeRows78And80()
    ensures DisjointKeys(OPCODES_78, OPCODES_80)
  {
  }

  lemma OpcodeRows78And88()
    ensures DisjointKeys(OPCODES_78, OPCODES_88)
  {
  }

  lemma OpcodeRows78And90()
    ensures DisjointKeys(OPCODES_78, OPCODES_90)
  {
  }

  lemma OpcodeRows78And98()
    ensures DisjointKeys(OPCODES_78, OPCODES_98)
  {
  }

  lemma OpcodeRows78AndA0()
    ensures DisjointKeys(OPCODES_78, OPCODES_A0)
  {
  }

  lemma OpcodeRows78AndA8()
    ensures DisjointKeys(OPCODES_78, OPCODES_A8)
  {
  }

  lemma OpcodeRows78AndB0()
    ensures DisjointKeys(OPCODES_78, OPCODES_B0)
  {
  }

  lemma OpcodeRows78AndB8()
    ensures DisjointKeys(OPCODES_78, OPCODES_B8)
  {
  }

  lemma OpcodeRows78AndC0()
    ensures DisjointKeys(OPCODES_78, OPCODES_C0)
  {
  }

  lemma OpcodeRows78AndC8()
    ensures DisjointKeys(OPCODES_78, OPCODES_C8)
  {
  }

  lemma OpcodeRows78AndD0()
    ensures DisjointKeys(OPCODES_78, OPCODES_D0)
  {
  }

  lemma OpcodeRows78AndD8()
    ensures DisjointKeys(OPCODES_78, OPCODES_D8)
  {
  }

  lemma OpcodeRows78AndE0()
    ensures DisjointKeys(OPCODES_78, OPCODES_E0)
  {
  }

  lemma OpcodeRows78AndE8()
    ensures DisjointKeys(OPCODES_78, OPCODES_E8)
  {
  }

  lemma OpcodeRows78AndF0()
    ensures DisjointKeys(OPCODES_78, OPCODES_F0)
  {
  }

  lemma OpcodeRows78AndF8()
    ensures DisjointKeys(OPCODES_78, OPCODES_F8)
  {
  }

  lemma OpcodeRows80And88()
    ensures DisjointKeys(OPCODES_80, OPCODES_88)
  {
  }

  lemma OpcodeRows80And90()
    ensures DisjointKeys(OPCODES_80, OPCODES_90)
  {
  }

  lemma OpcodeRows80And98()
    ensures DisjointKeys(OPCODES_80, OPCODES_98)
  {
  }

  lemma OpcodeRows80AndA0()
    ensures DisjointKeys(OPCODES_80, OPCODES_A0)
  {
  }

  lemma OpcodeRows80AndA8()
    ensures DisjointKeys(OPCODES_80, OPCODES_A8)
  {
  }

  lemma OpcodeRows80AndB0()
    ensures DisjointKeys(OPCODES_80, OPCODES_B0)
  {
  }

  lemma OpcodeRows80AndB8()
    ensures DisjointKeys(OPCODES_80, OPCODES_B8)
  {
  }

  lemma OpcodeRows80AndC0()
    ensures DisjointKeys(OPCODES_80, OPCODES_C0)
  {
  }

  lemma OpcodeRows80AndC8()
    ensures DisjointKeys(OPCODES_80, OPCODES_C8)
  {
  }

  lemma OpcodeRows80AndD0()
    ensures DisjointKeys(OPCODES_80, OPCODES_D0)
  {
  }

  lemma OpcodeRows80AndD8()
    ensures DisjointKeys(OPCODES_80, OPCODES_D8)
  {
  }

  lemma OpcodeRows80AndE0()
    ensures DisjointKeys(OPCODES_80, OPCODES_E0)
  {
  }

  lemma OpcodeRows80AndE8()
    ensures DisjointKeys(OPCODES_80, OPCODES_E8)
  {
  }

  lemma OpcodeRows80AndF0()
    ensures DisjointKeys(OPCODES_80, OPCODES_F0)
  {
  }

  lemma OpcodeRows80AndF8()
    ensures DisjointKeys(OPCODES_80, OPCODES_F8)
  {
  }

  lemma OpcodeRows88And90()
    ensures DisjointKeys(OPCODES_88, OPCODES_90)
  {
  }

  lemma OpcodeRows88And98()
    ensures DisjointKeys(OPCODES_88, OPCODES_98)
  {
  }

  lemma OpcodeRows88AndA0()
    ensures DisjointKeys(OPCODES_88, OPCODES_A0)
  {
  }

  lemma OpcodeRows88AndA8()
    ensures DisjointKeys(OPCODES_88, OPCODES_A8)
  {
  }

  lemma OpcodeRows88AndB0()
    ensures DisjointKeys(OPCODES_88, OPCODES_B0)
  {
  }

  lemma OpcodeRows88AndB8()
    ensures DisjointKeys(OPCODES_88, OPCODES_B8)
  {
  }

  lemma OpcodeRows88AndC0()
    ensures DisjointKeys(OPCODES_88, OPCODES_C0)
  {
  }

  lemma OpcodeRows88AndC8()
    ensures DisjointKeys(OPCODES_88, OPCODES_C8)
  {
  }

  lemma OpcodeRows88AndD0()
    ensures DisjointKeys(OPCODES_88, OPCODES_D0)
  {
  }

  lemma OpcodeRows88AndD8()
    ensures DisjointKeys(OPCODES_88, OPCODES_D8)
  {
  }

  lemma OpcodeRows88AndE0()
    ensures DisjointKeys(OPCODES_88, OPCODES_E0)
  {
  }

  lemma OpcodeRows88AndE8()
    ensures DisjointKeys(OPCODES_88, OPCODES_E8)
  {
  }

  lemma OpcodeRows88AndF0()
    ensures DisjointKeys(OPCODES_88, OPCODES_F0)
  {
  }

  lemma OpcodeRows88AndF8()
    ensures DisjointKeys(OPCODES_88, OPCODES_F8)
  {
  }

  lemma OpcodeRows90And98()
    ensures DisjointKeys(OPCODES_90, OPCODES_98)
  {
  }

  lemma OpcodeRows90AndA0()
    ensures DisjointKeys(OPCODES_90, OPCODES_A0)
  {
  }

  lemma OpcodeRows90AndA8()
    ensures DisjointKeys(OPCODES_90, OPCODES_A8)
  {
  }

  lemma OpcodeRows90AndB0()
    ensures DisjointKeys(OPCODES_90, OPCODES_B0)
  {
  }

  lemma OpcodeRows90AndB8()
    ensures DisjointKeys(OPCODES_90, OPCODES_B8)
  {
  }

  lemma OpcodeRows90AndC0()
    ensures DisjointKeys(OPCODES_90, OPCODES_C0)
  {
  }

  lemma OpcodeRows90AndC8()
    ensures DisjointKeys(OPCODES_90, OPCODES_C8)
  {
  }

  lemma OpcodeRows90AndD0()
    ensures DisjointKeys(OPCODES_90, OPCODES_D0)
  {
  }

  lemma OpcodeRows90AndD8()
    ensures DisjointKeys(OPCODES_90, OPCODES_D8)
  {
  }

  lemma OpcodeRows90AndE0()
    ensures DisjointKeys(OPCODES_90, OPCODES_E0)
  {
  }

  lemma OpcodeRows90AndE8()
    ensures DisjointKeys(OPCODES_90, OPCODES_E8)
  {
  }

  lemma OpcodeRows90AndF0()
    ensures DisjointKeys(OPCODES_90, OPCODES_F0)
  {
  }

  lemma OpcodeRows90AndF8()
    ensures DisjointKeys(OPCODES_90, OPCODES_F8)
  {
  }

  lemma OpcodeRows98AndA0()
    ensures DisjointKeys(OPCODES_98, OPCODES_A0)
  {
  }

  lemma OpcodeRows98AndA8()
    ensures DisjointKeys(OPCODES_98, OPCODES_A8)
  {
  }

  lemma OpcodeRows98AndB0()
    ensures DisjointKeys(OPCODES_98, OPCODES_B0)
  {
  }

  lemma OpcodeRows98AndB8()
    ensures DisjointKeys(OPCODES_98, OPCODES_B8)
  {
  }

  lemma OpcodeRows98AndC0()
    ensures DisjointKeys(OPCODES_98, OPCODES_C0)
  {
  }

  lemma OpcodeRows98AndC8()
    ensures DisjointKeys(OPCODES_98, OPCODES_C8)
  {
  }

  lemma OpcodeRows98AndD0()
    ensures DisjointKeys(OPCODES_98, OPCODES_D0)
  {
  }

  lemma OpcodeRows98AndD8()
    ensures DisjointKeys(OPCODES_98, OPCODES_D8)
  {
  }

  lemma OpcodeRows98AndE0()
    ensures DisjointKeys(OPCODES_98, OPCODES_E0)
  {
  }

  lemma OpcodeRows98AndE8()
    ensures DisjointKeys(OPCODES_98, OPCODES_E8)
  {
  }

  lemma OpcodeRows98AndF0()
    ensures DisjointKeys(OPCODES_98, OPCODES_F0)
  {
  }

  lemma OpcodeRows98AndF8()
    ensures DisjointKeys(OPCODES_98, OPCODES_F8)
  {
  }

  lemma OpcodeRowsA0AndA8()
    ensures DisjointKeys(OPCODES_A0, OPCODES_A8)
  {
  }

  lemma OpcodeRowsA0AndB0()
    ensures DisjointKeys(OPCODES_A0, OPCODES_B0)
  {
  }

  lemma OpcodeRowsA0AndB8()
    ensures DisjointKeys(OPCODES_A0, OPCODES_B8)
  {
  }

  lemma OpcodeRowsA0AndC0()
    ensures DisjointKeys(OPCODES_A0, OPCODES_C0)
  {
  }

  lemma OpcodeRowsA0AndC8()
    ensures DisjointKeys(OPCODES_A0, OPCODES_C8)
  {
  }

  lemma OpcodeRowsA0AndD0()
    ensures DisjointKeys(OPCODES_A0, OPCODES_D0)
  {
  }

  lemma OpcodeRowsA0AndD8()
    ensures DisjointKeys(OPCODES_A0, OPCODES_D8)
  {
  }

  lemma OpcodeRowsA0AndE0()
    ensures DisjointKeys(OPCODES_A0, OPCODES_E0)
  {
  }

  lemma OpcodeRowsA0AndE8()
    ensures DisjointKeys(OPCODES_A0, OPCODES_E8)
  {
  }

  lemma OpcodeRowsA0AndF0()
    ensures DisjointKeys(OPCODES_A0, OPCODES_F0)
  {
  }

  lemma OpcodeRowsA0AndF8()
    ensures DisjointKeys(OPCODES_A0, OPCODES_F8)
  {
  }

  lemma OpcodeRowsA8AndB0()
    ensures DisjointKeys(OPCODES_A8, OPCODES_B0)
  {
  }

  lemma OpcodeRowsA8AndB8()
    ensures DisjointKeys(OPCODES_A8, OPCODES_B8)
  {
  }

  lemma OpcodeRowsA8AndC0()
    ensures DisjointKeys(OPCODES_A8, OPCODES_C0)
  {
  }

  lemma OpcodeRowsA8AndC8()
    ensures DisjointKeys(OPCODES_A8, OPCODES_C8)
  {
  }

  lemma OpcodeRowsA8AndD0()
    ensures DisjointKeys(OPCODES_A8, OPCODES_D0)
  {
  }

  lemma OpcodeRowsA8AndD8()
    ensures DisjointKeys(OPCODES_A8, OPCODES_D8)
  {
  }

  lemma OpcodeRowsA8AndE0()
    ensures DisjointKeys(OPCODES_A8, OPCODES_E0)
  {
  }

  lemma OpcodeRowsA8AndE8()
    ensures DisjointKeys(OPCODES_A8, OPCODES_E8)
  {
  }

  lemma OpcodeRowsA8AndF0()
    ensures DisjointKeys(OPCODES_A8, OPCODES_F0)
  {
  }

  lemma OpcodeRowsA8AndF8()
    ensures DisjointKeys(OPCODES_A8, OPCODES_F8)
  {
  }

  lemma OpcodeRowsB0AndB8()
    ensures DisjointKeys(OPCODES_B0, OPCODES_B8)
  {
  }

  lemma OpcodeRowsB0AndC0()
    ensures DisjointKeys(OPCODES_B0, OPCODES_C0)
  {
  }

  lemma OpcodeRowsB0AndC8()
    ensures DisjointKeys(OPCODES_B0, OPCODES_C8)
  {
  }

  lemma OpcodeRowsB0AndD0()
    ensures DisjointKeys(OPCODES_B0, OPCODES_D0)
  {
  }

  lemma OpcodeRowsB0AndD8()
    ensures DisjointKeys(OPCODES_B0, OPCODES_D8)
  {
  }

  lemma OpcodeRowsB0AndE0()
    ensures DisjointKeys(OPCODES_B0, OPCODES_E0)
  {
  }

  lemma OpcodeRowsB0AndE8()
    ensures DisjointKeys(OPCODES_B0, OPCODES_E8)
  {
  }

  lemma OpcodeRowsB0AndF0()
    ensures DisjointKeys(OPCODES_B0, OPCODES_F0)
  {
  }

  lemma OpcodeRowsB0AndF8()
    ensures DisjointKeys(OPCODES_B0, OPCODES_F8)
  {
  }

  lemma OpcodeRowsB8AndC0()
    ensures DisjointKeys(OPCODES_B8, OPCODES_C0)
  {
  }

  lemma OpcodeRowsB8AndC8()
    ensures DisjointKeys(OPCODES_B8, OPCODES_C8)
  {
  }

  lemma OpcodeRowsB8AndD0()
    ensures DisjointKeys(OPCODES_B8, OPCODES_D0)
  {
  }

  lemma OpcodeRowsB8AndD8()
    ensures DisjointKeys(OPCODES_B8, OPCODES_D8)
  {
  }

  lemma OpcodeRowsB8AndE0()
    ensures DisjointKeys(OPCODES_B8, OPCODES_E0)
  {
  }

  lemma OpcodeRowsB8AndE8()
    ensures DisjointKeys(OPCODES_B8, OPCODES_E8)
  {
  }

  lemma OpcodeRowsB8AndF0()
    ensures DisjointKeys(OPCODES_B8, OPCODES_F0)
  {
  }

  lemma OpcodeRowsB8AndF8()
    ensures DisjointKeys(OPCODES_B8, OPCODES_F8)
  {
  }

  lemma OpcodeRowsC0AndC8()
    ensures DisjointKeys(OPCODES_C0, OPCODES_C8)
  {
  }

  lemma OpcodeRowsC0AndD0()
    ensures DisjointKeys(OPCODES_C0, OPCODES_D0)
  {
  }

  lemma OpcodeRowsC0AndD8()
    ensures DisjointKeys(OPCODES_C0, OPCODES_D8)
  {
  }

  lemma OpcodeRowsC0AndE0()
    ensures DisjointKeys(OPCODES_C0, OPCODES_E0)
  {
  }

  lemma OpcodeRowsC0AndE8()
    ensures DisjointKeys(OPCODES_C0, OPCODES_E8)
  {
  }

  lemma OpcodeRowsC0AndF0()
    ensures DisjointKeys(OPCODES_C0, OPCODES_F0)
  {
  }

  lemma OpcodeRowsC0AndF8()
    ensures DisjointKeys(OPCODES_C0, OPCODES_F8)
  {
  }

  lemma OpcodeRowsC8AndD0()
    ensures DisjointKeys(OPCODES_C8, OPCODES_D0)
  {
  }

  lemma OpcodeRowsC8AndD8()
    ensures DisjointKeys(OPCODES_C8, OPCODES_D8)
  {
  }

  lemma OpcodeRowsC8AndE0()
    ensures DisjointKeys(OPCODES_C8, OPCODES_E0)
  {
  }

  lemma OpcodeRowsC8AndE8()
    ensures DisjointKeys(OPCODES_C8, OPCODES_E8)
  {
  }

  lemma OpcodeRowsC8AndF0()
    ensures DisjointKeys(OPCODES_C8, OPCODES_F0)
  {
  }

  lemma OpcodeRowsC8AndF8()
    ensures DisjointKeys(OPCODES_C8, OPCODES_F8)
  {
  }

  lemma OpcodeRowsD0AndD8()
    ensures DisjointKeys(OPCODES_D0, OPCODES_D8)
  {
  }

  lemma OpcodeRowsD0AndE0()
    ensures DisjointKeys(OPCODES_D0, OPCODES_E0)
  {
  }

  lemma OpcodeRowsD0AndE8()
    ensures DisjointKeys(OPCODES_D0, OPCODES_E8)
  {
  }

  lemma OpcodeRowsD0AndF0()
    ensures DisjointKeys(OPCODES_D0, OPCODES_F0)
  {
  }

  lemma OpcodeRowsD0AndF8()
    ensures DisjointKeys(OPCODES_D0, OPCODES_F8)
  {
  }

  lemma OpcodeRowsD8AndE0()
    ensures DisjointKeys(OPCODES_D8, OPCODES_E0)
  {
  }

  lemma OpcodeRowsD8AndE8()
    ensures DisjointKeys(OPCODES_D8, OPCODES_E8)
  {
  }

  lemma OpcodeRowsD8AndF0()
    ensures DisjointKeys(OPCODES_D8, OPCODES_F0)
  {
  }

  lemma OpcodeRowsD8AndF8()
    ensures DisjointKeys(OPCODES_D8, OPCODES_F8)
  {
  }

  lemma OpcodeRowsE0AndE8()
    ensures DisjointKeys(OPCODES_E0, OPCODES_E8)
  {
  }

  lemma OpcodeRowsE0AndF0()
    ensures DisjointKeys(OPCODES_E0, OPCODES_F0)
  {
  }

  lemma OpcodeRowsE0AndF8()
    ensures DisjointKeys(OPCODES_E0, OPCODES_F8)
  {
  }

  lemma OpcodeRowsE8AndF0()
    ensures DisjointKeys(OPCODES_E8, OPCODES_F0)
  {
  }

  lemma OpcodeRowsE8AndF8()
    ensures DisjointKeys(OPCODES_E8, OPCODES_F8)
  {
  }

  lemma OpcodeRowsF0AndF8()
    ensures DisjointKeys(OPCODES_F0, OPCODES_F8)
  {
  }

  /** Rows 00 to 18 hold no entry twice. */
  lemma OpcodeQuad00To18()
    ensures DistinctKeys((OPCODES_00 + OPCODES_08) + (OPCODES_10 + OPCODES_18))
  {
    OpcodeRow00();
    OpcodeRow08();
    OpcodeRows00And08();
    DistinctKeysAppend(OPCODES_00, OPCODES_08);
    OpcodeRow10();
    OpcodeRow18();
    OpcodeRows10And18();
    DistinctKeysAppend(OPCODES_10, OPCODES_18);
    OpcodeRows00And10();
    OpcodeRows00And18();
    DisjointKeysRight(OPCODES_00, OPCODES_10, OPCODES_18);
    OpcodeRows08And10();
    OpcodeRows08And18();
    DisjointKeysRight(OPCODES_08, OPCODES_10, OPCODES_18);
    DisjointKeysLeft(OPCODES_00, OPCODES_08, OPCODES_10 + OPCODES_18);
    DistinctKeysAppend(OPCODES_00 + OPCODES_08, OPCODES_10 + OPCODES_18);
  }

  /** Rows 20 to 38 hold no entry twice. */
  lemma OpcodeQuad20To38()
    ensures DistinctKeys((OPCODES_20 + OPCODES_28) + (OPCODES_30 + OPCODES_38))
  {
    OpcodeRow20();
    OpcodeRow28();
    OpcodeRows20And28();
    DistinctKeysAppend(OPCODES_20, OPCODES_28);
    OpcodeRow30();
    OpcodeRow38();
    OpcodeRows30And38();
    DistinctKeysAppend(OPCODES_30, OPCODES_38);
    OpcodeRows20And30();
    OpcodeRows20And38();
    DisjointKeysRight(OPCODES_20, OPCODES_30, OPCODES_38);
    OpcodeRows28And30();
    OpcodeRows28And38();
    DisjointKeysRight(OPCODES_28, OPCODES_30, OPCODES_38);
    DisjointKeysLeft(OPCODES_20, OPCODES_28, OPCODES_30 + OPCODES_38);
    DistinctKeysAppend(OPCODES_20 + OPCODES_28, OPCODES_30 + OPCODES_38);
  }

  /** Rows 40 to 58 hold no entry twice. */
  lemma OpcodeQuad40To58()
    ensures DistinctKeys((OPCODES_40 + OPCODES_48) + (OPCODES_50 + OPCODES_58))
  {
    OpcodeRow40();
    OpcodeRow48();
    OpcodeRows40And48();
    DistinctKeysAppend(OPCODES_40, OPCODES_48);
    OpcodeRow50();
    OpcodeRow58();
    OpcodeRows50And58();
    DistinctKeysAppend(OPCODES_50, OPCODES_58);
    OpcodeRows40And50();
    OpcodeRows40And58();
    DisjointKeysRight(OPCODES_40, OPCODES_50, OPCODES_58);
    OpcodeRows48And50();
    OpcodeRows48And58();
    DisjointKeysRight(OPCODES_48, OPCODES_50, OPCODES_58);
    DisjointKeysLeft(OPCODES_40, OPCODES_48, OPCODES_50 + OPCODES_58);
    DistinctKeysAppend(OPCODES_40 + OPCODES_48, OPCODES_50 + OPCODES_58);
  }

  /** Rows 60 to 78 hold no entry twice. */
  lemma OpcodeQuad60To78()
    ensures DistinctKeys((OPCODES_60 + OPCODES_68) + (OPCODES_70 + OPCODES_78))
  {
    OpcodeRow60();
    OpcodeRow68();
    OpcodeRows60And68();
    DistinctKeysAppend(OPCODES_60, OPCODES_68);
    OpcodeRow70();
    OpcodeRow78();
    OpcodeRows70And78();
    DistinctKeysAppend(OPCODES_70, OPCODES_78);
    OpcodeRows60And70();
    OpcodeRows60And78();
    DisjointKeysRight(OPCODES_60, OPCODES_70, OPCODES_78);
    OpcodeRows68And70();
    OpcodeRows68And78();
    DisjointKeysRight(OPCODES_68, OPCODES_70, OPCODES_78);
    DisjointKeysLeft(OPCODES_60, OPCODES_68, OPCODES_70 + OPCODES_78);
    DistinctKeysAppend(OPCODES_60 + OPCODES_68, OPCODES_70 + OPCODES_78);
  }

  /** Rows 80 to 98 hold no entry twice. */
  lemma OpcodeQuad80To98()
    ensures DistinctKeys((OPCODES_80 + OPCODES_88) + (OPCODES_90 + OPCODES_98))
  {
    OpcodeRow80();
    OpcodeRow88();
    OpcodeRows80And88();
    DistinctKeysAppend(OPCODES_80, OPCODES_88);
    OpcodeRow90();
    OpcodeRow98();
    OpcodeRows90And98();
    DistinctKeysAppend(OPCODES_90, OPCODES_98);
    OpcodeRows80And90();
    OpcodeRows80And98();
    DisjointKeysRight(OPCODES_80, OPCODES_90, OPCODES_98);
    OpcodeRows88And90();
    OpcodeRows88And98();
    DisjointKeysRight(OPCODES_88, OPCODES_90, OPCODES_98);
    DisjointKeysLeft(OPCODES_80, OPCODES_88, OPCODES_90 + OPCODES_98);
    DistinctKeysAppend(OPCODES_80 + OPCODES_88, OPCODES_90 + OPCODES_98);
  }

  /** Rows A0 to B8 hold no entry twice. */
  lemma OpcodeQuadA0ToB8()
    ensures DistinctKeys((OPCODES_A0 + OPCODES_A8) + (OPCODES_B0 + OPCODES_B8))
  {
    OpcodeRowA0();
    OpcodeRowA8();
    OpcodeRowsA0AndA8();
    DistinctKeysAppend(OPCODES_A0, OPCODES_A8);
    OpcodeRowB0();
    OpcodeRowB8();
    OpcodeRowsB0AndB8();
    DistinctKeysAppend(OPCODES_B0, OPCODES_B8);
    OpcodeRowsA0AndB0();
    OpcodeRowsA0AndB8();
    DisjointKeysRight(OPCODES_A0, OPCODES_B0, OPCODES_B8);
    OpcodeRowsA8AndB0();
    OpcodeRowsA8AndB8();
    DisjointKeysRight(OPCODES_A8, OPCODES_B0, OPCODES_B8);
    DisjointKeysLeft(OPCODES_A0, OPCODES_A8, OPCODES_B0 + OPCODES_B8);
    DistinctKeysAppend(OPCODES_A0 + OPCODES_A8, OPCODES_B0 + OPCODES_B8);
  }

  /** Rows C0 to D8 hold no entry twice. */
  lemma OpcodeQuadC0ToD8()
    ensures DistinctKeys((OPCODES_C0 + OPCODES_C8) + (OPCODES_D0 + OPCODES_D8))
  {
    OpcodeRowC0();
    OpcodeRowC8();
    OpcodeRowsC0AndC8();
    DistinctKeysAppend(OPCODES_C0, OPCODES_C8);
    OpcodeRowD0();
    OpcodeRowD8();
    OpcodeRowsD0AndD8();
    DistinctKeysAppend(OPCODES_D0, OPCODES_D8);
    OpcodeRowsC0AndD0();
    OpcodeRowsC0AndD8();
    DisjointKeysRight(OPCODES_C0, OPCODES_D0, OPCODES_D8);
    OpcodeRowsC8AndD0();
    OpcodeRowsC8AndD8();
    DisjointKeysRight(OPCODES_C8, OPCODES_D0, OPCODES_D8);
    DisjointKeysLeft(OPCODES_C0, OPCODES_C8, OPCODES_D0 + OPCODES_D8);
    DistinctKeysAppend(OPCODES_C0 + OPCODES_C8, OPCODES_D0 + OPCODES_D8);
  }

  /** Rows E0 to F8 hold no entry twice. */
  lemma OpcodeQuadE0ToF8()
    ensures DistinctKeys((OPCODES_E0 + OPCODES_E8) + (OPCODES_F0 + OPCODES_F8))
  {
    OpcodeRowE0();
    OpcodeRowE8();
    OpcodeRowsE0AndE8();
    DistinctKeysAppend(OPCODES_E0, OPCODES_E8);
    OpcodeRowF0();
    OpcodeRowF8();
    OpcodeRowsF0AndF8();
    DistinctKeysAppend(OPCODES_F0, OPCODES_F8);
    OpcodeRowsE0AndF0();
    OpcodeRowsE0AndF8();
    DisjointKeysRight(OPCODES_E0, OPCODES_F0, OPCODES_F8);
    OpcodeRowsE8AndF0();
    OpcodeRowsE8AndF8();
    DisjointKeysRight(OPCODES_E8, OPCODES_F0, OPCODES_F8);
    DisjointKeysLeft(OPCODES_E0, OPCODES_E8, OPCODES_F0 + OPCODES_F8);
    DistinctKeysAppend(OPCODES_E0 + OPCODES_E8, OPCODES_F0 + OPCODES_F8);
  }

  lemma OpcodeQuads00To18And20To38()
    ensures DisjointKeys((OPCODES_00 + OPCODES_08) + (OPCODES_10 + OPCODES_18), (OPCODES_20 + OPCODES_28) + (OPCODES_30 + OPCODES_38))
  {
    OpcodeRows00And20();
    OpcodeRows00And28();
    DisjointKeysRight(OPCODES_00, OPCODES_20, OPCODES_28);
    OpcodeRows08And20();
    OpcodeRows08And28();
    DisjointKeysRight(OPCODES_08, OPCODES_20, OPCODES_28);
    DisjointKeysLeft(OPCODES_00, OPCODES_08, OPCODES_20 + OPCODES_28);
    OpcodeRows00And30();
    OpcodeRows00And38();
    DisjointKeysRight(OPCODES_00, OPCODES_30, OPCODES_38);
    OpcodeRows08And30();
    OpcodeRows08And38();
    DisjointKeysRight(OPCODES_08, OPCODES_30, OPCODES_38);
    DisjointKeysLeft(OPCODES_00, OPCODES_08, OPCODES_30 + OPCODES_38);
    DisjointKeysRight(OPCODES_00 + OPCODES_08, OPCODES_20 + OPCODES_28, OPCODES_30 + OPCODES_38);
    OpcodeRows10And20();
    OpcodeRows10And28();
    DisjointKeysRight(OPCODES_10, OPCODES_20, OPCODES_28);
    OpcodeRows18And20();
    OpcodeRows18And28();
    DisjointKeysRight(OPCODES_18, OPCODES_20, OPCODES_28);
    DisjointKeysLeft(OPCODES_10, OPCODES_18, OPCODES_20 + OPCODES_28);
    OpcodeRows10And30();
    OpcodeRows10And38();
    DisjointKeysRight(OPCODES_10, OPCODES_30, OPCODES_38);
    OpcodeRows18And30();
    OpcodeRows18And38();
    DisjointKeysRight(OPCODES_18, OPCODES_30, OPCODES_38);
    DisjointKeysLeft(OPCODES_10, OPCODES_18, OPCODES_30 + OPCODES_38);
    DisjointKeysRight(OPCODES_10 + OPCODES_18, OPCODES_20 + OPCODES_28, OPCODES_30 + OPCODES_38);
    DisjointKeysLeft(OPCODES_00 + OPCODES_08, OPCODES_10 + OPCODES_18, (OPCODES_20 + OPCODES_28) + (OPCODES_30 + OPCODES_38));
  }

  lemma OpcodeQuads00To18And40To58()
    ensures DisjointKeys((OPCODES_00 + OPCODES_08) + (OPCODES_10 + OPCODES_18), (OPCODES_40 + OPCODES_48) + (OPCODES_50 + OPCODES_58))
  {
    OpcodeRows00And40();
    OpcodeRows00And48();
    DisjointKeysRight(OPCODES_00, OPCODES_40, OPCODES_48);
    OpcodeRows08And40();
    OpcodeRows08And48();
    DisjointKeysRight(OPCODES_08, OPCODES_40, OPCODES_48);
    DisjointKeysLeft(OPCODES_00, OPCODES_08, OPCODES_40 + OPCODES_48);
    OpcodeRows00And50();
    OpcodeRows00And58();
    DisjointKeysRight(OPCODES_00, OPCODES_50, OPCODES_58);
    OpcodeRows08And50();
    OpcodeRows08And58();
    DisjointKeysRight(OPCODES_08, OPCODES_50, OPCODES_58);
    DisjointKeysLeft(OPCODES_00, OPCODES_08, OPCODES_50 + OPCODES_58);
    DisjointKeysRight(OPCODES_00 + OPCODES_08, OPCODES_40 + OPCODES_48, OPCODES_50 + OPCODES_58);
    OpcodeRows10And40();
    OpcodeRows10And48();
    DisjointKeysRight(OPCODES_10, OPCODES_40, OPCODES_48);
    OpcodeRows18And40();
    OpcodeRows18And48();
    DisjointKeysRight(OPCODES_18, OPCODES_40, OPCODES_48);
    DisjointKeysLeft(OPCODES_10, OPCODES_18, OPCODES_40 + OPCODES_48);
    OpcodeRows10And50();
    OpcodeRows10And58();
    DisjointKeysRight(OPCODES_10, OPCODES_50, OPCODES_58);
    OpcodeRows18And50();
    OpcodeRows18And58();
    DisjointKeysRight(OPCODES_18, OPCODES_50, OPCODES_58);
    DisjointKeysLeft(OPCODES_10, OPCODES_18, OPCODES_50 + OPCODES_58);
    DisjointKeysRight(OPCODES_10 + OPCODES_18, OPCODES_40 + OPCODES_48, OPCODES_50 + OPCODES_58);
    DisjointKeysLeft(OPCODES_00 + OPCODES_08, OPCODES_10 + OPCODES_18, (OPCODES_40 + OPCODES_48) + (OPCODES_50 + OPCODES_58));
  }

  lemma OpcodeQuads00To18And60To78()
    ensures DisjointKeys((OPCODES_00 + OPCODES_08) + (OPCODES_10 + OPCODES_18), (OPCODES_60 + OPCODES_68) + (OPCODES_70 + OPCODES_78))
  {
    OpcodeRows00And60();
    OpcodeRows00And68();
    DisjointKeysRight(OPCODES_00, OPCODES_60, OPCODES_68);
    OpcodeRows08And60();
    OpcodeRows08And68();
    DisjointKeysRight(OPCODES_08, OPCODES_60, OPCODES_68);
    DisjointKeysLeft(OPCODES_00, OPCODES_08, OPCODES_60 + OPCODES_68);
    OpcodeRows00And70();
    OpcodeRows00And78();
    DisjointKeysRight(OPCODES_00, OPCODES_70, OPCODES_78);
    OpcodeRows08And70();
    OpcodeRows08And78();
    DisjointKeysRight(OPCODES_08, OPCODES_70, OPCODES_78);
    DisjointKeysLeft(OPCODES_00, OPCODES_08, OPCODES_70 + OPCODES_78);
    DisjointKeysRight(OPCODES_00 + OPCODES_08, OPCODES_60 + OPCODES_68, OPCODES_70 + OPCODES_78);
    OpcodeRows10And60();
    OpcodeRows10And68();
    DisjointKeysRight(OPCODES_10, OPCODES_60, OPCODES_68);
    OpcodeRows18And60();
    OpcodeRows18And68();
    DisjointKeysRight(OPCODES_18, OPCODES_60, OPCODES_68);
    DisjointKeysLeft(OPCODES_10, OPCODES_18, OPCODES_60 + OPCODES_68);
    OpcodeRows10And70();
    OpcodeRows10And78();
    DisjointKeysRight(OPCODES_10, OPCODES_70, OPCODES_78);
    OpcodeRows18And70();
    OpcodeRows18And78();
    DisjointKeysRight(OPCODES_18, OPCODES_70, OPCODES_78);
    DisjointKeysLeft(OPCODES_10, OPCODES_18, OPCODES_70 + OPCODES_78);
    DisjointKeysRight(OPCODES_10 + OPCODES_18, OPCODES_60 + OPCODES_68, OPCODES_70 + OPCODES_78);
    DisjointKeysLeft(OPCODES_00 + OPCODES_08, OPCODES_10 + OPCODES_18, (OPCODES_60 + OPCODES_68) + (OPCODES_70 + OPCODES_78));
  }

  lemma OpcodeQuads00To18And80To98()
    ensures DisjointKeys((OPCODES_00 + OPCODES_08) + (OPCODES_10 + OPCODES_18), (OPCODES_80 + OPCODES_88) + (OPCODES_90 + OPCODES_98))
  {
    OpcodeRows00And80();
    OpcodeRows00And88();
    DisjointKeysRight(OPCODES_00, OPCODES_80, OPCODES_88);
    OpcodeRows08And80();
    OpcodeRows08And88();
    DisjointKeysRight(OPCODES_08, OPCODES_80, OPCODES_88);
    DisjointKeysLeft(OPCODES_00, OPCODES_08, OPCODES_80 + OPCODES_88);
    OpcodeRows00And90();
    OpcodeRows00And98();
    DisjointKeysRight(OPCODES_00, OPCODES_90, OPCODES_98);
    OpcodeRows08And90();
    OpcodeRows08And98();
    DisjointKeysRight(OPCODES_08, OPCODES_90, OPCODES_98);
    DisjointKeysLeft(OPCODES_00, OPCODES_08, OPCODES_90 + OPCODES_98);
    DisjointKeysRight(OPCODES_00 + OPCODES_08, OPCODES_80 + OPCODES_88, OPCODES_90 + OPCODES_98);
    OpcodeRows10And80();
    OpcodeRows10And88();
    DisjointKeysRight(OPCODES_10, OPCODES_80, OPCODES_88);
    OpcodeRows18And80();
    OpcodeRows18And88();
    DisjointKeysRight(OPCODES_18, OPCODES_80, OPCODES_88);
    DisjointKeysLeft(OPCODES_10, OPCODES_18, OPCODES_80 + OPCODES_88);
    OpcodeRows10And90();
    OpcodeRows10And98();
    DisjointKeysRight(OPCODES_10, OPCODES_90, OPCODES_98);
    OpcodeRows18And90();
    OpcodeRows18And98();
    DisjointKeysRight(OPCODES_18, OPCODES_90, OPCODES_98);
    DisjointKeysLeft(OPCODES_10, OPCODES_18, OPCODES_90 + OPCODES_98);
    DisjointKeysRight(OPCODES_10 + OPCODES_18, OPCODES_80 + OPCODES_88, OPCODES_90 + OPCODES_98);
    DisjointKeysLeft(OPCODES_00 + OPCODES_08, OPCODES_10 + OPCODES_18, (OPCODES_80 + OPCODES_88) + (OPCODES_90 + OPCODES_98));
  }

  lemma OpcodeQuads00To18AndA0ToB8()
    ensures DisjointKeys((OPCODES_00 + OPCODES_08) + (OPCODES_10 + OPCODES_18), (OPCODES_A0 + OPCODES_A8) + (OPCODES_B0 + OPCODES_B8))
  {
    OpcodeRows00AndA0();
    OpcodeRows00AndA8();
    DisjointKeysRight(OPCODES_00, OPCODES_A0, OPCODES_A8);
    OpcodeRows08AndA0();
    OpcodeRows08AndA8();
    DisjointKeysRight(OPCODES_08, OPCODES_A0, OPCODES_A8);
    DisjointKeysLeft(OPCODES_00, OPCODES_08, OPCODES_A0 + OPCODES_A8);
    OpcodeRows00AndB0();
    OpcodeRows00AndB8();
    DisjointKeysRight(OPCODES_00, OPCODES_B0, OPCODES_B8);
    OpcodeRows08AndB0();
    OpcodeRows08AndB8();
    DisjointKeysRight(OPCODES_08, OPCODES_B0, OPCODES_B8);
    DisjointKeysLeft(OPCODES_00, OPCODES_08, OPCODES_B0 + OPCODES_B8);
    DisjointKeysRight(OPCODES_00 + OPCODES_08, OPCODES_A0 + OPCODES_A8, OPCODES_B0 + OPCODES_B8);
    OpcodeRows10AndA0();
    OpcodeRows10AndA8();
    DisjointKeysRight(OPCODES_10, OPCODES_A0, OPCODES_A8);
    OpcodeRows18AndA0();
    OpcodeRows18AndA8();
    DisjointKeysRight(OPCODES_18, OPCODES_A0, OPCODES_A8);
    DisjointKeysLeft(OPCODES_10, OPCODES_18, OPCODES_A0 + OPCODES_A8);
    OpcodeRows10AndB0();
    OpcodeRows10AndB8();
    DisjointKeysRight(OPCODES_10, OPCODES_B0, OPCODES_B8);
    OpcodeRows18AndB0();
    OpcodeRows18AndB8();
    DisjointKeysRight(OPCODES_18, OPCODES_B0, OPCODES_B8);
    DisjointKeysLeft(OPCODES_10, OPCODES_18, OPCODES_B0 + OPCODES_B8);
    DisjointKeysRight(OPCODES_10 + OPCODES_18, OPCODES_A0 + OPCODES_A8, OPCODES_B0 + OPCODES_B8);
    DisjointKeysLeft(OPCODES_00 + OPCODES_08, OPCODES_10 + OPCODES_18, (OPCODES_A0 + OPCODES_A8) + (OPCODES_B0 + OPCODES_B8));
  }

  lemma OpcodeQuads00To18AndC0ToD8()
    ensures DisjointKeys((OPCODES_00 + OPCODES_08) + (OPCODES_10 + OPCODES_18), (OPCODES_C0 + OPCODES_C8) + (OPCODES_D0 + OPCODES_D8))
  {
    OpcodeRows00AndC0();
    OpcodeRows00AndC8();
    DisjointKeysRight(OPCODES_00, OPCODES_C0, OPCODES_C8);
    OpcodeRows08AndC0();
    OpcodeRows08AndC8();
    DisjointKeysRight(OPCODES_08, OPCODES_C0, OPCODES_C8);
    DisjointKeysLeft(OPCODES_00, OPCODES_08, OPCODES_C0 + OPCODES_C8);
    OpcodeRows00AndD0();
    OpcodeRows00AndD8();
    DisjointKeysRight(OPCODES_00, OPCODES_D0, OPCODES_D8);
    OpcodeRows08AndD0();
    OpcodeRows08AndD8();
    DisjointKeysRight(OPCODES_08, OPCODES_D0, OPCODES_D8);
    DisjointKeysLeft(OPCODES_00, OPCODES_08, OPCODES_D0 + OPCODES_D8);
    DisjointKeysRight(OPCODES_00 + OPCODES_08, OPCODES_C0 + OPCODES_C8, OPCODES_D0 + OPCODES_D8);
    OpcodeRows10AndC0();
    OpcodeRows10AndC8();
    DisjointKeysRight(OPCODES_10, OPCODES_C0, OPCODES_C8);
    OpcodeRows18AndC0();
    OpcodeRows18AndC8();
    DisjointKeysRight(OPCODES_18, OPCODES_C0, OPCODES_C8);
    DisjointKeysLeft(OPCODES_10, OPCODES_18, OPCODES_C0 + OPCODES_C8);
    OpcodeRows10AndD0();
    OpcodeRows10AndD8();
    DisjointKeysRight(OPCODES_10, OPCODES_D0, OPCODES_D8);
    OpcodeRows18AndD0();
    OpcodeRows18AndD8();
    DisjointKeysRight(OPCODES_18, OPCODES_D0, OPCODES_D8);
    DisjointKeysLeft(OPCODES_10, OPCODES_18, OPCODES_D0 + OPCODES_D8);
    DisjointKeysRight(OPCODES_10 + OPCODES_18, OPCODES_C0 + OPCODES_C8, OPCODES_D0 + OPCODES_D8);
    DisjointKeysLeft(OPCODES_00 + OPCODES_08, OPCODES_10 + OPCODES_18, (OPCODES_C0 + OPCODES_C8) + (OPCODES_D0 + OPCODES_D8));
  }

  lemma OpcodeQuads00To18AndE0ToF8()
    ensures DisjointKeys((OPCODES_00 + OPCODES_08) + (OPCODES_10 + OPCODES_18), (OPCODES_E0 + OPCODES_E8) + (OPCODES_F0 + OPCODES_F8))
  {
    OpcodeRows00AndE0();
    OpcodeRows00AndE8();
    DisjointKeysRight(OPCODES_00, OPCODES_E0, OPCODES_E8);
    OpcodeRows08AndE0();
    OpcodeRows08AndE8();
    DisjointKeysRight(OPCODES_08, OPCODES_E0, OPCODES_E8);
    DisjointKeysLeft(OPCODES_00, OPCODES_08, OPCODES_E0 + OPCODES_E8);
    OpcodeRows00AndF0();
    OpcodeRows00AndF8();
    DisjointKeysRight(OPCODES_00, OPCODES_F0, OPCODES_F8);
    OpcodeRows08AndF0();
    OpcodeRows08AndF8();
    DisjointKeysRight(OPCODES_08, OPCODES_F0, OPCODES_F8);
    DisjointKeysLeft(OPCODES_00, OPCODES_08, OPCODES_F0 + OPCODES_F8);
    DisjointKeysRight(OPCODES_00 + OPCODES_08, OPCODES_E0 + OPCODES_E8, OPCODES_F0 + OPCODES_F8);
    OpcodeRows10AndE0();
    OpcodeRows10AndE8();
    DisjointKeysRight(OPCODES_10, OPCODES_E0, OPCODES_E8);
    OpcodeRows18AndE0();
    OpcodeRows18AndE8();
    DisjointKeysRight(OPCODES_18, OPCODES_E0, OPCODES_E8);
    DisjointKeysLeft(OPCODES_10, OPCODES_18, OPCODES_E0 + OPCODES_E8);
    OpcodeRows10AndF0();
    OpcodeRows10AndF8();
    DisjointKeysRight(OPCODES_10, OPCODES_F0, OPCODES_F8);
    OpcodeRows18AndF0();
    OpcodeRows18AndF8();
    DisjointKeysRight(OPCODES_18, OPCODES_F0, OPCODES_F8);
    DisjointKeysLeft(OPCODES_10, OPCODES_18, OPCODES_F0 + OPCODES_F8);
    DisjointKeysRight(OPCODES_10 + OPCODES_18, OPCODES_E0 + OPCODES_E8, OPCODES_F0 + OPCODES_F8);
    DisjointKeysLeft(OPCODES_00 + OPCODES_08, OPCODES_10 + OPCODES_18, (OPCODES_E0 + OPCODES_E8) + (OPCODES_F0 + OPCODES_F8));
  }

  lemma OpcodeQuads20To38And40To58()
    ensures DisjointKeys((OPCODES_20 + OPCODES_28) + (OPCODES_30 + OPCODES_38), (OPCODES_40 + OPCODES_48) + (OPCODES_50 + OPCODES_58))
  {
    OpcodeRows20And40();
    OpcodeRows20And48();
    DisjointKeysRight(OPCODES_20, OPCODES_40, OPCODES_48);
    OpcodeRows28And40();
    OpcodeRows28And48();
    DisjointKeysRight(OPCODES_28, OPCODES_40, OPCODES_48);
    DisjointKeysLeft(OPCODES_20, OPCODES_28, OPCODES_40 + OPCODES_48);
    OpcodeRows20And50();
    OpcodeRows20And58();
    DisjointKeysRight(OPCODES_20, OPCODES_50, OPCODES_58);
    OpcodeRows28And50();
    OpcodeRows28And58();
    DisjointKeysRight(OPCODES_28, OPCODES_50, OPCODES_58);
    DisjointKeysLeft(OPCODES_20, OPCODES_28, OPCODES_50 + OPCODES_58);
    DisjointKeysRight(OPCODES_20 + OPCODES_28, OPCODES_40 + OPCODES_48, OPCODES_50 + OPCODES_58);
    OpcodeRows30And40();
    OpcodeRows30And48();
    DisjointKeysRight(OPCODES_30, OPCODES_40, OPCODES_48);
    OpcodeRows38And40();
    OpcodeRows38And48();
    DisjointKeysRight(OPCODES_38, OPCODES_40, OPCODES_48);
    DisjointKeysLeft(OPCODES_30, OPCODES_38, OPCODES_40 + OPCODES_48);
    OpcodeRows30And50();
    OpcodeRows30And58();
    DisjointKeysRight(OPCODES_30, OPCODES_50, OPCODES_58);
    OpcodeRows38And50();
    OpcodeRows38And58();
    DisjointKeysRight(OPCODES_38, OPCODES_50, OPCODES_58);
    DisjointKeysLeft(OPCODES_30, OPCODES_38, OPCODES_50 + OPCODES_58);
    DisjointKeysRight(OPCODES_30 + OPCODES_38, OPCODES_40 + OPCODES_48, OPCODES_50 + OPCODES_58);
    DisjointKeysLeft(OPCODES_20 + OPCODES_28, OPCODES_30 + OPCODES_38, (OPCODES_40 + OPCODES_48) + (OPCODES_50 + OPCODES_58));
  }

  lemma OpcodeQuads20To38And60To78()
    ensures DisjointKeys((OPCODES_20 + OPCODES_28) + (OPCODES_30 + OPCODES_38), (OPCODES_60 + OPCODES_68) + (OPCODES_70 + OPCODES_78))
  {
    OpcodeRows20And60();
    OpcodeRows20And68();
    DisjointKeysRight(OPCODES_20, OPCODES_60, OPCODES_68);
    OpcodeRows28And60();
    OpcodeRows28And68();
    DisjointKeysRight(OPCODES_28, OPCODES_60, OPCODES_68);
    DisjointKeysLeft(OPCODES_20, OPCODES_28, OPCODES_60 + OPCODES_68);
    OpcodeRows20And70();
    OpcodeRows20And78();
    DisjointKeysRight(OPCODES_20, OPCODES_70, OPCODES_78);
    OpcodeRows28And70();
    OpcodeRows28And78();
    DisjointKeysRight(OPCODES_28, OPCODES_70, OPCODES_78);
    DisjointKeysLeft(OPCODES_20, OPCODES_28, OPCODES_70 + OPCODES_78);
    DisjointKeysRight(OPCODES_20 + OPCODES_28, OPCODES_60 + OPCODES_68, OPCODES_70 + OPCODES_78);
    OpcodeRows30And60();
    OpcodeRows30And68();
    DisjointKeysRight(OPCODES_30, OPCODES_60, OPCODES_68);
    OpcodeRows38And60();
    OpcodeRows38And68();
    DisjointKeysRight(OPCODES_38, OPCODES_60, OPCODES_68);
    DisjointKeysLeft(OPCODES_30, OPCODES_38, OPCODES_60 + OPCODES_68);
    OpcodeRows30And70();
    OpcodeRows30And78();
    DisjointKeysRight(OPCODES_30, OPCODES_70, OPCODES_78);
    OpcodeRows38And70();
    OpcodeRows38And78();
    DisjointKeysRight(OPCODES_38, OPCODES_70, OPCODES_78);
    DisjointKeysLeft(OPCODES_30, OPCODES_38, OPCODES_70 + OPCODES_78);
    DisjointKeysRight(OPCODES_30 + OPCODES_38, OPCODES_60 + OPCODES_68, OPCODES_70 + OPCODES_78);
    DisjointKeysLeft(OPCODES_20 + OPCODES_28, OPCODES_30 + OPCODES_38, (OPCODES_60 + OPCODES_68) + (OPCODES_70 + OPCODES_78));
  }

  lemma OpcodeQuads20To38And80To98()
    ensures DisjointKeys((OPCODES_20 + OPCODES_28) + (OPCODES_30 + OPCODES_38), (OPCODES_80 + OPCODES_88) + (OPCODES_90 + OPCODES_98))
  {
    OpcodeRows20And80();
    OpcodeRows20And88();
    DisjointKeysRight(OPCODES_20, OPCODES_80, OPCODES_88);
    OpcodeRows28And80();
    OpcodeRows28And88();
    DisjointKeysRight(OPCODES_28, OPCODES_80, OPCODES_88);
    DisjointKeysLeft(OPCODES_20, OPCODES_28, OPCODES_80 + OPCODES_88);
    OpcodeRows20And90();
    OpcodeRows20And98();
    DisjointKeysRight(OPCODES_20, OPCODES_90, OPCODES_98);
    OpcodeRows28And90();
    OpcodeRows28And98();
    DisjointKeysRight(OPCODES_28, OPCODES_90, OPCODES_98);
    DisjointKeysLeft(OPCODES_20, OPCODES_28, OPCODES_90 + OPCODES_98);
    DisjointKeysRight(OPCODES_20 + OPCODES_28, OPCODES_80 + OPCODES_88, OPCODES_90 + OPCODES_98);
    OpcodeRows30And80();
    OpcodeRows30And88();
    DisjointKeysRight(OPCODES_30, OPCODES_80, OPCODES_88);
    OpcodeRows38And80();
    OpcodeRows38And88();
    DisjointKeysRight(OPCODES_38, OPCODES_80, OPCODES_88);
    DisjointKeysLeft(OPCODES_30, OPCODES_38, OPCODES_80 + OPCODES_88);
    OpcodeRows30And90();
    OpcodeRows30And98();
    DisjointKeysRight(OPCODES_30, OPCODES_90, OPCODES_98);
    OpcodeRows38And90();
    OpcodeRows38And98();
    DisjointKeysRight(OPCODES_38, OPCODES_90, OPCODES_98);
    DisjointKeysLeft(OPCODES_30, OPCODES_38, OPCODES_90 + OPCODES_98);
    DisjointKeysRight(OPCODES_30 + OPCODES_38, OPCODES_80 + OPCODES_88, OPCODES_90 + OPCODES_98);
    DisjointKeysLeft(OPCODES_20 + OPCODES_28, OPCODES_30 + OPCODES_38, (OPCODES_80 + OPCODES_88) + (OPCODES_90 + OPCODES_98));
  }

  lemma OpcodeQuads20To38AndA0ToB8()
    ensures DisjointKeys((OPCODES_20 + OPCODES_28) + (OPCODES_30 + OPCODES_38), (OPCODES_A0 + OPCODES_A8) + (OPCODES_B0 + OPCODES_B8))
  {
    OpcodeRows20AndA0();
    OpcodeRows20AndA8();
    DisjointKeysRight(OPCODES_20, OPCODES_A0, OPCODES_A8);
    OpcodeRows28AndA0();
    OpcodeRows28AndA8();
    DisjointKeysRight(OPCODES_28, OPCODES_A0, OPCODES_A8);
    DisjointKeysLeft(OPCODES_20, OPCODES_28, OPCODES_A0 + OPCODES_A8);
    OpcodeRows20AndB0();
    OpcodeRows20AndB8();
    DisjointKeysRight(OPCODES_20, OPCODES_B0, OPCODES_B8);
    OpcodeRows28AndB0();
    OpcodeRows28AndB8();
    DisjointKeysRight(OPCODES_28, OPCODES_B0, OPCODES_B8);
    DisjointKeysLeft(OPCODES_20, OPCODES_28, OPCODES_B0 + OPCODES_B8);
    DisjointKeysRight(OPCODES_20 + OPCODES_28, OPCODES_A0 + OPCODES_A8, OPCODES_B0 + OPCODES_B8);
    OpcodeRows30AndA0();
    OpcodeRows30AndA8();
    DisjointKeysRight(OPCODES_30, OPCODES_A0, OPCODES_A8);
    OpcodeRows38AndA0();
    OpcodeRows38AndA8();
    DisjointKeysRight(OPCODES_38, OPCODES_A0, OPCODES_A8);
    DisjointKeysLeft(OPCODES_30, OPCODES_38, OPCODES_A0 + OPCODES_A8);
    OpcodeRows30AndB0();
    OpcodeRows30AndB8();
    DisjointKeysRight(OPCODES_30, OPCODES_B0, OPCODES_B8);
    OpcodeRows38AndB0();
    OpcodeRows38AndB8();
    DisjointKeysRight(OPCODES_38, OPCODES_B0, OPCODES_B8);
    DisjointKeysLeft(OPCODES_30, OPCODES_38, OPCODES_B0 + OPCODES_B8);
    DisjointKeysRight(OPCODES_30 + OPCODES_38, OPCODES_A0 + OPCODES_A8, OPCODES_B0 + OPCODES_B8);
    DisjointKeysLeft(OPCODES_20 + OPCODES_28, OPCODES_30 + OPCODES_38, (OPCODES_A0 + OPCODES_A8) + (OPCODES_B0 + OPCODES_B8));
  }

  lemma OpcodeQuads20To38AndC0ToD8()
    ensures DisjointKeys((OPCODES_20 + OPCODES_28) + (OPCODES_30 + OPCODES_38), (OPCODES_C0 + OPCODES_C8) + (OPCODES_D0 + OPCODES_D8))
  {
    OpcodeRows20AndC0();
    OpcodeRows20AndC8();
    DisjointKeysRight(OPCODES_20, OPCODES_C0, OPCODES_C8);
    OpcodeRows28AndC0();
    OpcodeRows28AndC8();
    DisjointKeysRight(OPCODES_28, OPCODES_C0, OPCODES_C8);
    DisjointKeysLeft(OPCODES_20, OPCODES_28, OPCODES_C0 + OPCODES_C8);
    OpcodeRows20AndD0();
    OpcodeRows20AndD8();
    DisjointKeysRight(OPCODES_20, OPCODES_D0, OPCODES_D8);
    OpcodeRows28AndD0();
    OpcodeRows28AndD8();
    DisjointKeysRight(OPCODES_28, OPCODES_D0, OPCODES_D8);
    DisjointKeysLeft(OPCODES_20, OPCODES_28, OPCODES_D0 + OPCODES_D8);
    DisjointKeysRight(OPCODES_20 + OPCODES_28, OPCODES_C0 + OPCODES_C8, OPCODES_D0 + OPCODES_D8);
    OpcodeRows30AndC0();
    OpcodeRows30AndC8();
    DisjointKeysRight(OPCODES_30, OPCODES_C0, OPCODES_C8);
    OpcodeRows38AndC0();
    OpcodeRows38AndC8();
    DisjointKeysRight(OPCODES_38, OPCODES_C0, OPCODES_C8);
    DisjointKeysLeft(OPCODES_30, OPCODES_38, OPCODES_C0 + OPCODES_C8);
    OpcodeRows30AndD0();
    OpcodeRows30AndD8();
    DisjointKeysRight(OPCODES_30, OPCODES_D0, OPCODES_D8);
    OpcodeRows38AndD0();
    OpcodeRows38AndD8();
    DisjointKeysRight(OPCODES_38, OPCODES_D0, OPCODES_D8);
    DisjointKeysLeft(OPCODES_30, OPCODES_38, OPCODES_D0 + OPCODES_D8);
    DisjointKeysRight(OPCODES_30 + OPCODES_38, OPCODES_C0 + OPCODES_C8, OPCODES_D0 + OPCODES_D8);
    DisjointKeysLeft(OPCODES_20 + OPCODES_28, OPCODES_30 + OPCODES_38, (OPCODES_C0 + OPCODES_C8) + (OPCODES_D0 + OPCODES_D8));
  }

  lemma OpcodeQuads20To38AndE0ToF8()
    ensures DisjointKeys((OPCODES_20 + OPCODES_28) + (OPCODES_30 + OPCODES_38), (OPCODES_E0 + OPCODES_E8) + (OPCODES_F0 + OPCODES_F8))
  {
    OpcodeRows20AndE0();
    OpcodeRows20AndE8();
    DisjointKeysRight(OPCODES_20, OPCODES_E0, OPCODES_E8);
    OpcodeRows28AndE0();
    OpcodeRows28AndE8();
    DisjointKeysRight(OPCODES_28, OPCODES_E0, OPCODES_E8);
    DisjointKeysLeft(OPCODES_20, OPCODES_28, OPCODES_E0 + OPCODES_E8);
    OpcodeRows20AndF0();
    OpcodeRows20AndF8();
    DisjointKeysRight(OPCODES_20, OPCODES_F0, OPCODES_F8);
    OpcodeRows28AndF0();
    OpcodeRows28AndF8();
    DisjointKeysRight(OPCODES_28, OPCODES_F0, OPCODES_F8);
    DisjointKeysLeft(OPCODES_20, OPCODES_28, OPCODES_F0 + OPCODES_F8);
    DisjointKeysRight(OPCODES_20 + OPCODES_28, OPCODES_E0 + OPCODES_E8, OPCODES_F0 + OPCODES_F8);
    OpcodeRows30AndE0();
    OpcodeRows30AndE8();
    DisjointKeysRight(OPCODES_30, OPCODES_E0, OPCODES_E8);
    OpcodeRows38AndE0();
    OpcodeRows38AndE8();
    DisjointKeysRight(OPCODES_38, OPCODES_E0, OPCODES_E8);
    DisjointKeysLeft(OPCODES_30, OPCODES_38, OPCODES_E0 + OPCODES_E8);
    OpcodeRows30AndF0();
    OpcodeRows30AndF8();
    DisjointKeysRight(OPCODES_30, OPCODES_F0, OPCODES_F8);
    OpcodeRows38AndF0();
    OpcodeRows38AndF8();
    DisjointKeysRight(OPCODES_38, OPCODES_F0, OPCODES_F8);
    DisjointKeysLeft(OPCODES_30, OPCODES_38, OPCODES_F0 + OPCODES_F8);
    DisjointKeysRight(OPCODES_30 + OPCODES_38, OPCODES_E0 + OPCODES_E8, OPCODES_F0 + OPCODES_F8);
    DisjointKeysLeft(OPCODES_20 + OPCODES_28, OPCODES_30 + OPCODES_38, (OPCODES_E0 + OPCODES_E8) + (OPCODES_F0 + OPCODES_F8));
  }

  lemma OpcodeQuads40To58And60To78()
    ensures DisjointKeys((OPCODES_40 + OPCODES_48) + (OPCODES_50 + OPCODES_58), (OPCODES_60 + OPCODES_68) + (OPCODES_70 + OPCODES_78))
  {
    OpcodeRows40And60();
    OpcodeRows40And68();
    DisjointKeysRight(OPCODES_40, OPCODES_60, OPCODES_68);
    OpcodeRows48And60();
    OpcodeRows48And68();
    DisjointKeysRight(OPCODES_48, OPCODES_60, OPCODES_68);
    DisjointKeysLeft(OPCODES_40, OPCODES_48, OPCODES_60 + OPCODES_68);
    OpcodeRows40And70();
    OpcodeRows40And78();
    DisjointKeysRight(OPCODES_40, OPCODES_70, OPCODES_78);
    OpcodeRows48And70();
    OpcodeRows48And78();
    DisjointKeysRight(OPCODES_48, OPCODES_70, OPCODES_78);
    DisjointKeysLeft(OPCODES_40, OPCODES_48, OPCODES_70 + OPCODES_78);
    DisjointKeysRight(OPCODES_40 + OPCODES_48, OPCODES_60 + OPCODES_68, OPCODES_70 + OPCODES_78);
    OpcodeRows50And60();
    OpcodeRows50And68();
    DisjointKeysRight(OPCODES_50, OPCODES_60, OPCODES_68);
    OpcodeRows58And60();
    OpcodeRows58And68();
    DisjointKeysRight(OPCODES_58, OPCODES_60, OPCODES_68);
    DisjointKeysLeft(OPCODES_50, OPCODES_58, OPCODES_60 + OPCODES_68);
    OpcodeRows50And70();
    OpcodeRows50And78();
    DisjointKeysRight(OPCODES_50, OPCODES_70, OPCODES_78);
    OpcodeRows58And70();
    OpcodeRows58And78();
    DisjointKeysRight(OPCODES_58, OPCODES_70, OPCODES_78);
    DisjointKeysLeft(OPCODES_50, OPCODES_58, OPCODES_70 + OPCODES_78);
    DisjointKeysRight(OPCODES_50 + OPCODES_58, OPCODES_60 + OPCODES_68, OPCODES_70 + OPCODES_78);
    DisjointKeysLeft(OPCODES_40 + OPCODES_48, OPCODES_50 + OPCODES_58, (OPCODES_60 + OPCODES_68) + (OPCODES_70 + OPCODES_78));
  }

  lemma OpcodeQuads40To58And80To98()
    ensures DisjointKeys((OPCODES_40 + OPCODES_48) + (OPCODES_50 + OPCODES_58), (OPCODES_80 + OPCODES_88) + (OPCODES_90 + OPCODES_98))
  {
    OpcodeRows40And80();
    OpcodeRows40And88();
    DisjointKeysRight(OPCODES_40, OPCODES_80, OPCODES_88);
    OpcodeRows48And80();
    OpcodeRows48And88();
    DisjointKeysRight(OPCODES_48, OPCODES_80, OPCODES_88);
    DisjointKeysLeft(OPCODES_40, OPCODES_48, OPCODES_80 + OPCODES_88);
    OpcodeRows40And90();
    OpcodeRows40And98();
    DisjointKeysRight(OPCODES_40, OPCODES_90, OPCODES_98);
    OpcodeRows48And90();
    OpcodeRows48And98();
    DisjointKeysRight(OPCODES_48, OPCODES_90, OPCODES_98);
    DisjointKeysLeft(OPCODES_40, OPCODES_48, OPCODES_90 + OPCODES_98);
    DisjointKeysRight(OPCODES_40 + OPCODES_48, OPCODES_80 + OPCODES_88, OPCODES_90 + OPCODES_98);
    OpcodeRows50And80();
    OpcodeRows50And88();
    DisjointKeysRight(OPCODES_50, OPCODES_80, OPCODES_88);
    OpcodeRows58And80();
    OpcodeRows58And88();
    DisjointKeysRight(OPCODES_58, OPCODES_80, OPCODES_88);
    DisjointKeysLeft(OPCODES_50, OPCODES_58, OPCODES_80 + OPCODES_88);
    OpcodeRows50And90();
    OpcodeRows50And98();
    DisjointKeysRight(OPCODES_50, OPCODES_90, OPCODES_98);
    OpcodeRows58And90();
    OpcodeRows58And98();
    DisjointKeysRight(OPCODES_58, OPCODES_90, OPCODES_98);
    DisjointKeysLeft(OPCODES_50, OPCODES_58, OPCODES_90 + OPCODES_98);
    DisjointKeysRight(OPCODES_50 + OPCODES_58, OPCODES_80 + OPCODES_88, OPCODES_90 + OPCODES_98);
    DisjointKeysLeft(OPCODES_40 + OPCODES_48, OPCODES_50 + OPCODES_58, (OPCODES_80 + OPCODES_88) + (OPCODES_90 + OPCODES_98));
  }

  lemma OpcodeQuads40To58AndA0ToB8()
    ensures DisjointKeys((OPCODES_40 + OPCODES_48) + (OPCODES_50 + OPCODES_58), (OPCODES_A0 + OPCODES_A8) + (OPCODES_B0 + OPCODES_B8))
  {
    OpcodeRows40AndA0();
    OpcodeRows40AndA8();
    DisjointKeysRight(OPCODES_40, OPCODES_A0, OPCODES_A8);
    OpcodeRows48AndA0();
    OpcodeRows48AndA8();
    DisjointKeysRight(OPCODES_48, OPCODES_A0, OPCODES_A8);
    DisjointKeysLeft(OPCODES_40, OPCODES_48, OPCODES_A0 + OPCODES_A8);
    OpcodeRows40AndB0();
    OpcodeRows40AndB8();
    DisjointKeysRight(OPCODES_40, OPCODES_B0, OPCODES_B8);
    OpcodeRows48AndB0();
    OpcodeRows48AndB8();
    DisjointKeysRight(OPCODES_48, OPCODES_B0, OPCODES_B8);
    DisjointKeysLeft(OPCODES_40, OPCODES_48, OPCODES_B0 + OPCODES_B8);
    DisjointKeysRight(OPCODES_40 + OPCODES_48, OPCODES_A0 + OPCODES_A8, OPCODES_B0 + OPCODES_B8);
    OpcodeRows50AndA0();
    OpcodeRows50AndA8();
    DisjointKeysRight(OPCODES_50, OPCODES_A0, OPCODES_A8);
    OpcodeRows58AndA0();
    OpcodeRows58AndA8();
    DisjointKeysRight(OPCODES_58, OPCODES_A0, OPCODES_A8);
    DisjointKeysLeft(OPCODES_50, OPCODES_58, OPCODES_A0 + OPCODES_A8);
    OpcodeRows50AndB0();
    OpcodeRows50AndB8();
    DisjointKeysRight(OPCODES_50, OPCODES_B0, OPCODES_B8);
    OpcodeRows58AndB0();
    OpcodeRows58AndB8();
    DisjointKeysRight(OPCODES_58, OPCODES_B0, OPCODES_B8);
    DisjointKeysLeft(OPCODES_50, OPCODES_58, OPCODES_B0 + OPCODES_B8);
    DisjointKeysRight(OPCODES_50 + OPCODES_58, OPCODES_A0 + OPCODES_A8, OPCODES_B0 + OPCODES_B8);
    DisjointKeysLeft(OPCODES_40 + OPCODES_48, OPCODES_50 + OPCODES_58, (OPCODES_A0 + OPCODES_A8) + (OPCODES_B0 + OPCODES_B8));
  }

  lemma OpcodeQuads40To58AndC0ToD8()
    ensures DisjointKeys((OPCODES_40 + OPCODES_48) + (OPCODES_50 + OPCODES_58), (OPCODES_C0 + OPCODES_C8) + (OPCODES_D0 + OPCODES_D8))
  {
    OpcodeRows40AndC0();
    OpcodeRows40AndC8();
    DisjointKeysRight(OPCODES_40, OPCODES_C0, OPCODES_C8);
    OpcodeRows48AndC0();
    OpcodeRows48AndC8();
    DisjointKeysRight(OPCODES_48, OPCODES_C0, OPCODES_C8);
    DisjointKeysLeft(OPCODES_40, OPCODES_48, OPCODES_C0 + OPCODES_C8);
    OpcodeRows40AndD0();
    OpcodeRows40AndD8();
    DisjointKeysRight(OPCODES_40, OPCODES_D0, OPCODES_D8);
    OpcodeRows48AndD0();
    OpcodeRows48AndD8();
    DisjointKeysRight(OPCODES_48, OPCODES_D0, OPCODES_D8);
    DisjointKeysLeft(OPCODES_40, OPCODES_48, OPCODES_D0 + OPCODES_D8);
    DisjointKeysRight(OPCODES_40 + OPCODES_48, OPCODES_C0 + OPCODES_C8, OPCODES_D0 + OPCODES_D8);
    OpcodeRows50AndC0();
    OpcodeRows50AndC8();
    DisjointKeysRight(OPCODES_50, OPCODES_C0, OPCODES_C8);
    OpcodeRows58AndC0();
    OpcodeRows58AndC8();
    DisjointKeysRight(OPCODES_58, OPCODES_C0, OPCODES_C8);
    DisjointKeysLeft(OPCODES_50, OPCODES_58, OPCODES_C0 + OPCODES_C8);
    OpcodeRows50AndD0();
    OpcodeRows50AndD8();
    DisjointKeysRight(OPCODES_50, OPCODES_D0, OPCODES_D8);
    OpcodeRows58AndD0();
    OpcodeRows58AndD8();
    DisjointKeysRight(OPCODES_58, OPCODES_D0, OPCODES_D8);
    DisjointKeysLeft(OPCODES_50, OPCODES_58, OPCODES_D0 + OPCODES_D8);
    DisjointKeysRight(OPCODES_50 + OPCODES_58, OPCODES_C0 + OPCODES_C8, OPCODES_D0 + OPCODES_D8);
    DisjointKeysLeft(OPCODES_40 + OPCODES_48, OPCODES_50 + OPCODES_58, (OPCODES_C0 + OPCODES_C8) + (OPCODES_D0 + OPCODES_D8));
  }

  lemma OpcodeQuads40To58AndE0ToF8()
    ensures DisjointKeys((OPCODES_40 + OPCODES_48) + (OPCODES_50 + OPCODES_58), (OPCODES_E0 + OPCODES_E8) + (OPCODES_F0 + OPCODES_F8))
  {
    OpcodeRows40AndE0();
    OpcodeRows40AndE8();
    DisjointKeysRight(OPCODES_40, OPCODES_E0, OPCODES_E8);
    OpcodeRows48AndE0();
    OpcodeRows48AndE8();
    DisjointKeysRight(OPCODES_48, OPCODES_E0, OPCODES_E8);
    DisjointKeysLeft(OPCODES_40, OPCODES_48, OPCODES_E0 + OPCODES_E8);
    OpcodeRows40AndF0();
    OpcodeRows40AndF8();
    DisjointKeysRight(OPCODES_40, OPCODES_F0, OPCODES_F8);
    OpcodeRows48AndF0();
    OpcodeRows48AndF8();
    DisjointKeysRight(OPCODES_48, OPCODES_F0, OPCODES_F8);
    DisjointKeysLeft(OPCODES_40, OPCODES_48, OPCODES_F0 + OPCODES_F8);
    DisjointKeysRight(OPCODES_40 + OPCODES_48, OPCODES_E0 + OPCODES_E8, OPCODES_F0 + OPCODES_F8);
    OpcodeRows50AndE0();
    OpcodeRows50AndE8();
    DisjointKeysRight(OPCODES_50, OPCODES_E0, OPCODES_E8);
    OpcodeRows58AndE0();
    OpcodeRows58AndE8();
    DisjointKeysRight(OPCODES_58, OPCODES_E0, OPCODES_E8);
    DisjointKeysLeft(OPCODES_50, OPCODES_58, OPCODES_E0 + OPCODES_E8);
    OpcodeRows50AndF0();
    OpcodeRows50AndF8();
    DisjointKeysRight(OPCODES_50, OPCODES_F0, OPCODES_F8);
    OpcodeRows58AndF0();
    OpcodeRows58AndF8();
    DisjointKeysRight(OPCODES_58, OPCODES_F0, OPCODES_F8);
    DisjointKeysLeft(OPCODES_50, OPCODES_58, OPCODES_F0 + OPCODES_F8);
    DisjointKeysRight(OPCODES_50 + OPCODES_58, OPCODES_E0 + OPCODES_E8, OPCODES_F0 + OPCODES_F8);
    DisjointKeysLeft(OPCODES_40 + OPCODES_48, OPCODES_50 + OPCODES_58, (OPCODES_E0 + OPCODES_E8) + (OPCODES_F0 + OPCODES_F8));
  }

  lemma OpcodeQuads60To78And80To98()
    ensures DisjointKeys((OPCODES_60 + OPCODES_68) + (OPCODES_70 + OPCODES_78), (OPCODES_80 + OPCODES_88) + (OPCODES_90 + OPCODES_98))
  {
    OpcodeRows60And80();
    OpcodeRows60And88();
    DisjointKeysRight(OPCODES_60, OPCODES_80, OPCODES_88);
    OpcodeRows68And80();
    OpcodeRows68And88();
    DisjointKeysRight(OPCODES_68, OPCODES_80, OPCODES_88);
    DisjointKeysLeft(OPCODES_60, OPCODES_68, OPCODES_80 + OPCODES_88);
    OpcodeRows60And90();
    OpcodeRows60And98();
    DisjointKeysRight(OPCODES_60, OPCODES_90, OPCODES_98);
    OpcodeRows68And90();
    OpcodeRows68And98();
    DisjointKeysRight(OPCODES_68, OPCODES_90, OPCODES_98);
    DisjointKeysLeft(OPCODES_60, OPCODES_68, OPCODES_90 + OPCODES_98);
    DisjointKeysRight(OPCODES_60 + OPCODES_68, OPCODES_80 + OPCODES_88, OPCODES_90 + OPCODES_98);
    OpcodeRows70And80();
    OpcodeRows70And88();
    DisjointKeysRight(OPCODES_70, OPCODES_80, OPCODES_88);
    OpcodeRows78And80();
    OpcodeRows78And88();
    DisjointKeysRight(OPCODES_78, OPCODES_80, OPCODES_88);
    DisjointKeysLeft(OPCODES_70, OPCODES_78, OPCODES_80 + OPCODES_88);
    OpcodeRows70And90();
    OpcodeRows70And98();
    DisjointKeysRight(OPCODES_70, OPCODES_90, OPCODES_98);
    OpcodeRows78And90();
    OpcodeRows78And98();
    DisjointKeysRight(OPCODES_78, OPCODES_90, OPCODES_98);
    DisjointKeysLeft(OPCODES_70, OPCODES_78, OPCODES_90 + OPCODES_98);
    DisjointKeysRight(OPCODES_70 + OPCODES_78, OPCODES_80 + OPCODES_88, OPCODES_90 + OPCODES_98);
    DisjointKeysLeft(OPCODES_60 + OPCODES_68, OPCODES_70 + OPCODES_78, (OPCODES_80 + OPCODES_88) + (OPCODES_90 + OPCODES_98));
  }

  lemma OpcodeQuads60To78AndA0ToB8()
    ensures DisjointKeys((OPCODES_60 + OPCODES_68) + (OPCODES_70 + OPCODES_78), (OPCODES_A0 + OPCODES_A8) + (OPCODES_B0 + OPCODES_B8))
  {
    OpcodeRows60AndA0();
    OpcodeRows60AndA8();
    DisjointKeysRight(OPCODES_60, OPCODES_A0, OPCODES_A8);
    OpcodeRows68AndA0();
    OpcodeRows68AndA8();
    DisjointKeysRight(OPCODES_68, OPCODES_A0, OPCODES_A8);
    DisjointKeysLeft(OPCODES_60, OPCODES_68, OPCODES_A0 + OPCODES_A8);
    OpcodeRows60AndB0();
    OpcodeRows60AndB8();
    DisjointKeysRight(OPCODES_60, OPCODES_B0, OPCODES_B8);
    OpcodeRows68AndB0();
    OpcodeRows68AndB8();
    DisjointKeysRight(OPCODES_68, OPCODES_B0, OPCODES_B8);
    DisjointKeysLeft(OPCODES_60, OPCODES_68, OPCODES_B0 + OPCODES_B8);
    DisjointKeysRight(OPCODES_60 + OPCODES_68, OPCODES_A0 + OPCODES_A8, OPCODES_B0 + OPCODES_B8);
    OpcodeRows70AndA0();
    OpcodeRows70AndA8();
    DisjointKeysRight(OPCODES_70, OPCODES_A0, OPCODES_A8);
    OpcodeRows78AndA0();
    OpcodeRows78AndA8();
    DisjointKeysRight(OPCODES_78, OPCODES_A0, OPCODES_A8);
    DisjointKeysLeft(OPCODES_70, OPCODES_78, OPCODES_A0 + OPCODES_A8);
    OpcodeRows70AndB0();
    OpcodeRows70AndB8();
    DisjointKeysRight(OPCODES_70, OPCODES_B0, OPCODES_B8);
    OpcodeRows78AndB0();
    OpcodeRows78AndB8();
    DisjointKeysRight(OPCODES_78, OPCODES_B0, OPCODES_B8);
    DisjointKeysLeft(OPCODES_70, OPCODES_78, OPCODES_B0 + OPCODES_B8);
    DisjointKeysRight(OPCODES_70 + OPCODES_78, OPCODES_A0 + OPCODES_A8, OPCODES_B0 + OPCODES_B8);
    DisjointKeysLeft(OPCODES_60 + OPCODES_68, OPCODES_70 + OPCODES_78, (OPCODES_A0 + OPCODES_A8) + (OPCODES_B0 + OPCODES_B8));
  }

  lemma OpcodeQuads60To78AndC0ToD8()
    ensures DisjointKeys((OPCODES_60 + OPCODES_68) + (OPCODES_70 + OPCODES_78), (OPCODES_C0 + OPCODES_C8) + (OPCODES_D0 + OPCODES_D8))
  {
    OpcodeRows60AndC0();
    OpcodeRows60AndC8();
    DisjointKeysRight(OPCODES_60, OPCODES_C0, OPCODES_C8);
    OpcodeRows68AndC0();
    OpcodeRows68AndC8();
    DisjointKeysRight(OPCODES_68, OPCODES_C0, OPCODES_C8);
    DisjointKeysLeft(OPCODES_60, OPCODES_68, OPCODES_C0 + OPCODES_C8);
    OpcodeRows60AndD0();
    OpcodeRows60AndD8();
    DisjointKeysRight(OPCODES_60, OPCODES_D0, OPCODES_D8);
    OpcodeRows68AndD0();
    OpcodeRows68AndD8();
    DisjointKeysRight(OPCODES_68, OPCODES_D0, OPCODES_D8);
    DisjointKeysLeft(OPCODES_60, OPCODES_68, OPCODES_D0 + OPCODES_D8);
    DisjointKeysRight(OPCODES_60 + OPCODES_68, OPCODES_C0 + OPCODES_C8, OPCODES_D0 + OPCODES_D8);
    OpcodeRows70AndC0();
    OpcodeRows70AndC8();
    DisjointKeysRight(OPCODES_70, OPCODES_C0, OPCODES_C8);
    OpcodeRows78AndC0();
    OpcodeRows78AndC8();
    DisjointKeysRight(OPCODES_78, OPCODES_C0, OPCODES_C8);
    DisjointKeysLeft(OPCODES_70, OPCODES_78, OPCODES_C0 + OPCODES_C8);
    OpcodeRows70AndD0();
    OpcodeRows70AndD8();
    DisjointKeysRight(OPCODES_70, OPCODES_D0, OPCODES_D8);
    OpcodeRows78AndD0();
    OpcodeRows78AndD8();
    DisjointKeysRight(OPCODES_78, OPCODES_D0, OPCODES_D8);
    DisjointKeysLeft(OPCODES_70, OPCODES_78, OPCODES_D0 + OPCODES_D8);
    DisjointKeysRight(OPCODES_70 + OPCODES_78, OPCODES_C0 + OPCODES_C8, OPCODES_D0 + OPCODES_D8);
    DisjointKeysLeft(OPCODES_60 + OPCODES_68, OPCODES_70 + OPCODES_78, (OPCODES_C0 + OPCODES_C8) + (OPCODES_D0 + OPCODES_D8));
  }

  lemma OpcodeQuads60To78AndE0ToF8()
    ensures DisjointKeys((OPCODES_60 + OPCODES_68) + (OPCODES_70 + OPCODES_78), (OPCODES_E0 + OPCODES_E8) + (OPCODES_F0 + OPCODES_F8))
  {
    OpcodeRows60AndE0();
    OpcodeRows60AndE8();
    DisjointKeysRight(OPCODES_60, OPCODES_E0, OPCODES_E8);
    OpcodeRows68AndE0();
    OpcodeRows68AndE8();
    DisjointKeysRight(OPCODES_68, OPCODES_E0, OPCODES_E8);
    DisjointKeysLeft(OPCODES_60, OPCODES_68, OPCODES_E0 + OPCODES_E8);
    OpcodeRows60AndF0();
    OpcodeRows60AndF8();
    DisjointKeysRight(OPCODES_60, OPCODES_F0, OPCODES_F8);
    OpcodeRows68AndF0();
    OpcodeRows68AndF8();
    DisjointKeysRight(OPCODES_68, OPCODES_F0, OPCODES_F8);
    DisjointKeysLeft(OPCODES_60, OPCODES_68, OPCODES_F0 + OPCODES_F8);
    DisjointKeysRight(OPCODES_60 + OPCODES_68, OPCODES_E0 + OPCODES_E8, OPCODES_F0 + OPCODES_F8);
    OpcodeRows70AndE0();
    OpcodeRows70AndE8();
    DisjointKeysRight(OPCODES_70, OPCODES_E0, OPCODES_E8);
    OpcodeRows78AndE0();
    OpcodeRows78AndE8();
    DisjointKeysRight(OPCODES_78, OPCODES_E0, OPCODES_E8);
    DisjointKeysLeft(OPCODES_70, OPCODES_78, OPCODES_E0 + OPCODES_E8);
    OpcodeRows70AndF0();
    OpcodeRows70AndF8();
    DisjointKeysRight(OPCODES_70, OPCODES_F0, OPCODES_F8);
    OpcodeRows78AndF0();
    OpcodeRows78AndF8();
    DisjointKeysRight(OPCODES_78, OPCODES_F0, OPCODES_F8);
    DisjointKeysLeft(OPCODES_70, OPCODES_78, OPCODES_F0 + OPCODES_F8);
    DisjointKeysRight(OPCODES_70 + OPCODES_78, OPCODES_E0 + OPCODES_E8, OPCODES_F0 + OPCODES_F8);
    DisjointKeysLeft(OPCODES_60 + OPCODES_68, OPCODES_70 + OPCODES_78, (OPCODES_E0 + OPCODES_E8) + (OPCODES_F0 + OPCODES_F8));
  }

  lemma OpcodeQuads80To98AndA0ToB8()
    ensures DisjointKeys((OPCODES_80 + OPCODES_88) + (OPCODES_90 + OPCODES_98), (OPCODES_A0 + OPCODES_A8) + (OPCODES_B0 + OPCODES_B8))
  {
    OpcodeRows80AndA0();
    OpcodeRows80AndA8();
    DisjointKeysRight(OPCODES_80, OPCODES_A0, OPCODES_A8);
    OpcodeRows88AndA0();
    OpcodeRows88AndA8();
    DisjointKeysRight(OPCODES_88, OPCODES_A0, OPCODES_A8);
    DisjointKeysLeft(OPCODES_80, OPCODES_88, OPCODES_A0 + OPCODES_A8);
    OpcodeRows80AndB0();
    OpcodeRows80AndB8();
    DisjointKeysRight(OPCODES_80, OPCODES_B0, OPCODES_B8);
    OpcodeRows88AndB0();
    OpcodeRows88AndB8();
    DisjointKeysRight(OPCODES_88, OPCODES_B0, OPCODES_B8);
    DisjointKeysLeft(OPCODES_80, OPCODES_88, OPCODES_B0 + OPCODES_B8);
    DisjointKeysRight(OPCODES_80 + OPCODES_88, OPCODES_A0 + OPCODES_A8, OPCODES_B0 + OPCODES_B8);
    OpcodeRows90AndA0();
    OpcodeRows90AndA8();
    DisjointKeysRight(OPCODES_90, OPCODES_A0, OPCODES_A8);
    OpcodeRows98AndA0();
    OpcodeRows98AndA8();
    DisjointKeysRight(OPCODES_98, OPCODES_A0, OPCODES_A8);
    DisjointKeysLeft(OPCODES_90, OPCODES_98, OPCODES_A0 + OPCODES_A8);
    OpcodeRows90AndB0();
    OpcodeRows90AndB8();
    DisjointKeysRight(OPCODES_90, OPCODES_B0, OPCODES_B8);
    OpcodeRows98AndB0();
    OpcodeRows98AndB8();
    DisjointKeysRight(OPCODES_98, OPCODES_B0, OPCODES_B8);
    DisjointKeysLeft(OPCODES_90, OPCODES_98, OPCODES_B0 + OPCODES_B8);
    DisjointKeysRight(OPCODES_90 + OPCODES_98, OPCODES_A0 + OPCODES_A8, OPCODES_B0 + OPCODES_B8);
    DisjointKeysLeft(OPCODES_80 + OPCODES_88, OPCODES_90 + OPCODES_98, (OPCODES_A0 + OPCODES_A8) + (OPCODES_B0 + OPCODES_B8));
  }

  lemma OpcodeQuads80To98AndC0ToD8()
    ensures DisjointKeys((OPCODES_80 + OPCODES_88) + (OPCODES_90 + OPCODES_98), (OPCODES_C0 + OPCODES_C8) + (OPCODES_D0 + OPCODES_D8))
  {
    OpcodeRows80AndC0();
    OpcodeRows80AndC8();
    DisjointKeysRight(OPCODES_80, OPCODES_C0, OPCODES_C8);
    OpcodeRows88AndC0();
    OpcodeRows88AndC8();
    DisjointKeysRight(OPCODES_88, OPCODES_C0, OPCODES_C8);
    DisjointKeysLeft(OPCODES_80, OPCODES_88, OPCODES_C0 + OPCODES_C8);
    OpcodeRows80AndD0();
    OpcodeRows80AndD8();
    DisjointKeysRight(OPCODES_80, OPCODES_D0, OPCODES_D8);
    OpcodeRows88AndD0();
    OpcodeRows88AndD8();
    DisjointKeysRight(OPCODES_88, OPCODES_D0, OPCODES_D8);
    DisjointKeysLeft(OPCODES_80, OPCODES_88, OPCODES_D0 + OPCODES_D8);
    DisjointKeysRight(OPCODES_80 + OPCODES_88, OPCODES_C0 + OPCODES_C8, OPCODES_D0 + OPCODES_D8);
    OpcodeRows90AndC0();
    OpcodeRows90AndC8();
    DisjointKeysRight(OPCODES_90, OPCODES_C0, OPCODES_C8);
    OpcodeRows98AndC0();
    OpcodeRows98AndC8();
    DisjointKeysRight(OPCODES_98, OPCODES_C0, OPCODES_C8);
    DisjointKeysLeft(OPCODES_90, OPCODES_98, OPCODES_C0 + OPCODES_C8);
    OpcodeRows90AndD0();
    OpcodeRows90AndD8();
    DisjointKeysRight(OPCODES_90, OPCODES_D0, OPCODES_D8);
    OpcodeRows98AndD0();
    OpcodeRows98AndD8();
    DisjointKeysRight(OPCODES_98, OPCODES_D0, OPCODES_D8);
    DisjointKeysLeft(OPCODES_90, OPCODES_98, OPCODES_D0 + OPCODES_D8);
    DisjointKeysRight(OPCODES_90 + OPCODES_98, OPCODES_C0 + OPCODES_C8, OPCODES_D0 + OPCODES_D8);
    DisjointKeysLeft(OPCODES_80 + OPCODES_88, OPCODES_90 + OPCODES_98, (OPCODES_C0 + OPCODES_C8) + (OPCODES_D0 + OPCODES_D8));
  }

  lemma OpcodeQuads80To98AndE0ToF8()
    ensures DisjointKeys((OPCODES_80 + OPCODES_88) + (OPCODES_90 + OPCODES_98), (OPCODES_E0 + OPCODES_E8) + (OPCODES_F0 + OPCODES_F8))
  {
    OpcodeRows80AndE0();
    OpcodeRows80AndE8();
    DisjointKeysRight(OPCODES_80, OPCODES_E0, OPCODES_E8);
    OpcodeRows88AndE0();
    OpcodeRows88AndE8();
    DisjointKeysRight(OPCODES_88, OPCODES_E0, OPCODES_E8);
    DisjointKeysLeft(OPCODES_80, OPCODES_88, OPCODES_E0 + OPCODES_E8);
    OpcodeRows80AndF0();
    OpcodeRows80AndF8();
    DisjointKeysRight(OPCODES_80, OPCODES_F0, OPCODES_F8);
    OpcodeRows88AndF0();
    OpcodeRows88AndF8();
    DisjointKeysRight(OPCODES_88, OPCODES_F0, OPCODES_F8);
    DisjointKeysLeft(OPCODES_80, OPCODES_88, OPCODES_F0 + OPCODES_F8);
    DisjointKeysRight(OPCODES_80 + OPCODES_88, OPCODES_E0 + OPCODES_E8, OPCODES_F0 + OPCODES_F8);
    OpcodeRows90AndE0();
    OpcodeRows90AndE8();
    DisjointKeysRight(OPCODES_90, OPCODES_E0, OPCODES_E8);
    OpcodeRows98AndE0();
    OpcodeRows98AndE8();
    DisjointKeysRight(OPCODES_98, OPCODES_E0, OPCODES_E8);
    DisjointKeysLeft(OPCODES_90, OPCODES_98, OPCODES_E0 + OPCODES_E8);
    OpcodeRows90AndF0();
    OpcodeRows90AndF8();
    DisjointKeysRight(OPCODES_90, OPCODES_F0, OPCODES_F8);
    OpcodeRows98AndF0();
    OpcodeRows98AndF8();
    DisjointKeysRight(OPCODES_98, OPCODES_F0, OPCODES_F8);
    DisjointKeysLeft(OPCODES_90, OPCODES_98, OPCODES_F0 + OPCODES_F8);
    DisjointKeysRight(OPCODES_90 + OPCODES_98, OPCODES_E0 + OPCODES_E8, OPCODES_F0 + OPCODES_F8);
    DisjointKeysLeft(OPCODES_80 + OPCODES_88, OPCODES_90 + OPCODES_98, (OPCODES_E0 + OPCODES_E8) + (OPCODES_F0 + OPCODES_F8));
  }

  lemma OpcodeQuadsA0ToB8AndC0ToD8()
    ensures DisjointKeys((OPCODES_A0 + OPCODES_A8) + (OPCODES_B0 + OPCODES_B8), (OPCODES_C0 + OPCODES_C8) + (OPCODES_D0 + OPCODES_D8))
  {
    OpcodeRowsA0AndC0();
    OpcodeRowsA0AndC8();
    DisjointKeysRight(OPCODES_A0, OPCODES_C0, OPCODES_C8);
    OpcodeRowsA8AndC0();
    OpcodeRowsA8AndC8();
    DisjointKeysRight(OPCODES_A8, OPCODES_C0, OPCODES_C8);
    DisjointKeysLeft(OPCODES_A0, OPCODES_A8, OPCODES_C0 + OPCODES_C8);
    OpcodeRowsA0AndD0();
    OpcodeRowsA0AndD8();
    DisjointKeysRight(OPCODES_A0, OPCODES_D0, OPCODES_D8);
    OpcodeRowsA8AndD0();
    OpcodeRowsA8AndD8();
    DisjointKeysRight(OPCODES_A8, OPCODES_D0, OPCODES_D8);
    DisjointKeysLeft(OPCODES_A0, OPCODES_A8, OPCODES_D0 + OPCODES_D8);
    DisjointKeysRight(OPCODES_A0 + OPCODES_A8, OPCODES_C0 + OPCODES_C8, OPCODES_D0 + OPCODES_D8);
    OpcodeRowsB0AndC0();
    OpcodeRowsB0AndC8();
    DisjointKeysRight(OPCODES_B0, OPCODES_C0, OPCODES_C8);
    OpcodeRowsB8AndC0();
    OpcodeRowsB8AndC8();
    DisjointKeysRight(OPCODES_B8, OPCODES_C0, OPCODES_C8);
    DisjointKeysLeft(OPCODES_B0, OPCODES_B8, OPCODES_C0 + OPCODES_C8);
    OpcodeRowsB0AndD0();
    OpcodeRowsB0AndD8();
    DisjointKeysRight(OPCODES_B0, OPCODES_D0, OPCODES_D8);
    OpcodeRowsB8AndD0();
    OpcodeRowsB8AndD8();
    DisjointKeysRight(OPCODES_B8, OPCODES_D0, OPCODES_D8);
    DisjointKeysLeft(OPCODES_B0, OPCODES_B8, OPCODES_D0 + OPCODES_D8);
    DisjointKeysRight(OPCODES_B0 + OPCODES_B8, OPCODES_C0 + OPCODES_C8, OPCODES_D0 + OPCODES_D8);
    DisjointKeysLeft(OPCODES_A0 + OPCODES_A8, OPCODES_B0 + OPCODES_B8, (OPCODES_C0 + OPCODES_C8) + (OPCODES_D0 + OPCODES_D8));
  }

  lemma OpcodeQuadsA0ToB8AndE0ToF8()
    ensures DisjointKeys((OPCODES_A0 + OPCODES_A8) + (OPCODES_B0 + OPCODES_B8), (OPCODES_E0 + OPCODES_E8) + (OPCODES_F0 + OPCODES_F8))
  {
    OpcodeRowsA0AndE0();
    OpcodeRowsA0AndE8();
    DisjointKeysRight(OPCODES_A0, OPCODES_E0, OPCODES_E8);
    OpcodeRowsA8AndE0();
    OpcodeRowsA8AndE8();
    DisjointKeysRight(OPCODES_A8, OPCODES_E0, OPCODES_E8);
    DisjointKeysLeft(OPCODES_A0, OPCODES_A8, OPCODES_E0 + OPCODES_E8);
    OpcodeRowsA0AndF0();
    OpcodeRowsA0AndF8();
    DisjointKeysRight(OPCODES_A0, OPCODES_F0, OPCODES_F8);
    OpcodeRowsA8AndF0();
    OpcodeRowsA8AndF8();
    DisjointKeysRight(OPCODES_A8, OPCODES_F0, OPCODES_F8);
    DisjointKeysLeft(OPCODES_A0, OPCODES_A8, OPCODES_F0 + OPCODES_F8);
    DisjointKeysRight(OPCODES_A0 + OPCODES_A8, OPCODES_E0 + OPCODES_E8, OPCODES_F0 + OPCODES_F8);
    OpcodeRowsB0AndE0();
    OpcodeRowsB0AndE8();
    DisjointKeysRight(OPCODES_B0, OPCODES_E0, OPCODES_E8);
    OpcodeRowsB8AndE0();
    OpcodeRowsB8AndE8();
    DisjointKeysRight(OPCODES_B8, OPCODES_E0, OPCODES_E8);
    DisjointKeysLeft(OPCODES_B0, OPCODES_B8, OPCODES_E0 + OPCODES_E8);
    OpcodeRowsB0AndF0();
    OpcodeRowsB0AndF8();
    DisjointKeysRight(OPCODES_B0, OPCODES_F0, OPCODES_F8);
    OpcodeRowsB8AndF0();
    OpcodeRowsB8AndF8();
    DisjointKeysRight(OPCODES_B8, OPCODES_F0, OPCODES_F8);
    DisjointKeysLeft(OPCODES_B0, OPCODES_B8, OPCODES_F0 + OPCODES_F8);
    DisjointKeysRight(OPCODES_B0 + OPCODES_B8, OPCODES_E0 + OPCODES_E8, OPCODES_F0 + OPCODES_F8);
    DisjointKeysLeft(OPCODES_A0 + OPCODES_A8, OPCODES_B0 + OPCODES_B8, (OPCODES_E0 + OPCODES_E8) + (OPCODES_F0 + OPCODES_F8));
  }

  lemma OpcodeQuadsC0ToD8AndE0ToF8()
    ensures DisjointKeys((OPCODES_C0 + OPCODES_C8) + (OPCODES_D0 + OPCODES_D8), (OPCODES_E0 + OPCODES_E8) + (OPCODES_F0 + OPCODES_F8))
  {
    OpcodeRowsC0AndE0();
    OpcodeRowsC0AndE8();
    DisjointKeysRight(OPCODES_C0, OPCODES_E0, OPCODES_E8);
    OpcodeRowsC8AndE0();
    OpcodeRowsC8AndE8();
    DisjointKeysRight(OPCODES_C8, OPCODES_E0, OPCODES_E8);
    DisjointKeysLeft(OPCODES_C0, OPCODES_C8, OPCODES_E0 + OPCODES_E8);
    OpcodeRowsC0AndF0();
    OpcodeRowsC0AndF8();
    DisjointKeysRight(OPCODES_C0, OPCODES_F0, OPCODES_F8);
    OpcodeRowsC8AndF0();
    OpcodeRowsC8AndF8();
    DisjointKeysRight(OPCODES_C8, OPCODES_F0, OPCODES_F8);
    DisjointKeysLeft(OPCODES_C0, OPCODES_C8, OPCODES_F0 + OPCODES_F8);
    DisjointKeysRight(OPCODES_C0 + OPCODES_C8, OPCODES_E0 + OPCODES_E8, OPCODES_F0 + OPCODES_F8);
    OpcodeRowsD0AndE0();
    OpcodeRowsD0AndE8();
    DisjointKeysRight(OPCODES_D0, OPCODES_E0, OPCODES_E8);
    OpcodeRowsD8AndE0();
    OpcodeRowsD8AndE8();
    DisjointKeysRight(OPCODES_D8, OPCODES_E0, OPCODES_E8);
    DisjointKeysLeft(OPCODES_D0, OPCODES_D8, OPCODES_E0 + OPCODES_E8);
    OpcodeRowsD0AndF0();
    OpcodeRowsD0AndF8();
    DisjointKeysRight(OPCODES_D0, OPCODES_F0, OPCODES_F8);
    OpcodeRowsD8AndF0();
    OpcodeRowsD8AndF8();
    DisjointKeysRight(OPCODES_D8, OPCODES_F0, OPCODES_F8);
    DisjointKeysLeft(OPCODES_D0, OPCODES_D8, OPCODES_F0 + OPCODES_F8);
    DisjointKeysRight(OPCODES_D0 + OPCODES_D8, OPCODES_E0 + OPCODES_E8, OPCODES_F0 + OPCODES_F8);
    DisjointKeysLeft(OPCODES_C0 + OPCODES_C8, OPCODES_D0 + OPCODES_D8, (OPCODES_E0 + OPCODES_E8) + (OPCODES_F0 + OPCODES_F8));
  }

  /** Rows 00 to 38 hold no entry twice. */
  lemma OpcodeHalf00To38()
    ensures DistinctKeys(((OPCODES_00 + OPCODES_08) + (OPCODES_10 + OPCODES_18)) + ((OPCODES_20 + OPCODES_28) + (OPCODES_30 + OPCODES_38)))
  {
    OpcodeQuad00To18();
    OpcodeQuad20To38();
    OpcodeQuads00To18And20To38();
    DistinctKeysAppend((OPCODES_00 + OPCODES_08) + (OPCODES_10 + OPCODES_18), (OPCODES_20 + OPCODES_28) + (OPCODES_30 + OPCODES_38));
  }

  /** Rows 40 to 78 hold no entry twice. */
  lemma OpcodeHalf40To78()
    ensures DistinctKeys(((OPCODES_40 + OPCODES_48) + (OPCODES_50 + OPCODES_58)) + ((OPCODES_60 + OPCODES_68) + (OPCODES_70 + OPCODES_78)))
  {
    OpcodeQuad40To58();
    OpcodeQuad60To78();
    OpcodeQuads40To58And60To78();
    DistinctKeysAppend((OPCODES_40 + OPCODES_48) + (OPCODES_50 + OPCODES_58), (OPCODES_60 + OPCODES_68) + (OPCODES_70 + OPCODES_78));
  }

  /** Rows 80 to B8 hold no entry twice. */
  lemma OpcodeHalf80ToB8()
    ensures DistinctKeys(((OPCODES_80 + OPCODES_88) + (OPCODES_90 + OPCODES_98)) + ((OPCODES_A0 + OPCODES_A8) + (OPCODES_B0 + OPCODES_B8)))
  {
    OpcodeQuad80To98();
    OpcodeQuadA0ToB8();
    OpcodeQuads80To98AndA0ToB8();
    DistinctKeysAppend((OPCODES_80 + OPCODES_88) + (OPCODES_90 + OPCODES_98), (OPCODES_A0 + OPCODES_A8) + (OPCODES_B0 + OPCODES_B8));
  }

  /** Rows C0 to F8 hold no entry twice. */
  lemma OpcodeHalfC0ToF8()
    ensures DistinctKeys(((OPCODES_C0 + OPCODES_C8) + (OPCODES_D0 + OPCODES_D8)) + ((OPCODES_E0 + OPCODES_E8) + (OPCODES_F0 + OPCODES_F8)))
  {
    OpcodeQuadC0ToD8();
    OpcodeQuadE0ToF8();
    OpcodeQuadsC0ToD8AndE0ToF8();
    DistinctKeysAppend((OPCODES_C0 + OPCODES_C8) + (OPCODES_D0 + OPCODES_D8), (OPCODES_E0 + OPCODES_E8) + (OPCODES_F0 + OPCODES_F8));
  }

  lemma OpcodeHalves00To38And40To78()
    ensures DisjointKeys(((OPCODES_00 + OPCODES_08) + (OPCODES_10 + OPCODES_18)) + ((OPCODES_20 + OPCODES_28) + (OPCODES_30 + OPCODES_38)), ((OPCODES_40 + OPCODES_48) + (OPCODES_50 + OPCODES_58)) + ((OPCODES_60 + OPCODES_68) + (OPCODES_70 + OPCODES_78)))
  {
    OpcodeQuads00To18And40To58();
    OpcodeQuads00To18And60To78();
    DisjointKeysRight((OPCODES_00 + OPCODES_08) + (OPCODES_10 + OPCODES_18), (OPCODES_40 + OPCODES_48) + (OPCODES_50 + OPCODES_58), (OPCODES_60 + OPCODES_68) + (OPCODES_70 + OPCODES_78));
    OpcodeQuads20To38And40To58();
    OpcodeQuads20To38And60To78();
    DisjointKeysRight((OPCODES_20 + OPCODES_28) + (OPCODES_30 + OPCODES_38), (OPCODES_40 + OPCODES_48) + (OPCODES_50 + OPCODES_58), (OPCODES_60 + OPCODES_68) + (OPCODES_70 + OPCODES_78));
    DisjointKeysLeft((OPCODES_00 + OPCODES_08) + (OPCODES_10 + OPCODES_18), (OPCODES_20 + OPCODES_28) + (OPCODES_30 + OPCODES_38), ((OPCODES_40 + OPCODES_48) + (OPCODES_50 + OPCODES_58)) + ((OPCODES_60 + OPCODES_68) + (OPCODES_70 + OPCODES_78)));
  }

  lemma OpcodeHalves00To38And80ToB8()
    ensures DisjointKeys(((OPCODES_00 + OPCODES_08) + (OPCODES_10 + OPCODES_18)) + ((OPCODES_20 + OPCODES_28) + (OPCODES_30 + OPCODES_38)), ((OPCODES_80 + OPCODES_88) + (OPCODES_90 + OPCODES_98)) + ((OPCODES_A0 + OPCODES_A8) + (OPCODES_B0 + OPCODES_B8)))
  {
    OpcodeQuads00To18And80To98();
    OpcodeQuads00To18AndA0ToB8();
    DisjointKeysRight((OPCODES_00 + OPCODES_08) + (OPCODES_10 + OPCODES_18), (OPCODES_80 + OPCODES_88) + (OPCODES_90 + OPCODES_98), (OPCODES_A0 + OPCODES_A8) + (OPCODES_B0 + OPCODES_B8));
    OpcodeQuads20To38And80To98();
    OpcodeQuads20To38AndA0ToB8();
    DisjointKeysRight((OPCODES_20 + OPCODES_28) + (OPCODES_30 + OPCODES_38), (OPCODES_80 + OPCODES_88) + (OPCODES_90 + OPCODES_98), (OPCODES_A0 + OPCODES_A8) + (OPCODES_B0 + OPCODES_B8));
    DisjointKeysLeft((OPCODES_00 + OPCODES_08) + (OPCODES_10 + OPCODES_18), (OPCODES_20 + OPCODES_28) + (OPCODES_30 + OPCODES_38), ((OPCODES_80 + OPCODES_88) + (OPCODES_90 + OPCODES_98)) + ((OPCODES_A0 + OPCODES_A8) + (OPCODES_B0 + OPCODES_B8)));
  }

  lemma OpcodeHalves00To38AndC0ToF8()
    ensures DisjointKeys(((OPCODES_00 + OPCODES_08) + (OPCODES_10 + OPCODES_18)) + ((OPCODES_20 + OPCODES_28) + (OPCODES_30 + OPCODES_38)), ((OPCODES_C0 + OPCODES_C8) + (OPCODES_D0 + OPCODES_D8)) + ((OPCODES_E0 + OPCODES_E8) + (OPCODES_F0 + OPCODES_F8)))
  {
    OpcodeQuads00To18AndC0ToD8();
    OpcodeQuads00To18AndE0ToF8();
    DisjointKeysRight((OPCODES_00 + OPCODES_08) + (OPCODES_10 + OPCODES_18), (OPCODES_C0 + OPCODES_C8) + (OPCODES_D0 + OPCODES_D8), (OPCODES_E0 + OPCODES_E8) + (OPCODES_F0 + OPCODES_F8));
    OpcodeQuads20To38AndC0ToD8();
    OpcodeQuads20To38AndE0ToF8();
    DisjointKeysRight((OPCODES_20 + OPCODES_28) + (OPCODES_30 + OPCODES_38), (OPCODES_C0 + OPCODES_C8) + (OPCODES_D0 + OPCODES_D8), (OPCODES_E0 + OPCODES_E8) + (OPCODES_F0 + OPCODES_F8));
    DisjointKeysLeft((OPCODES_00 + OPCODES_08) + (OPCODES_10 + OPCODES_18), (OPCODES_20 + OPCODES_28) + (OPCODES_30 + OPCODES_38), ((OPCODES_C0 + OPCODES_C8) + (OPCODES_D0 + OPCODES_D8)) + ((OPCODES_E0 + OPCODES_E8) + (OPCODES_F0 + OPCODES_F8)));
  }

  lemma OpcodeHalves40To78And80ToB8()
    ensures DisjointKeys(((OPCODES_40 + OPCODES_48) + (OPCODES_50 + OPCODES_58)) + ((OPCODES_60 + OPCODES_68) + (OPCODES_70 + OPCODES_78)), ((OPCODES_80 + OPCODES_88) + (OPCODES_90 + OPCODES_98)) + ((OPCODES_A0 + OPCODES_A8) + (OPCODES_B0 + OPCODES_B8)))
  {
    OpcodeQuads40To58And80To98();
    OpcodeQuads40To58AndA0ToB8();
    DisjointKeysRight((OPCODES_40 + OPCODES_48) + (OPCODES_50 + OPCODES_58), (OPCODES_80 + OPCODES_88) + (OPCODES_90 + OPCODES_98), (OPCODES_A0 + OPCODES_A8) + (OPCODES_B0 + OPCODES_B8));
    OpcodeQuads60To78And80To98();
    OpcodeQuads60To78AndA0ToB8();
    DisjointKeysRight((OPCODES_60 + OPCODES_68) + (OPCODES_70 + OPCODES_78), (OPCODES_80 + OPCODES_88) + (OPCODES_90 + OPCODES_98), (OPCODES_A0 + OPCODES_A8) + (OPCODES_B0 + OPCODES_B8));
    DisjointKeysLeft((OPCODES_40 + OPCODES_48) + (OPCODES_50 + OPCODES_58), (OPCODES_60 + OPCODES_68) + (OPCODES_70 + OPCODES_78), ((OPCODES_80 + OPCODES_88) + (OPCODES_90 + OPCODES_98)) + ((OPCODES_A0 + OPCODES_A8) + (OPCODES_B0 + OPCODES_B8)));
  }

  lemma OpcodeHalves40To78AndC0ToF8()
    ensures DisjointKeys(((OPCODES_40 + OPCODES_48) + (OPCODES_50 + OPCODES_58)) + ((OPCODES_60 + OPCODES_68) + (OPCODES_70 + OPCODES_78)), ((OPCODES_C0 + OPCODES_C8) + (OPCODES_D0 + OPCODES_D8)) + ((OPCODES_E0 + OPCODES_E8) + (OPCODES_F0 + OPCODES_F8)))
  {
    OpcodeQuads40To58AndC0ToD8();
    OpcodeQuads40To58AndE0ToF8();
    DisjointKeysRight((OPCODES_40 + OPCODES_48) + (OPCODES_50 + OPCODES_58), (OPCODES_C0 + OPCODES_C8) + (OPCODES_D0 + OPCODES_D8), (OPCODES_E0 + OPCODES_E8) + (OPCODES_F0 + OPCODES_F8));
    OpcodeQuads60To78AndC0ToD8();
    OpcodeQuads60To78AndE0ToF8();
    DisjointKeysRight((OPCODES_60 + OPCODES_68) + (OPCODES_70 + OPCODES_78), (OPCODES_C0 + OPCODES_C8) + (OPCODES_D0 + OPCODES_D8), (OPCODES_E0 + OPCODES_E8) + (OPCODES_F0 + OPCODES_F8));
    DisjointKeysLeft((OPCODES_40 + OPCODES_48) + (OPCODES_50 + OPCODES_58), (OPCODES_60 + OPCODES_68) + (OPCODES_70 + OPCODES_78), ((OPCODES_C0 + OPCODES_C8) + (OPCODES_D0 + OPCODES_D8)) + ((OPCODES_E0 + OPCODES_E8) + (OPCODES_F0 + OPCODES_F8)));
  }

  lemma OpcodeHalves80ToB8AndC0ToF8()
    ensures DisjointKeys(((OPCODES_80 + OPCODES_88) + (OPCODES_90 + OPCODES_98)) + ((OPCODES_A0 + OPCODES_A8) + (OPCODES_B0 + OPCODES_B8)), ((OPCODES_C0 + OPCODES_C8) + (OPCODES_D0 + OPCODES_D8)) + ((OPCODES_E0 + OPCODES_E8) + (OPCODES_F0 + OPCODES_F8)))
  {
    OpcodeQuads80To98AndC0ToD8();
    OpcodeQuads80To98AndE0ToF8();
    DisjointKeysRight((OPCODES_80 + OPCODES_88) + (OPCODES_90 + OPCODES_98), (OPCODES_C0 + OPCODES_C8) + (OPCODES_D0 + OPCODES_D8), (OPCODES_E0 + OPCODES_E8) + (OPCODES_F0 + OPCODES_F8));
    OpcodeQuadsA0ToB8AndC0ToD8();
    OpcodeQuadsA0ToB8AndE0ToF8();
    DisjointKeysRight((OPCODES_A0 + OPCODES_A8) + (OPCODES_B0 + OPCODES_B8), (OPCODES_C0 + OPCODES_C8) + (OPCODES_D0 + OPCODES_D8), (OPCODES_E0 + OPCODES_E8) + (OPCODES_F0 + OPCODES_F8));
    DisjointKeysLeft((OPCODES_80 + OPCODES_88) + (OPCODES_90 + OPCODES_98), (OPCODES_A0 + OPCODES_A8) + (OPCODES_B0 + OPCODES_B8), ((OPCODES_C0 + OPCODES_C8) + (OPCODES_D0 + OPCODES_D8)) + ((OPCODES_E0 + OPCODES_E8) + (OPCODES_F0 + OPCODES_F8)));
  }

  /** Apart from the placeholder, the 256 entries of OPCODE_TABLE are pairwise distinct. */
  lemma OpcodesDistinct()
    ensures DistinctKeys(OPCODE_TABLE)
  {
    OpcodeHalf00To38();
    OpcodeHalf40To78();
    OpcodeHalves00To38And40To78();
    DistinctKeysAppend(((OPCODES_00 + OPCODES_08) + (OPCODES_10 + OPCODES_18)) + ((OPCODES_20 + OPCODES_28) + (OPCODES_30 + OPCODES_38)), ((OPCODES_40 + OPCODES_48) + (OPCODES_50 + OPCODES_58)) + ((OPCODES_60 + OPCODES_68) + (OPCODES_70 + OPCODES_78)));
    OpcodeHalf80ToB8();
    OpcodeHalfC0ToF8();
    OpcodeHalves80ToB8AndC0ToF8();
    DistinctKeysAppend(((OPCODES_80 + OPCODES_88) + (OPCODES_90 + OPCODES_98)) + ((OPCODES_A0 + OPCODES_A8) + (OPCODES_B0 + OPCODES_B8)), ((OPCODES_C0 + OPCODES_C8) + (OPCODES_D0 + OPCODES_D8)) + ((OPCODES_E0 + OPCODES_E8) + (OPCODES_F0 + OPCODES_F8)));
    OpcodeHalves00To38And80ToB8();
    OpcodeHalves00To38AndC0ToF8();
    DisjointKeysRight(((OPCODES_00 + OPCODES_08) + (OPCODES_10 + OPCODES_18)) + ((OPCODES_20 + OPCODES_28) + (OPCODES_30 + OPCODES_38)), ((OPCODES_80 + OPCODES_88) + (OPCODES_90 + OPCODES_98)) + ((OPCODES_A0 + OPCODES_A8) + (OPCODES_B0 + OPCODES_B8)), ((OPCODES_C0 + OPCODES_C8) + (OPCODES_D0 + OPCODES_D8)) + ((OPCODES_E0 + OPCODES_E8) + (OPCODES_F0 + OPCODES_F8)));
    OpcodeHalves40To78And80ToB8();
    OpcodeHalves40To78AndC0ToF8();
    DisjointKeysRight(((OPCODES_40 + OPCODES_48) + (OPCODES_50 + OPCODES_58)) + ((OPCODES_60 + OPCODES_68) + (OPCODES_70 + OPCODES_78)), ((OPCODES_80 + OPCODES_88) + (OPCODES_90 + OPCODES_98)) + ((OPCODES_A0 + OPCODES_A8) + (OPCODES_B0 + OPCODES_B8)), ((OPCODES_C0 + OPCODES_C8) + (OPCODES_D0 + OPCODES_D8)) + ((OPCODES_E0 + OPCODES_E8) + (OPCODES_F0 + OPCODES_F8)));
    DisjointKeysLeft(((OPCODES_00 + OPCODES_08) + (OPCODES_10 + OPCODES_18)) + ((OPCODES_20 + OPCODES_28) + (OPCODES_30 + OPCODES_38)), ((OPCODES_40 + OPCODES_48) + (OPCODES_50 + OPCODES_58)) + ((OPCODES_60 + OPCODES_68) + (OPCODES_70 + OPCODES_78)), (((OPCODES_80 + OPCODES_88) + (OPCODES_90 + OPCODES_98)) + ((OPCODES_A0 + OPCODES_A8) + (OPCODES_B0 + OPCODES_B8))) + (((OPCODES_C0 + OPCODES_C8) + (OPCODES_D0 + OPCODES_D8)) + ((OPCODES_E0 + OPCODES_E8) + (OPCODES_F0 + OPCODES_F8))));
    DistinctKeysAppend((((OPCODES_00 + OPCODES_08) + (OPCODES_10 + OPCODES_18)) + ((OPCODES_20 + OPCODES_28) + (OPCODES_30 + OPCODES_38))) + (((OPCODES_40 + OPCODES_48) + (OPCODES_50 + OPCODES_58)) + ((OPCODES_60 + OPCODES_68) + (OPCODES_70 + OPCODES_78))), (((OPCODES_80 + OPCODES_88) + (OPCODES_90 + OPCODES_98)) + ((OPCODES_A0 + OPCODES_A8) + (OPCODES_B0 + OPCODES_B8))) + (((OPCODES_C0 + OPCODES_C8) + (OPCODES_D0 + OPCODES_D8)) + ((OPCODES_E0 + OPCODES_E8) + (OPCODES_F0 + OPCODES_F8))));
  }

  /** Every listed instruction text is found at its own opcode: the first match of
      find_opcode is the only one. */
  lemma FindOpcodeOfEntry(k: nat)
    requires k < |OPCODE_TABLE| && OPCODE_TABLE[k] != PLACEHOLDER
    ensures FindOpcode(OPCODE_TABLE[k]) == k
  {
    OpcodesDistinct();
    FindOpcodeSpec(OPCODE_TABLE[k]);
    var r := FindOpcode(OPCODE_TABLE[k]);
    assert r != -1 by {
      assert OPCODE_TABLE[k] in OPCODE_TABLE;
    }
  }
}
