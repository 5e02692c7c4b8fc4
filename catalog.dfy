/** The declarations of assembler.h: the token-length limit, the records the two passes
    share, and the instruction catalog (the opcode table, the mnemonic table and its parallel
    operand-shape table), with the lookups assembler.c performs on them. */
module Catalog {
  import opened Common
  import opened Ascii

  /** Size of the token buffer: 31 visible characters and the terminating NUL. */
  const MAX_TOKEN_LEN: nat := 32

  /** A token: its characters (the C record's `size` is the length of this string). */
  type Token = string

  /** A label definition found by pass 1: the token without its trailing ':' and the byte
      offset at which it was found, truncated to 16 bits. */
  datatype Label = Label(name: string, address: uint16)

  /** The output of an assembly: the bytes (the C record's `len` is their number). */
  type ByteCode = seq<uint8>

  /** OpcodeOperandType: how the operands of a mnemonic are written and encoded. */
  datatype OperandType =
    | OpNone        // no operand
    | OpReg         // one register
    | OpD8          // 8-bit immediate
    | OpD16         // 16-bit immediate
    | OpAddress     // 16-bit address
    | OpRegD8       // register, 8-bit immediate
    | OpRegD16      // register, 16-bit immediate
    | OpRegReg      // register, register
    | OpResetNumber // restart vector number
    | OpRp          // register pair
    | OpRpD16       // register pair, 16-bit immediate
    | OpPort        // port number

  /** InstInfo: the number of bytes an instruction encodes to and the number of operand
      tokens that follow its mnemonic. */
  datatype InstInfo = InstInfo(byteLen: nat, tokenSkip: nat)

  // OPCODE_TABLE, eight entries per row as in the header; the entry at index n is the
  // canonical text of the instruction whose opcode byte is n, "x" marks an unused opcode.
  const OPCODES_00: seq<string> := ["nop", "lxi b", "stax b", "inx b", "inr b", "dcr b", "mvi b", "rlc"]
  const OPCODES_08: seq<string> := ["x", "dad b", "ldax b", "dcx b", "inr c", "dcr c", "mvi c", "rrc"]
  const OPCODES_10: seq<string> := ["x", "lxi d", "stax d", "inx d", "inr d", "dcr d", "mvi d", "ral"]
  const OPCODES_18: seq<string> := ["x", "dad d", "ldax d", "dcx d", "inr e", "dcr e", "mvi e", "rar"]
  const OPCODES_20: seq<string> := ["x", "lxi h", "shld", "inx h", "inr h", "dcr h", "mvi h", "daa"]
  const OPCODES_28: seq<string> := ["x", "dad h", "lhld", "dcx h", "inr l", "dcr l", "mvi l", "cma"]
  const OPCODES_30: seq<string> := ["x", "lxi sp", "sta", "inx sp", "inr m", "dcr m", "mvi m", "stc"]
  const OPCODES_38: seq<string> := ["x", "dad sp", "lda", "dcx sp", "inr a", "dcr a", "mvi a", "cmc"]
  const OPCODES_40: seq<string> := ["mov b,b", "mov b,c", "mov b,d", "mov b,e", "mov b,h", "mov b,l", "mov b,m", "mov b,a"]
  const OPCODES_48: seq<string> := ["mov c,b", "mov c,c", "mov c,d", "mov c,e", "mov c,h", "mov c,l", "mov c,m", "mov c,a"]
  const OPCODES_50: seq<string> := ["mov d,b", "mov d,c", "mov d,d", "mov d,e", "mov d,h", "mov d,l", "mov d,m", "mov d,a"]
  const OPCODES_58: seq<string> := ["mov e,b", "mov e,c", "mov e,d", "mov e,e", "mov e,h", "mov e,l", "mov e,m", "mov e,a"]
  const OPCODES_60: seq<string> := ["mov h,b", "mov h,c", "mov h,d", "mov h,e", "mov h,h", "mov h,l", "mov h,m", "mov h,a"]
  const OPCODES_68: seq<string> := ["mov l,b", "mov l,c", "mov l,d", "mov l,e", "mov l,h", "mov l,l", "mov l,m", "mov l,a"]
  const OPCODES_70: seq<string> := ["mov m,b", "mov m,c", "mov m,d", "mov m,e", "mov m,h", "mov m,l", "hlt", "mov m,a"]
  const OPCODES_78: seq<string> := ["mov a,b", "mov a,c", "mov a,d", "mov a,e", "mov a,h", "mov a,l", "mov a,m", "mov a,a"]
  const OPCODES_80: seq<string> := ["add b", "add c", "add d", "add e", "add h", "add l", "add m", "add a"]
  const OPCODES_88: seq<string> := ["adc b", "adc c", "adc d", "adc e", "adc h", "adc l", "adc m", "adc a"]
  const OPCODES_90: seq<string> := ["sub b", "sub c", "sub d", "sub e", "sub h", "sub l", "sub m", "sub a"]
  const OPCODES_98: seq<string> := ["sbb b", "sbb c", "sbb d", "sbb e", "sbb h", "sbb l", "sbb m", "sbb a"]
  const OPCODES_A0: seq<string> := ["ana b", "ana c", "ana d", "ana e", "ana h", "ana l", "ana m", "ana a"]
  const OPCODES_A8: seq<string> := ["xra b", "xra c", "xra d", "xra e", "xra h", "xra l", "xra m", "xra a"]
  const OPCODES_B0: seq<string> := ["ora b", "ora c", "ora d", "ora e", "ora h", "ora l", "ora m", "ora a"]
  const OPCODES_B8: seq<string> := ["cmp b", "cmp c", "cmp d", "cmp e", "cmp h", "cmp l", "cmp m", "cmp a"]
  const OPCODES_C0: seq<string> := ["rnz", "pop b", "jnz", "jmp", "cnz", "push b", "adi", "rst 0"]
  const OPCODES_C8: seq<string> := ["rz", "ret", "jz", "x", "cz", "call", "aci", "rst 1"]
  const OPCODES_D0: seq<string> := ["rnc", "pop d", "jnc", "out p", "cnc", "push d", "sui", "rst 2"]
  const OPCODES_D8: seq<string> := ["rc", "x", "jc", "in p", "cc", "x", "sbi", "rst 3"]
  const OPCODES_E0: seq<string> := ["rpo", "pop h", "jpo", "xthl", "cpo", "push h", "ani", "rst 4"]
  const OPCODES_E8: seq<string> := ["rpe", "pchl", "jpe", "xchg", "cpe", "x", "xri", "rst 5"]
  const OPCODES_F0: seq<string> := ["rp", "pop psw", "jp", "di", "cp", "push psw", "ori", "rst 6"]
  const OPCODES_F8: seq<string> := ["rm", "sphl", "jm", "ei", "cm", "x", "cpi", "rst 7"]

  const OPCODE_TABLE: seq<string> :=
    ( (((OPCODES_00 + OPCODES_08) + (OPCODES_10 + OPCODES_18)) + ((OPCODES_20 + OPCODES_28) + (OPCODES_30 + OPCODES_38)))
    + (((OPCODES_40 + OPCODES_48) + (OPCODES_50 + OPCODES_58)) + ((OPCODES_60 + OPCODES_68) + (OPCODES_70 + OPCODES_78))) )
  + ( (((OPCODES_80 + OPCODES_88) + (OPCODES_90 + OPCODES_98)) + ((OPCODES_A0 + OPCODES_A8) + (OPCODES_B0 + OPCODES_B8)))
    + (((OPCODES_C0 + OPCODES_C8) + (OPCODES_D0 + OPCODES_D8)) + ((OPCODES_E0 + OPCODES_E8) + (OPCODES_F0 + OPCODES_F8))) )

  // INSTRUCTION_TABLE_NO_OPERAND: the bare mnemonics.
  const MNEMONICS_00: seq<string> := ["mov", "mvi", "lxi", "lda", "sta", "lhld", "shld", "ldax"]
  const MNEMONICS_08: seq<string> := ["stax", "xchg", "add", "adi", "adc", "aci", "sub", "sui"]
  const MNEMONICS_16: seq<string> := ["sbb", "sbi", "inr", "dcr", "inx", "dcx", "dad", "daa"]
  const MNEMONICS_24: seq<string> := ["ana", "ani", "ora", "ori", "xra", "xri", "cmp", "cpi"]
  const MNEMONICS_32: seq<string> := ["rlc", "rrc", "ral", "rar", "cma", "cmc", "stc", "jmp"]
  const MNEMONICS_40: seq<string> := ["jnz", "jnc", "jpo", "jp", "jz", "jc", "jpe", "jm"]
  const MNEMONICS_48: seq<string> := ["call", "cnz", "cnc", "cpo", "cp", "cz", "cc", "cpe"]
  const MNEMONICS_56: seq<string> := ["cm", "ret", "rnz", "rnc", "rpo", "rp", "rz", "rc"]
  const MNEMONICS_64: seq<string> := ["rpe", "rm", "rst", "pchl", "push", "pop", "xthl", "sphl"]
  const MNEMONICS_72: seq<string> := ["in", "out", "ei", "di", "hlt", "nop"]

  const INSTRUCTION_TABLE_NO_OPERAND: seq<string> :=
    (((MNEMONICS_00 + MNEMONICS_08) + (MNEMONICS_16 + MNEMONICS_24)) + ((MNEMONICS_32 + MNEMONICS_40) + (MNEMONICS_48 + MNEMONICS_56)))
  + (MNEMONICS_64 + MNEMONICS_72)

  // OPERAND_TYPE_TABLE: entry n is the operand shape of mnemonic n.
  const OPERAND_TYPES_00: seq<OperandType> := [OpRegReg, OpRegD8, OpRpD16, OpAddress, OpAddress, OpAddress, OpAddress, OpRp]
  const OPERAND_TYPES_08: seq<OperandType> := [OpRp, OpNone, OpReg, OpD8, OpReg, OpD8, OpReg, OpD8]
  const OPERAND_TYPES_16: seq<OperandType> := [OpReg, OpD8, OpD8, OpD8, OpRp, OpRp, OpRp, OpNone]
  const OPERAND_TYPES_24: seq<OperandType> := [OpReg, OpD8, OpReg, OpD8, OpReg, OpD8, OpReg, OpD8]
  const OPERAND_TYPES_32: seq<OperandType> := [OpNone, OpNone, OpNone, OpNone, OpNone, OpNone, OpNone, OpAddress]
  const OPERAND_TYPES_40: seq<OperandType> := [OpAddress, OpAddress, OpAddress, OpAddress, OpAddress, OpAddress, OpAddress, OpAddress]
  const OPERAND_TYPES_48: seq<OperandType> := [OpAddress, OpAddress, OpAddress, OpAddress, OpAddress, OpAddress, OpAddress, OpAddress]
  const OPERAND_TYPES_56: seq<OperandType> := [OpAddress, OpNone, OpNone, OpNone, OpNone, OpNone, OpNone, OpNone]
  const OPERAND_TYPES_64: seq<OperandType> := [OpNone, OpNone, OpResetNumber, OpNone, OpRp, OpRp, OpNone, OpNone]
  const OPERAND_TYPES_72: seq<OperandType> := [OpPort, OpPort, OpNone, OpNone, OpNone, OpNone]

  const OPERAND_TYPE_TABLE: seq<OperandType> :=
    (((OPERAND_TYPES_00 + OPERAND_TYPES_08) + (OPERAND_TYPES_16 + OPERAND_TYPES_24)) + ((OPERAND_TYPES_32 + OPERAND_TYPES_40) + (OPERAND_TYPES_48 + OPERAND_TYPES_56)))
  + (OPERAND_TYPES_64 + OPERAND_TYPES_72)

  /** The linear search of find_opcode and find_instruction_no_operand, from index `i` on:
      the index of the first entry equal to `key`, or -1. See FirstIndexFromSpec. */
  function FirstIndexFrom(table: seq<string>, key: string, i: nat): (r: int)
    requires i <= |table|
    ensures r == -1 || i <= r < |table|
    decreases |table| - i
  {
    if i == |table| then -1
    else if table[i] == key then i
    else FirstIndexFrom(table, key, i + 1)
  }

  /** find_instruction_no_operand. See FindInstructionSpec. */
  function FindInstruction(mnemonic: string): int {
    FirstIndexFrom(INSTRUCTION_TABLE_NO_OPERAND, mnemonic, 0)
  }

  /** find_opcode. See FindOpcodeSpec. */
  function FindOpcode(key: string): int {
    FirstIndexFrom(OPCODE_TABLE, key, 0)
  }

  /** get_operand_type: the shape of the (lowercased) mnemonic, or the fatal
      "instruction doesnt exist" error. See GetOperandTypeSpec. */
  function GetOperandType(token: Token): (r: Result<OperandType>)
    ensures r.Err? ==> r.error == UnknownInstruction(Lower(token))
  {
    ShapeTableSizes();
    var index := FindInstruction(Lower(token));
    if index == -1 then Err(UnknownInstruction(Lower(token)))
    else Ok(OPERAND_TYPE_TABLE[index])
  }

  /** get_inst_info. (The C switch also has a default case returning {0, 0}; every
      enumerator is handled, so it is unreachable.) */
  function GetInstInfo(shape: OperandType): (r: InstInfo)
    ensures 1 <= r.byteLen <= 3 && r.tokenSkip <= 2
  {
    match shape
    case OpNone => InstInfo(1, 0)
    case OpReg | OpResetNumber | OpRp => InstInfo(1, 1)
    case OpD8 | OpPort => InstInfo(2, 1)
    case OpRegD8 => InstInfo(2, 2)
    case OpD16 | OpAddress | OpRpD16 => InstInfo(3, 1)
    case OpRegD16 => InstInfo(3, 2)
    case OpRegReg => InstInfo(1, 2)
  }

  // ---------------------------------------------------------------------------------
  // Properties of the tables

  /** OPCODE_TABLE covers every byte value, and the mnemonic and shape tables are parallel. */
  lemma TableSizes()
    ensures |OPCODE_TABLE| == 256
    ensures |INSTRUCTION_TABLE_NO_OPERAND| == 78 && |OPERAND_TYPE_TABLE| == 78
  {
    ShapeTableSizes();
  }

  /** The mnemonic and shape tables are parallel. */
  lemma ShapeTableSizes()
    ensures |INSTRUCTION_TABLE_NO_OPERAND| == 78 && |OPERAND_TYPE_TABLE| == 78
  {
  }

  /** The search finds the first entry from `i` on that equals `key`, and reports -1
      exactly when there is none. */
  lemma {:induction false} FirstIndexFromSpec(table: seq<string>, key: string, i: nat)
    requires i <= |table|
    ensures FirstIndexFrom(table, key, i) == -1 <==> key !in table[i..]
    ensures var r := FirstIndexFrom(table, key, i);
            r != -1 ==> i <= r < |table| && table[r] == key && key !in table[i..r]
    decreases |table| - i
  {
    if i < |table| && table[i] != key {
      FirstIndexFromSpec(table, key, i + 1);
      assert table[i..] == [table[i]] + table[i + 1..];
      var r := FirstIndexFrom(table, key, i + 1);
      if r != -1 {
        assert table[i..r] == [table[i]] + table[i + 1..r];
      }
    }
  }

  /** find_instruction_no_operand returns the first index of the mnemonic, or -1 when it
      is not in the table. */
  lemma FindInstructionSpec(mnemonic: string)
    ensures FindInstruction(mnemonic) == -1 <==> mnemonic !in INSTRUCTION_TABLE_NO_OPERAND
    ensures var r := FindInstruction(mnemonic);
            r != -1 ==> (0 <= r < |INSTRUCTION_TABLE_NO_OPERAND| && INSTRUCTION_TABLE_NO_OPERAND[r] == mnemonic
                         && mnemonic !in INSTRUCTION_TABLE_NO_OPERAND[..r])
  {
    FirstIndexFromSpec(INSTRUCTION_TABLE_NO_OPERAND, mnemonic, 0);
  }

  /** find_opcode returns the first index of the key, or -1 when it is not in the table;
      any index it reports fits the byte the caller stores it in. */
  lemma FindOpcodeSpec(key: string)
    ensures FindOpcode(key) == -1 <==> key !in OPCODE_TABLE
    ensures var r := FindOpcode(key);
            r != -1 ==> 0 <= r < 0x100 && OPCODE_TABLE[r] == key && key !in OPCODE_TABLE[..r]
  {
    TableSizes();
    FirstIndexFromSpec(OPCODE_TABLE, key, 0);
  }

  /** get_operand_type fails exactly for a token whose lowercase form is not a mnemonic, and
      otherwise yields the shape parallel to the first matching mnemonic. */
  lemma GetOperandTypeSpec(token: Token)
    ensures GetOperandType(token).Err? <==> Lower(token) !in INSTRUCTION_TABLE_NO_OPERAND
    ensures GetOperandType(token).Ok? ==>
              exists k :: (0 <= k < |INSTRUCTION_TABLE_NO_OPERAND| && INSTRUCTION_TABLE_NO_OPERAND[k] == Lower(token)
                           && GetOperandType(token).value == OPERAND_TYPE_TABLE[k])
  {
    TableSizes();
    FindInstructionSpec(Lower(token));
  }
}
