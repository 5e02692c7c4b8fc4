/** Pass 2 of assembler.c and the whole assembly: generate_byte_code walks the tokens
    again, skips label definitions, and encodes each instruction by the operand shape of
    its mnemonic, using the labels pass 1 found. */
module Encoder {
  import opened Common
  import opened Ascii
  import opened Catalog
  import opened Vectors
  import opened Lexer
  import opened Labels
  import opened Literals

  /** The byte vec_append stores for find_opcode's int result: the conversion to uint8_t,
      which turns the -1 of a failed lookup into 0xFF. */
  function Opcode(key: string): uint8 {
    ToUint8(FindOpcode(key))
  }

  /** A key OPCODE_TABLE lists is stored as the index of its first entry; any other key
      as 0xFF. */
  lemma OpcodeSpec(key: string)
    ensures key !in OPCODE_TABLE ==> Opcode(key) == 0xFF
    ensures key in OPCODE_TABLE ==> Opcode(key) as int == FindOpcode(key) && OPCODE_TABLE[Opcode(key)] == key
  {
    FindOpcodeSpec(key);
  }

  /** `(uint8_t)value` */
  function Lo(v: uint16): (b: uint8)
    ensures b as int == v as int % 0x100
  {
    (v % 0x100) as uint8
  }

  /** `(uint8_t)(value >> 8)` */
  function Hi(v: uint16): (b: uint8)
    ensures b as int == v as int / 0x100
  {
    (v / 0x100) as uint8
  }

  /** The two bytes of a 16-bit operand, low byte first, give back the operand. */
  lemma LittleEndian(v: uint16)
    ensures Lo(v) as int + 0x100 * Hi(v) as int == v as int
  {
  }

  /** What one instruction contributes: its bytes, and the index of the token after it. */
  datatype Emit = Emit(bytes: seq<uint8>, next: nat)

  /** The "register operand" key of find_opcode: the mnemonic, a space and the operand,
      as in "mvi a" or "push b". */
  function RegisterKey(mnemonic: Token, operand: Token): (key: string)
    ensures key == mnemonic + [' '] + operand
  {
    mnemonic + " " + operand
  }

  /** Tokens as the tokenizer makes them, never empty (token_to_val and is_token_label
      read the last character). */
  ghost predicate NonEmptyTokens(toks: seq<Token>) {
    forall k :: 0 <= k < |toks| ==> |toks[k]| > 0
  }

  /** How the switch in generate_byte_code lays out each operand shape: how many register
      tokens join the mnemonic in the opcode key ("mvi a", "mov a,b"), and how many bytes of
      immediate value follow the opcode. */
  datatype Layout = Layout(registers: nat, immediate: nat)

  function LayoutOf(shape: OperandType): (l: Layout)
    ensures l.registers <= 2 && l.immediate <= 2 && (l.registers == 2 ==> l.immediate == 0)
    ensures 1 + l.immediate == GetInstInfo(shape).byteLen
    ensures l.registers + (if l.immediate > 0 then 1 else 0) == GetInstInfo(shape).tokenSkip
  {
    match shape
    case OpNone => Layout(0, 0)
    case OpReg | OpResetNumber | OpRp => Layout(1, 0)
    case OpD8 | OpPort => Layout(0, 1)
    case OpD16 | OpAddress | OpRpD16 => Layout(0, 2)
    case OpRegD8 => Layout(1, 1)
    case OpRegD16 => Layout(1, 2)
    case OpRegReg => Layout(2, 0)
  }

  /** The key find_opcode is given for the mnemonic at token `i` and `registers` register
      tokens after it: "mnemonic", "mnemonic r" or "mnemonic r1,r2". */
  function OpcodeKey(toks: seq<Token>, i: nat, registers: nat): string
    requires registers <= 2 && i + registers < |toks|
  {
    if registers == 0 then toks[i]
    else if registers == 1 then RegisterKey(toks[i], toks[i + 1])
    else RegisterKey(toks[i], toks[i + 1]) + "," + toks[i + 2]
  }

  /** One instruction laid out as `l` says, its mnemonic at token `i`. Operand tokens missing
      at the end of the input are an error (the C code reads past the end of the token
      array). */
  function EncodeLaidOut(toks: seq<Token>, labels: seq<Label>, i: nat, l: Layout): Result<Emit>
    requires i < |toks| && NonEmptyTokens(toks)
    requires l.registers <= 2 && l.immediate <= 2 && (l.registers == 2 ==> l.immediate == 0)
  {
    var last := i + l.registers + (if l.immediate > 0 then 1 else 0);
    if last >= |toks| then Err(MissingOperand)
    else
      var op := Opcode(OpcodeKey(toks, i, l.registers));
      if l.immediate == 0 then Ok(Emit([op], last + 1))
      else
        var v :- TokenToVal(labels, toks[last]);
        Ok(Emit([op] + ValueBytes(v, l.immediate), last + 1))
  }

  /** What EncodeLaidOut emits: the opcode of the key, then the value of the token after
      the registers, low byte first; an operand token missing at the end of the input or
      naming no label is an error. */
  lemma EncodeLaidOutSpec(toks: seq<Token>, labels: seq<Label>, i: nat, l: Layout)
    requires i < |toks| && NonEmptyTokens(toks)
    requires l.registers <= 2 && l.immediate <= 2 && (l.registers == 2 ==> l.immediate == 0)
    ensures var r := EncodeLaidOut(toks, labels, i, l);
            var last := i + l.registers + (if l.immediate > 0 then 1 else 0);
            && (r.Err? <==> last >= |toks| || (l.immediate > 0 && TokenToVal(labels, toks[last]).Err?))
            && (r.Err? ==> r.error == MissingOperand || r.error.MissingLabel?)
            && (r.Ok? ==> r.value.next == last + 1 && |r.value.bytes| == 1 + l.immediate
                          && r.value.bytes[0] == Opcode(OpcodeKey(toks, i, l.registers)))
            && (r.Ok? && l.immediate > 0 ==>
                  var v := TokenToVal(labels, toks[last]).value;
                  r.value.bytes[1] == Lo(v) && (l.immediate == 2 ==> r.value.bytes[2] == Hi(v)))
  {
  }

  /** One case of the switch in generate_byte_code, for the mnemonic at token `i` with
      operand shape `shape`: it takes exactly the bytes and the operand tokens pass 1
      counted for the shape, and 16-bit operands go low byte first. */
  function EncodeInstruction(toks: seq<Token>, labels: seq<Label>, i: nat, shape: OperandType): Result<Emit>
    requires i < |toks| && NonEmptyTokens(toks)
  {
    EncodeLaidOut(toks, labels, i, LayoutOf(shape))
  }

  /** One case of the switch takes exactly the bytes and the operand tokens pass 1 counted
      for the shape, and its 16-bit operands go low byte first. */
  lemma EncodeInstructionSpec(toks: seq<Token>, labels: seq<Label>, i: nat, shape: OperandType)
    requires i < |toks| && NonEmptyTokens(toks)
    ensures var r := EncodeInstruction(toks, labels, i, shape);
            r.Ok? ==> |r.value.bytes| == GetInstInfo(shape).byteLen
    ensures var r := EncodeInstruction(toks, labels, i, shape);
            r.Ok? ==> r.value.next == i + 1 + GetInstInfo(shape).tokenSkip <= |toks|
    ensures var r := EncodeInstruction(toks, labels, i, shape);
            r.Ok? && GetInstInfo(shape).byteLen >= 2 ==>
              (var v := TokenToVal(labels, toks[r.value.next - 1]);
               v.Ok? && r.value.bytes[1] as int == v.value as int % 0x100
               && (GetInstInfo(shape).byteLen == 3 ==> r.value.bytes[2] as int == v.value as int / 0x100))
    ensures var r := EncodeInstruction(toks, labels, i, shape);
            r.Err? <==>
              (i + 1 + GetInstInfo(shape).tokenSkip > |toks|
               || (GetInstInfo(shape).byteLen >= 2 && TokenToVal(labels, toks[i + GetInstInfo(shape).tokenSkip]).Err?))
    ensures var r := EncodeInstruction(toks, labels, i, shape);
            r.Err? ==> r.error == MissingOperand || r.error.MissingLabel?
  {
    var l := LayoutOf(shape);
    EncodeLaidOutSpec(toks, labels, i, l);
    assert EncodeInstruction(toks, labels, i, shape) == EncodeLaidOut(toks, labels, i, l);
  }

  /** The loop of generate_byte_code from token `i` on, with the bytes `out` emitted so
      far. */
  function BytesFrom(toks: seq<Token>, labels: seq<Label>, i: nat, out: ByteCode): (r: Result<ByteCode>)
    requires NonEmptyTokens(toks)
    ensures r.Ok? ==> |out| <= |r.value| && r.value[..|out|] == out
    decreases |toks| - i
  {
    if i >= |toks| then Ok(out)
    else if IsTokenLabel(toks[i]) then BytesFrom(toks, labels, i + 1, out)
    else
      var shape :- GetOperandType(toks[i]);
      EncodeInstructionSpec(toks, labels, i, shape);
      var e :- EncodeInstruction(toks, labels, i, shape);
      var r := BytesFrom(toks, labels, e.next, out + e.bytes);
      assert r.Ok? ==> r.value[..|out|] == (out + e.bytes)[..|out|];
      r
  }

  /** generate_byte_code: tokenize, find the labels, encode. */
  function Assemble(code: string): Result<ByteCode> {
    var toks :- Lex(code);
    LexedTokensNonEmpty(code);
    var labels :- FindLabelsSpec(toks);
    BytesFrom(toks, labels, 0, [])
  }

  /** One turn of the pass-2 loop on a label token: nothing is emitted. */
  lemma BytesLabelStep(toks: seq<Token>, labels: seq<Label>, i: nat, out: ByteCode)
    requires NonEmptyTokens(toks) && i < |toks| && IsTokenLabel(toks[i])
    ensures BytesFrom(toks, labels, i, out) == BytesFrom(toks, labels, i + 1, out)
  {
  }

  /** One turn of the pass-2 loop on a mnemonic. */
  lemma BytesInstructionStep(toks: seq<Token>, labels: seq<Label>, i: nat, out: ByteCode)
    requires NonEmptyTokens(toks) && i < |toks| && !IsTokenLabel(toks[i])
    ensures GetOperandType(toks[i]).Err? ==> BytesFrom(toks, labels, i, out) == Err(GetOperandType(toks[i]).error)
    ensures GetOperandType(toks[i]).Ok? ==>
              var e := EncodeInstruction(toks, labels, i, GetOperandType(toks[i]).value);
              && (e.Err? ==> BytesFrom(toks, labels, i, out) == Err(e.error))
              && (e.Ok? ==> BytesFrom(toks, labels, i, out) == BytesFrom(toks, labels, e.value.next, out + e.value.bytes))
  {
  }

  /** One turn of the pass-2 loop on a mnemonic that encodes as `e`. */
  lemma BytesAfter(toks: seq<Token>, labels: seq<Label>, i: nat, out: ByteCode, shape: OperandType, e: Emit)
    requires NonEmptyTokens(toks) && i < |toks| && !IsTokenLabel(toks[i])
    requires GetOperandType(toks[i]) == Ok(shape) && EncodeInstruction(toks, labels, i, shape) == Ok(e)
    ensures BytesFrom(toks, labels, i, out) == BytesFrom(toks, labels, e.next, out + e.bytes)
  {
    BytesInstructionStep(toks, labels, i, out);
  }

  /** One turn of the pass-2 loop on a mnemonic whose encoding fails with `e`. */
  lemma BytesStop(toks: seq<Token>, labels: seq<Label>, i: nat, out: ByteCode, shape: OperandType, e: Error)
    requires NonEmptyTokens(toks) && i < |toks| && !IsTokenLabel(toks[i])
    requires GetOperandType(toks[i]) == Ok(shape) && EncodeInstruction(toks, labels, i, shape) == Err(e)
    ensures BytesFrom(toks, labels, i, out) == Err(e)
  {
    BytesInstructionStep(toks, labels, i, out);
  }

  /** The operand bytes of an immediate `width` bytes wide: the low byte, then the high
      byte when there are two. */
  function ValueBytes(v: uint16, width: nat): (b: seq<uint8>)
    requires 1 <= width <= 2
    ensures |b| == width && b[0] == Lo(v) && (width == 2 ==> b[1] == Hi(v))
  {
    if width == 1 then [Lo(v)] else [Lo(v), Hi(v)]
  }

  /** The operand bytes give back the operand: the whole 16-bit value from two bytes,
      its low eight bits from one. */
  lemma ValueBytesRoundTrip(v: uint16, width: nat)
    requires 1 <= width <= 2
    ensures width == 1 ==> ValueBytes(v, width)[0] as int == v as int % 0x100
    ensures width == 2 ==> ValueBytes(v, width)[0] as int + 0x100 * ValueBytes(v, width)[1] as int == v as int
  {
    LittleEndian(v);
  }

  /** The `vec_append` calls that store an operand value, low byte first. */
  method AppendValue(bytes: Vec<uint8>, v: uint16, width: nat)
    requires bytes.Valid() && 1 <= width <= 2
    modifies bytes, bytes.data
    ensures bytes.Valid() && (bytes.data == old(bytes.data) || fresh(bytes.data))
    ensures bytes.Contents() == old(bytes.Contents()) + ValueBytes(v, width)
  {
    bytes.Append(Lo(v));
    if width == 2 {
      bytes.Append(Hi(v));
    }
  }

  /** The cases of the switch in generate_byte_code that look up the mnemonic alone and
      then read a `width`-byte value from the next token (OP_D8 and OP_PORT, OP_D16,
      OP_ADDRESS and OP_RP_D16); `width` 0 is OP_NONE. */
  method EmitImmediate(bytes: Vec<uint8>, toks: seq<Token>, labels: seq<Label>, i: nat, width: nat)
    returns (r: Result<nat>)
    requires bytes.Valid() && i < |toks| && NonEmptyTokens(toks) && width <= 2
    modifies bytes, bytes.data
    ensures bytes.Valid() && (bytes.data == old(bytes.data) || fresh(bytes.data))
    ensures var e := EncodeLaidOut(toks, labels, i, Layout(0, width));
            && (r.Ok? <==> e.Ok?)
            && (r.Ok? ==> r.value + 1 == e.value.next && bytes.Contents() == old(bytes.Contents()) + e.value.bytes)
            && (r.Err? ==> r.error == e.error)
  {
    var j := i;
    bytes.Append(Opcode(toks[j]));
    if width > 0 {
      if j + 1 >= |toks| { return Err(MissingOperand); }
      j := j + 1;
      var value := TokenToVal(labels, toks[j]);
      if value.Err? { return Err(value.error); }
      AppendValue(bytes, value.value, width);
    }
    r := Ok(j);
  }

  /** The cases of the switch that look up the mnemonic joined to the next token by a space
      and then read a `width`-byte value from the token after it (OP_REG_D8, OP_REG_D16);
      `width` 0 is OP_REG, OP_RESET_NUMBER and OP_RP. */
  method EmitRegister(bytes: Vec<uint8>, toks: seq<Token>, labels: seq<Label>, i: nat, width: nat)
    returns (r: Result<nat>)
    requires bytes.Valid() && i < |toks| && NonEmptyTokens(toks) && width <= 2
    modifies bytes, bytes.data
    ensures bytes.Valid() && (bytes.data == old(bytes.data) || fresh(bytes.data))
    ensures var e := EncodeLaidOut(toks, labels, i, Layout(1, width));
            && (r.Ok? <==> e.Ok?)
            && (r.Ok? ==> r.value + 1 == e.value.next && bytes.Contents() == old(bytes.Contents()) + e.value.bytes)
            && (r.Err? ==> r.error == e.error)
  {
    var j := i;
    if j + 1 >= |toks| { return Err(MissingOperand); }
    var temp := RegisterKey(toks[j], toks[j + 1]);
    j := j + 1;
    if width > 0 && j + 1 >= |toks| { return Err(MissingOperand); }
    bytes.Append(Opcode(temp));
    if width > 0 {
      j := j + 1;
      var value := TokenToVal(labels, toks[j]);
      if value.Err? { return Err(value.error); }
      AppendValue(bytes, value.value, width);
    }
    r := Ok(j);
  }

  /** The OP_REG_REG case: the key is the mnemonic, a space, the first register, a comma and
      the second register. */
  method EmitRegisterPair(bytes: Vec<uint8>, toks: seq<Token>, labels: seq<Label>, i: nat)
    returns (r: Result<nat>)
    requires bytes.Valid() && i < |toks| && NonEmptyTokens(toks)
    modifies bytes, bytes.data
    ensures bytes.Valid() && (bytes.data == old(bytes.data) || fresh(bytes.data))
    ensures var e := EncodeLaidOut(toks, labels, i, Layout(2, 0));
            && (r.Ok? <==> e.Ok?)
            && (r.Ok? ==> r.value + 1 == e.value.next && bytes.Contents() == old(bytes.Contents()) + e.value.bytes)
            && (r.Err? ==> r.error == e.error)
  {
    var j := i;
    if j + 2 >= |toks| { return Err(MissingOperand); }
    var temp := RegisterKey(toks[j], toks[j + 1]) + ",";
    j := j + 2;
    temp := temp + toks[j];
    bytes.Append(Opcode(temp));
    r := Ok(j);
  }

  /** The switch of generate_byte_code for the instruction whose mnemonic is token `i`,
      appending its bytes to `bytes`; the result is the index of its last token, where the
      C loop variable stands after the switch. */
  method EmitInstruction(bytes: Vec<uint8>, toks: seq<Token>, labels: seq<Label>, i: nat, shape: OperandType)
    returns (r: Result<nat>)
    requires bytes.Valid() && i < |toks| && NonEmptyTokens(toks)
    modifies bytes, bytes.data
    ensures bytes.Valid() && (bytes.data == old(bytes.data) || fresh(bytes.data))
    ensures var e := EncodeInstruction(toks, labels, i, shape);
            && (r.Ok? <==> e.Ok?)
            && (r.Ok? ==> r.value + 1 == e.value.next && bytes.Contents() == old(bytes.Contents()) + e.value.bytes)
            && (r.Err? ==> r.error == e.error)
  {
    assert EncodeInstruction(toks, labels, i, shape) == EncodeLaidOut(toks, labels, i, LayoutOf(shape));
    match shape {
      case OpNone =>
        assert LayoutOf(shape) == Layout(0, 0);
        r := EmitImmediate(bytes, toks, labels, i, 0);
      case OpReg | OpResetNumber | OpRp =>
        assert LayoutOf(shape) == Layout(1, 0);
        r := EmitRegister(bytes, toks, labels, i, 0);
      case OpD8 | OpPort =>
        assert LayoutOf(shape) == Layout(0, 1);
        r := EmitImmediate(bytes, toks, labels, i, 1);
      case OpD16 | OpAddress | OpRpD16 =>
        assert LayoutOf(shape) == Layout(0, 2);
        r := EmitImmediate(bytes, toks, labels, i, 2);
      case OpRegD8 =>
        assert LayoutOf(shape) == Layout(1, 1);
        r := EmitRegister(bytes, toks, labels, i, 1);
      case OpRegD16 =>
        assert LayoutOf(shape) == Layout(1, 2);
        r := EmitRegister(bytes, toks, labels, i, 2);
      case OpRegReg =>
        assert LayoutOf(shape) == Layout(2, 0);
        r := EmitRegisterPair(bytes, toks, labels, i);
    }
  }

  /** One turn of the loop of generate_byte_code, on token `i`: a label emits nothing, a
      mnemonic emits its instruction. The result is the index of the next token to read. */
  method EncodeStep(bytes: Vec<uint8>, toks: seq<Token>, labels: seq<Label>, i: nat) returns (r: Result<nat>)
    requires bytes.Valid() && i < |toks| && NonEmptyTokens(toks)
    modifies bytes, bytes.data
    ensures bytes.Valid() && (bytes.data == old(bytes.data) || fresh(bytes.data))
    ensures r.Err? ==> BytesFrom(toks, labels, i, old(bytes.Contents())) == Err(r.error)
    ensures r.Ok? ==> i < r.value && BytesFrom(toks, labels, i, old(bytes.Contents())) == BytesFrom(toks, labels, r.value, bytes.Contents())
  {
    if IsTokenLabel(toks[i]) {
      BytesLabelStep(toks, labels, i, bytes.Contents());
      return Ok(i + 1);
    }
    var shape := GetOperandType(toks[i]);
    if shape.Err? {
      BytesInstructionStep(toks, labels, i, bytes.Contents());
      return Err(shape.error);
    }
    ghost var before := bytes.Contents();
    ghost var encoded := EncodeInstruction(toks, labels, i, shape.value);
    var last := EmitInstruction(bytes, toks, labels, i, shape.value);
    if last.Err? {
      BytesStop(toks, labels, i, before, shape.value, last.error);
      return Err(last.error);
    }
    EncodeInstructionSpec(toks, labels, i, shape.value);
    BytesAfter(toks, labels, i, before, shape.value, encoded.value);
    r := Ok(last.value + 1);
  }

  /** The loop of generate_byte_code over the tokens, with the labels of pass 1. */
  method EncodeTokens(toks: seq<Token>, labels: seq<Label>) returns (r: Result<ByteCode>)
    requires NonEmptyTokens(toks)
    ensures r == BytesFrom(toks, labels, 0, [])
  {
    var bytes := new Vec<uint8>.Init(100);
    var i: nat := 0;
    while i < |toks|
      invariant bytes.Valid() && fresh(bytes) && fresh(bytes.data)
      invariant BytesFrom(toks, labels, i, bytes.Contents()) == BytesFrom(toks, labels, 0, [])
      decreases |toks| - i
    {
      var next := EncodeStep(bytes, toks, labels, i);
      if next.Err? { return Err(next.error); }
      i := next.value;
    }
    r := Ok(bytes.Contents());
  }

  /** generate_byte_code: tokenize, find the labels, encode. */
  method GenerateByteCode(code: string) returns (r: Result<ByteCode>)
    ensures r == Assemble(code)
  {
    var lexed := Tokenize(code);
    if lexed.Err? { return Err(lexed.error); }
    var toks := lexed.value;
    LexedTokensNonEmpty(code);
    var found := FindLabels(toks);
    if found.Err? { return Err(found.error); }
    r := EncodeTokens(toks, found.value);
  }

  lemma LexedTokensNonEmpty(code: string)
    requires Lex(code).Ok?
    ensures NonEmptyTokens(Lex(code).value)
  {
    LexWellFormed(code);
    var toks := Lex(code).value;
    forall k | 0 <= k < |toks|
      ensures |toks[k]| > 0
    {
      assert toks[k] in toks;
    }
  }

  /** Assembly does not see case: every stage works on the lowercased tokens. */
  lemma AssembleIgnoresCase(code: string)
    ensures Assemble(Lower(code)) == Assemble(code)
  {
    LexIgnoresCase(code);
  }

  // ---------------------------------------------------------------------------------
  // The two passes agree

  /** The labels pass 2 would define if it recorded, at each label token, the number of
      bytes it had emitted so far. */
  ghost function LabelsAsEmitted(toks: seq<Token>, labels: seq<Label>, i: nat, out: ByteCode, acc: seq<Label>): Result<seq<Label>>
    requires NonEmptyTokens(toks)
    decreases |toks| - i
  {
    if i >= |toks| then Ok(acc)
    else if IsTokenLabel(toks[i]) then LabelsAsEmitted(toks, labels, i + 1, out, acc + [LabelOf(toks[i], |out|)])
    else
      var shape :- GetOperandType(toks[i]);
      EncodeInstructionSpec(toks, labels, i, shape);
      var e :- EncodeInstruction(toks, labels, i, shape);
      LabelsAsEmitted(toks, labels, e.next, out + e.bytes, acc)
  }

  /** One instruction of pass 2 that encodes, seen by pass 2. */
  lemma EmittedInstructionStep(toks: seq<Token>, labels: seq<Label>, i: nat, out: ByteCode, acc: seq<Label>)
    requires NonEmptyTokens(toks) && i < |toks| && !IsTokenLabel(toks[i])
    requires GetOperandType(toks[i]).Ok? && EncodeInstruction(toks, labels, i, GetOperandType(toks[i]).value).Ok?
    ensures var e := EncodeInstruction(toks, labels, i, GetOperandType(toks[i]).value).value;
            LabelsAsEmitted(toks, labels, i, out, acc) == LabelsAsEmitted(toks, labels, e.next, out + e.bytes, acc)
  {
  }

  /** The same instruction, seen by pass 1: it moves on by as many tokens and bytes. */
  lemma CountedInstructionStep(toks: seq<Token>, labels: seq<Label>, i: nat, out: ByteCode, acc: seq<Label>)
    requires NonEmptyTokens(toks) && i < |toks| && !IsTokenLabel(toks[i])
    requires GetOperandType(toks[i]).Ok? && EncodeInstruction(toks, labels, i, GetOperandType(toks[i]).value).Ok?
    ensures var e := EncodeInstruction(toks, labels, i, GetOperandType(toks[i]).value).value;
            LabelsFrom(toks, i, |out|, acc) == LabelsFrom(toks, e.next, |out + e.bytes|, acc)
  {
    var shape := GetOperandType(toks[i]).value;
    var e := EncodeInstruction(toks, labels, i, shape).value;
    EncodeInstructionSpec(toks, labels, i, shape);
    InstructionAdvance(toks, i, |out|, acc, e.next, |out + e.bytes|);
  }

  /** Whenever pass 2 succeeds from token `i`, pass 1 from the same token and byte offset
      finds exactly the labels pass 2 would stamp with its own byte count: each instruction
      advances both passes by the same number of tokens and bytes. */
  lemma {:induction false} PassesAgree(toks: seq<Token>, labels: seq<Label>, i: nat, out: ByteCode, acc: seq<Label>)
    requires NonEmptyTokens(toks)
    requires BytesFrom(toks, labels, i, out).Ok?
    ensures LabelsFrom(toks, i, |out|, acc) == LabelsAsEmitted(toks, labels, i, out, acc)
    decreases |toks| - i
  {
    if i < |toks| {
      if IsTokenLabel(toks[i]) {
        BytesLabelStep(toks, labels, i, out);
        PassesAgree(toks, labels, i + 1, out, acc + [LabelOf(toks[i], |out|)]);
      } else {
        BytesInstructionStep(toks, labels, i, out);
        var e := EncodeInstruction(toks, labels, i, GetOperandType(toks[i]).value).value;
        EmittedInstructionStep(toks, labels, i, out, acc);
        CountedInstructionStep(toks, labels, i, out, acc);
        PassesAgree(toks, labels, e.next, out + e.bytes, acc);
      }
    }
  }

  /** `lab` is the label pass 2 would stamp at some label token `t` at or after `i`,
      where it has emitted exactly the bytes `p`: `p` extends `out`, `p` is a prefix of the
      final bytes, and going on from token `t` with `p` ends in the same final bytes as
      going on from `i` with `out`. */
  ghost predicate StampedOnTheWay(toks: seq<Token>, labels: seq<Label>, i: nat, out: ByteCode, lab: Label)
    requires NonEmptyTokens(toks)
  {
    var fin := BytesFrom(toks, labels, i, out);
    exists t: nat, p: ByteCode ::
      && i <= t < |toks| && IsTokenLabel(toks[t])
      && lab == LabelOf(toks[t], |p|)
      && |out| <= |p| && p[..|out|] == out
      && BytesFrom(toks, labels, t, p) == fin
      && fin.Ok? && |p| <= |fin.value| && fin.value[..|p|] == p
  }

  /** A label token is stamped with the bytes emitted when pass 2 reaches it, and a
      label stamped after it was stamped on the way from it. */
  lemma StampedAtLabel(toks: seq<Token>, labels: seq<Label>, i: nat, out: ByteCode, lab: Label)
    requires NonEmptyTokens(toks) && i < |toks| && IsTokenLabel(toks[i])
    requires BytesFrom(toks, labels, i, out).Ok?
    requires BytesFrom(toks, labels, i, out) == BytesFrom(toks, labels, i + 1, out)
    requires lab == LabelOf(toks[i], |out|) || StampedOnTheWay(toks, labels, i + 1, out, lab)
    ensures StampedOnTheWay(toks, labels, i, out, lab)
  {
    var fin := BytesFrom(toks, labels, i, out);
    if lab == LabelOf(toks[i], |out|) {
      assert out[..|out|] == out;
      assert fin.value[..|out|] == out;
      assert i <= i < |toks| && IsTokenLabel(toks[i]) && lab == LabelOf(toks[i], |out|)
        && |out| <= |out| && out[..|out|] == out
        && BytesFrom(toks, labels, i, out) == fin
        && fin.Ok? && |out| <= |fin.value| && fin.value[..|out|] == out;
    } else {
      var t: nat, p: ByteCode :|
        && i + 1 <= t < |toks| && IsTokenLabel(toks[t])
        && lab == LabelOf(toks[t], |p|)
        && |out| <= |p| && p[..|out|] == out
        && BytesFrom(toks, labels, t, p) == fin
        && fin.Ok? && |p| <= |fin.value| && fin.value[..|p|] == p;
      assert i <= t;
    }
  }

  /** A label stamped after an instruction that emitted `emitted` was stamped on the way
      from the instruction. */
  lemma StampedAfterInstruction(toks: seq<Token>, labels: seq<Label>, i: nat, out: ByteCode, next: nat, emitted: ByteCode, lab: Label)
    requires NonEmptyTokens(toks) && i <= next
    requires BytesFrom(toks, labels, i, out) == BytesFrom(toks, labels, next, out + emitted)
    requires StampedOnTheWay(toks, labels, next, out + emitted, lab)
    ensures StampedOnTheWay(toks, labels, i, out, lab)
  {
    var out' := out + emitted;
    var t: nat, p: ByteCode :|
      && next <= t < |toks| && IsTokenLabel(toks[t])
      && lab == LabelOf(toks[t], |p|)
      && |out'| <= |p| && p[..|out'|] == out'
      && BytesFrom(toks, labels, t, p) == BytesFrom(toks, labels, next, out');
    assert p[..|out|] == p[..|out'|][..|out|] == out'[..|out|] == out;
  }

  /** Where pass 2 succeeds from token `i`, the labels LabelsAsEmitted adds to `acc` are
      each stamped with the length of a prefix of pass 2's final output: the bytes pass 2
      has emitted when it reaches that label token. */
  lemma {:induction false} EmittedLabelsArePrefixes(toks: seq<Token>, labels: seq<Label>, i: nat, out: ByteCode, acc: seq<Label>)
    requires NonEmptyTokens(toks)
    requires BytesFrom(toks, labels, i, out).Ok?
    ensures LabelsAsEmitted(toks, labels, i, out, acc).Ok?
    ensures var r := LabelsAsEmitted(toks, labels, i, out, acc).value;
            && |acc| <= |r| && r[..|acc|] == acc
            && forall k :: |acc| <= k < |r| ==> StampedOnTheWay(toks, labels, i, out, r[k])
    decreases |toks| - i
  {
    if i < |toks| {
      if IsTokenLabel(toks[i]) {
        var lab := LabelOf(toks[i], |out|);
        BytesLabelStep(toks, labels, i, out);
        EmittedLabelsArePrefixes(toks, labels, i + 1, out, acc + [lab]);
        var r := LabelsAsEmitted(toks, labels, i + 1, out, acc + [lab]).value;
        assert LabelsAsEmitted(toks, labels, i, out, acc) == LabelsAsEmitted(toks, labels, i + 1, out, acc + [lab]);
        assert r[..|acc| + 1] == acc + [lab];
        assert r[..|acc|] == (acc + [lab])[..|acc|];
        forall k | |acc| <= k < |r|
          ensures StampedOnTheWay(toks, labels, i, out, r[k])
        {
          if k == |acc| {
            assert r[k] == r[..|acc| + 1][k] == lab;
          }
          StampedAtLabel(toks, labels, i, out, r[k]);
        }
      } else {
        BytesInstructionStep(toks, labels, i, out);
        var e := EncodeInstruction(toks, labels, i, GetOperandType(toks[i]).value).value;
        EncodeInstructionSpec(toks, labels, i, GetOperandType(toks[i]).value);
        EmittedInstructionStep(toks, labels, i, out, acc);
        EmittedLabelsArePrefixes(toks, labels, e.next, out + e.bytes, acc);
        var r := LabelsAsEmitted(toks, labels, e.next, out + e.bytes, acc).value;
        forall k | |acc| <= k < |r|
          ensures StampedOnTheWay(toks, labels, i, out, r[k])
        {
          StampedAfterInstruction(toks, labels, i, out, e.next, e.bytes, r[k]);
        }
      }
    }
  }

  /** Every label of an assembled program stands for the offset, modulo 2^16, of the
      first byte emitted after its definition: pass 1's label table is the one pass 2
      stamps with its own byte count, and each address is the length of the prefix of the
      assembled bytes that pass 2 has emitted when it reaches that label's definition. */
  lemma LabelAddresses(code: string)
    requires Assemble(code).Ok?
    ensures var toks := Lex(code).value;
            NonEmptyTokens(toks) && FindLabelsSpec(toks) == LabelsAsEmitted(toks, FindLabelsSpec(toks).value, 0, [], [])
    ensures var toks := Lex(code).value;
            var labels := FindLabelsSpec(toks).value;
            && NonEmptyTokens(toks) && Assemble(code) == BytesFrom(toks, labels, 0, [])
            && forall k :: 0 <= k < |labels| ==> StampedOnTheWay(toks, labels, 0, [], labels[k])
  {
    var toks := Lex(code).value;
    LexedTokensNonEmpty(code);
    var labels := FindLabelsSpec(toks).value;
    PassesAgree(toks, labels, 0, [], []);
    EmittedLabelsArePrefixes(toks, labels, 0, [], []);
  }
}
