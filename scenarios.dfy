/** Whole programs through both passes of the assembler: an immediate load behind a label,
    a forward jump, an unknown and an unsupported mnemonic, an instruction whose bare
    mnemonic is missing from the opcode table, a jump to a label nobody defines, and an
    instruction cut short by the end of the text. */
module Scenarios {
  import opened Common
  import opened Ascii
  import opened Catalog
  import opened CatalogFacts
  import opened Lexer
  import opened Labels
  import opened Literals
  import opened Encoder

  // ---------------------------------------------------------------------------------
  // The mnemonics the programs use

  lemma MviShape()
    ensures GetOperandType("mvi") == Ok(OpRegD8)
  {
    MnemonicsAt00();
    LowerOfLowerString("mvi");
    ShapeOfMnemonic("mvi", 1);
  }

  lemma JmpShape()
    ensures GetOperandType("jmp") == Ok(OpAddress)
  {
    MnemonicsAt32();
    LowerOfLowerString("jmp");
    ShapeOfMnemonic("jmp", 39);
  }

  lemma HltShape()
    ensures GetOperandType("hlt") == Ok(OpNone)
  {
    MnemonicsAt72();
    LowerOfLowerString("hlt");
    ShapeOfMnemonic("hlt", 76);
  }

  lemma InrShape()
    ensures GetOperandType("inr") == Ok(OpD8)
  {
    MnemonicsAt16();
    LowerOfLowerString("inr");
    ShapeOfMnemonic("inr", 18);
  }

  lemma DbIsNotAMnemonic()
    ensures "db" !in INSTRUCTION_TABLE_NO_OPERAND
  {
    assert "db" !in MNEMONICS_00 && "db" !in MNEMONICS_08 && "db" !in MNEMONICS_16 && "db" !in MNEMONICS_24;
    assert "db" !in MNEMONICS_32 && "db" !in MNEMONICS_40 && "db" !in MNEMONICS_48 && "db" !in MNEMONICS_56;
    assert "db" !in MNEMONICS_64 && "db" !in MNEMONICS_72;
  }

  lemma DbShape()
    ensures GetOperandType("db") == Err(UnknownInstruction("db"))
  {
    DbIsNotAMnemonic();
    LowerOfLowerString("db");
    GetOperandTypeSpec("db");
  }

  // ---------------------------------------------------------------------------------
  // Gluing the phases together

  /** A word and a separator in front of text whose tokens are known. */
  lemma Prepend(w: string, sep: char, rest: string, tail: seq<Token>)
    requires 0 < |w| < MAX_TOKEN_LEN && forall k :: 0 <= k < |w| ==> WordChar(w[k])
    requires IsSpace(sep) || sep == ','
    requires Lex(rest) == Ok(tail)
    ensures Lex(w + [sep] + rest) == Ok([Lower(w)] + tail)
  {
    WordThen(w, sep, rest);
  }

  lemma Assembled(code: string, toks: seq<Token>, labels: seq<Label>, bytes: ByteCode)
    requires Lex(code) == Ok(toks) && FindLabelsSpec(toks) == Ok(labels)
    requires NonEmptyTokens(toks) && BytesFrom(toks, labels, 0, []) == Ok(bytes)
    ensures Assemble(code) == Ok(bytes)
  {
  }

  lemma RejectedInPass1(code: string, toks: seq<Token>, e: Error)
    requires Lex(code) == Ok(toks) && FindLabelsSpec(toks) == Err(e)
    ensures Assemble(code) == Err(e)
  {
  }

  lemma RejectedInPass2(code: string, toks: seq<Token>, labels: seq<Label>, e: Error)
    requires Lex(code) == Ok(toks) && FindLabelsSpec(toks) == Ok(labels)
    requires NonEmptyTokens(toks) && BytesFrom(toks, labels, 0, []) == Err(e)
    ensures Assemble(code) == Err(e)
  {
  }

  lemma EncodeNone(toks: seq<Token>, labels: seq<Label>, i: nat, op: uint8)
    requires i < |toks| && NonEmptyTokens(toks) && Opcode(toks[i]) == op
    ensures EncodeInstruction(toks, labels, i, OpNone) == Ok(Emit([op], i + 1))
  {
    assert EncodeInstruction(toks, labels, i, OpNone) == EncodeLaidOut(toks, labels, i, Layout(0, 0));
  }

  lemma EncodeImmediate(toks: seq<Token>, labels: seq<Label>, i: nat, op: uint8, v: uint16)
    requires i + 1 < |toks| && NonEmptyTokens(toks)
    requires Opcode(toks[i]) == op && TokenToVal(labels, toks[i + 1]) == Ok(v)
    ensures EncodeLaidOut(toks, labels, i, Layout(0, 1)) == Ok(Emit([op, Lo(v)], i + 2))
    ensures EncodeLaidOut(toks, labels, i, Layout(0, 2)) == Ok(Emit([op, Lo(v), Hi(v)], i + 2))
  {
    assert [op] + ValueBytes(v, 1) == [op, Lo(v)];
    assert [op] + ValueBytes(v, 2) == [op, Lo(v), Hi(v)];
  }

  lemma EncodeD8(toks: seq<Token>, labels: seq<Label>, i: nat, op: uint8, v: uint16)
    requires i + 1 < |toks| && NonEmptyTokens(toks)
    requires Opcode(toks[i]) == op && TokenToVal(labels, toks[i + 1]) == Ok(v)
    ensures EncodeInstruction(toks, labels, i, OpD8) == Ok(Emit([op, Lo(v)], i + 2))
  {
    EncodeImmediate(toks, labels, i, op, v);
    assert EncodeInstruction(toks, labels, i, OpD8) == EncodeLaidOut(toks, labels, i, Layout(0, 1));
  }

  lemma EncodeAddress(toks: seq<Token>, labels: seq<Label>, i: nat, op: uint8, v: uint16)
    requires i + 1 < |toks| && NonEmptyTokens(toks)
    requires Opcode(toks[i]) == op && TokenToVal(labels, toks[i + 1]) == Ok(v)
    ensures EncodeInstruction(toks, labels, i, OpAddress) == Ok(Emit([op, Lo(v), Hi(v)], i + 2))
  {
    EncodeImmediate(toks, labels, i, op, v);
    assert EncodeInstruction(toks, labels, i, OpAddress) == EncodeLaidOut(toks, labels, i, Layout(0, 2));
  }

  lemma EncodeRegister(toks: seq<Token>, labels: seq<Label>, i: nat, op: uint8, v: uint16)
    requires i + 2 < |toks| && NonEmptyTokens(toks)
    requires Opcode(RegisterKey(toks[i], toks[i + 1])) == op && TokenToVal(labels, toks[i + 2]) == Ok(v)
    ensures EncodeLaidOut(toks, labels, i, Layout(1, 1)) == Ok(Emit([op, Lo(v)], i + 3))
  {
    assert [op] + ValueBytes(v, 1) == [op, Lo(v)];
  }

  lemma EncodeRegD8(toks: seq<Token>, labels: seq<Label>, i: nat, op: uint8, v: uint16)
    requires i + 2 < |toks| && NonEmptyTokens(toks)
    requires Opcode(RegisterKey(toks[i], toks[i + 1])) == op && TokenToVal(labels, toks[i + 2]) == Ok(v)
    ensures EncodeInstruction(toks, labels, i, OpRegD8) == Ok(Emit([op, Lo(v)], i + 3))
  {
    EncodeRegister(toks, labels, i, op, v);
    assert EncodeInstruction(toks, labels, i, OpRegD8) == EncodeLaidOut(toks, labels, i, Layout(1, 1));
  }

  lemma EncodeMissingValue(toks: seq<Token>, labels: seq<Label>, i: nat, e: Error)
    requires i + 1 < |toks| && NonEmptyTokens(toks) && TokenToVal(labels, toks[i + 1]) == Err(e)
    ensures EncodeInstruction(toks, labels, i, OpAddress) == Err(e)
  {
    assert EncodeInstruction(toks, labels, i, OpAddress) == EncodeLaidOut(toks, labels, i, Layout(0, 2));
  }

  lemma EncodeCutShort(toks: seq<Token>, labels: seq<Label>, i: nat)
    requires i < |toks| <= i + 2 && NonEmptyTokens(toks)
    ensures EncodeInstruction(toks, labels, i, OpRegD8) == Err(MissingOperand)
  {
    assert EncodeInstruction(toks, labels, i, OpRegD8) == EncodeLaidOut(toks, labels, i, Layout(1, 1));
  }

  lemma BytesAtEnd(toks: seq<Token>, labels: seq<Label>, i: nat, out: ByteCode)
    requires NonEmptyTokens(toks) && i >= |toks|
    ensures BytesFrom(toks, labels, i, out) == Ok(out)
  {
  }

  lemma NoneStep(toks: seq<Token>, labels: seq<Label>, i: nat, out: ByteCode, op: uint8)
    requires NonEmptyTokens(toks) && i < |toks| && !IsTokenLabel(toks[i])
    requires GetOperandType(toks[i]) == Ok(OpNone) && Opcode(toks[i]) == op
    ensures BytesFrom(toks, labels, i, out) == BytesFrom(toks, labels, i + 1, out + [op])
  {
    EncodeNone(toks, labels, i, op);
    BytesAfter(toks, labels, i, out, OpNone, Emit([op], i + 1));
  }

  lemma D8Step(toks: seq<Token>, labels: seq<Label>, i: nat, out: ByteCode, op: uint8, v: uint16)
    requires NonEmptyTokens(toks) && i + 1 < |toks| && !IsTokenLabel(toks[i])
    requires GetOperandType(toks[i]) == Ok(OpD8) && Opcode(toks[i]) == op && TokenToVal(labels, toks[i + 1]) == Ok(v)
    ensures BytesFrom(toks, labels, i, out) == BytesFrom(toks, labels, i + 2, out + [op, Lo(v)])
  {
    EncodeD8(toks, labels, i, op, v);
    BytesAfter(toks, labels, i, out, OpD8, Emit([op, Lo(v)], i + 2));
  }

  lemma AddressStep(toks: seq<Token>, labels: seq<Label>, i: nat, out: ByteCode, op: uint8, v: uint16)
    requires NonEmptyTokens(toks) && i + 1 < |toks| && !IsTokenLabel(toks[i])
    requires GetOperandType(toks[i]) == Ok(OpAddress) && Opcode(toks[i]) == op && TokenToVal(labels, toks[i + 1]) == Ok(v)
    ensures BytesFrom(toks, labels, i, out) == BytesFrom(toks, labels, i + 2, out + [op, Lo(v), Hi(v)])
  {
    EncodeAddress(toks, labels, i, op, v);
    BytesAfter(toks, labels, i, out, OpAddress, Emit([op, Lo(v), Hi(v)], i + 2));
  }

  lemma RegD8Step(toks: seq<Token>, labels: seq<Label>, i: nat, out: ByteCode, op: uint8, v: uint16)
    requires NonEmptyTokens(toks) && i + 2 < |toks| && !IsTokenLabel(toks[i])
    requires GetOperandType(toks[i]) == Ok(OpRegD8) && Opcode(RegisterKey(toks[i], toks[i + 1])) == op
    requires TokenToVal(labels, toks[i + 2]) == Ok(v)
    ensures BytesFrom(toks, labels, i, out) == BytesFrom(toks, labels, i + 3, out + [op, Lo(v)])
  {
    EncodeRegD8(toks, labels, i, op, v);
    BytesAfter(toks, labels, i, out, OpRegD8, Emit([op, Lo(v)], i + 3));
  }

  lemma OpcodeFacts()
    ensures Opcode("mvi a") == 0x3E && Opcode("jmp") == 0xC3 && Opcode("hlt") == 0x76 && Opcode("inr") == 0xFF
  {
    MviAOpcode();
    JmpOpcode();
    HltOpcode();
    InrNotAnOpcode();
    OpcodeSpec("inr");
  }

  lemma ByteFacts()
    ensures Lo(10) == 0x0A && Lo(3) == 0x03 && Hi(3) == 0x00 && Lo(0) == 0x00
  {
  }

  // ---------------------------------------------------------------------------------
  // START: MVI A, 10

  lemma LoadText()
    ensures Lower("10") == "10" && [' '] + "10" == " 10"
    ensures "A" + [','] + " 10" == "A, 10" && Lower("A") == "a" && WordChar('A')
    ensures ["a"] + ["10"] == ["a", "10"]
    ensures "MVI" + [' '] + "A, 10" == "MVI A, 10" && Lower("MVI") == "mvi"
    ensures WordChar('M') && WordChar('V') && WordChar('I')
    ensures ["mvi"] + ["a", "10"] == ["mvi", "a", "10"]
    ensures "START:" + [' '] + "MVI A, 10" == "START: MVI A, 10" && Lower("START:") == "start:"
    ensures forall k :: 0 <= k < |"START:"| ==> WordChar("START:"[k])
    ensures ["start:"] + ["mvi", "a", "10"] == ["start:", "mvi", "a", "10"]
  {
  }

  lemma LexLoad()
    ensures Lex("START: MVI A, 10") == Ok(["start:", "mvi", "a", "10"])
  {
    LoadText();
    SingleWord("10");
    LeadingSeparator(' ', "10");
    Prepend("A", ',', " 10", ["10"]);
    Prepend("MVI", ' ', "A, 10", ["a", "10"]);
    Prepend("START:", ' ', "MVI A, 10", ["mvi", "a", "10"]);
  }

  lemma TenIsDecimal(labels: seq<Label>)
    ensures TokenToVal(labels, "10") == Ok(10)
  {
    assert Numeral(1, 10) == "1";
    assert Numeral(10, 10) == "10";
    DecimalOperand(labels, 10);
  }

  /** The two passes over the tokens of the program, whatever the tokens spell, as long as
      they are a label, "mvi", "a" and a value of 10. */
  lemma LoadLabels(toks: seq<Token>)
    requires |toks| == 4 && IsTokenLabel(toks[0])
    requires !IsTokenLabel(toks[1]) && GetOperandType(toks[1]) == Ok(OpRegD8)
    ensures FindLabelsSpec(toks) == Ok([LabelOf(toks[0], 0)])
  {
    LabelStep(toks, 0, 0, []);
    InstructionAdvance(toks, 1, 0, [LabelOf(toks[0], 0)], 4, 2);
  }

  lemma LoadBytes(toks: seq<Token>, labels: seq<Label>, i: nat, out: ByteCode, op: uint8, v: uint16)
    requires |toks| == i + 4 && NonEmptyTokens(toks) && IsTokenLabel(toks[i])
    requires !IsTokenLabel(toks[i + 1]) && GetOperandType(toks[i + 1]) == Ok(OpRegD8)
    requires Opcode(RegisterKey(toks[i + 1], toks[i + 2])) == op && TokenToVal(labels, toks[i + 3]) == Ok(v)
    ensures BytesFrom(toks, labels, i, out) == Ok(out + [op, Lo(v)])
  {
    BytesLabelStep(toks, labels, i, out);
    RegD8Step(toks, labels, i + 1, out, op, v);
    BytesAtEnd(toks, labels, i + 4, out + [op, Lo(v)]);
  }

  lemma LoadTokens()
    ensures var toks: seq<Token> := ["start:", "mvi", "a", "10"];
            && NonEmptyTokens(toks) && IsTokenLabel(toks[0]) && !IsTokenLabel(toks[1])
            && LabelOf(toks[0], 0) == Label("start", 0) && RegisterKey(toks[1], toks[2]) == "mvi a"
  {
  }

  /** The label costs no byte; "mvi a" is opcode 0x3E and the immediate follows. */
  lemma AssembleLoad()
    ensures Assemble("START: MVI A, 10") == Ok([0x3E, 0x0A])
  {
    var toks: seq<Token> := ["start:", "mvi", "a", "10"];
    var labels := [Label("start", 0)];
    LexLoad();
    LoadTokens();
    MviShape();
    OpcodeFacts();
    TenIsDecimal(labels);
    LoadLabels(toks);
    ByteFacts();
    LoadBytes(toks, labels, 0, [], 0x3E, 10);
    assert [] + [0x3E, Lo(10)] == [0x3E, 0x0A];
    Assembled("START: MVI A, 10", toks, labels, [0x3E, 0x0A]);
  }

  // ---------------------------------------------------------------------------------
  // JMP END / END: HLT

  lemma ForwardJumpText()
    ensures Lower("HLT") == "hlt" && forall k :: 0 <= k < |"HLT"| ==> WordChar("HLT"[k])
    ensures "END:" + [' '] + "HLT" == "END: HLT" && Lower("END:") == "end:"
    ensures forall k :: 0 <= k < |"END:"| ==> WordChar("END:"[k])
    ensures ["end:"] + ["hlt"] == ["end:", "hlt"]
    ensures "END" + ['\n'] + "END: HLT" == "END\nEND: HLT" && Lower("END") == "end"
    ensures forall k :: 0 <= k < |"END"| ==> WordChar("END"[k])
    ensures ["end"] + ["end:", "hlt"] == ["end", "end:", "hlt"]
    ensures "JMP" + [' '] + "END\nEND: HLT" == "JMP END\nEND: HLT" && Lower("JMP") == "jmp"
    ensures forall k :: 0 <= k < |"JMP"| ==> WordChar("JMP"[k])
    ensures ["jmp"] + ["end", "end:", "hlt"] == ["jmp", "end", "end:", "hlt"]
  {
  }

  lemma LexForwardJump()
    ensures Lex("JMP END\nEND: HLT") == Ok(["jmp", "end", "end:", "hlt"])
  {
    ForwardJumpText();
    SingleWord("HLT");
    Prepend("END:", ' ', "HLT", ["hlt"]);
    Prepend("END", '\n', "END: HLT", ["end:", "hlt"]);
    Prepend("JMP", ' ', "END\nEND: HLT", ["end", "end:", "hlt"]);
  }

  lemma ForwardJumpLabels(toks: seq<Token>)
    requires |toks| == 4 && !IsTokenLabel(toks[0]) && GetOperandType(toks[0]) == Ok(OpAddress)
    requires IsTokenLabel(toks[2]) && !IsTokenLabel(toks[3]) && GetOperandType(toks[3]) == Ok(OpNone)
    ensures FindLabelsSpec(toks) == Ok([LabelOf(toks[2], 3)])
  {
    InstructionAdvance(toks, 0, 0, [], 2, 3);
    LabelStep(toks, 2, 3, []);
    InstructionAdvance(toks, 3, 3, [LabelOf(toks[2], 3)], 4, 4);
  }

  lemma ForwardJumpBytes(toks: seq<Token>, labels: seq<Label>, i: nat, out: ByteCode, jump: uint8, target: uint16, halt: uint8)
    requires |toks| == i + 4 && NonEmptyTokens(toks)
    requires !IsTokenLabel(toks[i]) && GetOperandType(toks[i]) == Ok(OpAddress)
    requires IsTokenLabel(toks[i + 2]) && !IsTokenLabel(toks[i + 3]) && GetOperandType(toks[i + 3]) == Ok(OpNone)
    requires Opcode(toks[i]) == jump && TokenToVal(labels, toks[i + 1]) == Ok(target) && Opcode(toks[i + 3]) == halt
    ensures BytesFrom(toks, labels, i, out) == Ok(out + [jump, Lo(target), Hi(target), halt])
  {
    var first := out + [jump, Lo(target), Hi(target)];
    AddressStep(toks, labels, i, out, jump, target);
    BytesLabelStep(toks, labels, i + 2, first);
    NoneStep(toks, labels, i + 3, first, halt);
    BytesAtEnd(toks, labels, i + 4, first + [halt]);
    assert first + [halt] == out + [jump, Lo(target), Hi(target), halt];
  }

  lemma ForwardJumpTokens()
    ensures var toks: seq<Token> := ["jmp", "end", "end:", "hlt"];
            && NonEmptyTokens(toks) && !IsTokenLabel(toks[0]) && IsTokenLabel(toks[2]) && !IsTokenLabel(toks[3])
            && LabelOf(toks[2], 3) == Label("end", 3)
            && TokenToVal([Label("end", 3)], toks[1]) == Ok(3)
  {
  }

  /** A jump to a label defined later: pass 1 has already counted the jump's three bytes
      when it meets the label, so the operand is 3, low byte first. */
  lemma AssembleForwardJump()
    ensures Assemble("JMP END\nEND: HLT") == Ok([0xC3, 0x03, 0x00, 0x76])
  {
    var toks: seq<Token> := ["jmp", "end", "end:", "hlt"];
    var labels := [Label("end", 3)];
    LexForwardJump();
    ForwardJumpTokens();
    JmpShape();
    HltShape();
    OpcodeFacts();
    ForwardJumpLabels(toks);
    ByteFacts();
    ForwardJumpBytes(toks, labels, 0, [], 0xC3, 3, 0x76);
    assert [] + [0xC3, Lo(3), Hi(3), 0x76] == [0xC3, 0x03, 0x00, 0x76];
    Assembled("JMP END\nEND: HLT", toks, labels, [0xC3, 0x03, 0x00, 0x76]);
  }

  // ---------------------------------------------------------------------------------
  // DB 5

  lemma DbText()
    ensures Lower("5") == "5" && Lower("DB") == "db" && forall k :: 0 <= k < |"DB"| ==> WordChar("DB"[k])
    ensures "DB" + [' '] + "5" == "DB 5" && ["db"] + ["5"] == ["db", "5"] && !IsTokenLabel("db")
  {
  }

  /** There is no data directive: "db" is not a mnemonic, and pass 1 stops at it. */
  lemma AssembleDataDirective()
    ensures Assemble("DB 5") == Err(UnknownInstruction("db"))
  {
    DbText();
    SingleWord("5");
    Prepend("DB", ' ', "5", ["5"]);
    DbShape();
    InstructionStep(["db", "5"], 0, 0, []);
    RejectedInPass1("DB 5", ["db", "5"], UnknownInstruction("db"));
  }

  // ---------------------------------------------------------------------------------
  // INR B

  lemma IncrementText()
    ensures Lower("B") == "b" && Lower("INR") == "inr" && forall k :: 0 <= k < |"INR"| ==> WordChar("INR"[k])
    ensures "INR" + [' '] + "B" == "INR B" && ["inr"] + ["b"] == ["inr", "b"] && WordChar('B')
  {
  }

  lemma IncrementTokens()
    ensures var toks: seq<Token> := ["inr", "b"];
            && NonEmptyTokens(toks) && !IsTokenLabel(toks[0]) && TokenToVal([], toks[1]) == Ok(0)
  {
    assert "b"[..0] == [];
  }

  lemma IncrementLabels(toks: seq<Token>)
    requires |toks| == 2 && !IsTokenLabel(toks[0]) && GetOperandType(toks[0]) == Ok(OpD8)
    ensures FindLabelsSpec(toks) == Ok([])
  {
    InstructionAdvance(toks, 0, 0, [], 2, 2);
  }

  lemma IncrementBytes(toks: seq<Token>, labels: seq<Label>, i: nat, out: ByteCode, op: uint8, v: uint16)
    requires |toks| == i + 2 && NonEmptyTokens(toks)
    requires !IsTokenLabel(toks[i]) && GetOperandType(toks[i]) == Ok(OpD8)
    requires Opcode(toks[i]) == op && TokenToVal(labels, toks[i + 1]) == Ok(v)
    ensures BytesFrom(toks, labels, i, out) == Ok(out + [op, Lo(v)])
  {
    D8Step(toks, labels, i, out, op, v);
    BytesAtEnd(toks, labels, i + 2, out + [op, Lo(v)]);
  }

  /** "inr" is listed as taking an 8-bit value and has no bare entry in the opcode table: the
      failed lookup is stored as 0xFF, and "b" reads as the empty binary numeral 0. */
  lemma AssembleIncrement()
    ensures Assemble("INR B") == Ok([0xFF, 0x00])
  {
    var toks: seq<Token> := ["inr", "b"];
    IncrementText();
    SingleWord("B");
    Prepend("INR", ' ', "B", ["b"]);
    IncrementTokens();
    InrShape();
    OpcodeFacts();
    IncrementLabels(toks);
    ByteFacts();
    IncrementBytes(toks, [], 0, [], 0xFF, 0);
    assert [] + [0xFF, Lo(0)] == [0xFF, 0x00];
    Assembled("INR B", toks, [], [0xFF, 0x00]);
  }

  // ---------------------------------------------------------------------------------
  // JMP NOWHERE

  lemma NowhereText()
    ensures Lower("NOWHERE") == "nowhere" && forall k :: 0 <= k < |"NOWHERE"| ==> WordChar("NOWHERE"[k])
    ensures Lower("JMP") == "jmp" && forall k :: 0 <= k < |"JMP"| ==> WordChar("JMP"[k])
    ensures "JMP" + [' '] + "NOWHERE" == "JMP NOWHERE" && ["jmp"] + ["nowhere"] == ["jmp", "nowhere"]
  {
  }

  lemma NowhereTokens()
    ensures var toks: seq<Token> := ["jmp", "nowhere"];
            && NonEmptyTokens(toks) && !IsTokenLabel(toks[0])
            && TokenToVal([], toks[1]) == Err(MissingLabel("nowhere"))
  {
  }

  lemma NowhereLabels(toks: seq<Token>)
    requires |toks| == 2 && !IsTokenLabel(toks[0]) && GetOperandType(toks[0]) == Ok(OpAddress)
    ensures FindLabelsSpec(toks) == Ok([])
  {
    InstructionAdvance(toks, 0, 0, [], 2, 3);
  }

  /** A jump to a label nobody defines is the fatal "Label doesnt exist" error. */
  lemma AssembleMissingLabel()
    ensures Assemble("JMP NOWHERE") == Err(MissingLabel("nowhere"))
  {
    var toks: seq<Token> := ["jmp", "nowhere"];
    NowhereText();
    SingleWord("NOWHERE");
    Prepend("JMP", ' ', "NOWHERE", ["nowhere"]);
    NowhereTokens();
    JmpShape();
    NowhereLabels(toks);
    EncodeMissingValue(toks, [], 0, MissingLabel("nowhere"));
    BytesStop(toks, [], 0, [], OpAddress, MissingLabel("nowhere"));
    RejectedInPass2("JMP NOWHERE", toks, [], MissingLabel("nowhere"));
  }

  // ---------------------------------------------------------------------------------
  // MVI A

  lemma CutShortText()
    ensures Lower("A") == "a" && Lower("MVI") == "mvi" && WordChar('A')
    ensures forall k :: 0 <= k < |"MVI"| ==> WordChar("MVI"[k])
    ensures "MVI" + [' '] + "A" == "MVI A" && ["mvi"] + ["a"] == ["mvi", "a"]
  {
  }

  lemma CutShortLabels(toks: seq<Token>)
    requires |toks| == 2 && !IsTokenLabel(toks[0]) && GetOperandType(toks[0]) == Ok(OpRegD8)
    ensures FindLabelsSpec(toks) == Ok([])
  {
    InstructionAdvance(toks, 0, 0, [], 3, 2);
  }

  /** An immediate load missing its value: pass 1 skips past the end, pass 2 has no token
      to read the value from. */
  lemma AssembleCutShort()
    ensures Assemble("MVI A") == Err(MissingOperand)
  {
    var toks: seq<Token> := ["mvi", "a"];
    CutShortText();
    SingleWord("A");
    Prepend("MVI", ' ', "A", ["a"]);
    assert NonEmptyTokens(toks) && !IsTokenLabel(toks[0]);
    MviShape();
    CutShortLabels(toks);
    EncodeCutShort(toks, [], 0);
    BytesStop(toks, [], 0, [], OpRegD8, MissingOperand);
    RejectedInPass2("MVI A", toks, [], MissingOperand);
  }
}
