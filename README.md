# Intel 8080 two-pass assembler, modelled in Dafny

This project models the core of a small two-pass assembler for the Intel 8080, written in C
(`src/assembler.c`, `src/assembler.h`, `src/vector.h`). It then proves properties of the model.
The assembler turns one source string into a flat sequence of bytes in four stages:

1. **Tokenizer** (`tokenize`, module `Lexer`). A three-state scanner (default, word, comment)
   splits the text at white space and commas. It drops everything from `;` to the end of the
   line, lowercases every word, and stops with "Token size exceeded limit" when a word
   outgrows the 32-character buffer. `Lex` is the scanner written as a function.
   `Tokenize` is the C loop over a real `array<char>` buffer and a growing token vector,
   and it is proved to compute `Lex`.
2. **Instruction catalog** (`assembler.h`, modules `Catalog` and `CatalogFacts`). The
   256-entry opcode table, the 78-entry mnemonic table and its parallel operand-shape table,
   the linear searches over them (`find_opcode`, `find_instruction_no_operand`,
   `get_operand_type`) and `get_inst_info`. Row by row, the model proves:
   - the mnemonics are distinct;
   - apart from the placeholder `"x"`, the opcode table lists every instruction text once
     (module `OpcodeFacts`, checked row against row);
   - the searches behave as a first-match lookup;
   - the opcode table holds specific opcodes at specific positions;
   - five mnemonics looked up bare are missing from the opcode table.
3. **Pass 1** (`find_labels`, module `Labels`). It walks the tokens with a running byte
   offset and records every `name:` token with the offset, truncated to 16 bits.
   `get_value_from_label` looks a name up. `token_to_val` (module `Literals`) tries, in
   this order:
   - the `h` (hexadecimal) and `b` (binary) suffixes;
   - the label table;
   - decimal.

   `strtol` is modelled for the three bases the code uses.
4. **Pass 2** (`generate_byte_code`, module `Encoder`). The switch over operand shapes
   builds each opcode key ("mvi a", "mov b,c") and appends the opcode and the operand bytes,
   low byte first, to a growable byte vector. The central theorem, `PassesAgree` and
   `LabelAddresses`, proves that pass 1 and pass 2 agree: every label stands for exactly
   the number of bytes pass 2 has emitted before it, modulo 2^16.

The growable vector of `vector.h` is the class `Vectors.Vec`. `tokens_append_bfr` and
`labels_append` (`src/assembler.c:7-30`, `95-108`) repeat the same doubling code, so the
token list and the label list are `Vec`s too, grown with `Vec.Append`.

The `exit` calls of the C code become an `Err` result:
- `TokenTooLong` for "Token size exceeded limit";
- `UnknownInstruction` for "instruction doesnt exist";
- `MissingLabel` for "Label doesnt exist";
- `MissingOperand` where pass 2 would read past the last token. This is undefined behaviour
  in C; the model makes it an error.

The model follows the code as written, including where it departs from a conventional assembler:
- There is no `db`/`dw` pseudo-operation. `"DB 5"` stops pass 1 with an unknown
  instruction (`Scenarios.AssembleDataDirective`).
- A key missing from the opcode table is not an error. `find_opcode` returns -1, and
  storing it in a byte gives 0xFF. This affects `inr`, `dcr`, `in`, `out` and `lxi`, whose
  shapes make pass 2 look them up by the bare mnemonic (`CatalogFacts.BareKeyLookups`,
  `Scenarios.AssembleIncrement`).
- Duplicate labels are not rejected. The first definition wins.

Pure C code becomes functions. The tokenizer loop, the two pass loops, `string_to_lower`,
`tokens_append_bfr`, the switch of pass 2 and the vector are methods over arrays and a
class. Each method is proved against the function that specifies it.

Several functions that the others unfold keep their full contract in a separate lemma,
and the table above names that lemma:

| function | lemma |
|---|---|
| `FindOpcode` | `FindOpcodeSpec` |
| `FindInstruction` | `FindInstructionSpec` |
| `GetOperandType` | `GetOperandTypeSpec` |
| `GetValueFromLabel` | `GetValueFromLabelSpec` |
| `Opcode` | `OpcodeSpec` |
| `EncodeLaidOut` | `EncodeLaidOutSpec` |
| `EncodeInstruction` | `EncodeInstructionSpec` |
| `DigitPrefix` | `DigitPrefixIsLongest` |

Keeping these contracts out of the functions keeps the large constant tables away from
every proof that only unfolds the function.

## Model

| member | source | states |
|---|---|---|
| `Common.ToUint8` | src/assembler.c:242 | The conversion to `uint8_t` keeps the value modulo 256, and a value already in 0..255 unchanged. |
| `Common.ToUint16` | src/assembler.c:124 | The conversion to `uint16_t` keeps the value modulo 65536, and a value already in range unchanged. |
| `Ascii.ToLower` | src/assembler.c:4 | `tolower` yields no upper-case letter, adds 32 to an upper-case one and leaves every other character alone. |
| `Ascii.LowerIsLower` | src/assembler.c:3-5 | A string lowercased as `string_to_lower` does holds no upper-case letter. |
| `Ascii.LowerIdempotent` | src/assembler.c:3-5 | Lowercasing a second time changes nothing. |
| `Ascii.LowerAppend` | src/assembler.c:3-5 | Lowercasing works character by character: lowercasing a concatenation lowercases each part. |
| `Ascii.ToLowerKeepsClass` | src/assembler.c:180-206 | Lowercasing keeps white space, `,`, `;`, newline, NUL and digits what they were. Lowercasing first therefore never moves a token boundary. |
| `Vectors.Vec.constructor` | src/vector.h:13-21 | `vec_init` gives an empty vector with `len == 0` and `capacity` equal to the starting capacity, in a fresh block. |
| `Vectors.Vec.Append` | src/vector.h:23-34 | `vec_append` adds exactly one element at the old end and keeps every earlier one. The capacity doubles exactly when `len + 1 >= capacity`. Afterwards `len < capacity` still holds, so the next write stays in bounds. |
| `Lexer.CString` | src/assembler.c:175 | The loop reads exactly the characters before the first NUL. |
| `Lexer.StringToLower` | src/assembler.c:3-5 | `string_to_lower` lowercases the characters before the first NUL in place and leaves the rest of the array unchanged. |
| `Lexer.AppendBuffer` | src/assembler.c:7-30 | `tokens_append_bfr` appends the lowercased buffer contents as one new token, terminates the buffer with NUL and resets its size to 0. |
| `Lexer.ScanChar` | src/assembler.c:179-213 | One turn of the state switch on one character does exactly what the scanner function `Step` does: the same new state, buffer and tokens, or the same error. |
| `Lexer.Tokenize` | src/assembler.c:160-223 | `tokenize` returns exactly `Lex(src)`, including the flush of a word still open at the end of the input. |
| `Lexer.LexWellFormed` | src/assembler.c:180-206 | Every token has 1 to 31 characters and is lowercase. It holds no white space, `,`, `;` or NUL. |
| `Lexer.StepSound` | src/assembler.c:179-213 | One scanner step keeps the scanner invariant: a word is open exactly in the word state, it fits the buffer, and every token so far is well formed. |
| `Lexer.CommentSkips` | src/assembler.c:207-211 | In the comment state, every character up to a newline is skipped. |
| `Lexer.CommentIsDropped` | src/assembler.c:181-211 | A `;` comment up to its newline tokenizes exactly like the bare newline. Its text never reaches a token, and a word before the `;` ends there. |
| `Lexer.CommentAtEnd` | src/assembler.c:181-220 | A `;` comment that runs to the end of the input without a newline is dropped too: the text tokenizes like the text before the `;`. |
| `Lexer.TrailingSeparator` | src/assembler.c:218-220 | A separator at the end of the text changes nothing, because a word still open at the end is flushed anyway. |
| `Lexer.LeadingSeparator` | src/assembler.c:180-187 | White space or a comma in front of the text is skipped. |
| `Lexer.SingleWord` | src/assembler.c:218-220 | A lone word of at most 31 word characters becomes exactly one lowercased token. |
| `Lexer.WordThen` | src/assembler.c:189-196 | A word followed by a separator is the first token, and the rest of the text is tokenized as if on its own. |
| `Lexer.LongWordRejected` | src/assembler.c:198-203 | A word of 32 characters stops the tokenizer with the token-too-long error, whatever follows it. |
| `Lexer.CStringPrefix` | src/assembler.c:175 | Text after a NUL is never read. |
| `Lexer.LexIgnoresCase` | src/assembler.c:180-206 | Tokenizing the lowercased source gives the same result, tokens or error, as tokenizing the source. |
| `Catalog.FirstIndexFrom` | src/assembler.c:36-52 | The linear search returns -1 or an index inside the table. |
| `Catalog.FirstIndexFromSpec` | src/assembler.c:36-52 | The search returns -1 exactly when the key is absent. Otherwise it returns an index holding the key, with no earlier index holding it. |
| `Catalog.FindInstructionSpec` | src/assembler.c:36-43 | `find_instruction_no_operand` returns the first index of the mnemonic in the 78-entry table, or -1 exactly when the mnemonic is absent. |
| `Catalog.FindOpcodeSpec` | src/assembler.c:45-52 | `find_opcode` returns the first index of the key, which is below 256, or -1 exactly when the table lacks the key. |
| `Catalog.GetOperandType` | src/assembler.c:54-67 | The only failure of `get_operand_type` is the unknown-instruction error, and it names the lowercased token. |
| `Catalog.GetOperandTypeSpec` | src/assembler.c:54-67 | `get_operand_type` fails exactly when the lowercased token is not a mnemonic. Otherwise it yields the shape parallel to a matching mnemonic. |
| `Catalog.GetInstInfo` | src/assembler.c:69-93 | Every shape takes 1 to 3 bytes and at most 2 operand tokens. |
| `Catalog.TableSizes` | src/assembler.h:33-107 | The opcode table has 256 entries, so every index fits a byte. The mnemonic and shape tables both have 78 entries. |
| `Catalog.ShapeTableSizes` | src/assembler.h:68-107 | The mnemonic table and the shape table have the same length, 78. |
| `CatalogFacts.MnemonicsDistinct` | src/assembler.h:68-79 | The 78 mnemonics are pairwise distinct. |
| `CatalogFacts.ShapeOfMnemonic` | src/assembler.h:96-107 | Any spelling of mnemonic k gets shape k from `get_operand_type`. |
| `CatalogFacts.BareKeyLookups` | src/assembler.h:96-107 | Take a mnemonic whose shape makes pass 2 search for the bare mnemonic (no operand, 8-bit value, port, 16-bit value, address, register pair with 16-bit value). It is in the opcode table exactly when it is not one of `inr`, `dcr`, `in`, `out`, `lxi`. |
| `CatalogFacts.InrNotAnOpcode` | src/assembler.h:33-66 | `"inr"` is not a key of the opcode table. |
| `CatalogFacts.DcrNotAnOpcode` | src/assembler.h:33-66 | `"dcr"` is not a key of the opcode table. |
| `CatalogFacts.InNotAnOpcode` | src/assembler.h:33-66 | `"in"` is not a key of the opcode table. |
| `CatalogFacts.OutNotAnOpcode` | src/assembler.h:33-66 | `"out"` is not a key of the opcode table. |
| `CatalogFacts.LxiNotAnOpcode` | src/assembler.h:33-66 | `"lxi"` is not a key of the opcode table. |
| `CatalogFacts.FindOpcodeAt` | src/assembler.c:45-52 | A key found at index r, and not before it, is reported at r. |
| `OpcodeFacts.OpcodesDistinct` | src/assembler.h:33-66 | Apart from the placeholder `"x"` of the unused opcodes, no entry of the 256-entry opcode table occurs twice. |
| `OpcodeFacts.FindOpcodeOfEntry` | src/assembler.c:45-52 | For every opcode k whose entry is not `"x"`, `find_opcode` of that entry returns k: the first match is the entry's own opcode. |
| `CatalogFacts.NopOpcode` | src/assembler.h:34 | `find_opcode("nop")` is 0x00. |
| `CatalogFacts.MviAOpcode` | src/assembler.h:41 | `find_opcode("mvi a")` is 0x3E. |
| `CatalogFacts.HltOpcode` | src/assembler.h:48 | `find_opcode("hlt")` is 0x76. |
| `CatalogFacts.MovABOpcode` | src/assembler.h:49 | `find_opcode("mov a,b")` is 0x78. |
| `CatalogFacts.JmpOpcode` | src/assembler.h:58 | `find_opcode("jmp")` is 0xC3. |
| `Labels.LabelOf` | src/assembler.c:119-125 | A label token defines the name without its trailing `:`, at the current byte offset (16-bit). |
| `Labels.LabelsFrom` | src/assembler.c:110-134 | Pass 1 only adds labels and keeps the earlier ones in order. Each new label is named after a label token of the input. Its only failure is an unknown instruction. |
| `Labels.LabelStep` | src/assembler.c:119-125 | A label token records one label at the current offset and moves on by one token. |
| `Labels.InstructionStep` | src/assembler.c:126-130 | A mnemonic moves pass 1 on by its operand tokens plus one and by its byte length, or stops it with the unknown-instruction error. |
| `Labels.FindLabelsStep` | src/assembler.c:118-131 | One turn of the `find_labels` loop does exactly what one step of `LabelsFrom` does, and always moves forward. |
| `Labels.FindLabels` | src/assembler.c:110-134 | `find_labels` returns exactly `FindLabelsSpec(toks)`. |
| `Labels.GetValueFromLabel` | src/assembler.c:136-144 | The only failure of the lookup is the missing-label error for that name. |
| `Labels.GetValueFromLabelSpec` | src/assembler.c:136-144 | The lookup succeeds exactly when some label has the name. It then gives the address of the first such label. |
| `Literals.DigitValue` | src/assembler.c:149 | A character's digit value is at most 36, and a decimal digit's value is its numeric value. |
| `Literals.DigitPrefixIsLongest` | src/assembler.c:149 | `strtol` reads the longest run of digits of the base: all of it is digits, and the next character is not one. |
| `Literals.StrToL` | src/assembler.c:149-156 | The value `strtol` returns lies within the range of `long`. |
| `Literals.ValueOfNumeral` | src/assembler.c:149-156 | Reading the base-b numeral of n gives back n. |
| `Literals.StrToLNumeral` | src/assembler.c:149-156 | `strtol` in bases 2, 10 and 16 reads back the numeral of any value `long` can hold. |
| `Literals.TokenToVal` | src/assembler.c:146-158 | The only failure of `token_to_val` is the missing-label error for the token itself. |
| `Literals.SuffixBeforeLabels` | src/assembler.c:146-153 | A token ending in `h` or `b` is always a number and never looked up in the labels, whatever the labels are. |
| `Literals.HexOperand` | src/assembler.c:147-149 | A hexadecimal numeral with the `h` suffix resolves to its value modulo 2^16. |
| `Literals.BinaryOperand` | src/assembler.c:150-152 | A binary numeral with the `b` suffix resolves to its value modulo 2^16. |
| `Literals.LabelOperand` | src/assembler.c:153-154 | A token that has neither suffix and begins with a non-digit resolves exactly when a label has that name, to the address of the first one. |
| `Literals.DecimalOperand` | src/assembler.c:155-157 | A decimal numeral resolves to its value modulo 2^16. |
| `Literals.LabelEndingInH` | src/assembler.c:146-149 | An operand `fetch` loses its `h` suffix, and `strtol` reads the hexadecimal prefix `fe` of `fetc`, giving 0xFE, even when a label `fetch` exists. |
| `Encoder.OpcodeSpec` | src/assembler.c:242 | The stored opcode byte is the table index of the key. A key missing from the table is stored as 0xFF, because -1 is converted to `uint8_t`. |
| `Encoder.LittleEndian` | src/assembler.c:263-265 | The low byte `(uint8_t)value` plus 256 times the high byte `(uint8_t)(value >> 8)` gives back the 16-bit operand. |
| `Encoder.LayoutOf` | src/assembler.c:240-304 | The layout of each switch case takes `1 + immediate` bytes, which is `get_inst_info`'s byte length. It takes `registers` tokens plus one for the value, which is `get_inst_info`'s token skip. |
| `Encoder.EncodeLaidOutSpec` | src/assembler.c:240-304 | A case fails exactly when its tokens run out or its value token names no label. Otherwise it emits the opcode of its key, then the value's low byte and, for 16-bit operands, its high byte, and moves past its last token. |
| `Encoder.EncodeInstructionSpec` | src/assembler.c:240-304 | For every shape, the case of the pass-2 switch emits exactly `get_inst_info(shape).byte_len` bytes and consumes exactly `token_skip` operand tokens. Operands go low byte first. It fails exactly on missing tokens or a missing label. |
| `Encoder.BytesFrom` | src/assembler.c:233-305 | Pass 2 only appends to the bytes emitted so far. |
| `Encoder.BytesLabelStep` | src/assembler.c:234-236 | A label token emits nothing in pass 2. |
| `Encoder.BytesInstructionStep` | src/assembler.c:238-304 | A mnemonic emits its instruction or stops pass 2 with the first error. |
| `Encoder.ValueBytesRoundTrip` | src/assembler.c:257-265 | The bytes of an operand give it back: two bytes, low first, give the whole 16-bit value; one byte gives its low eight bits. |
| `Encoder.AppendValue` | src/assembler.c:263-265 | The `vec_append` calls of a value append exactly its operand bytes, low byte first. |
| `Encoder.EmitImmediate` | src/assembler.c:241-267 | The no-operand, 8-bit and 16-bit cases append exactly what their layout emits, or fail alike. |
| `Encoder.EmitRegister` | src/assembler.c:245-291 | The register cases, with or without a value, append exactly what their layout emits, or fail alike. |
| `Encoder.EmitRegisterPair` | src/assembler.c:292-303 | The register-register case appends exactly the opcode of "mnemonic r1,r2", or fails alike. |
| `Encoder.EmitInstruction` | src/assembler.c:240-304 | The switch appends exactly the bytes of `EncodeInstruction` and ends on the instruction's last token, or fails with the same error. |
| `Encoder.EncodeStep` | src/assembler.c:233-305 | One turn of the pass-2 loop does exactly what one step of `BytesFrom` does, and always moves forward. |
| `Encoder.EncodeTokens` | src/assembler.c:230-305 | The loop of `generate_byte_code` returns exactly `BytesFrom(toks, labels, 0, [])`. |
| `Encoder.GenerateByteCode` | src/assembler.c:225-314 | `generate_byte_code` returns exactly `Assemble(code)`: tokenize, pass 1, pass 2, with the first error of any of them. |
| `Encoder.LexedTokensNonEmpty` | src/assembler.c:32-34 | Every token is non-empty, so `is_token_label` reads a real last character. |
| `Encoder.AssembleIgnoresCase` | src/assembler.c:24 | Assembling the lowercased source gives the same bytes, or the same error, as assembling the source. |
| `Encoder.CountedInstructionStep` | src/assembler.c:126-130 | For an instruction that pass 2 encodes, pass 1 moves on by the same number of tokens and bytes. |
| `Encoder.PassesAgree` | src/assembler.c:110-134 | Where pass 2 succeeds, pass 1 finds exactly the labels that pass 2 would stamp with its own count of emitted bytes. |
| `Encoder.EmittedLabelsArePrefixes` | src/assembler.c:230-236 | Where pass 2 succeeds, each label it would stamp comes from a label token and carries the length of the bytes pass 2 has emitted on reaching that token. Those bytes extend the bytes emitted before and are a prefix of the final output, and pass 2 goes on from there to exactly that output. |
| `Encoder.LabelAddresses` | src/assembler.c:110-134 | In every program that assembles, pass 1's labels are the ones pass 2 stamps. Each label's address is, modulo 2^16, the length of the prefix of the assembled bytes that pass 2 has emitted when it reaches the label's definition. |
| `Scenarios.LexLoad` | src/main.c:5 | `"START: MVI A, 10"` tokenizes to `start:`, `mvi`, `a`, `10`. |
| `Scenarios.AssembleLoad` | src/main.c:5 | `"START: MVI A, 10"` assembles to `[0x3E, 0x0A]`. |
| `Scenarios.AssembleForwardJump` | src/assembler.c:110-134 | `"JMP END\nEND: HLT"` assembles to `[0xC3, 0x03, 0x00, 0x76]`: the label defined after the jump already has address 3. |
| `Scenarios.DbShape` | src/assembler.c:54-67 | `db` is not a mnemonic, so `get_operand_type` fails on it. |
| `Scenarios.AssembleDataDirective` | src/assembler.c:62-65 | `"DB 5"` stops with the unknown-instruction error for `db`. |
| `Scenarios.OpcodeFacts` | src/assembler.h:33-66 | "mvi a" is stored as 0x3E, "jmp" as 0xC3, "hlt" as 0x76 and the bare "inr" as 0xFF. |
| `Scenarios.AssembleIncrement` | src/assembler.h:99 | Because `inr` is typed as taking an 8-bit value, `"INR B"` assembles to `[0xFF, 0x00]`: no opcode, then the value of the missing label `b` read as binary 0. |
| `Scenarios.AssembleMissingLabel` | src/assembler.c:142-143 | `"JMP NOWHERE"` stops with the missing-label error for `nowhere`. |
| `Scenarios.AssembleCutShort` | src/assembler.c:268-276 | `"MVI A"` stops pass 2 with the missing-operand error, where the C code would read past the last token. |

## Left out

- `src/main.c` is not part of this model. It is a demonstration call and `printf` output; its program is the scenario `Scenarios.AssembleLoad`.
- `malloc`/`realloc` failure and `free`: storage never runs out in the model.
- `fprintf` and `exit`: each fatal path returns an `Err` value instead of ending the process.
- Pass 2 reading past the end of the token array is undefined behaviour (`src/assembler.c:249`, `256`, `272-275`). The model returns `MissingOperand` instead.
- The opcode keys are built with unbounded `strcat` into a 32-byte `temp`. With long tokens this overflows, which the model does not capture: it builds the intended string.
- Label names are copied without a NUL terminator (`src/assembler.c:122-123`), so `strcmp` may read past them. The model compares the intended name.
- `token_to_val` strips the suffix by overwriting it with NUL inside the token array. The model strips it from a copy. The token is never read again, so nothing observable changes.
- `strtol` is modelled as the code uses it: white space, an optional sign, "0x" for base 16, the longest digit run, and clamping to the range of `long`. `errno` and the C23 "0b" prefix are left out.
- `isspace` and `tolower` are those of the "C" locale; other locales are left out.
- The model reads the source as one character per byte, so it is exact only for ASCII (7-bit) input. The C code counts the 31-character token limit in bytes, so a word of multi-byte UTF-8 characters can be too long in C but not in the model. It also calls `isspace` and `tolower` on possibly negative `char` values, which is undefined in C.
- `Vectors.Vec.constructor`: requires a starting capacity above 0. With capacity 0 the C code would double 0 to 0 and write past the block. Every caller passes 100.
- `Catalog.GetInstInfo`: the C `default` case returning `{0, 0}` is not modelled. Every enumerator has its own case, so it is unreachable.
- The size field of `Token` and the loop counters are plain naturals. Tokens have at most 31 characters, so the `uint8_t` size cannot wrap. The byte offset of pass 1 is truncated to 16 bits where it is stored in a label.
