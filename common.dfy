/** Machine integer widths and the error result shared by every stage of the assembler. */
module Common {

  /** C's uint8_t: one byte of the output. */
  newtype uint8 = x: int | 0 <= x < 0x100

  /** C's uint16_t: label addresses and resolved operand values. */
  newtype uint16 = x: int | 0 <= x < 0x1_0000

  /** The conditions on which the original prints a message and calls exit. */
  datatype Error =
    | TokenTooLong                       // a word grew past MAX_TOKEN_LEN - 1 characters
    | UnknownInstruction(mnemonic: string) // a mnemonic absent from INSTRUCTION_TABLE_NO_OPERAND
    | MissingLabel(name: string)         // a label reference with no matching definition
    | MissingOperand                     // pass 2 ran out of tokens inside an instruction

  datatype Result<T> = Ok(value: T) | Err(error: Error) {
    predicate IsFailure() {
      Err?
    }

    function PropagateFailure<U>(): Result<U>
      requires Err?
    {
      Err(error)
    }

    function Extract(): T
      requires Ok?
    {
      value
    }
  }

  /** The C conversion of a non-negative integer to uint8_t: keep the low eight bits. */
  function ToUint8(x: int): (b: uint8)
    ensures 0 <= x < 0x100 ==> b as int == x
    ensures (b as int - x) % 0x100 == 0
  {
    (x % 0x100) as uint8
  }

  /** The C conversion of an integer to uint16_t: keep the low sixteen bits. */
  function ToUint16(x: int): (w: uint16)
    ensures 0 <= x < 0x1_0000 ==> w as int == x
    ensures (w as int - x) % 0x1_0000 == 0
  {
    (x % 0x1_0000) as uint16
  }
}
