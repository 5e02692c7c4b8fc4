/** Operand values: token_to_val of assembler.c and the part of the C library's strtol it
    relies on. A token ending in 'h' is hexadecimal and one ending in 'b' binary (the
    suffix is dropped); any other token that does not start with a digit names a label;
    the rest are decimal. The value is truncated to 16 bits. */
module Literals {
  import opened Common
  import opened Ascii
  import opened Catalog
  import opened Labels

  /** LONG_MAX on the LP64 targets the program is built for. */
  const LONG_MAX: int := 0x7FFF_FFFF_FFFF_FFFF

  /** The value strtol gives a character: 0-9 for digits, 10-35 for letters of either case,
      and 36 (valid in no base) for anything else. */
  function DigitValue(c: char): (d: nat)
    ensures d <= 36
    ensures IsDigit(c) ==> d == c as int - '0' as int
  {
    if '0' <= c <= '9' then c as int - '0' as int
    else if 'a' <= c <= 'z' then c as int - 'a' as int + 10
    else if 'A' <= c <= 'Z' then c as int - 'A' as int + 10
    else 36
  }

  /** The length of the longest prefix of `s` made of digits of `base`. */
  function DigitPrefix(s: string, base: nat): (n: nat)
    ensures n <= |s|
    decreases |s|
  {
    if s == [] || DigitValue(s[0]) >= base then 0 else 1 + DigitPrefix(s[1..], base)
  }

  /** The prefix DigitPrefix measures is made of digits, and the character after it is not
      one. */
  lemma {:induction false} DigitPrefixIsLongest(s: string, base: nat)
    ensures var n := DigitPrefix(s, base);
            && (forall k :: 0 <= k < n ==> DigitValue(s[k]) < base)
            && (n < |s| ==> DigitValue(s[n]) >= base)
    decreases |s|
  {
    if s != [] && DigitValue(s[0]) < base {
      DigitPrefixIsLongest(s[1..], base);
      var n := DigitPrefix(s, base);
      forall k | 0 <= k < n
        ensures DigitValue(s[k]) < base
      {
        if k > 0 {
          assert s[k] == s[1..][k - 1];
        }
      }
    }
  }

  /** The number the digits spell, most significant first. */
  function ValueOf(digits: string, base: nat): nat
    decreases |digits|
  {
    if digits == [] then 0
    else ValueOf(digits[..|digits| - 1], base) * base + DigitValue(digits[|digits| - 1])
  }

  /** strtol's leading white space. */
  function SkipSpace(s: string): string
    decreases |s|
  {
    if s != [] && IsSpace(s[0]) then SkipSpace(s[1..]) else s
  }

  /** strtol(s, NULL, base), for the bases 2, 10 and 16 token_to_val uses: white space, an
      optional sign, for base 16 an optional "0x", then the longest run of digits (none
      gives 0); a magnitude beyond the range of long is clamped to LONG_MAX or LONG_MIN. */
  function StrToL(s: string, base: nat): (r: int)
    requires base == 2 || base == 10 || base == 16
    ensures -LONG_MAX - 1 <= r <= LONG_MAX
  {
    var t := SkipSpace(s);
    var negative := t != [] && t[0] == '-';
    var unsigned := if t != [] && (t[0] == '+' || t[0] == '-') then t[1..] else t;
    var digits :=
      if base == 16 && |unsigned| >= 2 && unsigned[0] == '0' && (unsigned[1] == 'x' || unsigned[1] == 'X')
      then unsigned[2..] else unsigned;
    var magnitude: int := ValueOf(digits[..DigitPrefix(digits, base)], base);
    if negative then (if magnitude > LONG_MAX + 1 then -LONG_MAX - 1 else -magnitude)
    else (if magnitude > LONG_MAX then LONG_MAX else magnitude)
  }

  /** token_to_val: the 16-bit value of an operand token. The suffix tests come first, so
      a token ending in 'h' or 'b' is a number even when a label has that name. (The C
      code strips the suffix by overwriting it in the token; the token is not read again,
      so the model strips it from a copy.) */
  function TokenToVal(labels: seq<Label>, tok: Token): (r: Result<uint16>)
    requires |tok| > 0
    ensures r.Err? ==> r.error == MissingLabel(tok)
  {
    var last := tok[|tok| - 1];
    if last == 'h' then Ok(ToUint16(StrToL(tok[..|tok| - 1], 16)))
    else if last == 'b' then Ok(ToUint16(StrToL(tok[..|tok| - 1], 2)))
    else if !IsDigit(tok[0]) then GetValueFromLabel(labels, tok)
    else Ok(ToUint16(StrToL(tok, 10)))
  }

  // ---------------------------------------------------------------------------------
  // Numerals: the partner of ValueOf

  /** The digit of value `d`, lowercase as the tokenizer leaves letters. */
  function DigitChar(d: nat): (c: char)
    requires d < 36
    ensures DigitValue(c) == d
    ensures !IsSpace(c) && c != '+' && c != '-'
  {
    if d < 10 then ('0' as int + d) as char else ('a' as int + d - 10) as char
  }

  /** `n` written in `base` without leading zeros. */
  function Numeral(n: nat, base: nat): (s: string)
    requires 2 <= base <= 36
    ensures |s| > 0
    ensures forall k :: 0 <= k < |s| ==> DigitValue(s[k]) < base
    decreases n
  {
    DivMod(n, base);
    if n < base then [DigitChar(n)]
    else
      DivLess(n, base);
      Numeral(n / base, base) + [DigitChar(n % base)]
  }

  /** Reading a numeral gives back the number. */
  lemma {:induction false} ValueOfNumeral(n: nat, base: nat)
    requires 2 <= base <= 36
    ensures ValueOf(Numeral(n, base), base) == n
    decreases n
  {
    if n < base {
      var s := [DigitChar(n)];
      assert s[..0] == [];
      assert ValueOf(s, base) == 0 * base + n;
    } else {
      DivMod(n, base);
      DivLess(n, base);
      NumeralStep(n, base);
      ValueOfNumeral(n / base, base);
      ValueOfStep(n, base, Numeral(n / base, base), DigitChar(n % base));
    }
  }

  /** A numeral of two or more digits is the numeral of the quotient and the last digit. */
  lemma NumeralStep(n: nat, base: nat)
    requires 2 <= base <= n && base <= 36
    ensures n % base < 36
    ensures Numeral(n, base) == Numeral(n / base, base) + [DigitChar(n % base)]
  {
    DivMod(n, base);
  }

  lemma ValueOfSnoc(head: string, c: char, base: nat)
    ensures ValueOf(head + [c], base) == ValueOf(head, base) * base + DigitValue(c)
  {
    assert (head + [c])[..|head|] == head;
  }

  lemma ValueOfStep(n: nat, base: nat, head: string, c: char)
    requires 0 < base && ValueOf(head, base) == n / base && DigitValue(c) == n % base
    ensures ValueOf(head + [c], base) == n
  {
    ValueOfSnoc(head, c, base);
    DivMod(n, base);
  }

  lemma DivMod(n: nat, base: nat)
    requires 0 < base
    ensures (n / base) * base + n % base == n
    ensures n % base < base
  {
  }

  lemma DivLess(n: nat, base: nat)
    requires 2 <= base <= n
    ensures n / base < n
  {
    DivMod(n, base);
    AtLeastDouble(n / base, base);
  }

  lemma AtLeastDouble(q: nat, base: nat)
    requires 2 <= base
    ensures q * base >= 2 * q
  {
  }

  /** A string of digits is read in full. */
  lemma {:induction false} AllDigitsRead(s: string, base: nat)
    requires forall k :: 0 <= k < |s| ==> DigitValue(s[k]) < base
    ensures DigitPrefix(s, base) == |s|
    decreases |s|
  {
    if s != [] {
      AllDigitsRead(s[1..], base);
    }
  }

  /** The first character of a numeral is a digit and not a sign, and the numeral starts
      with '0' only when it is "0". */
  lemma {:induction false} NumeralHead(n: nat, base: nat)
    requires 2 <= base <= 36
    ensures var s := Numeral(n, base); !IsSpace(s[0]) && s[0] != '+' && s[0] != '-'
    ensures var s := Numeral(n, base); s[0] == '0' ==> |s| == 1
    ensures base <= 10 ==> IsDigit(Numeral(n, base)[0])
    decreases n
  {
    if n >= base {
      NumeralHead(n / base, base);
    }
  }

  /** strtol reads back the numeral of any value long can hold. */
  lemma StrToLNumeral(n: nat, base: nat)
    requires base == 2 || base == 10 || base == 16
    requires n <= LONG_MAX
    ensures StrToL(Numeral(n, base), base) == n
  {
    var s := Numeral(n, base);
    NumeralHead(n, base);
    assert SkipSpace(s) == s;
    AllDigitsRead(s, base);
    assert s[..|s|] == s;
    ValueOfNumeral(n, base);
  }

  // ---------------------------------------------------------------------------------
  // Properties of token_to_val

  /** A decimal numeral is its own value, modulo 2^16. */
  lemma DecimalOperand(labels: seq<Label>, n: nat)
    requires n <= LONG_MAX
    ensures TokenToVal(labels, Numeral(n, 10)) == Ok(ToUint16(n))
  {
    var s := Numeral(n, 10);
    NumeralHead(n, 10);
    StrToLNumeral(n, 10);
    assert DigitValue(s[|s| - 1]) < 10;
    assert s[|s| - 1] != 'h' && s[|s| - 1] != 'b';
    assert IsDigit(s[0]);
  }

  /** A hexadecimal numeral with the 'h' suffix is its value, modulo 2^16; it may start with
      a letter ("ffh"). */
  lemma HexOperand(labels: seq<Label>, n: nat)
    requires n <= LONG_MAX
    ensures TokenToVal(labels, Numeral(n, 16) + "h") == Ok(ToUint16(n))
  {
    var s := Numeral(n, 16) + "h";
    assert s[..|s| - 1] == Numeral(n, 16);
    StrToLNumeral(n, 16);
  }

  /** A binary numeral with the 'b' suffix is its value, modulo 2^16. */
  lemma BinaryOperand(labels: seq<Label>, n: nat)
    requires n <= LONG_MAX
    ensures TokenToVal(labels, Numeral(n, 2) + "b") == Ok(ToUint16(n))
  {
    var s := Numeral(n, 2) + "b";
    assert s[..|s| - 1] == Numeral(n, 2);
    StrToLNumeral(n, 2);
  }

  /** The suffix rules are tried before the label table: a token ending in 'h' or 'b' has
      the same value whatever labels exist. */
  lemma SuffixBeforeLabels(labels: seq<Label>, tok: Token)
    requires |tok| > 0 && (tok[|tok| - 1] == 'h' || tok[|tok| - 1] == 'b')
    ensures TokenToVal(labels, tok) == TokenToVal([], tok)
    ensures TokenToVal(labels, tok).Ok?
  {
  }

  /** Any other token that does not start with a digit is the address of the first label
      of that name, and a missing label is the fatal "Label doesnt exist" error. */
  lemma LabelOperand(labels: seq<Label>, tok: Token)
    requires |tok| > 0 && tok[|tok| - 1] != 'h' && tok[|tok| - 1] != 'b' && !IsDigit(tok[0])
    ensures (exists k :: 0 <= k < |labels| && labels[k].name == tok) <==> TokenToVal(labels, tok).Ok?
    ensures forall k :: 0 <= k < |labels| && labels[k].name == tok && (forall j :: 0 <= j < k ==> labels[j].name != tok)
              ==> TokenToVal(labels, tok) == Ok(labels[k].address)
  {
    GetValueFromLabelSpec(labels, tok);
    forall k | 0 <= k < |labels| && labels[k].name == tok && (forall j :: 0 <= j < k ==> labels[j].name != tok)
      ensures TokenToVal(labels, tok) == Ok(labels[k].address)
    {
      var r := GetValueFromLabel(labels, tok);
      var k' :| 0 <= k' < |labels| && labels[k'].name == tok && r.value == labels[k'].address
                 && forall j :: 0 <= j < k' ==> labels[j].name != tok;
      assert k' == k;
    }
  }

  /** A label named "fetch" is never looked up: the token ends in 'h', so it reads as the
      hexadecimal prefix "fe" of "fetc". */
  lemma LabelEndingInH()
    ensures TokenToVal([Label("fetch", 0x1234)], "fetch") == Ok(0xFE)
  {
    var digits := "fetc";
    assert "fetch"[..4] == digits;
    assert SkipSpace(digits) == digits;
    assert DigitPrefix(digits, 16) == 2;
    assert digits[..2] == "fe";
    HexFE();
  }

  lemma HexFE()
    ensures ValueOf("fe", 16) == 0xFE
  {
    assert "fe"[..1] == "f";
    assert "f"[..0] == [];
  }
}
