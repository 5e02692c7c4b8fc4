/** The tokenizer of assembler.c: a three-state scanner that splits the source text into
    lowercased words at white space and commas, drops everything from ';' to the end of the
    line, and refuses a word longer than the token buffer allows.

    `Lex` is the specification: the scanner written as a function of the input, one
    character at a time. `Tokenize` is the C loop over a fixed 32-character buffer and a
    growing token vector, proved to compute `Lex`. */
module Lexer {
  import opened Common
  import opened Ascii
  import opened Catalog
  import opened Vectors

  /** TokenizerState */
  datatype TokenizerState = Default | Word | Comment

  /** The scanner's state between two characters: the C loop's `state`, the characters
      of the word being collected (`bfr[..current_bfr_size]`) and the tokens so far. */
  datatype Scanner = Scanner(state: TokenizerState, bfr: string, tokens: seq<Token>)

  const START: Scanner := Scanner(Default, [], [])

  /** The text the C loop reads: everything before the first NUL. */
  function CString(s: string): (r: string)
    ensures '\0' !in r
    ensures |r| <= |s| && r == s[..|r|]
    ensures |r| < |s| ==> s[|r|] == '\0'
  {
    if s == [] || s[0] == '\0' then [] else [s[0]] + CString(s[1..])
  }

  /** A character that continues a word. */
  predicate WordChar(c: char) {
    !IsSpace(c) && c != ',' && c != ';' && c != '\0'
  }

  /** One turn of the `while (to_tokenize[ptr])` loop. */
  function Step(sc: Scanner, c: char): Result<Scanner> {
    match sc.state
    case Default =>
      if c == ';' then Ok(sc.(state := Comment))
      else if !IsSpace(c) && c != ',' then Ok(Scanner(Word, sc.bfr + [c], sc.tokens))
      else Ok(sc)
    case Word =>
      if c == ';' then Ok(Scanner(Comment, [], sc.tokens + [Lower(sc.bfr)]))
      else if IsSpace(c) || c == ',' then Ok(Scanner(Default, [], sc.tokens + [Lower(sc.bfr)]))
      else if |sc.bfr| < MAX_TOKEN_LEN - 1 then Ok(sc.(bfr := sc.bfr + [c]))
      else Err(TokenTooLong)
    case Comment =>
      if c == '\n' then Ok(sc.(state := Default)) else Ok(sc)
  }

  /** The scanner after reading all of `s`, or the error that stopped it. */
  function Feed(s: string, sc: Scanner): Result<Scanner>
    decreases |s|
  {
    if s == [] then Ok(sc)
    else
      var next :- Step(sc, s[0]);
      Feed(s[1..], next)
  }

  /** After the loop: a word still open at the end of the input becomes the last token. */
  function Finish(sc: Scanner): seq<Token> {
    if sc.state == Word then sc.tokens + [Lower(sc.bfr)] else sc.tokens
  }

  /** tokenize, as a function of the source text. */
  function Lex(src: string): Result<seq<Token>> {
    var sc :- Feed(CString(src), START);
    Ok(Finish(sc))
  }

  // ---------------------------------------------------------------------------------
  // The C code

  /** string_to_lower: lowercases the characters before the first NUL, in place. */
  method StringToLower(a: array<char>)
    modifies a
    ensures var n := |CString(old(a[..]))|; a[..n] == Lower(old(a[..])[..n]) && a[n..] == old(a[..])[n..]
  {
    ghost var n := |CString(a[..])|;
    var i := 0;
    while i < a.Length && a[i] != '\0'
      invariant i <= n
      invariant a[..i] == Lower(old(a[..i]))
      invariant a[i..] == old(a[i..])
    {
      a[i] := ToLower(a[i]);
      i := i + 1;
    }
    assert i == n;
  }

  /** tokens_append_bfr: terminates the buffer, copies it into a token of its own,
      lowercases the copy, appends it to the token vector and empties the buffer
      (the returned size). */
  method AppendBuffer(tokens: Vec<Token>, bfr: array<char>, size: nat) returns (newSize: nat)
    requires tokens.Valid() && size < bfr.Length && '\0' !in bfr[..size]
    modifies tokens, tokens.data, bfr
    ensures tokens.Valid() && (tokens.data == old(tokens.data) || fresh(tokens.data))
    ensures tokens.Contents() == old(tokens.Contents()) + [Lower(old(bfr[..size]))]
    ensures bfr[..size] == old(bfr[..size]) && bfr[size] == '\0'
    ensures newSize == 0
  {
    ghost var before := tokens.Contents();
    bfr[size] := '\0';
    var data := new char[size + 1];
    forall k | 0 <= k <= size {
      data[k] := bfr[k];
    }
    assert data[..] == bfr[..size] + ['\0'];
    assert CString(data[..]) == bfr[..size] by {
      CStringOfTerminated(bfr[..size]);
    }
    ghost var word := bfr[..size];
    assert word == old(bfr[..size]);
    assert before == old(tokens.Contents());
    StringToLower(data);
    assert data[..size] == Lower(word);
    assert tokens.Contents() == before;
    tokens.Append(data[..size]);
    newSize := 0;
  }

  /** A string followed by a NUL reads back as itself. */
  lemma {:induction false} CStringOfTerminated(s: string)
    requires '\0' !in s
    ensures CString(s + ['\0']) == s
    decreases |s|
  {
    if s != [] {
      assert (s + ['\0'])[1..] == s[1..] + ['\0'];
      CStringOfTerminated(s[1..]);
    }
  }

  /** One turn of tokenize's loop on the character `c`, in state `state` with the word
      `bfr[..size]` open: the new state and buffer size, or the error that ends the scan. */
  method ScanChar(tokens: Vec<Token>, bfr: array<char>, size: nat, state: TokenizerState, c: char)
      returns (r: Result<TokenizerState>, newSize: nat)
    requires tokens.Valid() && bfr.Length == MAX_TOKEN_LEN && size < MAX_TOKEN_LEN
    requires (state != Word ==> size == 0) && '\0' !in bfr[..size] && c != '\0'
    modifies tokens, tokens.data, bfr
    ensures tokens.Valid() && (tokens.data == old(tokens.data) || fresh(tokens.data))
    ensures newSize < MAX_TOKEN_LEN && '\0' !in bfr[..newSize]
    ensures r.Ok? && r.value != Word ==> newSize == 0
    ensures Step(Scanner(state, old(bfr[..size]), old(tokens.Contents())), c)
         == if r.Ok? then Ok(Scanner(r.value, bfr[..newSize], tokens.Contents())) else Err(r.error)
  {
    newSize := size;
    r := Ok(state);
    match state {
      case Default =>
        if c == ';' {
          r := Ok(Comment);
        } else if !IsSpace(c) && c != ',' {
          bfr[size] := c;
          newSize := size + 1;
          r := Ok(Word);
          assert bfr[..newSize] == old(bfr[..size]) + [c];
        }
      case Word =>
        if c == ';' {
          newSize := AppendBuffer(tokens, bfr, size);
          r := Ok(Comment);
        } else if IsSpace(c) || c == ',' {
          newSize := AppendBuffer(tokens, bfr, size);
          r := Ok(Default);
        } else if size < MAX_TOKEN_LEN - 1 {
          bfr[size] := c;
          newSize := size + 1;
          assert bfr[..newSize] == old(bfr[..size]) + [c];
        } else {
          r := Err(TokenTooLong);
        }
      case Comment =>
        if c == '\n' {
          r := Ok(Default);
        }
    }
  }

  /** tokenize: scans `src` up to its first NUL. */
  method Tokenize(src: string) returns (r: Result<seq<Token>>)
    ensures r == Lex(src)
  {
    var tokens := new Vec<Token>.Init(100);
    var bfr := new char[MAX_TOKEN_LEN];
    var size: nat := 0;
    var state := Default;
    var ptr := 0;
    while ptr < |src| && src[ptr] != '\0'
      invariant ptr <= |src|
      invariant tokens.Valid() && fresh(tokens) && fresh(tokens.data)
      invariant bfr.Length == MAX_TOKEN_LEN && size < MAX_TOKEN_LEN
      invariant state != Word ==> size == 0
      invariant '\0' !in bfr[..size]
      invariant Feed(CString(src[ptr..]), Scanner(state, bfr[..size], tokens.Contents())) == Feed(CString(src), START)
      decreases |src| - ptr
    {
      assert CString(src[ptr..]) == [src[ptr]] + CString(src[ptr + 1..]);
      var next;
      next, size := ScanChar(tokens, bfr, size, state, src[ptr]);
      if next.Err? {
        return Err(next.error);
      }
      state := next.value;
      ptr := ptr + 1;
    }
    assert CString(src[ptr..]) == [];
    if state == Word {
      size := AppendBuffer(tokens, bfr, size);
    }
    r := Ok(tokens.Contents());
  }

  // ---------------------------------------------------------------------------------
  // Properties of the scanner

  /** What every token satisfies: non-empty, short enough for the 32-character buffer with
      its NUL, made of word characters only (no white space, ',', ';' or NUL) and
      lowercase. */
  predicate WellFormedToken(t: Token) {
    0 < |t| < MAX_TOKEN_LEN && IsLowerString(t) && forall k :: 0 <= k < |t| ==> WordChar(t[k])
  }

  /** The scanner's own invariant: a word is open exactly in state Word, the open word
      fits the buffer and holds word characters only, and the tokens are well formed. */
  ghost predicate Sound(sc: Scanner) {
    && (sc.state == Word <==> sc.bfr != [])
    && |sc.bfr| < MAX_TOKEN_LEN
    && (forall k :: 0 <= k < |sc.bfr| ==> WordChar(sc.bfr[k]))
    && (forall t :: t in sc.tokens ==> WellFormedToken(t))
  }

  lemma LowerWordIsToken(w: string)
    requires 0 < |w| < MAX_TOKEN_LEN && forall k :: 0 <= k < |w| ==> WordChar(w[k])
    ensures WellFormedToken(Lower(w))
  {
    LowerIsLower(w);
    forall k | 0 <= k < |w|
      ensures WordChar(Lower(w)[k])
    {
      ToLowerKeepsClass(w[k]);
    }
  }

  lemma StepSound(sc: Scanner, c: char)
    requires Sound(sc) && c != '\0'
    ensures Step(sc, c).Ok? ==> Sound(Step(sc, c).value)
  {
    if sc.state == Word && (c == ';' || IsSpace(c) || c == ',') {
      LowerWordIsToken(sc.bfr);
    }
  }

  lemma {:induction false} FeedSound(s: string, sc: Scanner)
    requires Sound(sc) && '\0' !in s
    ensures Feed(s, sc).Ok? ==> Sound(Feed(s, sc).value)
    decreases |s|
  {
    if s != [] {
      StepSound(sc, s[0]);
      if Step(sc, s[0]).Ok? {
        FeedSound(s[1..], Step(sc, s[0]).value);
      }
    }
  }

  /** Every token tokenize produces is non-empty, at most 31 characters long, free of white
      space, ',' and the comment character ';', and lowercase. */
  lemma LexWellFormed(src: string)
    ensures Lex(src).Ok? ==> forall t :: t in Lex(src).value ==> WellFormedToken(t)
  {
    FeedSound(CString(src), START);
    var r := Feed(CString(src), START);
    if r.Ok? && r.value.state == Word {
      LowerWordIsToken(r.value.bfr);
    }
  }

  /** Reading `s + t` is reading `s`, then `t` from where `s` left off. */
  lemma {:induction false} FeedAppend(s: string, t: string, sc: Scanner)
    ensures Feed(s + t, sc) == (var r := Feed(s, sc); if r.Err? then r else Feed(t, r.value))
    decreases |s|
  {
    if s == [] {
      assert s + t == t;
    } else {
      assert (s + t)[0] == s[0] && (s + t)[1..] == s[1..] + t;
      if Step(sc, s[0]).Ok? {
        FeedAppend(s[1..], t, Step(sc, s[0]).value);
      }
    }
  }

  lemma {:induction false} CStringAppend(a: string, b: string)
    requires '\0' !in a
    ensures CString(a + b) == a + CString(b)
    decreases |a|
  {
    if a == [] {
      assert a + b == b;
    } else {
      assert (a + b)[0] == a[0] && (a + b)[1..] == a[1..] + b;
      CStringAppend(a[1..], b);
      assert a == [a[0]] + a[1..];
    }
  }

  /** Inside a comment everything up to the newline is skipped. */
  lemma {:induction false} CommentSkips(c: string, sc: Scanner)
    requires sc.state == Comment && '\n' !in c
    ensures Feed(c, sc) == Ok(sc)
    decreases |c|
  {
    if c != [] {
      CommentSkips(c[1..], sc);
    }
  }

  /** A comment, from ';' to the end of its line, has the effect of the bare newline:
      its text never reaches a token, and a word before the ';' ends there. */
  lemma CommentIsDropped(a: string, c: string, b: string)
    requires '\0' !in a && '\0' !in c && '\n' !in c
    ensures Lex(a + [';'] + c + ['\n'] + b) == Lex(a + ['\n'] + b)
  {
    var with := [';'] + c + ['\n'];
    assert a + [';'] + c + ['\n'] + b == a + (with + b);
    assert '\0' !in with;
    CStringAppend(a, with + b);
    CStringAppend(with, b);
    CStringAppend(a, ['\n'] + b);
    CStringAppend(['\n'], b);
    assert a + ['\n'] + b == a + (['\n'] + b);
    FeedAppend(a, with + CString(b), START);
    FeedAppend(a, ['\n'] + CString(b), START);
    var r := Feed(a, START);
    if r.Ok? {
      var sc := r.value;
      FeedAppend(with, CString(b), sc);
      FeedAppend(['\n'], CString(b), sc);
      CommentFeed(c, sc);
    }
  }

  /** The scanner reads a comment and its newline as it reads the newline alone. */
  lemma CommentFeed(c: string, sc: Scanner)
    requires '\n' !in c
    ensures Feed([';'] + c + ['\n'], sc) == Feed(['\n'], sc)
  {
    var with := [';'] + c + ['\n'];
    var afterSemi := Step(sc, ';').value;
    assert Feed(with, sc) == Feed(c + ['\n'], afterSemi) by {
      assert with[0] == ';' && with[1..] == c + ['\n'];
    }
    FeedAppend(c, ['\n'], afterSemi);
    CommentSkips(c, afterSemi);
  }

  /** A comment that runs to the end of the input, with no newline after it, is dropped
      as well: a word before the ';' still ends there and becomes the last token. */
  lemma CommentAtEnd(a: string, c: string)
    requires '\0' !in a && '\0' !in c && '\n' !in c
    ensures Lex(a + [';'] + c) == Lex(a)
  {
    var with := [';'] + c;
    assert a + [';'] + c == a + with;
    assert '\0' !in with;
    CStringAppend(a, with);
    CStringAppend(with, []);
    CStringAppend(a, []);
    assert with + [] == with && a + [] == a;
    FeedAppend(a, with, START);
    var r := Feed(a, START);
    if r.Ok? {
      var sc := r.value;
      var afterSemi := Step(sc, ';').value;
      assert Feed(with, sc) == Feed(c, afterSemi) by {
        assert with[0] == ';' && with[1..] == c;
      }
      CommentSkips(c, afterSemi);
      assert Finish(afterSemi) == Finish(sc);
    }
  }

  /** A separator at the very end changes nothing: the word it would end is flushed at the
      end of the input anyway. */
  lemma TrailingSeparator(s: string, c: char)
    requires IsSpace(c) || c == ','
    ensures Lex(s + [c]) == Lex(s)
  {
    if '\0' in s {
      var n := |CString(s)|;
      assert CString(s) == s[..n];
      CStringPrefix(s, [c]);
    } else {
      CStringAppend(s, [c]);
      CStringAppend(s, []);
      assert s + [] == s;
      assert CString([c]) == [c] by {
        assert [c][1..] == [];
      }
      FeedAppend(s, [c], START);
      assert [c][1..] == [];
    }
  }

  /** Text after a NUL is never read. */
  lemma {:induction false} CStringPrefix(s: string, t: string)
    requires '\0' in s
    ensures CString(s + t) == CString(s)
    decreases |s|
  {
    assert (s + t)[0] == s[0];
    if s[0] != '\0' {
      assert (s + t)[1..] == s[1..] + t;
      CStringPrefix(s[1..], t);
    }
  }

  /** Word characters collected from state Default or Word, while they fit the buffer. */
  lemma {:induction false} FeedWordChars(w: string, sc: Scanner)
    requires forall k :: 0 <= k < |w| ==> WordChar(w[k])
    requires sc.state == Word || (sc.state == Default && sc.bfr == [])
    requires |sc.bfr| + |w| < MAX_TOKEN_LEN
    ensures Feed(w, sc) == Ok(if w == [] then sc else Scanner(Word, sc.bfr + w, sc.tokens))
    decreases |w|
  {
    if w != [] {
      var next := Scanner(Word, sc.bfr + [w[0]], sc.tokens);
      assert Step(sc, w[0]) == Ok(next);
      assert Feed(w, sc) == Feed(w[1..], next);
      FeedWordChars(w[1..], next);
      assert w == [w[0]] + w[1..];
      assert next.bfr + w[1..] == sc.bfr + w;
      if w[1..] == [] {
        assert next.bfr == sc.bfr + w;
      }
    }
  }

  /** A single word of at most 31 characters is one lowercased token: the word still open
      at the end of the input is flushed. */
  lemma SingleWord(w: string)
    requires 0 < |w| < MAX_TOKEN_LEN && forall k :: 0 <= k < |w| ==> WordChar(w[k])
    ensures Lex(w) == Ok([Lower(w)])
  {
    assert '\0' !in w by {
      forall k | 0 <= k < |w| ensures w[k] != '\0' { assert WordChar(w[k]); }
    }
    CStringAppend(w, []);
    assert w + [] == w;
    assert CString(w) == w;
    FeedWordChars(w, START);
    assert START.bfr + w == w;
    assert Feed(w, START) == Ok(Scanner(Word, w, []));
    assert Finish(Scanner(Word, w, [])) == [Lower(w)];
  }

  /** A word of 32 characters or more stops the tokenizer with "Token size exceeded limit",
      whatever follows it. */
  lemma LongWordRejected(w: string, rest: string)
    requires |w| == MAX_TOKEN_LEN && forall k :: 0 <= k < |w| ==> WordChar(w[k])
    ensures Lex(w + rest) == Err(TokenTooLong)
  {
    assert '\0' !in w by {
      forall k | 0 <= k < |w| ensures w[k] != '\0' { assert WordChar(w[k]); }
    }
    CStringAppend(w, rest);
    var head := w[..MAX_TOKEN_LEN - 1];
    assert w + CString(rest) == head + ([w[MAX_TOKEN_LEN - 1]] + CString(rest));
    FeedWordChars(head, START);
    FeedAppend(head, [w[MAX_TOKEN_LEN - 1]] + CString(rest), START);
  }

  /** The scanner `sc` with the tokens `pre` placed before the ones it holds. */
  function Shifted(pre: seq<Token>, sc: Scanner): Scanner {
    sc.(tokens := pre + sc.tokens)
  }

  lemma StepShift(pre: seq<Token>, sc: Scanner, c: char)
    ensures Step(Shifted(pre, sc), c) == (var r := Step(sc, c); if r.Err? then r else Ok(Shifted(pre, r.value)))
  {
    if sc.state == Word {
      assert (pre + sc.tokens) + [Lower(sc.bfr)] == pre + (sc.tokens + [Lower(sc.bfr)]);
    }
  }

  /** Tokens already emitted never influence the scanner: they are carried along. */
  lemma {:induction false} FeedShift(pre: seq<Token>, s: string, sc: Scanner)
    ensures Feed(s, Shifted(pre, sc)) == (var r := Feed(s, sc); if r.Err? then r else Ok(Shifted(pre, r.value)))
    decreases |s|
  {
    if s != [] {
      StepShift(pre, sc, s[0]);
      if Step(sc, s[0]).Ok? {
        FeedShift(pre, s[1..], Step(sc, s[0]).value);
      }
    }
  }

  /** A separator in front of the text is skipped. */
  lemma LeadingSeparator(c: char, rest: string)
    requires IsSpace(c) || c == ','
    ensures Lex([c] + rest) == Lex(rest)
  {
    CStringAppend([c], rest);
    assert Step(START, c) == Ok(START);
  }

  lemma WordThenSeparator(w: string, sep: char)
    requires 0 < |w| < MAX_TOKEN_LEN && forall k :: 0 <= k < |w| ==> WordChar(w[k])
    requires IsSpace(sep) || sep == ','
    ensures '\0' !in w + [sep]
    ensures Feed(w + [sep], START) == Ok(Scanner(Default, [], [Lower(w)]))
  {
    assert '\0' !in w + [sep] by {
      forall k | 0 <= k < |w| ensures w[k] != '\0' { assert WordChar(w[k]); }
    }
    FeedAppend(w, [sep], START);
    FeedWordChars(w, START);
    assert START.bfr + w == w;
    assert [sep][1..] == [];
    assert [] + [Lower(w)] == [Lower(w)];
    assert Step(Scanner(Word, w, []), sep) == Ok(Scanner(Default, [], [Lower(w)]));
  }

  /** A word of at most 31 characters followed by a separator is the first token, and the
      rest of the text is tokenized as if on its own. */
  lemma WordThen(w: string, sep: char, rest: string)
    requires 0 < |w| < MAX_TOKEN_LEN && forall k :: 0 <= k < |w| ==> WordChar(w[k])
    requires IsSpace(sep) || sep == ','
    ensures Lex(w + [sep] + rest) == (var r := Lex(rest); if r.Err? then r else Ok([Lower(w)] + r.value))
  {
    var after := Scanner(Default, [], [Lower(w)]);
    WordThenSeparator(w, sep);
    CStringAppend(w + [sep], rest);
    FeedAppend(w + [sep], CString(rest), START);
    assert Shifted([Lower(w)], START) == after;
    FeedShift([Lower(w)], CString(rest), START);
    var r := Feed(CString(rest), START);
    if r.Ok? {
      var sc := r.value;
      if sc.state == Word {
        assert ([Lower(w)] + sc.tokens) + [Lower(sc.bfr)] == [Lower(w)] + (sc.tokens + [Lower(sc.bfr)]);
      }
    }
  }

  /** Related scanners: one has read the lowercased text the other read as written. */
  ghost predicate Related(lo: Scanner, sc: Scanner) {
    lo.state == sc.state && lo.tokens == sc.tokens && |lo.bfr| == |sc.bfr| && Lower(lo.bfr) == Lower(sc.bfr)
  }

  lemma StepLower(lo: Scanner, sc: Scanner, c: char)
    requires Related(lo, sc)
    ensures Step(lo, ToLower(c)).Err? == Step(sc, c).Err?
    ensures Step(sc, c).Err? ==> Step(lo, ToLower(c)) == Step(sc, c)
    ensures Step(sc, c).Ok? ==> Related(Step(lo, ToLower(c)).value, Step(sc, c).value)
  {
    ToLowerKeepsClass(c);
    LowerAppend(lo.bfr, [ToLower(c)]);
    LowerAppend(sc.bfr, [c]);
  }

  lemma {:induction false} FeedLower(s: string, lo: Scanner, sc: Scanner)
    requires Related(lo, sc)
    ensures Feed(Lower(s), lo).Err? == Feed(s, sc).Err?
    ensures Feed(s, sc).Err? ==> Feed(Lower(s), lo) == Feed(s, sc)
    ensures Feed(s, sc).Ok? ==> Related(Feed(Lower(s), lo).value, Feed(s, sc).value)
    decreases |s|
  {
    if s != [] {
      StepLower(lo, sc, s[0]);
      assert Lower(s)[0] == ToLower(s[0]) && Lower(s)[1..] == Lower(s[1..]);
      if Step(sc, s[0]).Ok? {
        FeedLower(s[1..], Step(lo, ToLower(s[0])).value, Step(sc, s[0]).value);
      }
    }
  }

  lemma {:induction false} CStringLower(s: string)
    ensures CString(Lower(s)) == Lower(CString(s))
    decreases |s|
  {
    if s != [] {
      ToLowerKeepsClass(s[0]);
      assert Lower(s)[0] == ToLower(s[0]) && Lower(s)[1..] == Lower(s[1..]);
      CStringLower(s[1..]);
      LowerAppend([s[0]], CString(s[1..]));
    }
  }

  /** The tokenizer does not see case: lowercasing the source first changes nothing. */
  lemma LexIgnoresCase(src: string)
    ensures Lex(Lower(src)) == Lex(src)
  {
    CStringLower(src);
    FeedLower(CString(src), START, START);
    var r := Feed(CString(src), START);
    if r.Ok? {
      var lo := Feed(Lower(CString(src)), START).value;
      assert Lower(lo.bfr) == Lower(r.value.bfr);
    }
  }
}
