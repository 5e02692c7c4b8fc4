/** Pass 1 of assembler.c: the label definitions and the byte offsets they stand for, and
    the lookup pass 2 makes in them. */
module Labels {
  import opened Common
  import opened Catalog
  import opened Vectors

  /** is_token_label: the token ends with ':'. (The C code reads the last character;
      tokens are never empty.) */
  predicate IsTokenLabel(t: Token) {
    |t| > 0 && t[|t| - 1] == ':'
  }

  /** The label a label token defines: its name without the ':' and the byte offset. */
  function LabelOf(t: Token, currentByte: nat): (l: Label)
    requires IsTokenLabel(t)
    ensures l.name + [':'] == t
    ensures currentByte < 0x1_0000 ==> l.address as int == currentByte
  {
    Label(t[..|t| - 1], ToUint16(currentByte))
  }

  /** find_labels from token `i` on, at byte offset `currentByte`, with the labels `acc`
      found so far: a label token records the offset; any other token is a mnemonic whose
      operand tokens are skipped and whose encoded length is added to the offset. An
      unknown mnemonic stops the pass. */
  function LabelsFrom(toks: seq<Token>, i: nat, currentByte: nat, acc: seq<Label>): (r: Result<seq<Label>>)
    ensures r.Ok? ==> |acc| <= |r.value| && r.value[..|acc|] == acc
    ensures r.Ok? ==> forall k :: |acc| <= k < |r.value| ==> r.value[k].name + [':'] in toks
    ensures r.Err? ==> r.error.UnknownInstruction?
    decreases |toks| - i
  {
    if i >= |toks| then Ok(acc)
    else if IsTokenLabel(toks[i]) then
      LabelsFrom(toks, i + 1, currentByte, acc + [LabelOf(toks[i], currentByte)])
    else
      var shape :- GetOperandType(toks[i]);
      var info := GetInstInfo(shape);
      LabelsFrom(toks, i + info.tokenSkip + 1, currentByte + info.byteLen, acc)
  }

  /** find_labels, over the whole token list. */
  function FindLabelsSpec(toks: seq<Token>): Result<seq<Label>> {
    LabelsFrom(toks, 0, 0, [])
  }

  /** One turn of find_labels on a label token. */
  lemma LabelStep(toks: seq<Token>, i: nat, currentByte: nat, acc: seq<Label>)
    requires i < |toks| && IsTokenLabel(toks[i])
    ensures LabelsFrom(toks, i, currentByte, acc)
         == LabelsFrom(toks, i + 1, currentByte, acc + [LabelOf(toks[i], currentByte)])
  {
  }

  /** One turn of find_labels on a mnemonic. */
  lemma InstructionStep(toks: seq<Token>, i: nat, currentByte: nat, acc: seq<Label>)
    requires i < |toks| && !IsTokenLabel(toks[i])
    ensures GetOperandType(toks[i]).Err? ==> LabelsFrom(toks, i, currentByte, acc) == Err(GetOperandType(toks[i]).error)
    ensures GetOperandType(toks[i]).Ok? ==>
              (var info := GetInstInfo(GetOperandType(toks[i]).value);
               LabelsFrom(toks, i, currentByte, acc) == LabelsFrom(toks, i + info.tokenSkip + 1, currentByte + info.byteLen, acc))
  {
  }

  /** One turn of find_labels on a known mnemonic, with the token index and the byte
      offset it moves on to. */
  lemma InstructionAdvance(toks: seq<Token>, i: nat, currentByte: nat, acc: seq<Label>, next: nat, nextByte: nat)
    requires i < |toks| && !IsTokenLabel(toks[i]) && GetOperandType(toks[i]).Ok?
    requires next == i + GetInstInfo(GetOperandType(toks[i]).value).tokenSkip + 1
    requires nextByte == currentByte + GetInstInfo(GetOperandType(toks[i]).value).byteLen
    ensures LabelsFrom(toks, i, currentByte, acc) == LabelsFrom(toks, next, nextByte, acc)
  {
    InstructionStep(toks, i, currentByte, acc);
  }

  /** One turn of the loop of find_labels, on token `i` at byte offset `currentByte`: a
      label token is appended to `labels`, a mnemonic moves the token index past its
      operands and the offset past its bytes. The result is the next token index and
      offset. */
  method FindLabelsStep(labels: Vec<Label>, toks: seq<Token>, i: nat, currentByte: nat)
    returns (r: Result<(nat, nat)>)
    requires labels.Valid() && i < |toks|
    modifies labels, labels.data
    ensures labels.Valid() && (labels.data == old(labels.data) || fresh(labels.data))
    ensures r.Err? ==> LabelsFrom(toks, i, currentByte, old(labels.Contents())) == Err(r.error)
    ensures r.Ok? ==> i < r.value.0
                      && LabelsFrom(toks, i, currentByte, old(labels.Contents()))
                         == LabelsFrom(toks, r.value.0, r.value.1, labels.Contents())
  {
    if IsTokenLabel(toks[i]) {
      LabelStep(toks, i, currentByte, labels.Contents());
      labels.Append(LabelOf(toks[i], currentByte));
      return Ok((i + 1, currentByte));
    }
    InstructionStep(toks, i, currentByte, labels.Contents());
    var shape := GetOperandType(toks[i]);
    if shape.Err? {
      return Err(shape.error);
    }
    var info := GetInstInfo(shape.value);
    r := Ok((i + info.tokenSkip + 1, currentByte + info.byteLen));
  }

  /** find_labels: the loop over the tokens, collecting into a vector of initial capacity
      100. */
  method FindLabels(toks: seq<Token>) returns (r: Result<seq<Label>>)
    ensures r == FindLabelsSpec(toks)
  {
    var currentByte: nat := 0;
    var labels := new Vec<Label>.Init(100);
    var i: nat := 0;
    while i < |toks|
      invariant labels.Valid() && fresh(labels) && fresh(labels.data)
      invariant LabelsFrom(toks, i, currentByte, labels.Contents()) == FindLabelsSpec(toks)
      decreases |toks| - i
    {
      var next := FindLabelsStep(labels, toks, i, currentByte);
      if next.Err? {
        return Err(next.error);
      }
      i, currentByte := next.value.0, next.value.1;
    }
    r := Ok(labels.Contents());
  }

  /** get_value_from_label: the address of the first label called `name`, or the fatal
      "Label doesnt exist" error. See GetValueFromLabelSpec. */
  function GetValueFromLabel(labels: seq<Label>, name: string): (r: Result<uint16>)
    ensures r.Err? ==> r.error == MissingLabel(name)
  {
    if labels == [] then Err(MissingLabel(name))
    else if labels[0].name == name then Ok(labels[0].address)
    else GetValueFromLabel(labels[1..], name)
  }

  /** The lookup succeeds exactly when some label has the name, and then gives the address
      of the first such label. */
  lemma {:induction false} GetValueFromLabelSpec(labels: seq<Label>, name: string)
    ensures var r := GetValueFromLabel(labels, name);
            r.Ok? <==> exists k :: 0 <= k < |labels| && labels[k].name == name
    ensures var r := GetValueFromLabel(labels, name);
            r.Ok? ==>
              exists k :: (0 <= k < |labels| && labels[k].name == name && r.value == labels[k].address
                           && forall j :: 0 <= j < k ==> labels[j].name != name)
  {
    if labels != [] && labels[0].name != name {
      var tail := labels[1..];
      GetValueFromLabelSpec(tail, name);
      var r := GetValueFromLabel(tail, name);
      if exists k :: 0 <= k < |tail| && tail[k].name == name {
        var k :| 0 <= k < |tail| && tail[k].name == name;
        assert labels[k + 1] == tail[k];
      }
      if exists k :: 0 <= k < |labels| && labels[k].name == name {
        var k :| 0 <= k < |labels| && labels[k].name == name;
        assert k > 0 && tail[k - 1] == labels[k];
      }
      if r.Ok? {
        var k :| 0 <= k < |tail| && tail[k].name == name && r.value == tail[k].address
                 && forall j :: 0 <= j < k ==> tail[j].name != name;
        assert labels[k + 1] == tail[k];
        forall j | 0 <= j < k + 1
          ensures labels[j].name != name
        {
          if j > 0 { assert labels[j] == tail[j - 1]; }
        }
      }
    } else if labels != [] {
      assert labels[0].name == name;
    }
  }
}
