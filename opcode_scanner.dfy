/** `extract_opcode_features`: the static pass over a module's payloads that
    counts, per operator label, how many operators of all the function bodies
    carry that label.

    The binary decoder is outside the model: a module is the sequence of
    payload results the parser yields, in on-disk order, and each function
    body is the sequence of operator results its operator reader yields.  A
    label is the operator's debug text, taken as an opaque string; it includes
    the operator's immediates, so two operators of one kind with different
    immediates are two different labels. */
module OpcodeScanner {
  import opened Fallible
  import opened Frequency

  /** One item of a body's operator stream: a decoded operator's label, or a
      decoding error. */
  datatype Operator = Decoded(text: string) | Malformed(msg: string)

  /** A payload the parser yields.  Only code-section entries matter to the
      scanner; a code-section entry's operator reader may itself fail to be
      created. */
  datatype Payload =
    | CodeSectionEntry(reader: Result<seq<Operator>>)
    | OtherPayload

  /** The module as the parser yields it: each payload may be an error. */
  type PayloadStream = seq<Result<Payload>>

  // ---------------------------------------------------------------------
  // Reference definitions, each over a prefix extended by its last element

  /** The labels of the decoded operators of a body, in order. */
  function OpLabels(ops: seq<Operator>): seq<string>
  {
    if ops == [] then []
    else OpLabels(ops[..|ops| - 1]) + (if ops[|ops| - 1].Decoded? then [ops[|ops| - 1].text] else [])
  }

  /** The first decoding error of a body's operator stream. */
  function OpError(ops: seq<Operator>): Option<string>
  {
    if ops == [] then None
    else if OpError(ops[..|ops| - 1]).Some? then OpError(ops[..|ops| - 1])
    else if ops[|ops| - 1].Malformed? then Some(ops[|ops| - 1].msg)
    else None
  }

  /** The labels one payload contributes: those of a code-section entry. */
  function PayloadLabels(p: Result<Payload>): seq<string>
  {
    if p.Ok? && p.value.CodeSectionEntry? && p.value.reader.Ok? then OpLabels(p.value.reader.value)
    else []
  }

  /** The error one payload makes the scan stop on, if any. */
  function PayloadError(p: Result<Payload>): Option<string>
  {
    match p
    case Err(m) => Some(m)
    case Ok(OtherPayload) => None
    case Ok(CodeSectionEntry(Err(m))) => Some(m)
    case Ok(CodeSectionEntry(Ok(ops))) => OpError(ops)
  }

  /** All labels of all code-section entries, in module order. */
  function Labels(ps: PayloadStream): seq<string>
  {
    if ps == [] then [] else Labels(ps[..|ps| - 1]) + PayloadLabels(ps[|ps| - 1])
  }

  /** The first error met when walking the module in order. */
  function ScanError(ps: PayloadStream): Option<string>
  {
    if ps == [] then None
    else if ScanError(ps[..|ps| - 1]).Some? then ScanError(ps[..|ps| - 1])
    else PayloadError(ps[|ps| - 1])
  }

  /** The number of operators in all code-section entries of the module. */
  function OperatorCount(ps: PayloadStream): nat
  {
    if ps == [] then 0
    else
      var p := ps[|ps| - 1];
      OperatorCount(ps[..|ps| - 1])
        + (if p.Ok? && p.value.CodeSectionEntry? && p.value.reader.Ok? then |p.value.reader.value| else 0)
  }

  /** A payload the scan passes without error: it was parsed, and if it is a
      code-section entry its reader was created and decodes every operator. */
  predicate Decodable(p: Result<Payload>)
  {
    p.Ok? &&
    (p.value.CodeSectionEntry? ==>
       p.value.reader.Ok? &&
       forall j :: 0 <= j < |p.value.reader.value| ==> p.value.reader.value[j].Decoded?)
  }

  /** What the scan returns for a module read with result `contents`: the
      read error, else the first payload or decoding error, else the
      frequency map of all labels. */
  function OpcodeFeatures(contents: Result<PayloadStream>): Result<map<string, nat>>
  {
    if contents.Err? then Err(contents.msg)
    else if ScanError(contents.value).Some? then Err(ScanError(contents.value).value)
    else Ok(Histogram(Labels(contents.value)))
  }

  // ---------------------------------------------------------------------
  // The scan itself

  /** The outer loop of the source: every payload in order, each folded
      into the one map by `ScanPayload`; the first error of any kind abandons
      the map. */
  method ExtractOpcodeFeatures(contents: Result<PayloadStream>) returns (r: Result<map<string, nat>>)
    ensures r == OpcodeFeatures(contents)
  {
    if contents.Err? {
      return Err(contents.msg);
    }
    var ps := contents.value;
    var counts: map<string, nat> := map[];
    var i := 0;
    while i < |ps|
      invariant 0 <= i <= |ps|
      invariant ScanError(ps[..i]) == None
      invariant counts == Histogram(Labels(ps[..i]))
    {
      PayloadStep(ps, i);
      var next := ScanPayload(counts, Labels(ps[..i]), ps[i]);
      if next.Err? {
        ScanErrorPrefix(ps, i + 1);
        return Err(next.msg);
      }
      counts := next.value;
      i := i + 1;
    }
    assert ps[..i] == ps;
    r := Ok(counts);
  }

  /** One iteration of the outer loop: a payload error stops the scan, a
      code-section entry has its operators tallied, anything else is
      skipped. */
  method ScanPayload(counts: map<string, nat>, ghost seen: seq<string>, p: Result<Payload>)
    returns (r: Result<map<string, nat>>)
    requires counts == Histogram(seen)
    ensures PayloadError(p).Some? ==> r == Err(PayloadError(p).value)
    ensures PayloadError(p).None? ==> r == Ok(Histogram(seen + PayloadLabels(p)))
  {
    if p.Err? {
      return Err(p.msg);
    }
    match p.value {
      case OtherPayload =>
        assert seen + PayloadLabels(p) == seen;
        r := Ok(counts);
      case CodeSectionEntry(reader) =>
        if reader.Err? {
          return Err(reader.msg);
        }
        r := TallyOperators(counts, seen, reader.value);
    }
  }

  /** The inner loop of the source: the operators of one body, decoded in
      order, each bumping its label's count in `counts` (the frequency map of
      the labels `seen` so far); the first decoding error abandons the map. */
  method TallyOperators(counts: map<string, nat>, ghost seen: seq<string>, ops: seq<Operator>)
    returns (r: Result<map<string, nat>>)
    requires counts == Histogram(seen)
    ensures OpError(ops).Some? ==> r == Err(OpError(ops).value)
    ensures OpError(ops).None? ==> r == Ok(Histogram(seen + OpLabels(ops)))
  {
    var acc := counts;
    var j := 0;
    assert ops[..0] == [] && seen + [] == seen;
    while j < |ops|
      invariant 0 <= j <= |ops|
      invariant OpError(ops[..j]) == None
      invariant acc == Histogram(seen + OpLabels(ops[..j]))
    {
      if ops[j].Malformed? {
        OpStep(ops, j);
        OpErrorPrefix(ops, j + 1);
        return Err(ops[j].msg);
      }
      TallyStep(seen, ops, j);
      acc := Tally(acc, ops[j].text);
      j := j + 1;
    }
    assert ops[..j] == ops;
    r := Ok(acc);
  }

  /** One decoded operator is one `Tally` step on the frequency map of the
      labels seen so far. */
  lemma TallyStep(seen: seq<string>, ops: seq<Operator>, j: nat)
    requires j < |ops| && ops[j].Decoded?
    requires OpError(ops[..j]) == None
    ensures OpError(ops[..j + 1]) == None
    ensures Tally(Histogram(seen + OpLabels(ops[..j])), ops[j].text) == Histogram(seen + OpLabels(ops[..j + 1]))
  {
    OpStep(ops, j);
    var before := seen + OpLabels(ops[..j]);
    assert seen + OpLabels(ops[..j + 1]) == before + [ops[j].text];
    HistogramSnoc(before, ops[j].text);
  }

  /** Reading one more payload: its labels are appended, and its error counts
      only if the payloads before it were clean. */
  lemma PayloadStep(ps: PayloadStream, i: nat)
    requires i < |ps|
    ensures Labels(ps[..i + 1]) == Labels(ps[..i]) + PayloadLabels(ps[i])
    ensures ScanError(ps[..i + 1]) == if ScanError(ps[..i]).Some? then ScanError(ps[..i]) else PayloadError(ps[i])
  {
    assert ps[..i + 1][..i] == ps[..i];
  }

  /** Decoding one more operator of a body. */
  lemma OpStep(ops: seq<Operator>, j: nat)
    requires j < |ops|
    ensures OpLabels(ops[..j + 1]) == OpLabels(ops[..j]) + (if ops[j].Decoded? then [ops[j].text] else [])
    ensures OpError(ops[..j + 1]) == if OpError(ops[..j]).Some? then OpError(ops[..j])
                                     else if ops[j].Malformed? then Some(ops[j].msg) else None
  {
    assert ops[..j + 1][..j] == ops[..j];
  }

  // ---------------------------------------------------------------------
  // Lemmas

  /** What the scan promises: it fails exactly on a failed read or a module
      with an error; otherwise its keys are the labels that occur, each
      counted as often as it occurs, and the counts add up to the number of
      operators in all the bodies. */
  lemma OpcodeFeaturesMeaning(contents: Result<PayloadStream>)
    ensures var r := OpcodeFeatures(contents);
            && (r.Err? <==> contents.Err? || ScanError(contents.value).Some?)
            && (r.Ok? ==> forall l :: (l in r.value <==> l in Labels(contents.value)))
            && (r.Ok? ==> forall l :: l in r.value ==> r.value[l] == multiset(Labels(contents.value))[l] >= 1)
            && (r.Ok? ==> Total(r.value) == OperatorCount(contents.value))
  {
    if contents.Ok? && ScanError(contents.value).None? {
      var labels := Labels(contents.value);
      HistogramCounts(labels);
      TotalHistogram(labels);
      DecodedLabelsCount(contents.value);
    }
  }

  /** Once a prefix of a body has failed to decode, the body's error is that
      one: later operators are never looked at. */
  lemma {:induction false} OpErrorPrefix(ops: seq<Operator>, k: nat)
    requires k <= |ops|
    requires OpError(ops[..k]).Some?
    ensures OpError(ops) == OpError(ops[..k])
    decreases |ops| - k
  {
    if k < |ops| {
      var init := ops[..|ops| - 1];
      assert init[..k] == ops[..k];
      OpErrorPrefix(init, k);
    } else {
      assert ops[..k] == ops;
    }
  }

  /** Once a prefix of the module has failed, the scan's error is that one. */
  lemma {:induction false} ScanErrorPrefix(ps: PayloadStream, k: nat)
    requires k <= |ps|
    requires ScanError(ps[..k]).Some?
    ensures ScanError(ps) == ScanError(ps[..k])
    decreases |ps| - k
  {
    if k < |ps| {
      var init := ps[..|ps| - 1];
      assert init[..k] == ps[..k];
      ScanErrorPrefix(init, k);
    } else {
      assert ps[..k] == ps;
    }
  }

  /** A body decodes without error exactly when every operator decodes, and
      then it contributes one label per operator. */
  lemma {:induction false} OpErrorNoneIff(ops: seq<Operator>)
    ensures OpError(ops).None? <==> forall j :: 0 <= j < |ops| ==> ops[j].Decoded?
    ensures OpError(ops).None? ==> |OpLabels(ops)| == |ops|
  {
    if ops != [] {
      var init := ops[..|ops| - 1];
      OpErrorNoneIff(init);
      assert forall j :: 0 <= j < |init| ==> init[j] == ops[j];
    }
  }

  /** The scan of the whole module succeeds exactly when every payload is
      decodable. */
  lemma {:induction false} ScanSucceedsIff(ps: PayloadStream)
    ensures ScanError(ps).None? <==> forall i :: 0 <= i < |ps| ==> Decodable(ps[i])
  {
    if ps != [] {
      var init := ps[..|ps| - 1];
      ScanSucceedsIff(init);
      assert forall i :: 0 <= i < |init| ==> init[i] == ps[i];
      var p := ps[|ps| - 1];
      if p.Ok? && p.value.CodeSectionEntry? && p.value.reader.Ok? {
        OpErrorNoneIff(p.value.reader.value);
      }
    }
  }

  /** When the scan succeeds, the labels it collects are one per operator of
      every code-section entry. */
  lemma {:induction false} DecodedLabelsCount(ps: PayloadStream)
    requires ScanError(ps).None?
    ensures |Labels(ps)| == OperatorCount(ps)
  {
    if ps != [] {
      var init := ps[..|ps| - 1];
      var p := ps[|ps| - 1];
      DecodedLabelsCount(init);
      if p.Ok? && p.value.CodeSectionEntry? && p.value.reader.Ok? {
        OpErrorNoneIff(p.value.reader.value);
      }
    }
  }

  /** The labels of a module are those of its parts, in order. */
  lemma {:induction false} LabelsConcat(a: PayloadStream, b: PayloadStream)
    ensures Labels(a + b) == Labels(a) + Labels(b)
    decreases |b|
  {
    if b == [] {
      assert a + b == a;
    } else {
      var initB, last := b[..|b| - 1], b[|b| - 1];
      assert (a + b)[..|a + b| - 1] == a + initB;
      assert (a + b)[|a + b| - 1] == last;
      calc {
        Labels(a + b);
        Labels(a + initB) + PayloadLabels(last);
        { LabelsConcat(a, initB); }
        Labels(a) + Labels(initB) + PayloadLabels(last);
        Labels(a) + (Labels(initB) + PayloadLabels(last));
      }
    }
  }

  /** The scan of a module fails on the first error of its first part, if
      any, and otherwise on the first error of its second part. */
  lemma {:induction false} ScanErrorConcat(a: PayloadStream, b: PayloadStream)
    ensures ScanError(a + b) == if ScanError(a).Some? then ScanError(a) else ScanError(b)
    decreases |b|
  {
    if b == [] {
      assert a + b == a;
    } else {
      var initB := b[..|b| - 1];
      assert (a + b)[..|a + b| - 1] == a + initB;
      ScanErrorConcat(a, initB);
    }
  }

  /** A payload that is not a code-section entry, wherever it stands, changes
      neither the result nor the error of the scan. */
  lemma NonCodePayloadIgnored(a: PayloadStream, b: PayloadStream)
    ensures Labels(a + [Ok(OtherPayload)] + b) == Labels(a + b)
    ensures ScanError(a + [Ok(OtherPayload)] + b) == ScanError(a + b)
  {
    var o: PayloadStream := [Ok(OtherPayload)];
    var ao := a + o;
    OtherPayloadAlone(o);
    LabelsConcat(a, o);
    assert Labels(ao) == Labels(a);
    LabelsConcat(ao, b);
    LabelsConcat(a, b);
    assert Labels(ao + b) == Labels(a + b);
    ScanErrorConcat(a, o);
    assert ScanError(ao) == ScanError(a);
    ScanErrorConcat(ao, b);
    ScanErrorConcat(a, b);
    assert ScanError(ao + b) == ScanError(a + b);
  }

  lemma OtherPayloadAlone(o: PayloadStream)
    requires o == [Ok(OtherPayload)]
    ensures Labels(o) == [] && ScanError(o) == None
  {
    assert o[..0] == [];
  }

  /** A code-section entry placed after a failing part of the module cannot
      rescue the scan: the error that ends the scan is the earlier one. */
  lemma ErrorAbandonsEverythingAfter(a: PayloadStream, b: PayloadStream)
    requires ScanError(a).Some?
    ensures OpcodeFeatures(Ok(a + b)) == Err(ScanError(a).value)
  {
    ScanErrorConcat(a, b);
  }
}
