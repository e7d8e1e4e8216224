/** The post-recognition half of the pronunciation assessment: the reference
    text is normalised into words, aligned against the recognized words by
    diff opcodes, and reduced to accuracy, fluency and completeness scores.
    The recognizer (its words, fluency scores and word durations) and the diff
    that produces the opcodes are inputs. */
module AzureSpeech {
  import opened Wrappers
  import opened Text
  import opened Numeric

  // ---------------------------------------------------------------------
  // Words and recognition results

  const NoError := "None"
  const InsertionError := "Insertion"
  const OmissionError := "Omission"

  /** One word of a pronunciation-assessment result. */
  datatype Word = Word(text: string, accuracy: real, errorType: string)

  /** The word synthesized for a reference word nobody said: a word record
      whose assessment carries only the error type, so its accuracy is the
      record's default, 0. */
  function OmittedWord(text: string): Word {
    Word(text, 0.0, OmissionError)
  }

  /** The relabelling applied to a recognized word in an insert or replace
      range: an error-free word becomes an insertion, any other keeps its error. */
  function MarkInsertion(w: Word): Word {
    if w.errorType == NoError then w.(errorType := InsertionError) else w
  }

  datatype ResultReason = RecognizedSpeech | NoMatch | Canceled
  datatype SpeechResult = SpeechResult(reason: ResultReason, text: string)

  /** Speech-to-text: the recognized text, or a failure carrying the reason
      whenever the reason is not "recognized speech". */
  function SttFromResult(result: SpeechResult): (r: Result<string, ResultReason>)
    ensures r.Ok? <==> result.reason == RecognizedSpeech
    ensures r.Ok? ==> r.value == result.text
    ensures r.Err? ==> r.error == result.reason
  {
    if result.reason == RecognizedSpeech then Ok(result.text) else Err(result.reason)
  }

  /** One recognition segment: its words, its fluency score and the durations
      of its words. */
  datatype Segment = Segment(words: seq<Word>, fluency: real, wordDurations: seq<nat>)

  function NatSum(xs: seq<nat>): nat
    decreases |xs|
  {
    if xs == [] then 0 else xs[0] + NatSum(xs[1..])
  }

  /** The recognized words of all segments, in arrival order. */
  function RecognizedWords(segments: seq<Segment>): seq<Word>
    decreases |segments|
  {
    if segments == [] then []
    else RecognizedWords(segments[..|segments| - 1]) + segments[|segments| - 1].words
  }

  /** One fluency score per segment. */
  function FluencyScores(segments: seq<Segment>): (r: seq<real>)
    ensures |r| == |segments|
    ensures forall k :: 0 <= k < |segments| ==> r[k] == segments[k].fluency
  {
    seq(|segments|, k requires 0 <= k < |segments| => segments[k].fluency)
  }

  /** One duration per segment: the sum of its word durations. */
  function Durations(segments: seq<Segment>): (r: seq<nat>)
    ensures |r| == |segments|
    ensures forall k :: 0 <= k < |segments| ==> r[k] == NatSum(segments[k].wordDurations)
  {
    seq(|segments|, k requires 0 <= k < |segments| => NatSum(segments[k].wordDurations))
  }

  // ---------------------------------------------------------------------
  // Reference words

  /** The reference text lower-cased, split on whitespace, and each token
      stripped of leading and trailing punctuation (a token made only of
      punctuation becomes the empty word). */
  function ReferenceWords(referenceText: string): (ws: seq<string>)
    ensures |ws| == |SplitWords(Lower(referenceText))|
    ensures forall k :: 0 <= k < |ws| ==> ws[k] == StripPunctuation(SplitWords(Lower(referenceText))[k])
    ensures AllLowerCase(ws) && AllNoSpace(ws) && AllEdgeClean(ws)
  {
    var tokens := SplitWords(Lower(referenceText));
    SplitWordsKeepCase(Lower(referenceText));
    assert AllNoSpace(tokens);
    StripEach(tokens)
  }

  /** Each token with its edge punctuation stripped. */
  function StripEach(tokens: seq<string>): (ws: seq<string>)
    requires AllLowerCase(tokens) && AllNoSpace(tokens)
    ensures |ws| == |tokens| && AllLowerCase(ws) && AllNoSpace(ws) && AllEdgeClean(ws)
    ensures forall k :: 0 <= k < |ws| ==> ws[k] == StripPunctuation(tokens[k])
  {
    var ws := seq(|tokens|, k requires 0 <= k < |tokens| => StripPunctuation(tokens[k]));
    forall k | 0 <= k < |ws| ensures IsLowerCase(ws[k]) && NoSpace(ws[k]) && EdgeClean(ws[k]) {
      StripKeeps(tokens[k]);
    }
    ws
  }

  predicate AllNoSpace(ws: seq<string>) {
    forall k :: 0 <= k < |ws| ==> NoSpace(ws[k])
  }

  /** Neither end of the word is punctuation (vacuous for the empty word). */
  predicate EdgeClean(w: string) {
    w != [] ==> !IsPunctuation(w[0]) && !IsPunctuation(w[|w| - 1])
  }

  predicate AllEdgeClean(ws: seq<string>) {
    forall k :: 0 <= k < |ws| ==> EdgeClean(ws[k])
  }

  predicate AllLowerCase(ws: seq<string>) {
    forall k :: 0 <= k < |ws| ==> IsLowerCase(ws[k])
  }

  /** Stripping punctuation leaves a substring, so it keeps case and spacing. */
  lemma StripKeeps(w: string)
    ensures IsLowerCase(w) ==> IsLowerCase(StripPunctuation(w))
    ensures NoSpace(w) ==> NoSpace(StripPunctuation(w))
    ensures EdgeClean(StripPunctuation(w))
  {
    var a := StripStart(w);
    var u := StripPunctuation(w);
    if IsLowerCase(w) {
      LowerCaseSlice(w, a, a + |u|);
    }
    if NoSpace(w) {
      NoSpaceSlice(w, a, a + |u|);
    }
    StripEdgeClean(w);
  }

  /** Where the stripped word starts within the word. */
  function StripStart(w: string): (a: nat)
    ensures a + |StripPunctuation(w)| <= |w|
    ensures StripPunctuation(w) == w[a..a + |StripPunctuation(w)|]
  {
    var t := TrimStart(w, IsPunctuation);
    var u := TrimEnd(t, IsPunctuation);
    assert t == w[|w| - |t|..] && u == t[..|u|];
    |w| - |t|
  }

  lemma StripEdgeClean(w: string)
    ensures EdgeClean(StripPunctuation(w))
  {
    var t := TrimStart(w, IsPunctuation);
    var u := TrimEnd(t, IsPunctuation);
    if u != [] {
      assert u[0] == t[0];
    }
  }

  lemma NoSpaceSlice(s: string, a: nat, b: nat)
    requires NoSpace(s) && a <= b <= |s|
    ensures NoSpace(s[a..b])
  {
    assert forall i :: 0 <= i < b - a ==> s[a..b][i] == s[a + i];
  }

  lemma {:induction false} SplitWordsKeepCase(s: string)
    requires IsLowerCase(s)
    ensures AllLowerCase(SplitWords(s))
    decreases |s|
  {
    var t := TrimStart(s, IsSpace);
    if t != [] {
      var w := TakeWord(t);
      SplitWordsUnfold(s);
      assert IsLowerCase(t) by {
        LowerCaseSlice(s, |s| - |t|, |s|);
      }
      assert IsLowerCase(w) by {
        LowerCaseSlice(t, 0, |w|);
      }
      assert IsLowerCase(t[|w|..]) by {
        LowerCaseSlice(t, |w|, |t|);
      }
      SplitWordsKeepCase(t[|w|..]);
      ConsLowerCase(w, SplitWords(t[|w|..]));
    }
  }

  lemma ConsLowerCase(w: string, ws: seq<string>)
    requires IsLowerCase(w) && AllLowerCase(ws)
    ensures AllLowerCase([w] + ws)
  {
  }

  lemma LowerCaseSlice(s: string, a: nat, b: nat)
    requires IsLowerCase(s) && a <= b <= |s|
    ensures IsLowerCase(s[a..b])
    ensures b == |s| ==> IsLowerCase(s[a..])
    ensures a == 0 ==> IsLowerCase(s[..b])
  {
    assert forall i :: 0 <= i < b - a ==> s[a..b][i] == s[a + i];
    assert s[a..] == s[a..|s|];
    assert s[..b] == s[0..b];
  }

  predicate NormalWord(w: string) {
    w != [] && IsLowerCase(w) && NoSpace(w) && !IsPunctuation(w[0]) && !IsPunctuation(w[|w| - 1])
  }

  /** Round trip: a text that is already lower-case, single-spaced words
      without edge punctuation normalises back to exactly those words. */
  lemma ReferenceWordsOfNormalText(ws: seq<string>)
    requires forall k :: 0 <= k < |ws| ==> NormalWord(ws[k])
    ensures ReferenceWords(JoinWith(ws, " ")) == ws
  {
    var text := JoinWith(ws, " ");
    JoinLowerCase(ws);
    LowerOfLowerCase(text);
    SplitWordsJoin(ws);
    var r := ReferenceWords(text);
    forall k | 0 <= k < |ws| ensures r[k] == ws[k] {
      assert StripPunctuation(ws[k]) == ws[k];
    }
  }

  lemma {:induction false} JoinLowerCase(ws: seq<string>)
    requires forall k :: 0 <= k < |ws| ==> IsLowerCase(ws[k])
    ensures IsLowerCase(JoinWith(ws, " "))
    decreases |ws|
  {
    if |ws| > 1 {
      JoinLowerCase(ws[1..]);
      var rest := JoinWith(ws[1..], " ");
      var s := ws[0] + " " + rest;
      forall i | 0 <= i < |s| ensures !('A' <= s[i] <= 'Z') {
        if i < |ws[0]| { assert s[i] == ws[0][i]; }
        else if i > |ws[0]| { assert s[i] == rest[i - |ws[0]| - 1]; }
      }
    }
  }

  lemma LowerOfLowerCase(s: string)
    requires IsLowerCase(s)
    ensures Lower(s) == s
  {
  }

  // ---------------------------------------------------------------------
  // Opcodes

  datatype Tag = Equal | Insert | Delete | Replace

  /** A diff opcode: reference range [i1, i2) against recognized range [j1, j2). */
  datatype Opcode = Opcode(tag: Tag, i1: nat, i2: nat, j1: nat, j2: nat)

  /** The shape every diff opcode has: an insert covers no reference word, a
      delete no recognized word, an equal range equally many of both. */
  predicate Shaped(o: Opcode) {
    o.i1 <= o.i2 && o.j1 <= o.j2 &&
    (o.tag == Equal ==> o.i2 - o.i1 == o.j2 - o.j1) &&
    (o.tag == Insert ==> o.i1 == o.i2) &&
    (o.tag == Delete ==> o.j1 == o.j2)
  }

  /** The opcodes are contiguous, start at (0, 0) and end at (n, m). */
  predicate Covers(ops: seq<Opcode>, n: nat, m: nat)
    decreases |ops|
  {
    if ops == [] then n == 0 && m == 0
    else
      var o := ops[|ops| - 1];
      Shaped(o) && o.i2 == n && o.j2 == m && Covers(ops[..|ops| - 1], o.i1, o.j1)
  }

  /** Equal ranges hold equal elements. */
  predicate EqualRangesMatch(ops: seq<Opcode>, a: seq<string>, b: seq<string>) {
    forall k :: 0 <= k < |ops| && ops[k].tag == Equal ==>
      ops[k].i1 <= ops[k].i2 <= |a| && ops[k].j1 <= ops[k].j2 <= |b| &&
      a[ops[k].i1..ops[k].i2] == b[ops[k].j1..ops[k].j2]
  }

  /** What a diff of `a` against `b` guarantees of its opcodes. */
  predicate WellFormed(ops: seq<Opcode>, a: seq<string>, b: seq<string>) {
    Covers(ops, |a|, |b|) && EqualRangesMatch(ops, a, b)
  }

  type Differ = (seq<string>, seq<string>) -> seq<Opcode>

  /** A diff routine that always returns well-formed opcodes. */
  ghost predicate IsDiff(diff: Differ) {
    forall a, b :: DiffOk(diff, a, b)
  }

  /** The diff of `a` against `b` is well formed. */
  predicate DiffOk(diff: Differ, a: seq<string>, b: seq<string>) {
    WellFormed(diff(a, b), a, b)
  }

  predicate InBounds(ops: seq<Opcode>, n: nat, m: nat) {
    forall k :: 0 <= k < |ops| ==> ops[k].i1 <= ops[k].i2 <= n && ops[k].j1 <= ops[k].j2 <= m
  }

  lemma {:induction false} CoversInBounds(ops: seq<Opcode>, n: nat, m: nat)
    requires Covers(ops, n, m)
    ensures InBounds(ops, n, m)
    decreases |ops|
  {
    if ops != [] {
      var o := ops[|ops| - 1];
      CoversInBounds(ops[..|ops| - 1], o.i1, o.j1);
    }
  }

  function EndI(ops: seq<Opcode>): nat {
    if ops == [] then 0 else ops[|ops| - 1].i2
  }

  function EndJ(ops: seq<Opcode>): nat {
    if ops == [] then 0 else ops[|ops| - 1].j2
  }

  /** Every prefix of contiguous opcodes is contiguous up to where it ends. */
  lemma {:induction false} CoversPrefix(ops: seq<Opcode>, n: nat, m: nat, k: nat)
    requires Covers(ops, n, m) && k <= |ops|
    ensures Covers(ops[..k], EndI(ops[..k]), EndJ(ops[..k]))
    decreases |ops|
  {
    if k < |ops| {
      var o := ops[|ops| - 1];
      assert ops[..|ops| - 1][..k] == ops[..k];
      CoversPrefix(ops[..|ops| - 1], o.i1, o.j1, k);
    } else {
      assert ops[..k] == ops;
    }
  }

  // ---------------------------------------------------------------------
  // The merge into the final word list

  function MarkAll(ws: seq<Word>): (r: seq<Word>)
    ensures |r| == |ws|
    ensures forall k :: 0 <= k < |ws| ==> r[k] == MarkInsertion(ws[k])
  {
    seq(|ws|, k requires 0 <= k < |ws| => MarkInsertion(ws[k]))
  }

  function Omissions(texts: seq<string>): (r: seq<Word>)
    ensures |r| == |texts|
    ensures forall k :: 0 <= k < |texts| ==> r[k] == OmittedWord(texts[k])
  {
    seq(|texts|, k requires 0 <= k < |texts| => OmittedWord(texts[k]))
  }

  /** What an opcode contributes from the recognized side: equal ranges pass
      through, insert and replace ranges are relabelled, deletes give nothing. */
  function RecPart(o: Opcode, rec: seq<Word>): (r: seq<Word>)
    requires o.j1 <= o.j2 <= |rec|
    ensures Shaped(o) ==> |r| == o.j2 - o.j1
  {
    match o.tag
    case Equal => rec[o.j1..o.j2]
    case Insert => MarkAll(rec[o.j1..o.j2])
    case Replace => MarkAll(rec[o.j1..o.j2])
    case Delete => []
  }

  /** What an opcode contributes from the reference side: one omission per
      reference word of a delete or replace range. */
  function RefPart(o: Opcode, ref: seq<string>): seq<Word>
    requires o.i1 <= o.i2 <= |ref|
  {
    if o.tag == Delete || o.tag == Replace then Omissions(ref[o.i1..o.i2]) else []
  }

  /** The final word list: per opcode, its recognized-side words, then its omissions. */
  function Merge(ops: seq<Opcode>, ref: seq<string>, rec: seq<Word>): seq<Word>
    requires InBounds(ops, |ref|, |rec|)
    decreases |ops|
  {
    if ops == [] then []
    else
      var o := ops[|ops| - 1];
      Merge(ops[..|ops| - 1], ref, rec) + RecPart(o, rec) + RefPart(o, ref)
  }

  /** The recognized word list after the loop has relabelled its words in
      place: the recognized-side contributions of all opcodes, in order. */
  function Relabelled(ops: seq<Opcode>, ref: seq<string>, rec: seq<Word>): seq<Word>
    requires InBounds(ops, |ref|, |rec|)
    decreases |ops|
  {
    if ops == [] then []
    else
      var o := ops[|ops| - 1];
      Relabelled(ops[..|ops| - 1], ref, rec) + RecPart(o, rec)
  }

  lemma {:induction false} RelabelledLength(ops: seq<Opcode>, ref: seq<string>, rec: seq<Word>, n: nat, m: nat)
    requires Covers(ops, n, m) && n <= |ref| && m <= |rec|
    ensures InBounds(ops, |ref|, |rec|)
    ensures |Relabelled(ops, ref, rec)| == m
    decreases |ops|
  {
    CoversInBounds(ops, n, m);
    if ops != [] {
      var o := ops[|ops| - 1];
      RelabelledLength(ops[..|ops| - 1], ref, rec, o.i1, o.j1);
    }
  }

  /** The alignment loop. `words` is the recognized list, whose elements the
      loop relabels in place; the equal ranges are copied from it, so the
      final list and the recognized list share the relabelled words. */
  method AlignWords(ops: seq<Opcode>, ref: seq<string>, rec: seq<Word>) returns (finalWords: seq<Word>, words: seq<Word>)
    requires Covers(ops, |ref|, |rec|)
    ensures InBounds(ops, |ref|, |rec|)
    ensures finalWords == Merge(ops, ref, rec)
    ensures words == Relabelled(ops, ref, rec)
  {
    CoversInBounds(ops, |ref|, |rec|);
    if |ops| > 0 {
      CoversPrefix(ops, |ref|, |rec|, 1);
      assert ops[..1][..0] == [];
    }
    finalWords, words := [], rec;
    var k := 0;
    while k < |ops|
      invariant 0 <= k <= |ops|
      invariant Aligned(ops, ref, rec, k, finalWords, words)
    {
      AlignStepFacts(ops, |ref|, |rec|, k);
      var o := ops[k];
      ghost var done := Relabelled(ops[..k], ref, rec);
      var finalOut, wordsOut := AlignOpcode(o, ref, rec, done, finalWords, words);
      AlignedStep(ops, ref, rec, k, finalWords, finalOut, wordsOut);
      finalWords, words := finalOut, wordsOut;
      k := k + 1;
    }
    assert ops[..k] == ops;
    CoversEnd(ops, |ref|, |rec|);
    assert words == Relabelled(ops, ref, rec) + rec[|rec|..];
    assert rec[|rec|..] == [];
  }

  /** Contiguous opcodes end where they are said to. */
  lemma CoversEnd(ops: seq<Opcode>, n: nat, m: nat)
    requires Covers(ops, n, m)
    ensures EndI(ops) == n && EndJ(ops) == m
  {
  }

  /** The alignment loop's invariant after `k` opcodes: the final list is
      their merge, and the recognized list holds their relabelled words
      followed by the words not yet reached. */
  predicate Aligned(ops: seq<Opcode>, ref: seq<string>, rec: seq<Word>, k: nat, finalWords: seq<Word>, words: seq<Word>)
    requires InBounds(ops, |ref|, |rec|) && k <= |ops|
  {
    InBounds(ops[..k], |ref|, |rec|) &&
    finalWords == Merge(ops[..k], ref, rec) &&
    |Relabelled(ops[..k], ref, rec)| == EndJ(ops[..k]) &&
    words == Relabelled(ops[..k], ref, rec) + rec[EndJ(ops[..k])..]
  }

  /** One opcode processed keeps the loop's invariant. */
  lemma AlignedStep(ops: seq<Opcode>, ref: seq<string>, rec: seq<Word>, k: nat, finalWords: seq<Word>, finalOut: seq<Word>, wordsOut: seq<Word>)
    requires Covers(ops, |ref|, |rec|) && InBounds(ops, |ref|, |rec|) && k < |ops|
    requires Aligned(ops, ref, rec, k, finalWords, Relabelled(ops[..k], ref, rec) + rec[EndJ(ops[..k])..])
    requires finalOut == finalWords + RecPart(ops[k], rec) + RefPart(ops[k], ref)
    requires wordsOut == Relabelled(ops[..k], ref, rec) + RecPart(ops[k], rec) + rec[ops[k].j2..]
    ensures Aligned(ops, ref, rec, k + 1, finalOut, wordsOut)
  {
    AlignStepFacts(ops, |ref|, |rec|, k);
    AlignPrefixStep(ops, ref, rec, k);
  }

  /** One pass of the loop body, for opcode `o` starting where the recognized
      words processed so far (`done`) end. */
  method AlignOpcode(o: Opcode, ref: seq<string>, rec: seq<Word>, ghost done: seq<Word>, finalWords: seq<Word>, words: seq<Word>)
    returns (finalOut: seq<Word>, wordsOut: seq<Word>)
    requires Shaped(o) && o.i2 <= |ref| && o.j2 <= |rec|
    requires |done| == o.j1 && words == done + rec[o.j1..]
    ensures finalOut == finalWords + RecPart(o, rec) + RefPart(o, ref)
    ensures wordsOut == done + RecPart(o, rec) + rec[o.j2..]
  {
    finalOut, wordsOut := finalWords, words;
    if o.tag == Insert || o.tag == Replace {
      finalOut, wordsOut := RelabelRange(rec, o.j1, o.j2, done, finalOut, wordsOut);
    }
    if o.tag == Delete || o.tag == Replace {
      finalOut := AppendOmissions(ref, o.i1, o.i2, finalOut);
    }
    if o.tag == Equal {
      assert wordsOut[o.j1..o.j2] == rec[o.j1..o.j2];
      finalOut := finalOut + wordsOut[o.j1..o.j2];
    }
    if o.tag == Delete {
      assert rec[o.j1..] == rec[o.j2..];
    }
  }

  /** The insert/replace loop: each recognized word of the range is
      relabelled in place and appended. */
  method RelabelRange(rec: seq<Word>, j1: nat, j2: nat, ghost done: seq<Word>, finalWords: seq<Word>, words: seq<Word>)
    returns (finalOut: seq<Word>, wordsOut: seq<Word>)
    requires j1 <= j2 <= |rec| && |done| == j1 && words == done + rec[j1..]
    ensures finalOut == finalWords + MarkAll(rec[j1..j2])
    ensures wordsOut == done + MarkAll(rec[j1..j2]) + rec[j2..]
  {
    finalOut, wordsOut := finalWords, words;
    var j := j1;
    while j < j2
      invariant j1 <= j <= j2
      invariant wordsOut == done + MarkAll(rec[j1..j]) + rec[j..]
      invariant finalOut == finalWords + MarkAll(rec[j1..j])
    {
      assert wordsOut[j] == rec[j];
      if wordsOut[j].errorType == NoError {
        wordsOut := wordsOut[j := wordsOut[j].(errorType := InsertionError)];
      }
      finalOut := finalOut + [wordsOut[j]];
      assert MarkAll(rec[j1..j + 1]) == MarkAll(rec[j1..j]) + [MarkInsertion(rec[j])];
      assert wordsOut == done + MarkAll(rec[j1..j + 1]) + rec[j + 1..];
      j := j + 1;
    }
  }

  /** The delete/replace loop: one omission per reference word of the range. */
  method AppendOmissions(ref: seq<string>, i1: nat, i2: nat, finalWords: seq<Word>) returns (finalOut: seq<Word>)
    requires i1 <= i2 <= |ref|
    ensures finalOut == finalWords + Omissions(ref[i1..i2])
  {
    finalOut := finalWords;
    var i := i1;
    while i < i2
      invariant i1 <= i <= i2
      invariant finalOut == finalWords + Omissions(ref[i1..i])
    {
      finalOut := finalOut + [OmittedWord(ref[i])];
      assert Omissions(ref[i1..i + 1]) == Omissions(ref[i1..i]) + [OmittedWord(ref[i])];
      i := i + 1;
    }
  }

  lemma AlignPrefixStep(ops: seq<Opcode>, ref: seq<string>, rec: seq<Word>, k: nat)
    requires InBounds(ops, |ref|, |rec|) && k < |ops|
    ensures InBounds(ops[..k], |ref|, |rec|) && InBounds(ops[..k + 1], |ref|, |rec|)
    ensures Merge(ops[..k + 1], ref, rec) == Merge(ops[..k], ref, rec) + RecPart(ops[k], rec) + RefPart(ops[k], ref)
    ensures Relabelled(ops[..k + 1], ref, rec) == Relabelled(ops[..k], ref, rec) + RecPart(ops[k], rec)
    ensures EndJ(ops[..k + 1]) == ops[k].j2
  {
    assert ops[..k + 1][..k] == ops[..k];
  }

  /** Facts the alignment loop needs about opcode `k`: where it starts, that
      it stays in bounds, and that the next prefix is still contiguous. */
  lemma AlignStepFacts(ops: seq<Opcode>, n: nat, m: nat, k: nat)
    requires Covers(ops, n, m) && k < |ops|
    ensures Shaped(ops[k])
    ensures ops[k].i1 == EndI(ops[..k]) && ops[k].j1 == EndJ(ops[..k])
    ensures ops[k].i2 <= n && ops[k].j2 <= m
    ensures Covers(ops[..k + 1], EndI(ops[..k + 1]), EndJ(ops[..k + 1]))
    ensures k + 1 < |ops| ==> ops[k + 1].i1 == EndI(ops[..k + 1]) && ops[k + 1].j1 == EndJ(ops[..k + 1])
  {
    CoversInBounds(ops, n, m);
    CoversPrefix(ops, n, m, k + 1);
    assert ops[..k + 1][..k] == ops[..k];
    if k + 1 < |ops| {
      CoversPrefix(ops, n, m, k + 2);
      assert ops[..k + 2][..k + 1] == ops[..k + 1];
    }
  }

  // ---------------------------------------------------------------------
  // Where every final word comes from

  /** The provenance of one final word: a recognized word of an equal range
      together with the reference word it matched, a recognized word of an
      insert or replace range, or the omission synthesized for a reference word. */
  datatype Origin = Matched(i: nat, j: nat) | Inserted(j: nat) | Omitted(i: nat)

  function Range(a: nat, b: nat): (r: seq<nat>)
    requires a <= b
    ensures |r| == b - a
    ensures forall k :: 0 <= k < |r| ==> r[k] == a + k
  {
    seq(b - a, k requires 0 <= k < b - a => a + k)
  }

  lemma RangeAppend(a: nat, b: nat, c: nat)
    requires a <= b <= c
    ensures Range(a, b) + Range(b, c) == Range(a, c)
  {
  }

  predicate Ranged(ops: seq<Opcode>) {
    forall k :: 0 <= k < |ops| ==> ops[k].i1 <= ops[k].i2 && ops[k].j1 <= ops[k].j2
  }

  function InsertedRun(j1: nat, j2: nat): (r: seq<Origin>)
    requires j1 <= j2
    ensures |r| == j2 - j1
    ensures forall k :: 0 <= k < |r| ==> r[k] == Inserted(j1 + k)
  {
    seq(j2 - j1, k requires 0 <= k < j2 - j1 => Inserted(j1 + k))
  }

  function OmittedRun(i1: nat, i2: nat): (r: seq<Origin>)
    requires i1 <= i2
    ensures |r| == i2 - i1
    ensures forall k :: 0 <= k < |r| ==> r[k] == Omitted(i1 + k)
  {
    seq(i2 - i1, k requires 0 <= k < i2 - i1 => Omitted(i1 + k))
  }

  function MatchedRun(i1: nat, j1: nat, len: nat): (r: seq<Origin>)
    ensures |r| == len
    ensures forall k :: 0 <= k < |r| ==> r[k] == Matched(i1 + k, j1 + k)
  {
    seq(len, k requires 0 <= k < len => Matched(i1 + k, j1 + k))
  }

  /** The provenance of what one opcode appends, in the order it appends it. */
  function OpOrigins(o: Opcode): seq<Origin>
    requires o.i1 <= o.i2 && o.j1 <= o.j2
  {
    match o.tag
    case Equal => MatchedRun(o.i1, o.j1, o.j2 - o.j1)
    case Insert => InsertedRun(o.j1, o.j2)
    case Delete => OmittedRun(o.i1, o.i2)
    case Replace => InsertedRun(o.j1, o.j2) + OmittedRun(o.i1, o.i2)
  }

  /** The provenance of every entry of the final word list. */
  function Origins(ops: seq<Opcode>): seq<Origin>
    requires Ranged(ops)
    decreases |ops|
  {
    if ops == [] then [] else Origins(ops[..|ops| - 1]) + OpOrigins(ops[|ops| - 1])
  }

  /** The recognized-side (`recSide`) or reference-side index an origin accounts for. */
  function Side(org: Origin, recSide: bool): seq<nat> {
    match org
    case Matched(i, j) => if recSide then [j] else [i]
    case Inserted(j) => if recSide then [j] else []
    case Omitted(i) => if recSide then [] else [i]
  }

  /** The indices of one side that a list of origins accounts for, in order. */
  function Indices(orgs: seq<Origin>, recSide: bool): seq<nat>
    decreases |orgs|
  {
    if orgs == [] then [] else Indices(orgs[..|orgs| - 1], recSide) + Side(orgs[|orgs| - 1], recSide)
  }

  lemma {:induction false} IndicesAppend(a: seq<Origin>, b: seq<Origin>, recSide: bool)
    ensures Indices(a + b, recSide) == Indices(a, recSide) + Indices(b, recSide)
    decreases |b|
  {
    if b != [] {
      var b' := b[..|b| - 1];
      assert a + b == (a + b') + [b[|b| - 1]];
      assert (a + b)[..|a + b| - 1] == a + b';
      IndicesAppend(a, b', recSide);
    } else {
      assert a + b == a;
    }
  }

  lemma {:induction false} IndicesRun(orgs: seq<Origin>, recSide: bool, a: nat)
    requires forall k :: 0 <= k < |orgs| ==> Side(orgs[k], recSide) == [a + k]
    ensures Indices(orgs, recSide) == Range(a, a + |orgs|)
    decreases |orgs|
  {
    if orgs != [] {
      var n := |orgs| - 1;
      IndicesRun(orgs[..n], recSide, a);
      RangeAppend(a, a + n, a + n + 1);
    }
  }

  lemma {:induction false} IndicesNone(orgs: seq<Origin>, recSide: bool)
    requires forall k :: 0 <= k < |orgs| ==> Side(orgs[k], recSide) == []
    ensures Indices(orgs, recSide) == []
    decreases |orgs|
  {
    if orgs != [] {
      IndicesNone(orgs[..|orgs| - 1], recSide);
    }
  }

  lemma InsertedIndices(j1: nat, j2: nat)
    requires j1 <= j2
    ensures Indices(InsertedRun(j1, j2), true) == Range(j1, j2)
    ensures Indices(InsertedRun(j1, j2), false) == []
  {
    var r := InsertedRun(j1, j2);
    forall k | 0 <= k < |r| ensures Side(r[k], true) == [j1 + k] && Side(r[k], false) == [] {
      assert r[k] == Inserted(j1 + k);
    }
    IndicesRun(r, true, j1);
    IndicesNone(r, false);
  }

  lemma OmittedIndices(i1: nat, i2: nat)
    requires i1 <= i2
    ensures Indices(OmittedRun(i1, i2), true) == []
    ensures Indices(OmittedRun(i1, i2), false) == Range(i1, i2)
  {
    var r := OmittedRun(i1, i2);
    forall k | 0 <= k < |r| ensures Side(r[k], true) == [] && Side(r[k], false) == [i1 + k] {
      assert r[k] == Omitted(i1 + k);
    }
    IndicesNone(r, true);
    IndicesRun(r, false, i1);
  }

  lemma MatchedIndices(i1: nat, j1: nat, len: nat)
    ensures Indices(MatchedRun(i1, j1, len), true) == Range(j1, j1 + len)
    ensures Indices(MatchedRun(i1, j1, len), false) == Range(i1, i1 + len)
  {
    var r := MatchedRun(i1, j1, len);
    forall k | 0 <= k < |r| ensures Side(r[k], true) == [j1 + k] && Side(r[k], false) == [i1 + k] {
      assert r[k] == Matched(i1 + k, j1 + k);
    }
    IndicesRun(r, true, j1);
    IndicesRun(r, false, i1);
  }

  /** One opcode accounts for its two ranges. */
  lemma OpIndices(o: Opcode)
    requires Shaped(o)
    ensures Indices(OpOrigins(o), true) == Range(o.j1, o.j2)
    ensures Indices(OpOrigins(o), false) == Range(o.i1, o.i2)
  {
    match o.tag
    case Equal =>
      MatchedIndices(o.i1, o.j1, o.j2 - o.j1);
    case Insert =>
      InsertedIndices(o.j1, o.j2);
      assert Range(o.i1, o.i2) == [];
    case Delete =>
      OmittedIndices(o.i1, o.i2);
      assert Range(o.j1, o.j2) == [];
    case Replace =>
      InsertedIndices(o.j1, o.j2);
      OmittedIndices(o.i1, o.i2);
      IndicesAppend(InsertedRun(o.j1, o.j2), OmittedRun(o.i1, o.i2), true);
      IndicesAppend(InsertedRun(o.j1, o.j2), OmittedRun(o.i1, o.i2), false);
      assert Indices(OpOrigins(o), true) == Range(o.j1, o.j2) + [];
      assert Indices(OpOrigins(o), false) == [] + Range(o.i1, o.i2);
  }

  /** Under contiguous opcodes the final list accounts for every recognized
      word exactly once and in order, and for every reference word exactly
      once (matched in an equal range or synthesized as an omission). */
  lemma {:induction false} OriginsCover(ops: seq<Opcode>, n: nat, m: nat)
    requires Covers(ops, n, m)
    ensures Ranged(ops)
    ensures Indices(Origins(ops), true) == Range(0, m)
    ensures Indices(Origins(ops), false) == Range(0, n)
    decreases |ops|
  {
    CoversInBounds(ops, n, m);
    if ops != [] {
      var o := ops[|ops| - 1];
      OriginsCover(ops[..|ops| - 1], o.i1, o.j1);
      OpIndices(o);
      IndicesAppend(Origins(ops[..|ops| - 1]), OpOrigins(o), true);
      IndicesAppend(Origins(ops[..|ops| - 1]), OpOrigins(o), false);
      RangeAppend(0, o.j1, o.j2);
      RangeAppend(0, o.i1, o.i2);
    }
  }

  predicate OriginIn(org: Origin, n: nat, m: nat) {
    match org
    case Matched(i, j) => i < n && j < m
    case Inserted(j) => j < m
    case Omitted(i) => i < n
  }

  predicate AllOriginsIn(orgs: seq<Origin>, n: nat, m: nat) {
    forall k :: 0 <= k < |orgs| ==> OriginIn(orgs[k], n, m)
  }

  /** The word a provenance stands for. */
  function WordFor(org: Origin, ref: seq<string>, rec: seq<Word>): Word
    requires OriginIn(org, |ref|, |rec|)
  {
    match org
    case Matched(_, j) => rec[j]
    case Inserted(j) => MarkInsertion(rec[j])
    case Omitted(i) => OmittedWord(ref[i])
  }

  function WordsFor(orgs: seq<Origin>, ref: seq<string>, rec: seq<Word>): (r: seq<Word>)
    requires AllOriginsIn(orgs, |ref|, |rec|)
    ensures |r| == |orgs|
    ensures forall k :: 0 <= k < |orgs| ==> r[k] == WordFor(orgs[k], ref, rec)
    decreases |orgs|
  {
    if orgs == [] then []
    else WordsFor(orgs[..|orgs| - 1], ref, rec) + [WordFor(orgs[|orgs| - 1], ref, rec)]
  }

  /** The origins of the recognized side: matched and inserted words, in order. */
  function RecOrigins(orgs: seq<Origin>): (r: seq<Origin>)
    decreases |orgs|
  {
    if orgs == [] then []
    else
      var last := orgs[|orgs| - 1];
      RecOrigins(orgs[..|orgs| - 1]) + (if last.Omitted? then [] else [last])
  }

  lemma {:induction false} RecOriginsAppend(a: seq<Origin>, b: seq<Origin>)
    ensures RecOrigins(a + b) == RecOrigins(a) + RecOrigins(b)
    decreases |b|
  {
    if b != [] {
      var b' := b[..|b| - 1];
      assert (a + b)[..|a + b| - 1] == a + b';
      RecOriginsAppend(a, b');
    } else {
      assert a + b == a;
    }
  }

  lemma {:induction false} RecOriginsKeep(orgs: seq<Origin>)
    requires forall k :: 0 <= k < |orgs| ==> !orgs[k].Omitted?
    ensures RecOrigins(orgs) == orgs
    decreases |orgs|
  {
    if orgs != [] {
      RecOriginsKeep(orgs[..|orgs| - 1]);
    }
  }

  lemma {:induction false} RecOriginsDrop(orgs: seq<Origin>)
    requires forall k :: 0 <= k < |orgs| ==> orgs[k].Omitted?
    ensures RecOrigins(orgs) == []
    decreases |orgs|
  {
    if orgs != [] {
      RecOriginsDrop(orgs[..|orgs| - 1]);
    }
  }

  lemma WordsForAppend(a: seq<Origin>, b: seq<Origin>, ref: seq<string>, rec: seq<Word>)
    requires AllOriginsIn(a, |ref|, |rec|) && AllOriginsIn(b, |ref|, |rec|)
    ensures AllOriginsIn(a + b, |ref|, |rec|)
    ensures WordsFor(a + b, ref, rec) == WordsFor(a, ref, rec) + WordsFor(b, ref, rec)
  {
    assert AllOriginsIn(a + b, |ref|, |rec|) by {
      forall k | 0 <= k < |a + b| ensures OriginIn((a + b)[k], |ref|, |rec|) {
        if k >= |a| { assert (a + b)[k] == b[k - |a|]; }
      }
    }
  }

  /** Words that agree with the provenance entry by entry are its words. */
  lemma WordsForEach(orgs: seq<Origin>, ref: seq<string>, rec: seq<Word>, expected: seq<Word>)
    requires AllOriginsIn(orgs, |ref|, |rec|) && |expected| == |orgs|
    requires forall k :: 0 <= k < |orgs| ==> WordFor(orgs[k], ref, rec) == expected[k]
    ensures WordsFor(orgs, ref, rec) == expected
  {
  }

  lemma InsertedIn(j1: nat, j2: nat, n: nat, m: nat)
    requires j1 <= j2 <= m
    ensures AllOriginsIn(InsertedRun(j1, j2), n, m)
  {
    var r := InsertedRun(j1, j2);
    forall k | 0 <= k < |r| ensures OriginIn(r[k], n, m) {
      assert r[k] == Inserted(j1 + k);
    }
  }

  lemma OmittedIn(i1: nat, i2: nat, n: nat, m: nat)
    requires i1 <= i2 <= n
    ensures AllOriginsIn(OmittedRun(i1, i2), n, m)
  {
    var r := OmittedRun(i1, i2);
    forall k | 0 <= k < |r| ensures OriginIn(r[k], n, m) {
      assert r[k] == Omitted(i1 + k);
    }
  }

  lemma MatchedIn(i1: nat, j1: nat, len: nat, n: nat, m: nat)
    requires i1 + len <= n && j1 + len <= m
    ensures AllOriginsIn(MatchedRun(i1, j1, len), n, m)
  {
    var r := MatchedRun(i1, j1, len);
    forall k | 0 <= k < |r| ensures OriginIn(r[k], n, m) {
      assert r[k] == Matched(i1 + k, j1 + k);
    }
  }

  lemma InsertedWordAt(j1: nat, j2: nat, k: nat, ref: seq<string>, rec: seq<Word>)
    requires j1 <= j2 <= |rec| && k < j2 - j1
    ensures OriginIn(InsertedRun(j1, j2)[k], |ref|, |rec|)
    ensures WordFor(InsertedRun(j1, j2)[k], ref, rec) == MarkAll(rec[j1..j2])[k]
  {
    assert InsertedRun(j1, j2)[k] == Inserted(j1 + k);
    assert rec[j1..j2][k] == rec[j1 + k];
  }

  lemma InsertedWords(j1: nat, j2: nat, ref: seq<string>, rec: seq<Word>)
    requires j1 <= j2 <= |rec|
    ensures AllOriginsIn(InsertedRun(j1, j2), |ref|, |rec|)
    ensures WordsFor(InsertedRun(j1, j2), ref, rec) == MarkAll(rec[j1..j2])
    ensures RecOrigins(InsertedRun(j1, j2)) == InsertedRun(j1, j2)
  {
    var r := InsertedRun(j1, j2);
    InsertedIn(j1, j2, |ref|, |rec|);
    var expected := MarkAll(rec[j1..j2]);
    forall k | 0 <= k < |r| ensures WordFor(r[k], ref, rec) == expected[k] {
      InsertedWordAt(j1, j2, k, ref, rec);
    }
    WordsForEach(r, ref, rec, expected);
    RecOriginsKeep(r);
  }

  lemma OmittedWords(i1: nat, i2: nat, ref: seq<string>, rec: seq<Word>)
    requires i1 <= i2 <= |ref|
    ensures AllOriginsIn(OmittedRun(i1, i2), |ref|, |rec|)
    ensures WordsFor(OmittedRun(i1, i2), ref, rec) == Omissions(ref[i1..i2])
    ensures RecOrigins(OmittedRun(i1, i2)) == []
  {
    var r := OmittedRun(i1, i2);
    OmittedIn(i1, i2, |ref|, |rec|);
    var expected := Omissions(ref[i1..i2]);
    forall k | 0 <= k < |r| ensures WordFor(r[k], ref, rec) == expected[k] {
      assert r[k] == Omitted(i1 + k) && ref[i1..i2][k] == ref[i1 + k];
    }
    WordsForEach(r, ref, rec, expected);
    RecOriginsDrop(r);
  }

  lemma MatchedWords(i1: nat, j1: nat, len: nat, ref: seq<string>, rec: seq<Word>)
    requires i1 + len <= |ref| && j1 + len <= |rec|
    ensures AllOriginsIn(MatchedRun(i1, j1, len), |ref|, |rec|)
    ensures WordsFor(MatchedRun(i1, j1, len), ref, rec) == rec[j1..j1 + len]
    ensures RecOrigins(MatchedRun(i1, j1, len)) == MatchedRun(i1, j1, len)
  {
    var r := MatchedRun(i1, j1, len);
    MatchedIn(i1, j1, len, |ref|, |rec|);
    var expected := rec[j1..j1 + len];
    forall k | 0 <= k < |r| ensures WordFor(r[k], ref, rec) == expected[k] {
      assert r[k] == Matched(i1 + k, j1 + k);
    }
    WordsForEach(r, ref, rec, expected);
    RecOriginsKeep(r);
  }

  /** What one opcode appends is the words its provenance stands for. */
  lemma OpWords(o: Opcode, ref: seq<string>, rec: seq<Word>)
    requires Shaped(o) && o.i2 <= |ref| && o.j2 <= |rec|
    ensures AllOriginsIn(OpOrigins(o), |ref|, |rec|)
    ensures WordsFor(OpOrigins(o), ref, rec) == RecPart(o, rec) + RefPart(o, ref)
    ensures AllOriginsIn(RecOrigins(OpOrigins(o)), |ref|, |rec|)
    ensures WordsFor(RecOrigins(OpOrigins(o)), ref, rec) == RecPart(o, rec)
  {
    match o.tag
    case Equal => EqualWords(o, ref, rec);
    case Insert => InsertWords(o, ref, rec);
    case Delete => DeleteWords(o, ref, rec);
    case Replace => ReplaceWords(o, ref, rec);
  }

  lemma EqualWords(o: Opcode, ref: seq<string>, rec: seq<Word>)
    requires o.tag == Equal && Shaped(o) && o.i2 <= |ref| && o.j2 <= |rec|
    ensures AllOriginsIn(OpOrigins(o), |ref|, |rec|)
    ensures WordsFor(OpOrigins(o), ref, rec) == RecPart(o, rec) + RefPart(o, ref)
    ensures AllOriginsIn(RecOrigins(OpOrigins(o)), |ref|, |rec|)
    ensures WordsFor(RecOrigins(OpOrigins(o)), ref, rec) == RecPart(o, rec)
  {
    MatchedWords(o.i1, o.j1, o.j2 - o.j1, ref, rec);
  }

  lemma InsertWords(o: Opcode, ref: seq<string>, rec: seq<Word>)
    requires o.tag == Insert && Shaped(o) && o.i2 <= |ref| && o.j2 <= |rec|
    ensures AllOriginsIn(OpOrigins(o), |ref|, |rec|)
    ensures WordsFor(OpOrigins(o), ref, rec) == RecPart(o, rec) + RefPart(o, ref)
    ensures AllOriginsIn(RecOrigins(OpOrigins(o)), |ref|, |rec|)
    ensures WordsFor(RecOrigins(OpOrigins(o)), ref, rec) == RecPart(o, rec)
  {
    InsertedWords(o.j1, o.j2, ref, rec);
  }

  lemma DeleteWords(o: Opcode, ref: seq<string>, rec: seq<Word>)
    requires o.tag == Delete && Shaped(o) && o.i2 <= |ref| && o.j2 <= |rec|
    ensures AllOriginsIn(OpOrigins(o), |ref|, |rec|)
    ensures WordsFor(OpOrigins(o), ref, rec) == RecPart(o, rec) + RefPart(o, ref)
    ensures AllOriginsIn(RecOrigins(OpOrigins(o)), |ref|, |rec|)
    ensures WordsFor(RecOrigins(OpOrigins(o)), ref, rec) == RecPart(o, rec)
  {
    OmittedWords(o.i1, o.i2, ref, rec);
  }

  lemma ReplaceWords(o: Opcode, ref: seq<string>, rec: seq<Word>)
    requires o.tag == Replace && Shaped(o) && o.i2 <= |ref| && o.j2 <= |rec|
    ensures AllOriginsIn(OpOrigins(o), |ref|, |rec|)
    ensures WordsFor(OpOrigins(o), ref, rec) == RecPart(o, rec) + RefPart(o, ref)
    ensures AllOriginsIn(RecOrigins(OpOrigins(o)), |ref|, |rec|)
    ensures WordsFor(RecOrigins(OpOrigins(o)), ref, rec) == RecPart(o, rec)
  {
    var ins := InsertedRun(o.j1, o.j2);
    var oms := OmittedRun(o.i1, o.i2);
    assert OpOrigins(o) == ins + oms;
    InsertedWords(o.j1, o.j2, ref, rec);
    OmittedWords(o.i1, o.i2, ref, rec);
    assert WordsFor(ins + oms, ref, rec) == MarkAll(rec[o.j1..o.j2]) + Omissions(ref[o.i1..o.i2]) by {
      WordsForAppend(ins, oms, ref, rec);
    }
    assert RecOrigins(ins + oms) == ins by {
      RecOriginsAppend(ins, oms);
      assert ins + [] == ins;
    }
  }

  /** The final list is the words its provenance stands for, and the
      relabelled recognized list is the words of its recognized-side
      provenance: an insert-range entry of the final list and the matching
      entry of the recognized list are one and the same relabelled word. */
  lemma MergeOrigins(ops: seq<Opcode>, ref: seq<string>, rec: seq<Word>)
    requires Covers(ops, |ref|, |rec|)
    ensures InBounds(ops, |ref|, |rec|) && Ranged(ops)
    ensures AllOriginsIn(Origins(ops), |ref|, |rec|)
    ensures Merge(ops, ref, rec) == WordsFor(Origins(ops), ref, rec)
    ensures AllOriginsIn(RecOrigins(Origins(ops)), |ref|, |rec|)
    ensures Relabelled(ops, ref, rec) == WordsFor(RecOrigins(Origins(ops)), ref, rec)
  {
    MergeOriginsUpTo(ops, ref, rec, |ref|, |rec|);
  }

  lemma {:induction false} MergeOriginsUpTo(ops: seq<Opcode>, ref: seq<string>, rec: seq<Word>, n: nat, m: nat)
    requires Covers(ops, n, m) && n <= |ref| && m <= |rec|
    ensures InBounds(ops, |ref|, |rec|) && Ranged(ops)
    ensures AllOriginsIn(Origins(ops), |ref|, |rec|)
    ensures Merge(ops, ref, rec) == WordsFor(Origins(ops), ref, rec)
    ensures AllOriginsIn(RecOrigins(Origins(ops)), |ref|, |rec|)
    ensures Relabelled(ops, ref, rec) == WordsFor(RecOrigins(Origins(ops)), ref, rec)
    decreases |ops|
  {
    CoversInBounds(ops, n, m);
    if ops != [] {
      var o := ops[|ops| - 1];
      var front := ops[..|ops| - 1];
      MergeOriginsUpTo(front, ref, rec, o.i1, o.j1);
      OpWords(o, ref, rec);
      OriginsStep(Origins(front), OpOrigins(o), ref, rec);
      AppendAssoc(Merge(front, ref, rec), RecPart(o, rec), RefPart(o, ref));
    }
  }

  lemma OriginsStep(a: seq<Origin>, b: seq<Origin>, ref: seq<string>, rec: seq<Word>)
    requires AllOriginsIn(a, |ref|, |rec|) && AllOriginsIn(b, |ref|, |rec|)
    requires AllOriginsIn(RecOrigins(a), |ref|, |rec|) && AllOriginsIn(RecOrigins(b), |ref|, |rec|)
    ensures AllOriginsIn(a + b, |ref|, |rec|)
    ensures WordsFor(a + b, ref, rec) == WordsFor(a, ref, rec) + WordsFor(b, ref, rec)
    ensures AllOriginsIn(RecOrigins(a + b), |ref|, |rec|)
    ensures WordsFor(RecOrigins(a + b), ref, rec) == WordsFor(RecOrigins(a), ref, rec) + WordsFor(RecOrigins(b), ref, rec)
  {
    WordsForAppend(a, b, ref, rec);
    RecOriginsAppend(a, b);
    WordsForAppend(RecOrigins(a), RecOrigins(b), ref, rec);
  }

  lemma AppendAssoc(a: seq<Word>, b: seq<Word>, c: seq<Word>)
    ensures (a + b) + c == a + (b + c)
  {
  }

  /** Under a well-formed diff every matched pair holds equal words. */
  predicate MatchOk(org: Origin, a: seq<string>, b: seq<string>) {
    org.Matched? ==> org.i < |a| && org.j < |b| && a[org.i] == b[org.j]
  }

  lemma {:induction false} MatchedAgree(ops: seq<Opcode>, a: seq<string>, b: seq<string>, n: nat, m: nat)
    requires Covers(ops, n, m) && n <= |a| && m <= |b| && EqualRangesMatch(ops, a, b)
    ensures Ranged(ops)
    ensures forall org :: org in Origins(ops) ==> MatchOk(org, a, b)
    decreases |ops|
  {
    CoversInBounds(ops, n, m);
    if ops != [] {
      var o := ops[|ops| - 1];
      var front := ops[..|ops| - 1];
      assert EqualRangesMatch(front, a, b) by {
        forall k | 0 <= k < |front| ensures front[k] == ops[k] {}
      }
      MatchedAgree(front, a, b, o.i1, o.j1);
      OpMatchedAgree(o, a, b);
    }
  }

  lemma OpMatchedAgree(o: Opcode, a: seq<string>, b: seq<string>)
    requires Shaped(o) && o.i2 <= |a| && o.j2 <= |b|
    requires o.tag == Equal ==> a[o.i1..o.i2] == b[o.j1..o.j2]
    ensures forall org :: org in OpOrigins(o) ==> MatchOk(org, a, b)
  {
    var orgs := OpOrigins(o);
    forall org | org in orgs ensures MatchOk(org, a, b) {
      var k :| 0 <= k < |orgs| && orgs[k] == org;
      if o.tag == Equal {
        assert org == Matched(o.i1 + k, o.j1 + k);
        assert a[o.i1..o.i2][k] == a[o.i1 + k];
        assert b[o.j1..o.j2][k] == b[o.j1 + k];
      } else if o.tag == Replace && k >= o.j2 - o.j1 {
        assert org == OmittedRun(o.i1, o.i2)[k - (o.j2 - o.j1)];
      }
    }
  }

  // ---------------------------------------------------------------------
  // Scores

  /** The division that raised when a score's denominator was zero. */
  datatype ScoreError = AccuracyDivisionByZero | FluencyDivisionByZero | CompletenessDivisionByZero

  /** The accuracy scores of the words that are not insertions, in order. */
  function ScoredAccuracies(ws: seq<Word>): (r: seq<real>)
    ensures |r| <= |ws|
    decreases |ws|
  {
    if ws == [] then []
    else
      var w := ws[|ws| - 1];
      ScoredAccuracies(ws[..|ws| - 1]) + (if w.errorType != InsertionError then [w.accuracy] else [])
  }

  predicate AllInsertions(ws: seq<Word>) {
    forall k :: 0 <= k < |ws| ==> ws[k].errorType == InsertionError
  }

  predicate AccuraciesIn(ws: seq<Word>, lo: real, hi: real) {
    forall k :: 0 <= k < |ws| ==> lo <= ws[k].accuracy <= hi
  }

  lemma ScoredAccuraciesFacts(ws: seq<Word>, lo: real, hi: real)
    ensures ScoredAccuracies(ws) == [] <==> AllInsertions(ws)
    ensures AccuraciesIn(ws, lo, hi) ==> AllIn(ScoredAccuracies(ws), lo, hi)
  {
    ScoredEmptyIffInsertions(ws);
    if AccuraciesIn(ws, lo, hi) {
      ScoredWithin(ws, lo, hi);
    }
  }

  /** No accuracy is scored exactly when every word is an insertion. */
  lemma {:induction false} ScoredEmptyIffInsertions(ws: seq<Word>)
    ensures ScoredAccuracies(ws) == [] <==> AllInsertions(ws)
    decreases |ws|
  {
    if ws != [] {
      var front := ws[..|ws| - 1];
      var w := ws[|ws| - 1];
      ScoredEmptyIffInsertions(front);
      if w.errorType == InsertionError {
        assert ScoredAccuracies(ws) == ScoredAccuracies(front) + [];
        assert AllInsertions(ws) <==> AllInsertions(front) by {
          assert forall k :: 0 <= k < |front| ==> front[k] == ws[k];
        }
      } else {
        assert |ScoredAccuracies(ws)| == |ScoredAccuracies(front)| + 1;
      }
    }
  }

  /** Every scored accuracy is one of the words' accuracies. */
  lemma {:induction false} ScoredWithin(ws: seq<Word>, lo: real, hi: real)
    requires AccuraciesIn(ws, lo, hi)
    ensures AllIn(ScoredAccuracies(ws), lo, hi)
    decreases |ws|
  {
    if ws != [] {
      var front := ws[..|ws| - 1];
      var w := ws[|ws| - 1];
      assert AccuraciesIn(front, lo, hi) by {
        assert forall k :: 0 <= k < |front| ==> front[k] == ws[k];
      }
      ScoredWithin(front, lo, hi);
      var tail: seq<real> := if w.errorType != InsertionError then [w.accuracy] else [];
      assert AllIn(tail, lo, hi);
      AllInAppend(ScoredAccuracies(front), tail, lo, hi);
    }
  }

  lemma AllInAppend(xs: seq<real>, ys: seq<real>, lo: real, hi: real)
    requires AllIn(xs, lo, hi) && AllIn(ys, lo, hi)
    ensures AllIn(xs + ys, lo, hi)
  {
    forall k | 0 <= k < |xs + ys| ensures lo <= (xs + ys)[k] <= hi {
      if k >= |xs| {
        assert (xs + ys)[k] == ys[k - |xs|];
      }
    }
  }

  lemma MeanWithin(xs: seq<real>, lo: real, hi: real)
    requires |xs| > 0
    ensures AllIn(xs, lo, hi) ==> lo <= Mean(xs) <= hi
  {
    if AllIn(xs, lo, hi) {
      MeanBounds(xs, lo, hi);
    }
  }

  /** The mean accuracy of the words that are not insertions; the division is
      unguarded, so a list of nothing but insertions raises. */
  function Accuracy(finalWords: seq<Word>): (r: Result<real, ScoreError>)
    ensures r.Err? <==> AllInsertions(finalWords)
    ensures r.Err? ==> r.error == AccuracyDivisionByZero
    ensures r.Ok? ==> ScoredAccuracies(finalWords) != [] && r.value == Mean(ScoredAccuracies(finalWords))
    ensures r.Ok? && AccuraciesIn(finalWords, 0.0, 100.0) ==> 0.0 <= r.value <= 100.0
  {
    ScoredAccuraciesFacts(finalWords, 0.0, 100.0);
    var scored := ScoredAccuracies(finalWords);
    if scored == [] then Err(AccuracyDivisionByZero)
    else
      MeanWithin(scored, 0.0, 100.0);
      Ok(Mean(scored))
  }

  /** The sum of score·duration over the pairs `zip` forms (it stops at the
      shorter list). */
  function WeightedSum(scores: seq<real>, durations: seq<nat>): real
    decreases |scores|
  {
    if scores == [] || durations == [] then 0.0
    else scores[0] * durations[0] as real + WeightedSum(scores[1..], durations[1..])
  }

  /** A weighted sum of scores in `[lo, hi]` lies between `lo` and `hi` times the total weight. */
  lemma WeightedSumBounds(scores: seq<real>, durations: seq<nat>, lo: real, hi: real)
    requires |scores| == |durations| && AllIn(scores, lo, hi)
    ensures lo * NatSum(durations) as real <= WeightedSum(scores, durations) <= hi * NatSum(durations) as real
  {
    WeightedSumAtLeast(scores, durations, lo, hi);
    WeightedSumAtMost(scores, durations, lo, hi);
  }

  lemma AllInTail(xs: seq<real>, lo: real, hi: real)
    requires xs != [] && AllIn(xs, lo, hi)
    ensures AllIn(xs[1..], lo, hi) && lo <= xs[0] <= hi
  {
    assert forall k :: 0 <= k < |xs| - 1 ==> xs[1..][k] == xs[k + 1];
  }

  lemma {:induction false} WeightedSumAtLeast(scores: seq<real>, durations: seq<nat>, lo: real, hi: real)
    requires |scores| == |durations| && AllIn(scores, lo, hi)
    ensures lo * NatSum(durations) as real <= WeightedSum(scores, durations)
    decreases |scores|
  {
    if scores != [] {
      var d := durations[0] as real;
      var x := scores[0];
      var restTotal := NatSum(durations[1..]) as real;
      AllInTail(scores, lo, hi);
      WeightedSumAtLeast(scores[1..], durations[1..], lo, hi);
      MulNonNegative(x - lo, d);
      assert (x - lo) * d == x * d - lo * d;
      assert WeightedSum(scores, durations) == x * d + WeightedSum(scores[1..], durations[1..]);
      assert NatSum(durations) as real == d + restTotal;
      assert lo * (d + restTotal) == lo * d + lo * restTotal;
    }
  }

  lemma {:induction false} WeightedSumAtMost(scores: seq<real>, durations: seq<nat>, lo: real, hi: real)
    requires |scores| == |durations| && AllIn(scores, lo, hi)
    ensures WeightedSum(scores, durations) <= hi * NatSum(durations) as real
    decreases |scores|
  {
    if scores != [] {
      var d := durations[0] as real;
      var x := scores[0];
      var restTotal := NatSum(durations[1..]) as real;
      AllInTail(scores, lo, hi);
      WeightedSumAtMost(scores[1..], durations[1..], lo, hi);
      MulNonNegative(hi - x, d);
      assert (hi - x) * d == hi * d - x * d;
      assert WeightedSum(scores, durations) == x * d + WeightedSum(scores[1..], durations[1..]);
      assert NatSum(durations) as real == d + restTotal;
      assert hi * (d + restTotal) == hi * d + hi * restTotal;
    }
  }

  /** The duration-weighted mean of the segment fluency scores; the total
      duration divides unguarded, so a zero total raises. */
  function Fluency(scores: seq<real>, durations: seq<nat>): (r: Result<real, ScoreError>)
    ensures r.Err? <==> NatSum(durations) == 0
    ensures r.Err? ==> r.error == FluencyDivisionByZero
    ensures r.Ok? ==> r.value * NatSum(durations) as real == WeightedSum(scores, durations)
  {
    var total := NatSum(durations);
    if total == 0 then Err(FluencyDivisionByZero) else Ok(WeightedSum(scores, durations) / total as real)
  }

  /** With one score per segment, the fluency lies between the least and the
      greatest segment score. */
  lemma FluencyBounds(scores: seq<real>, durations: seq<nat>, lo: real, hi: real)
    requires |scores| == |durations| && AllIn(scores, lo, hi)
    ensures Fluency(scores, durations).Ok? ==> lo <= Fluency(scores, durations).value <= hi
  {
    var total := NatSum(durations);
    if total > 0 {
      WeightedSumBounds(scores, durations, lo, hi);
      var t := total as real;
      var w := WeightedSum(scores, durations);
      DivAtLeast(w, t, lo);
      DivAtMost(w, t, hi);
    }
  }

  lemma DivAtLeast(w: real, t: real, lo: real)
    requires t > 0.0 && w >= t * lo
    ensures w / t >= lo
  {
    var q := w / t;
    assert q * t == w;
    if q < lo {
      assert (lo - q) * t > 0.0;
    }
  }

  lemma DivAtMost(w: real, t: real, hi: real)
    requires t > 0.0 && w <= t * hi
    ensures w / t <= hi
  {
    var q := w / t;
    assert q * t == w;
    if q > hi {
      assert (q - hi) * t > 0.0;
    }
  }

  lemma MulNonNegative(x: real, y: real)
    requires x >= 0.0 && y >= 0.0
    ensures x * y >= 0.0
  {
  }

  /** The words still free of errors. */
  function CountNone(ws: seq<Word>): (r: nat)
    ensures r <= |ws|
    decreases |ws|
  {
    if ws == [] then 0
    else CountNone(ws[..|ws| - 1]) + (if ws[|ws| - 1].errorType == NoError then 1 else 0)
  }

  lemma {:induction false} CountNoneAppend(a: seq<Word>, b: seq<Word>)
    ensures CountNone(a + b) == CountNone(a) + CountNone(b)
    decreases |b|
  {
    if b != [] {
      var b' := b[..|b| - 1];
      assert (a + b)[..|a + b| - 1] == a + b';
      CountNoneAppend(a, b');
    } else {
      assert a + b == a;
    }
  }

  lemma {:induction false} CountNoneMarkAll(ws: seq<Word>)
    ensures CountNone(MarkAll(ws)) == 0
    decreases |ws|
  {
    if ws != [] {
      var front := ws[..|ws| - 1];
      assert MarkAll(ws) == MarkAll(front) + [MarkInsertion(ws[|ws| - 1])];
      CountNoneMarkAll(front);
      CountNoneAppend(MarkAll(front), [MarkInsertion(ws[|ws| - 1])]);
    }
  }

  /** Only recognized words of equal ranges can still be error-free after the
      relabelling, so there are at most as many as reference words. */
  lemma {:induction false} CountNoneBound(ops: seq<Opcode>, ref: seq<string>, rec: seq<Word>, n: nat, m: nat)
    requires Covers(ops, n, m) && n <= |ref| && m <= |rec|
    ensures InBounds(ops, |ref|, |rec|)
    ensures CountNone(Relabelled(ops, ref, rec)) <= n
    decreases |ops|
  {
    CoversInBounds(ops, n, m);
    if ops != [] {
      var o := ops[|ops| - 1];
      var front := ops[..|ops| - 1];
      CountNoneBound(front, ref, rec, o.i1, o.j1);
      CountNoneAppend(Relabelled(front, ref, rec), RecPart(o, rec));
      if o.tag == Insert || o.tag == Replace {
        CountNoneMarkAll(rec[o.j1..o.j2]);
      }
    }
  }

  /** The share of reference words matched by a still error-free recognized
      word, as a percentage capped at 100; the division by the number of
      reference words is unguarded. */
  function Completeness(recognized: seq<Word>, refCount: nat): (r: Result<real, ScoreError>)
    ensures r.Err? <==> refCount == 0
    ensures r.Err? ==> r.error == CompletenessDivisionByZero
    ensures r.Ok? ==> 0.0 <= r.value <= 100.0
    ensures r.Ok? && CountNone(recognized) <= refCount ==>
      r.value == CountNone(recognized) as real / refCount as real * 100.0
    ensures r.Ok? && CountNone(recognized) > refCount ==> r.value == 100.0
  {
    if refCount == 0 then Err(CompletenessDivisionByZero)
    else
      var share := CountNone(recognized) as real / refCount as real;
      DivAtLeast(CountNone(recognized) as real, refCount as real, 0.0);
      assert CountNone(recognized) <= refCount ==> share <= 1.0 by {
        if CountNone(recognized) <= refCount {
          DivAtMost(CountNone(recognized) as real, refCount as real, 1.0);
        }
      }
      assert CountNone(recognized) >= refCount ==> share >= 1.0 by {
        if CountNone(recognized) >= refCount {
          DivAtLeast(CountNone(recognized) as real, refCount as real, 1.0);
        }
      }
      var c := share * 100.0;
      Ok(if c <= 100.0 then c else 100.0)
  }

  // ---------------------------------------------------------------------
  // The per-word report

  /** One report line; `formatScore` stands for the way an f-string renders
      the accuracy float. */
  function EvalLine(number: nat, w: Word, formatScore: real -> string): string {
    "word " + NatToString(number) + ": " + w.text + ", accuracy: " + formatScore(w.accuracy) + " error type: " + w.errorType
  }

  /** The entry number a report line starts with. */
  function LineNumber(line: string): nat {
    if |line| < 5 then 0 else ParseNat(TakeDigits(line[5..]))
  }

  /** Every report line gives back the number it was written with. */
  lemma LineNumberOfEvalLine(number: nat, w: Word, formatScore: real -> string)
    ensures LineNumber(EvalLine(number, w, formatScore)) == number
  {
    var digits := NatToString(number);
    var rest := ": " + w.text + ", accuracy: " + formatScore(w.accuracy) + " error type: " + w.errorType;
    var line := EvalLine(number, w, formatScore);
    assert line == "word " + (digits + rest);
    assert line[5..] == digits + rest;
    TakeDigitsPrefix(digits, rest);
    ParseNatToString(number);
  }

  /** The report loop: one line per final word, numbered from 1. */
  method PerWordEval(finalWords: seq<Word>, formatScore: real -> string) returns (lines: seq<string>)
    ensures |lines| == |finalWords|
    ensures forall k :: 0 <= k < |lines| ==> lines[k] == EvalLine(k + 1, finalWords[k], formatScore)
  {
    lines := [];
    var idx := 0;
    while idx < |finalWords|
      invariant 0 <= idx <= |finalWords| && |lines| == idx
      invariant forall k :: 0 <= k < idx ==> lines[k] == EvalLine(k + 1, finalWords[k], formatScore)
    {
      lines := lines + [EvalLine(idx + 1, finalWords[idx], formatScore)];
      idx := idx + 1;
    }
  }

  /** The report is numbered consecutively from 1. */
  lemma PerWordEvalNumbering(lines: seq<string>, finalWords: seq<Word>, formatScore: real -> string)
    requires |lines| == |finalWords|
    requires forall k :: 0 <= k < |lines| ==> lines[k] == EvalLine(k + 1, finalWords[k], formatScore)
    ensures forall k :: 0 <= k < |lines| ==> LineNumber(lines[k]) == k + 1
  {
    forall k | 0 <= k < |lines| ensures LineNumber(lines[k]) == k + 1 {
      LineNumberOfEvalLine(k + 1, finalWords[k], formatScore);
    }
  }

  // ---------------------------------------------------------------------
  // A reading that matches the reference exactly

  predicate AllEqual(ops: seq<Opcode>) {
    forall k :: 0 <= k < |ops| ==> ops[k].tag == Equal
  }

  /** Opcodes that are all equal ranges copy the recognized words through
      untouched, and there are as many of them as reference words. */
  lemma AllEqualMerge(ops: seq<Opcode>, ref: seq<string>, rec: seq<Word>, n: nat, m: nat)
    requires Covers(ops, n, m) && n <= |ref| && m <= |rec| && AllEqual(ops)
    ensures InBounds(ops, |ref|, |rec|) && n == m
    ensures Merge(ops, ref, rec) == rec[..m] && Relabelled(ops, ref, rec) == rec[..m]
  {
    AllEqualSizes(ops, n, m);
    AllEqualMerged(ops, ref, rec, n, m);
    AllEqualRelabelled(ops, ref, rec, n, m);
  }

  lemma AllEqualFront(ops: seq<Opcode>)
    requires ops != [] && AllEqual(ops)
    ensures AllEqual(ops[..|ops| - 1]) && ops[|ops| - 1].tag == Equal
  {
    var front := ops[..|ops| - 1];
    forall k | 0 <= k < |front| ensures front[k].tag == Equal {
      assert front[k] == ops[k];
    }
  }

  lemma InBoundsWiden(ops: seq<Opcode>, n: nat, m: nat, n': nat, m': nat)
    requires InBounds(ops, n, m) && n <= n' && m <= m'
    ensures InBounds(ops, n', m')
  {
  }

  lemma {:induction false} AllEqualSizes(ops: seq<Opcode>, n: nat, m: nat)
    requires Covers(ops, n, m) && AllEqual(ops)
    ensures n == m
    decreases |ops|
  {
    if ops != [] {
      var o := ops[|ops| - 1];
      AllEqualFront(ops);
      AllEqualSizes(ops[..|ops| - 1], o.i1, o.j1);
    }
  }

  lemma {:induction false} AllEqualMerged(ops: seq<Opcode>, ref: seq<string>, rec: seq<Word>, n: nat, m: nat)
    requires Covers(ops, n, m) && n <= |ref| && m <= |rec| && AllEqual(ops)
    ensures InBounds(ops, |ref|, |rec|)
    ensures Merge(ops, ref, rec) == rec[..m]
    decreases |ops|
  {
    CoversInBounds(ops, n, m);
    InBoundsWiden(ops, n, m, |ref|, |rec|);
    if ops != [] {
      var o := ops[|ops| - 1];
      var front := ops[..|ops| - 1];
      AllEqualFront(ops);
      AllEqualMerged(front, ref, rec, o.i1, o.j1);
      assert RecPart(o, rec) == rec[o.j1..o.j2] && RefPart(o, ref) == [];
      assert Merge(ops, ref, rec) == rec[..o.j1] + rec[o.j1..o.j2] + [];
      assert rec[..o.j1] + rec[o.j1..o.j2] == rec[..o.j2];
    }
  }

  lemma {:induction false} AllEqualRelabelled(ops: seq<Opcode>, ref: seq<string>, rec: seq<Word>, n: nat, m: nat)
    requires Covers(ops, n, m) && n <= |ref| && m <= |rec| && AllEqual(ops)
    ensures InBounds(ops, |ref|, |rec|)
    ensures Relabelled(ops, ref, rec) == rec[..m]
    decreases |ops|
  {
    CoversInBounds(ops, n, m);
    InBoundsWiden(ops, n, m, |ref|, |rec|);
    if ops != [] {
      var o := ops[|ops| - 1];
      var front := ops[..|ops| - 1];
      AllEqualFront(ops);
      AllEqualRelabelled(front, ref, rec, o.i1, o.j1);
      assert Relabelled(ops, ref, rec) == Relabelled(front, ref, rec) + RecPart(o, rec);
      assert RecPart(o, rec) == rec[o.j1..o.j2];
      assert rec[..o.j1] + rec[o.j1..o.j2] == rec[..o.j2];
    }
  }

  predicate AllNoError(ws: seq<Word>) {
    forall k :: 0 <= k < |ws| ==> ws[k].errorType == NoError
  }

  lemma {:induction false} CountNoneAll(ws: seq<Word>)
    requires AllNoError(ws)
    ensures CountNone(ws) == |ws|
    decreases |ws|
  {
    if ws != [] {
      CountNoneAll(ws[..|ws| - 1]);
    }
  }

  lemma {:induction false} ScoredAccuraciesNoError(ws: seq<Word>)
    requires AllNoError(ws)
    ensures |ScoredAccuracies(ws)| == |ws|
    decreases |ws|
  {
    if ws != [] {
      ScoredAccuraciesNoError(ws[..|ws| - 1]);
    }
  }

  /** A reading that the diff matches word for word, with every word free of
      errors, is complete; scored 100 on every word it is 100 accurate too. */
  lemma PerfectReading(ops: seq<Opcode>, ref: seq<string>, rec: seq<Word>)
    requires Covers(ops, |ref|, |rec|) && AllEqual(ops) && |ref| > 0 && AllNoError(rec)
    ensures InBounds(ops, |ref|, |rec|)
    ensures Merge(ops, ref, rec) == rec && Relabelled(ops, ref, rec) == rec
    ensures Completeness(Relabelled(ops, ref, rec), |ref|) == Ok(100.0)
    ensures AccuraciesIn(rec, 100.0, 100.0) ==> Accuracy(Merge(ops, ref, rec)) == Ok(100.0)
  {
    AllEqualMerge(ops, ref, rec, |ref|, |rec|);
    assert rec[..|rec|] == rec;
    FullCompleteness(rec);
    FullAccuracy(rec);
  }

  lemma FullCompleteness(rec: seq<Word>)
    requires |rec| > 0 && AllNoError(rec)
    ensures Completeness(rec, |rec|) == Ok(100.0)
  {
    CountNoneAll(rec);
    var n := |rec| as real;
    assert n / n == 1.0;
  }

  lemma FullAccuracy(rec: seq<Word>)
    requires |rec| > 0 && AllNoError(rec)
    ensures AccuraciesIn(rec, 100.0, 100.0) ==> Accuracy(rec) == Ok(100.0)
  {
    ScoredAccuraciesNoError(rec);
    ScoredAccuraciesFacts(rec, 100.0, 100.0);
    if AccuraciesIn(rec, 100.0, 100.0) {
      MeanBounds(ScoredAccuracies(rec), 100.0, 100.0);
    }
  }

  // ---------------------------------------------------------------------
  // The post-recognition half of the assessment

  /** The assessment's results: accuracy, completeness, fluency, the per-word
      report and the final word list. */
  datatype Assessment = Assessment(
    accuracy: real, completeness: real, fluency: real, perWordEval: seq<string>, finalWords: seq<Word>)

  /** The recognized words lower-cased, as the diff compares them. */
  function LoweredTexts(ws: seq<Word>): (r: seq<string>)
    ensures |r| == |ws|
    ensures forall k :: 0 <= k < |ws| ==> r[k] == Lower(ws[k].text)
  {
    seq(|ws|, k requires 0 <= k < |ws| => Lower(ws[k].text))
  }

  /** The opcodes of the diff of the reference words against the lower-cased recognized words. */
  function Opcodes(referenceText: string, segments: seq<Segment>, diff: Differ): seq<Opcode> {
    diff(ReferenceWords(referenceText), LoweredTexts(RecognizedWords(segments)))
  }

  /** Reference normalisation, alignment and the three scores, raising at the
      first zero denominator in the order accuracy, fluency, completeness. */
  method PronunciationAssessment(referenceText: string, segments: seq<Segment>, diff: Differ, formatScore: real -> string)
    returns (r: Result<Assessment, ScoreError>)
    requires IsDiff(diff)
    ensures var ref := ReferenceWords(referenceText);
      var rec := RecognizedWords(segments);
      var ops := Opcodes(referenceText, segments, diff);
      InBounds(ops, |ref|, |rec|) &&
      var accuracy := Accuracy(Merge(ops, ref, rec));
      var fluency := Fluency(FluencyScores(segments), Durations(segments));
      var completeness := Completeness(Relabelled(ops, ref, rec), |ref|);
      (accuracy.Err? ==> r == Err(accuracy.error)) &&
      (accuracy.Ok? && fluency.Err? ==> r == Err(fluency.error)) &&
      (accuracy.Ok? && fluency.Ok? && completeness.Err? ==> r == Err(completeness.error)) &&
      (r.Ok? <==> accuracy.Ok? && fluency.Ok? && completeness.Ok?) &&
      (r.Ok? ==>
        r.value.finalWords == Merge(ops, ref, rec) &&
        r.value.accuracy == accuracy.value &&
        r.value.fluency == fluency.value &&
        r.value.completeness == CountNone(Relabelled(ops, ref, rec)) as real / |ref| as real * 100.0 &&
        |r.value.perWordEval| == |r.value.finalWords| &&
        forall k :: 0 <= k < |r.value.perWordEval| ==>
          r.value.perWordEval[k] == EvalLine(k + 1, r.value.finalWords[k], formatScore))
  {
    var ref := ReferenceWords(referenceText);
    var rec := RecognizedWords(segments);
    var ops := diff(ref, LoweredTexts(rec));
    assert DiffOk(diff, ref, LoweredTexts(rec));
    var finalWords, words := AlignWords(ops, ref, rec);
    CountNoneBound(ops, ref, rec, |ref|, |rec|);
    var accuracy := Accuracy(finalWords);
    if accuracy.Err? {
      return Err(accuracy.error);
    }
    var fluency := Fluency(FluencyScores(segments), Durations(segments));
    if fluency.Err? {
      return Err(fluency.error);
    }
    var completeness := Completeness(words, |ref|);
    if completeness.Err? {
      return Err(completeness.error);
    }
    var lines := PerWordEval(finalWords, formatScore);
    r := Ok(Assessment(accuracy.value, completeness.value, fluency.value, lines, finalWords));
  }

  /** The diff's opcodes stay within the two word lists. */
  lemma OpcodesInBounds(referenceText: string, segments: seq<Segment>, diff: Differ)
    requires IsDiff(diff)
    ensures InBounds(Opcodes(referenceText, segments, diff), |ReferenceWords(referenceText)|, |RecognizedWords(segments)|)
  {
    var rec := RecognizedWords(segments);
    assert DiffOk(diff, ReferenceWords(referenceText), LoweredTexts(rec));
    CoversInBounds(Opcodes(referenceText, segments, diff), |ReferenceWords(referenceText)|, |rec|);
  }

  /** The accuracy and fluency a turn reports, or the first zero denominator
      of the assessment in the order accuracy, fluency, completeness. */
  function AssessedScores(referenceText: string, segments: seq<Segment>, diff: Differ): (r: Result<(real, real), ScoreError>)
    requires IsDiff(diff)
    ensures var ref := ReferenceWords(referenceText);
      var rec := RecognizedWords(segments);
      var ops := Opcodes(referenceText, segments, diff);
      InBounds(ops, |ref|, |rec|) &&
      (r.Err? <==> AllInsertions(Merge(ops, ref, rec)) || NatSum(Durations(segments)) == 0 || |ref| == 0)
  {
    var ref := ReferenceWords(referenceText);
    var rec := RecognizedWords(segments);
    var ops := Opcodes(referenceText, segments, diff);
    OpcodesInBounds(referenceText, segments, diff);
    var accuracy := Accuracy(Merge(ops, ref, rec));
    var fluency := Fluency(FluencyScores(segments), Durations(segments));
    var completeness := Completeness(Relabelled(ops, ref, rec), |ref|);
    if accuracy.Err? then Err(accuracy.error)
    else if fluency.Err? then Err(fluency.error)
    else if completeness.Err? then Err(completeness.error)
    else Ok((accuracy.value, fluency.value))
  }
}
