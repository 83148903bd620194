/** The word-level language model of Labs/Lab11/LM_mem_LSTM.py, without Keras:
    the framing of every text line into its prefixes, the pre-padding and the
    context/target split of the training rows with one-hot targets, and the
    generation loop `generate_seq` with its reverse lookup of a predicted id.
    The fitted tokenizer and the trained network are parameters. */
module LanguageModel {
  import opened Wrappers
  import OneHot

  /** One `(word, id)` pair of the tokenizer's `word_index`. */
  datatype Entry = Entry(word: string, id: int)

  /** A fitted tokenizer: the pairs of `word_index` in the dictionary's
      iteration order, and `texts_to_sequences` applied to a single text. */
  datatype Tokenizer = Tokenizer(wordIndex: seq<Entry>, encode: string -> seq<int>)

  /** `model.predict_classes` on one padded context: the class id it predicts. */
  type Model = seq<int> -> int

  /** `vocab_size`: one class per vocabulary entry plus the padding id 0. */
  function VocabSize(tokenizer: Tokenizer): (n: nat)
    ensures forall id :: 0 <= id ==> (OneHot.InRange(id, n) <==> id <= |tokenizer.wordIndex|)
  {
    |tokenizer.wordIndex| + 1
  }

  /** `word_index` is a dictionary: no word occurs twice. */
  predicate UniqueWords(wordIndex: seq<Entry>) {
    forall i, j :: 0 <= i < j < |wordIndex| ==> wordIndex[i].word != wordIndex[j].word
  }

  /** A tokenizer hands out each id to one word only. */
  predicate UniqueIds(wordIndex: seq<Entry>) {
    forall i, j :: 0 <= i < j < |wordIndex| ==> wordIndex[i].id != wordIndex[j].id
  }

  // ---------------------------------------------------------------------------
  // Framing the corpus into prefixes

  /** The sequences one encoded line contributes: `encoded[:2], ..., encoded[:k]`,
      one per prefix of length at least two, shortest first. */
  function Prefixes(encoded: seq<int>): (r: seq<seq<int>>)
    ensures |r| == if |encoded| < 2 then 0 else |encoded| - 1
    ensures forall j :: 0 <= j < |r| ==> r[j] == encoded[..j + 2]
  {
    if |encoded| < 2 then [] else Prefixes(encoded[..|encoded| - 1]) + [encoded]
  }

  /** All the sequences of the corpus, line by line. */
  function Framed(lines: seq<string>, tokenizer: Tokenizer): (r: seq<seq<int>>)
    ensures forall j :: 0 <= j < |r| ==> 2 <= |r[j]|
  {
    if lines == [] then []
    else Framed(lines[..|lines| - 1], tokenizer) + Prefixes(tokenizer.encode(lines[|lines| - 1]))
  }

  /** Framing a corpus is framing its parts one after the other. */
  lemma {:induction false} FramedConcat(a: seq<string>, b: seq<string>, tokenizer: Tokenizer)
    ensures Framed(a + b, tokenizer) == Framed(a, tokenizer) + Framed(b, tokenizer)
    decreases |b|
  {
    if b == [] {
      assert a + b == a;
    } else {
      var b' := b[..|b| - 1];
      assert (a + b)[..|a + b| - 1] == a + b';
      assert (a + b)[|a + b| - 1] == b[|b| - 1];
      FramedConcat(a, b', tokenizer);
    }
  }

  /** Every framed sequence is a prefix, of length at least two, of the
      encoding of some line of the corpus. */
  lemma {:induction false} FramedArePrefixes(lines: seq<string>, tokenizer: Tokenizer, j: nat)
    requires j < |Framed(lines, tokenizer)|
    ensures exists l :: (0 <= l < |lines| &&
      |Framed(lines, tokenizer)[j]| <= |tokenizer.encode(lines[l])| &&
      Framed(lines, tokenizer)[j] == tokenizer.encode(lines[l])[..|Framed(lines, tokenizer)[j]|])
    decreases |lines|
  {
    var init := lines[..|lines| - 1];
    var last := tokenizer.encode(lines[|lines| - 1]);
    if j < |Framed(init, tokenizer)| {
      FramedArePrefixes(init, tokenizer, j);
      var l :| 0 <= l < |init| &&
        |Framed(init, tokenizer)[j]| <= |tokenizer.encode(init[l])| &&
        Framed(init, tokenizer)[j] == tokenizer.encode(init[l])[..|Framed(init, tokenizer)[j]|];
      assert lines[l] == init[l];
    } else {
      var i := j - |Framed(init, tokenizer)|;
      assert Framed(lines, tokenizer)[j] == Prefixes(last)[i] == last[..i + 2];
      assert lines[|lines| - 1] == lines[|lines| - 1];
    }
  }

  /** The framing loop of the script: for every line, append `encoded[:i+1]`
      for `i` in `range(1, len(encoded))`. */
  method FrameLines(lines: seq<string>, tokenizer: Tokenizer) returns (sequences: seq<seq<int>>)
    ensures sequences == Framed(lines, tokenizer)
  {
    sequences := [];
    for l := 0 to |lines|
      invariant sequences == Framed(lines[..l], tokenizer)
    {
      var encoded := tokenizer.encode(lines[l]);
      var i := 1;
      while i < |encoded|
        invariant 1 <= i
        invariant i <= |encoded| ==> sequences == Framed(lines[..l], tokenizer) + Prefixes(encoded[..i])
        invariant i > |encoded| ==> encoded == [] && sequences == Framed(lines[..l], tokenizer)
      {
        assert encoded[..i + 1][..i] == encoded[..i];
        sequences := sequences + [encoded[..i + 1]];
        i := i + 1;
      }
      assert lines[..l + 1][..l] == lines[..l];
      assert encoded == [] || encoded[..i] == encoded;
    }
    assert lines[..|lines|] == lines;
  }

  // ---------------------------------------------------------------------------
  // Padding and the context/target split

  /** `max([len(seq) for seq in sequences])`; Python raises ValueError on an
      empty list, which is `None` here. */
  function MaxLength(sequences: seq<seq<int>>): (r: Option<nat>)
    ensures r.None? <==> sequences == []
    ensures r.Some? ==> forall j :: 0 <= j < |sequences| ==> |sequences[j]| <= r.value
    ensures r.Some? ==> exists j :: 0 <= j < |sequences| && |sequences[j]| == r.value
  {
    if sequences == [] then None
    else
      var n := |sequences[|sequences| - 1]|;
      match MaxLength(sequences[..|sequences| - 1])
      case None => Some(n)
      case Some(m) => Some(if m < n then n else m)
  }

  /** `pad_sequences([s], maxlen=m, padding='pre')` with Keras' default
      `truncating='pre'`: the row is `s` aligned on its right end, filled
      with 0 on the left, and cut from the left when `s` is longer. */
  function PadPre(s: seq<int>, m: nat): (r: seq<int>)
    ensures |r| == m
    ensures forall i :: 0 <= i < m ==> r[i] == if i + |s| < m then 0 else s[i + |s| - m]
  {
    if |s| <= m then Zeros(m - |s|) + s else s[|s| - m..]
  }

  /** The padding value 0, `n` times. */
  function Zeros(n: nat): seq<int> {
    seq(n, _ => 0)
  }

  /** Padding a row that already has the full length leaves it alone, so
      padding twice is padding once. */
  lemma PadPreIdempotent(s: seq<int>, m: nat)
    ensures |s| == m ==> PadPre(s, m) == s
    ensures PadPre(PadPre(s, m), m) == PadPre(s, m)
  {
  }

  /** A padded row that is not cut holds only zeros before the sequence,
      and ends with the whole sequence. */
  lemma PadPreKeepsSequence(s: seq<int>, m: nat)
    requires |s| <= m
    ensures PadPre(s, m)[m - |s|..] == s
    ensures forall i :: 0 <= i < m - |s| ==> PadPre(s, m)[i] == 0
  {
  }

  /** Dropping the last column of a padded row gives the padded context, and
      the last column is the last token: `sequences[:,:-1]` and `sequences[:,-1]`. */
  lemma PadPreSplit(s: seq<int>, m: nat)
    requires 1 <= |s| && 1 <= m
    ensures PadPre(s, m)[..m - 1] == PadPre(s[..|s| - 1], m - 1)
    ensures PadPre(s, m)[m - 1] == s[|s| - 1]
  {
  }

  /** The last token of a sequence: the target column `sequences[:,-1]`. */
  function Last(s: seq<int>): (t: int)
    requires s != []
    ensures Context(s) + [t] == s
  {
    s[|s| - 1]
  }

  /** All but the last token of a sequence: the context `sequences[:,:-1]`. */
  function Context(s: seq<int>): (c: seq<int>)
    requires s != []
    ensures |c| + 1 == |s| && c <= s
  {
    s[..|s| - 1]
  }

  /** The training data handed to `model.fit`. */
  datatype Dataset = Dataset(vocabSize: nat, maxLength: nat, x: seq<seq<int>>, y: seq<seq<real>>)

  /** Why the script stops before training: `max` of no sequences, or
      `to_categorical` given a target outside the classes. */
  datatype DatasetError = NoSequences | TargetOutOfRange

  /** Padding every framed sequence to `maxLength` and splitting the rows
      gives, for each sequence, its padded context and its last token. */
  lemma {:induction false} SplitPadded(sequences: seq<seq<int>>, maxLength: nat)
    requires 1 <= maxLength
    requires forall j :: 0 <= j < |sequences| ==> 1 <= |sequences[j]|
    ensures forall j :: 0 <= j < |sequences| ==>
      PadPre(sequences[j], maxLength)[..maxLength - 1] == PadPre(Context(sequences[j]), maxLength - 1) &&
      PadPre(sequences[j], maxLength)[maxLength - 1] == Last(sequences[j])
  {
  }

  /** `to_categorical(y, num_classes)`: one one-hot row per target; numpy
      raises IndexError when a target is outside the classes. */
  function ToCategorical(targets: seq<int>, numClasses: nat): (r: Result<seq<seq<real>>, DatasetError>)
    ensures r.Err? <==> exists j :: 0 <= j < |targets| && !OneHot.InRange(targets[j], numClasses)
    ensures r.Err? ==> r.error == TargetOutOfRange
    ensures r.Ok? ==> |r.value| == |targets|
    ensures r.Ok? ==> forall j :: 0 <= j < |targets| ==> r.value[j] == OneHot.Row(targets[j], numClasses)
  {
    if exists j :: 0 <= j < |targets| && !OneHot.InRange(targets[j], numClasses) then Err(TargetOutOfRange)
    else Ok(seq(|targets|, j requires 0 <= j < |targets| => OneHot.Row(targets[j], numClasses)))
  }

  /** `sequences[:,:-1], sequences[:,-1]` on the padded rows, each the padded
      context and the last token of its framed sequence. */
  function SplitColumns(sequences: seq<seq<int>>, maxLength: nat): (r: (seq<seq<int>>, seq<int>))
    requires 1 <= maxLength
    requires forall j :: 0 <= j < |sequences| ==> 1 <= |sequences[j]|
    ensures |r.0| == |r.1| == |sequences|
    ensures forall j :: 0 <= j < |sequences| ==>
      r.0[j] == PadPre(Context(sequences[j]), maxLength - 1) && r.1[j] == Last(sequences[j])
  {
    var padded := seq(|sequences|, j requires 0 <= j < |sequences| => PadPre(sequences[j], maxLength));
    SplitPadded(sequences, maxLength);
    (seq(|padded|, j requires 0 <= j < |padded| => padded[j][..maxLength - 1]),
     seq(|padded|, j requires 0 <= j < |padded| => padded[j][maxLength - 1]))
  }

  /** What the script hands to `model.fit` for the framed `sequences`: every
      target is a class, and row `j` holds the context of sequence `j`
      pre-padded to `max_length - 1` columns and the one-hot row of its last
      token over `vocab_size` classes. */
  predicate IsTrainingData(sequences: seq<seq<int>>, vocabSize: nat, d: Dataset)
    requires forall j :: 0 <= j < |sequences| ==> 1 <= |sequences[j]|
  {
    d.vocabSize == vocabSize && 1 <= d.maxLength &&
    |d.x| == |d.y| == |sequences| &&
    forall j :: 0 <= j < |sequences| ==>
      OneHot.InRange(Last(sequences[j]), vocabSize) &&
      |d.x[j]| == d.maxLength - 1 &&
      d.x[j] == PadPre(Context(sequences[j]), d.maxLength - 1) &&
      d.y[j] == OneHot.Row(Last(sequences[j]), vocabSize)
  }

  /** Lines 74-79 of the script once `max_length` is known: pre-pad every
      sequence to it, split each row into context and target, and one-hot
      encode the targets over `vocab_size` classes. */
  function Assemble(sequences: seq<seq<int>>, vocabSize: nat, maxLength: nat): (r: Result<Dataset, DatasetError>)
    requires 1 <= maxLength
    requires forall j :: 0 <= j < |sequences| ==> 1 <= |sequences[j]|
    ensures r.Err? ==> r.error == TargetOutOfRange
    ensures r.Err? ==> exists j :: 0 <= j < |sequences| && !OneHot.InRange(Last(sequences[j]), vocabSize)
    ensures r.Ok? ==> r.value.maxLength == maxLength && IsTrainingData(sequences, vocabSize, r.value)
  {
    var (x, targets) := SplitColumns(sequences, maxLength);
    match ToCategorical(targets, vocabSize)
    case Err(e) =>
      var j :| 0 <= j < |targets| && !OneHot.InRange(targets[j], vocabSize);
      assert !OneHot.InRange(Last(sequences[j]), vocabSize);
      Err(e)
    case Ok(y) =>
      Ok(Dataset(vocabSize, maxLength, x, y))
  }

  /** The framed sequences all have two tokens or more, so `max_length` does too. */
  lemma LongestIsAtLeastTwo(sequences: seq<seq<int>>)
    requires forall j :: 0 <= j < |sequences| ==> 2 <= |sequences[j]|
    requires sequences != []
    ensures 2 <= MaxLength(sequences).value
  {
  }

  /** Lines 73-79 of the script on the framed sequences: `max_length` is the
      longest sequence (no sequence at all raises), and the rows are built
      by `Assemble`; a target outside the classes makes `to_categorical` raise. */
  function Prepare(sequences: seq<seq<int>>, vocabSize: nat): (r: Result<Dataset, DatasetError>)
    requires forall j :: 0 <= j < |sequences| ==> 2 <= |sequences[j]|
    ensures r == Err(NoSequences) <==> sequences == []
    ensures r == Err(TargetOutOfRange) ==>
      exists j :: 0 <= j < |sequences| && !OneHot.InRange(Last(sequences[j]), vocabSize)
    ensures r.Ok? ==> MaxLength(sequences) == Some(r.value.maxLength) && 2 <= r.value.maxLength
    ensures r.Ok? ==> IsTrainingData(sequences, vocabSize, r.value)
  {
    var longest := MaxLength(sequences);
    if longest.None? then Err(NoSequences)
    else
      LongestIsAtLeastTwo(sequences);
      Assemble(sequences, vocabSize, longest.value)
  }

  /** The script from the framing loop to `to_categorical`. */
  method BuildDataset(lines: seq<string>, tokenizer: Tokenizer) returns (r: Result<Dataset, DatasetError>)
    ensures r == Prepare(Framed(lines, tokenizer), VocabSize(tokenizer))
  {
    var sequences := FrameLines(lines, tokenizer);
    r := Prepare(sequences, VocabSize(tokenizer));
  }

  // ---------------------------------------------------------------------------
  // Generation

  /** Position of the first entry whose id is `id`, in iteration order. */
  function FirstWithId(wordIndex: seq<Entry>, id: int): (r: Option<nat>)
    ensures r.Some? ==> r.value < |wordIndex| && wordIndex[r.value].id == id
    ensures r.Some? ==> forall j :: 0 <= j < r.value ==> wordIndex[j].id != id
    ensures r.None? ==> forall j :: 0 <= j < |wordIndex| ==> wordIndex[j].id != id
  {
    if wordIndex == [] then None
    else if wordIndex[0].id == id then Some(0)
    else match FirstWithId(wordIndex[1..], id)
      case Some(k) => Some(k + 1)
      case None => None
  }

  /** The reverse lookup of `generate_seq`: the word of the first entry whose
      id is the predicted one, or `''` when no entry has it. */
  function WordFor(wordIndex: seq<Entry>, id: int): (w: string)
    ensures (exists k :: 0 <= k < |wordIndex| && wordIndex[k].id == id) ==>
      exists k :: 0 <= k < |wordIndex| && wordIndex[k].id == id && w == wordIndex[k].word &&
        forall j :: 0 <= j < k ==> wordIndex[j].id != id
    ensures (forall k :: 0 <= k < |wordIndex| ==> wordIndex[k].id != id) ==> w == ""
  {
    match FirstWithId(wordIndex, id)
    case Some(k) => wordIndex[k].word
    case None => ""
  }

  /** `word_index[w]`: the id of word `w`, or `None` where Python raises KeyError. */
  function IdOf(wordIndex: seq<Entry>, w: string): (r: Option<int>)
    ensures r.Some? ==> exists k :: 0 <= k < |wordIndex| && wordIndex[k] == Entry(w, r.value)
    ensures r.None? ==> forall k :: 0 <= k < |wordIndex| ==> wordIndex[k].word != w
  {
    if wordIndex == [] then None
    else if wordIndex[0].word == w then Some(wordIndex[0].id)
    else
      var r := IdOf(wordIndex[1..], w);
      assert r.Some? ==> exists k :: 0 <= k < |wordIndex| && wordIndex[k] == Entry(w, r.value) by {
        if r.Some? {
          var k :| 0 <= k < |wordIndex[1..]| && wordIndex[1..][k] == Entry(w, r.value);
          assert wordIndex[k + 1] == Entry(w, r.value);
        }
      }
      r
  }

  /** The linear scan of `generate_seq` over `word_index.items()`, stopping at
      the first entry with the predicted id. */
  method ReverseLookup(wordIndex: seq<Entry>, yhat: int) returns (outWord: string)
    ensures outWord == WordFor(wordIndex, yhat)
  {
    outWord := "";
    for k := 0 to |wordIndex|
      invariant outWord == ""
      invariant forall j :: 0 <= j < k ==> wordIndex[j].id != yhat
    {
      if wordIndex[k].id == yhat {
        outWord := wordIndex[k].word;
        assert FirstWithId(wordIndex, yhat) == Some(k);
        return;
      }
    }
  }

  /** A non-empty word found for `yhat` is a key of `word_index` whose id is `yhat`. */
  lemma LookupAgreesWithIndex(wordIndex: seq<Entry>, yhat: int)
    requires UniqueWords(wordIndex)
    requires WordFor(wordIndex, yhat) != ""
    ensures IdOf(wordIndex, WordFor(wordIndex, yhat)) == Some(yhat)
  {
  }

  /** Looking up the id of an entry gives back that entry's word, as long as
      no two entries share an id. */
  lemma LookupOfEntry(wordIndex: seq<Entry>, k: nat)
    requires UniqueIds(wordIndex)
    requires k < |wordIndex|
    ensures WordFor(wordIndex, wordIndex[k].id) == wordIndex[k].word
  {
  }

  /** With the ids a Keras tokenizer hands out, 1, 2, ... in iteration order,
      the lookup of id `i` is the `i`-th word, and every other id (the padding
      class 0 among them) gives `''`. */
  lemma LookupWithKerasIds(wordIndex: seq<Entry>, yhat: int)
    requires forall k :: 0 <= k < |wordIndex| ==> wordIndex[k].id == k + 1
    ensures 1 <= yhat <= |wordIndex| ==> WordFor(wordIndex, yhat) == wordIndex[yhat - 1].word
    ensures (yhat < 1 || |wordIndex| < yhat) ==> WordFor(wordIndex, yhat) == ""
  {
  }

  /** The word appended after `text`: encode it, pre-pad it to `maxLength`,
      predict a class and look its word up. */
  function NextWord(model: Model, tokenizer: Tokenizer, maxLength: nat, text: string): (w: string)
    ensures var yhat := model(PadPre(tokenizer.encode(text), maxLength));
      (exists k :: 0 <= k < |tokenizer.wordIndex| && tokenizer.wordIndex[k].id == yhat &&
        w == tokenizer.wordIndex[k].word) ||
      (w == "" && forall k :: 0 <= k < |tokenizer.wordIndex| ==> tokenizer.wordIndex[k].id != yhat)
  {
    WordFor(tokenizer.wordIndex, model(PadPre(tokenizer.encode(text), maxLength)))
  }

  /** The `n` words `generate_seq` appends after `text`, in order. */
  function WordsGenerated(model: Model, tokenizer: Tokenizer, maxLength: nat, text: string, n: nat): (words: seq<string>)
    ensures |words| == n
    decreases n
  {
    if n == 0 then []
    else
      var w := NextWord(model, tokenizer, maxLength, text);
      [w] + WordsGenerated(model, tokenizer, maxLength, text + " " + w, n - 1)
  }

  /** Every generated word is `''` or a word of the vocabulary. */
  lemma {:induction false} GeneratedWordsFromVocabulary(model: Model, tokenizer: Tokenizer, maxLength: nat, text: string, n: nat)
    ensures forall i :: 0 <= i < n ==> (WordsGenerated(model, tokenizer, maxLength, text, n)[i] == "" ||
      exists k :: 0 <= k < |tokenizer.wordIndex| &&
        tokenizer.wordIndex[k].word == WordsGenerated(model, tokenizer, maxLength, text, n)[i])
    decreases n
  {
    if n > 0 {
      var w := NextWord(model, tokenizer, maxLength, text);
      GeneratedWordsFromVocabulary(model, tokenizer, maxLength, text + " " + w, n - 1);
    }
  }

  /** The text of the appended words, each after one space. */
  function Spaced(words: seq<string>): string {
    if words == [] then "" else " " + words[0] + Spaced(words[1..])
  }

  /** Appending one more word to the generated text appends a space and it. */
  lemma {:induction false} SpacedAppend(words: seq<string>, w: string)
    ensures Spaced(words + [w]) == Spaced(words) + " " + w
  {
    if words != [] {
      assert (words + [w])[1..] == words[1..] + [w];
      SpacedAppend(words[1..], w);
    }
  }

  /** Word `i` of a generation is the word predicted from the seed followed by
      the `i` words generated before it: each prediction sees all earlier output. */
  lemma {:induction false} WordsGeneratedAt(model: Model, tokenizer: Tokenizer, maxLength: nat, text: string, n: nat, i: nat)
    requires i < n
    ensures var words := WordsGenerated(model, tokenizer, maxLength, text, n);
      words[i] == NextWord(model, tokenizer, maxLength, text + Spaced(words[..i]))
    decreases n
  {
    var words := WordsGenerated(model, tokenizer, maxLength, text, n);
    var w := NextWord(model, tokenizer, maxLength, text);
    var rest := WordsGenerated(model, tokenizer, maxLength, text + " " + w, n - 1);
    assert words == [w] + rest;
    if i == 0 {
      assert text + Spaced(words[..0]) == text;
    } else {
      WordsGeneratedAt(model, tokenizer, maxLength, text + " " + w, n - 1, i - 1);
      assert text + Spaced(words[..i]) == (text + " " + w) + Spaced(rest[..i - 1]) by {
        assert words[..i] == [w] + rest[..i - 1];
        SpacedAfterFirst(text, w, rest[..i - 1]);
      }
      assert words[i] == rest[i - 1];
    }
  }

  /** The text after the first generated word and the rest is the text
      extended by that word, followed by the rest. */
  lemma SpacedAfterFirst(text: string, w: string, rest: seq<string>)
    ensures text + Spaced([w] + rest) == (text + " " + w) + Spaced(rest)
  {
    assert ([w] + rest)[1..] == rest;
  }

  /** The text of `generate_seq` after one more word, in the shape of its loop. */
  lemma TextStep(seedText: string, done: seq<string>, w: string)
    ensures seedText + Spaced(done + [w]) == seedText + Spaced(done) + " " + w
  {
    SpacedAppend(done, w);
  }

  /** One pass of the loop of `generate_seq`: the words appended so far and
      the words still to come keep making up all the words of the call. */
  lemma GenerateStep(model: Model, tokenizer: Tokenizer, maxLength: nat, text: string, done: seq<string>, n: nat)
    requires 0 < n
    ensures var w := NextWord(model, tokenizer, maxLength, text);
      done + WordsGenerated(model, tokenizer, maxLength, text, n)
        == (done + [w]) + WordsGenerated(model, tokenizer, maxLength, text + " " + w, n - 1)
  {
  }

  /** `generate_seq`: `n_words` times, encode the text so far, pre-pad it,
      predict a class, look its word up and append a space and the word.
      The result is the seed followed by exactly `n_words` such segments. */
  method GenerateSeq(model: Model, tokenizer: Tokenizer, maxLength: nat, seedText: string, nWords: nat)
    returns (inText: string)
    ensures inText == seedText + Spaced(WordsGenerated(model, tokenizer, maxLength, seedText, nWords))
  {
    inText := seedText;
    ghost var done: seq<string> := [];
    for n := 0 to nWords
      invariant inText == seedText + Spaced(done)
      invariant done + WordsGenerated(model, tokenizer, maxLength, inText, nWords - n)
        == WordsGenerated(model, tokenizer, maxLength, seedText, nWords)
    {
      var encoded := tokenizer.encode(inText);
      var padded := PadPre(encoded, maxLength);
      var yhat := model(padded);
      var outWord := ReverseLookup(tokenizer.wordIndex, yhat);
      GenerateStep(model, tokenizer, maxLength, inText, done, nWords - n);
      TextStep(seedText, done, outWord);
      done := done + [outWord];
      inText := inText + " " + outWord;
    }
    assert done + [] == done;
  }
}
