# Lab11 LSTM data pipelines, modelled in Dafny

This project models the list-processing core of two small Keras experiments
from the course repository's Lab 11. The Keras network, the Keras tokenizer and
the random draws are parameters of the model.

- `Labs/Lab11/LM_mem_LSTM.py` is a word-level language model.
  - Each line of a corpus is encoded into word ids and expanded into its
    prefixes of length 2 and up.
  - The prefixes are pre-padded with 0 to the longest length.
  - Each padded row is split into a context (all columns but the last) and a
    target (the last column).
  - The target is one-hot encoded over `vocab_size = len(word_index) + 1`
    classes.
  - `generate_seq` then appends `n_words` words to a seed text. Each word is
    found by encoding the text, pre-padding it, asking the network for a
    class id, and mapping the id back to a word by a linear scan of
    `word_index`.
- `Labs/Lab11/numbers_mem_LSTM.py` is a sequence-memory task.
  - A pattern of integers is one-hot encoded into rows of width `n_unique`.
  - Each step is paired with its successor.
  - Each input row is reshaped into a 1 x `n_unique` block.
  - The training and test sequences have the form
    `[seed] + rand_list + [seed]`.

The files:

- `wrappers.dfy`: `Option` and `Result`. They stand for the places where the
  scripts raise: `max` of an empty list, and an index assignment outside a row.
- `one_hot.dfy` (module `OneHot`): the one-hot row. The row is written through
  a Python/numpy index, so a negative value counts from the end of the row. A
  value outside `[-width, width)` raises IndexError. The same rule serves the
  hand-written `encode` of the numbers script and `to_categorical` in the
  language-model script.
- `language_model.dfy` (module `LanguageModel`): the tokenizer is
  `Tokenizer(wordIndex, encode)`. `wordIndex` holds the `(word, id)` pairs of
  `word_index` in iteration order. `encode` is `texts_to_sequences` applied to
  one text. The network is `Model`, a function from a padded context to a
  class id.
  - The framing loop is the method `FrameLines`, proved against the function
    `Framed`.
  - Lines 73-79 are the function `Prepare`. It returns an error where Python
    raises.
  - The reverse lookup is the method `ReverseLookup`, proved against
    `WordFor`.
  - The generation loop is the method `GenerateSeq`. It is proved to return
    the seed followed by one space-and-word segment per element of
    `WordsGenerated`.
- `numbers_memory.dfy` (module `NumbersMemory`): `Encode`, `ToXyPairs`,
  `ToLstmDataset` and the loop that builds `seqs`, `seqsX` and `seqsY`. Each
  is an imperative method with its loop invariants. `Encode` allocates each
  row as an array and writes the 1.0 in place.

Two facts about Keras shape the lookup:

- Keras' `Tokenizer` orders ids by word frequency, handing out 1, 2, ... in the
  iteration order of `word_index`. The model takes `word_index` as given.
  `LookupWithKerasIds` states the lookup for that layout.
- Class 0 is the padding id and belongs to no word. The output layer still has
  `vocab_size` classes (Labs/Lab11/LM_mem_LSTM.py:84), so 0 can be predicted.
  Predicting 0 appends `' '` and an empty word.

## Model

| member | source | states |
|---|---|---|
| `OneHot.InRange` | Labs/Lab11/numbers_mem_LSTM.py:19 | `row[value] = 1.0` accepts exactly the values that name a cell counting from the start, or counting back from the end; any other value raises IndexError |
| `OneHot.Position` | Labs/Lab11/numbers_mem_LSTM.py:19 | the cell `row[value]` designates is inside the row and equals `value % width`: a negative index counts from the end |
| `OneHot.Row` | Labs/Lab11/numbers_mem_LSTM.py:18-19 | a one-hot row has `width` cells |
| `OneHot.HotIndex` | Labs/Lab11/numbers_mem_LSTM.py:18-19 | the reference decoder, the inverse of `Row`: the first cell holding 1.0, or nothing when no cell does |
| `OneHot.RowIsOneHot` | Labs/Lab11/numbers_mem_LSTM.py:18-19 | a row holds 1.0 at the value's cell and 0.0 everywhere else, and decoding it gives that cell back, which is the value itself when the value is not negative |
| `OneHot.RowsEqualIffSamePosition` | Labs/Lab11/numbers_mem_LSTM.py:18-19 | two values give the same row if and only if they designate the same cell |
| `LanguageModel.VocabSize` | Labs/Lab11/LM_mem_LSTM.py:62 | the non-negative class ids of `vocab_size` classes are exactly the padding id 0 and the ids up to `len(word_index)` |
| `LanguageModel.Prefixes` | Labs/Lab11/LM_mem_LSTM.py:68-70 | a line of k ids contributes exactly max(0, k-1) sequences, and the j-th is `encoded[:j+2]`, so lengths strictly increase |
| `LanguageModel.Framed` | Labs/Lab11/LM_mem_LSTM.py:65-70 | every framed sequence has at least two ids |
| `LanguageModel.FramedConcat` | Labs/Lab11/LM_mem_LSTM.py:65-70 | framing a corpus is framing its parts one after the other, so each line contributes its own prefixes in line order |
| `LanguageModel.FramedArePrefixes` | Labs/Lab11/LM_mem_LSTM.py:66-70 | every framed sequence is a prefix of the encoding of some line |
| `LanguageModel.FrameLines` | Labs/Lab11/LM_mem_LSTM.py:65-70 | the nested framing loop builds exactly `Framed` of the lines |
| `LanguageModel.MaxLength` | Labs/Lab11/LM_mem_LSTM.py:73 | `max_length` is at least every sequence's length and equals one of them; there is none (Python raises) exactly when there are no sequences |
| `LanguageModel.PadPre` | Labs/Lab11/LM_mem_LSTM.py:24 | a padded row has length m, and cell i holds the element of s at the same distance from the end, or 0 where s is shorter |
| `LanguageModel.PadPreIdempotent` | Labs/Lab11/LM_mem_LSTM.py:74 | padding a row that has full length leaves it unchanged, so padding twice is padding once |
| `LanguageModel.PadPreKeepsSequence` | Labs/Lab11/LM_mem_LSTM.py:74 | a padded row that is not cut ends with the whole sequence, after zeros only |
| `LanguageModel.PadPreSplit` | Labs/Lab11/LM_mem_LSTM.py:78 | dropping the last column of a padded row gives the padded context, and the last column is the last token |
| `LanguageModel.Last` | Labs/Lab11/LM_mem_LSTM.py:78 | the target `s[-1]` is the token that follows the context: the context plus the target is the whole sequence |
| `LanguageModel.Context` | Labs/Lab11/LM_mem_LSTM.py:78 | the context `s[:-1]` is the sequence minus one token, and a prefix of it |
| `LanguageModel.SplitPadded` | Labs/Lab11/LM_mem_LSTM.py:74-78 | the same holds for every row of the padded batch |
| `LanguageModel.ToCategorical` | Labs/Lab11/LM_mem_LSTM.py:79 | an error exactly when some target is outside the classes; otherwise one one-hot row per target, in order |
| `LanguageModel.SplitColumns` | Labs/Lab11/LM_mem_LSTM.py:78 | X row j is sequence j's context pre-padded to `max_length-1` columns, and y j is its last token |
| `LanguageModel.Assemble` | Labs/Lab11/LM_mem_LSTM.py:74-79 | an error only when a target is outside the classes; otherwise the rows are training data as `IsTrainingData` describes |
| `LanguageModel.LongestIsAtLeastTwo` | Labs/Lab11/LM_mem_LSTM.py:73 | `max_length` over framed sequences is at least 2, so every row has a context column and a target |
| `LanguageModel.Prepare` | Labs/Lab11/LM_mem_LSTM.py:73-79 | no sequences is the only case of NoSequences; an out-of-range target is the only other error; otherwise `max_length` is the longest sequence (at least 2), X has `max_length-1` columns holding the padded contexts, and each y is the one-hot row of the sequence's last token over `vocab_size` classes |
| `LanguageModel.BuildDataset` | Labs/Lab11/LM_mem_LSTM.py:62-79 | the script from the framing loop to `to_categorical` computes `Prepare` of the framed corpus with `vocab_size = len(word_index) + 1` |
| `LanguageModel.FirstWithId` | Labs/Lab11/LM_mem_LSTM.py:29-32 | the position of the first entry with the id, with no earlier entry having it, or none when no entry has it |
| `LanguageModel.WordFor` | Labs/Lab11/LM_mem_LSTM.py:28-32 | when some entry has the predicted id, the word of the first such entry in iteration order; otherwise `''` |
| `LanguageModel.IdOf` | Labs/Lab11/LM_mem_LSTM.py:29 | the reference dictionary lookup `word_index[w]` that the lookup properties talk about: the id paired with w, missing only when no entry has word w |
| `LanguageModel.ReverseLookup` | Labs/Lab11/LM_mem_LSTM.py:28-32 | the scan with early `break` returns exactly `WordFor` |
| `LanguageModel.LookupAgreesWithIndex` | Labs/Lab11/LM_mem_LSTM.py:29-32 | a non-empty word found for `yhat` satisfies `word_index[w] == yhat` |
| `LanguageModel.LookupOfEntry` | Labs/Lab11/LM_mem_LSTM.py:28-32 | with ids unique, looking up an entry's id gives back its word |
| `LanguageModel.LookupWithKerasIds` | Labs/Lab11/LM_mem_LSTM.py:28-32 | with Keras ids 1, 2, ... in order, id i gives the i-th word, and any other id (the padding class 0 among them) gives `''` |
| `LanguageModel.NextWord` | Labs/Lab11/LM_mem_LSTM.py:22-32 | one step of the loop: the appended word is the word of an entry whose id is the class predicted for the pre-padded encoding of the text, or `''` when no entry has that id |
| `LanguageModel.WordsGenerated` | Labs/Lab11/LM_mem_LSTM.py:20-34 | exactly `n_words` words are generated |
| `LanguageModel.GeneratedWordsFromVocabulary` | Labs/Lab11/LM_mem_LSTM.py:28-34 | every generated word is `''` or a word of `word_index` |
| `LanguageModel.WordsGeneratedAt` | Labs/Lab11/LM_mem_LSTM.py:20-34 | word i is the word predicted from the seed followed by the i words generated before it, so each prediction sees all earlier output |
| `LanguageModel.SpacedAppend` | Labs/Lab11/LM_mem_LSTM.py:34 | appending a word to the generated words appends a space and the word to their text |
| `LanguageModel.GenerateSeq` | Labs/Lab11/LM_mem_LSTM.py:17-35 | the result is `seed_text` followed by exactly `n_words` segments, each a space and the word looked up for the model's prediction on the pre-padded text so far |
| `NumbersMemory.Encode` | Labs/Lab11/numbers_mem_LSTM.py:15-21 | succeeds exactly when every value fits a row of `n_unique`; then one row per value, in order, each the one-hot row of its value; otherwise the error names the first value that does not fit |
| `NumbersMemory.ToXyPairs` | Labs/Lab11/numbers_mem_LSTM.py:24-29 | X and y both have `len(encoded)-1` elements (0 for empty input), `X[i] == encoded[i]`, `y[i] == encoded[i+1]`; y is X shifted by one step, and X plus the last step, or the first step plus y, gives back the input |
| `NumbersMemory.ToLstmDataset` | Labs/Lab11/numbers_mem_LSTM.py:32-42 | succeeds exactly when every value fits; then n-1 samples, each a 1 x `n_unique` block holding step i's row, with n-1 targets of width `n_unique` holding step i+1's row |
| `NumbersMemory.BuildSequences` | Labs/Lab11/numbers_mem_LSTM.py:53-60 | each sequence is `[seed] + rand_list + [seed]`, has length `n_len + 2`, begins and ends with the same value and lies in `[0, n_unique)`; its samples and targets are those of `to_lstm_dataset` |

## Left out

- The Keras network: building, `compile`, `fit`, `reset_states`, `model.summary()` and the inside of `predict_classes`. It is external, trained numerically and floating point, so it is the parameter `Model`.
- The Keras `Tokenizer`: `fit_on_texts`, and the filtering, lower-casing and frequency ordering of `texts_to_sequences`. This is library code, so `word_index` and the encoder are parameters. `VocabSize` counts the entries given; the dictionary property that no word repeats is the predicate `UniqueWords`, required only where the lookup lemmas need it.
- `data.split('\n')` and the hard-coded corpus: a Python built-in on a literal, so the lines are the input of `FrameLines`.
- `LanguageModel.PadPre`: models `pad_sequences` as "right-align, fill with 0 on the left, keep the last m". It leaves out Keras' failure for `maxlen=0` on a non-empty sequence. That case is unreachable here, because `max_length - 1` is at least 1.
- The int32 dtype of `pad_sequences` and the float32 of `to_categorical`. Ids are unbounded integers and the one-hot cells are reals.
- `predict_classes` returns a one-element array, and `index == yhat` compares an id with it. The model takes the predicted id as an integer.
- Randomness: `random.randint` for `rand_list` and the seeds. The draws are the parameters of `BuildSequences`, whose requires states the range `randint(0, n_unique-1)` draws from.
- The test set built at Labs/Lab11/numbers_mem_LSTM.py:62-70 is built by the same loop as the training set, so `BuildSequences` models both.
- pandas `DataFrame(...).values` and numpy `reshape`: only the resulting shapes and contents are modelled.
- The prediction loop and the accuracy computation at Labs/Lab11/numbers_mem_LSTM.py:90-101. They are model output and float division.
- `print`, `tqdm` and every console output.
- Projects/boto3_s3.py: an S3 upload with a directory walk and file reads, all I/O.
