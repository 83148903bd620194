/** The sequence-memory experiment of Labs/Lab11/numbers_mem_LSTM.py, without
    Keras and pandas: one-hot encoding of a pattern, its pairing of each step
    with the next, the per-sample reshape for a stateful LSTM, and the
    training and test sequences `[seed] + rand_list + [seed]`. The random
    draws are parameters. */
module NumbersMemory {
  import opened Wrappers
  import OneHot

  /** The IndexError of `row[value] = 1.0`: where in the pattern, and which value. */
  datatype IndexError = IndexError(position: nat, value: int)

  /** `encode(pattern, n_unique)`: one row of `n_unique` zeros per value, with
      1.0 written at the value; the first value outside the row raises. */
  method Encode(pattern: seq<int>, nUnique: nat) returns (r: Result<seq<seq<real>>, IndexError>)
    ensures r.Ok? <==> forall i :: 0 <= i < |pattern| ==> OneHot.InRange(pattern[i], nUnique)
    ensures r.Ok? ==> |r.value| == |pattern|
    ensures r.Ok? ==> forall i :: 0 <= i < |pattern| ==> r.value[i] == OneHot.Row(pattern[i], nUnique)
    ensures r.Err? ==>
      var e := r.error;
      e.position < |pattern| && e.value == pattern[e.position] && !OneHot.InRange(e.value, nUnique) &&
      forall i :: 0 <= i < e.position ==> OneHot.InRange(pattern[i], nUnique)
  {
    var encoded: seq<seq<real>> := [];
    for i := 0 to |pattern|
      invariant |encoded| == i
      invariant forall k :: 0 <= k < i ==> OneHot.InRange(pattern[k], nUnique)
      invariant forall k :: 0 <= k < i ==> encoded[k] == OneHot.Row(pattern[k], nUnique)
    {
      var value := pattern[i];
      var row := new real[nUnique](_ => 0.0);
      if !OneHot.InRange(value, nUnique) {
        return Err(IndexError(i, value));
      }
      var p := OneHot.Position(value, nUnique);
      row[p] := 1.0;
      assert row[..] == OneHot.Row(value, nUnique);
      encoded := encoded + [row[..]];
    }
    return Ok(encoded);
  }

  /** `to_xy_pairs(encoded)`: for `i` in `range(1, len(encoded))`, the input is
      step `i-1` and the output step `i`. */
  method ToXyPairs<T>(encoded: seq<T>) returns (x: seq<T>, y: seq<T>)
    ensures |x| == |y| == if |encoded| == 0 then 0 else |encoded| - 1
    ensures forall i :: 0 <= i < |x| ==> x[i] == encoded[i] && y[i] == encoded[i + 1]
    ensures |encoded| > 0 ==> x + [encoded[|encoded| - 1]] == encoded && [encoded[0]] + y == encoded
    ensures |x| > 0 ==> x[1..] == y[..|y| - 1]
  {
    x, y := [], [];
    var i := 1;
    while i < |encoded|
      invariant 1 <= i
      invariant i <= |encoded| || i == 1
      invariant |x| == |y| == i - 1
      invariant forall k :: 0 <= k < i - 1 ==> x[k] == encoded[k] && y[k] == encoded[k + 1]
    {
      x := x + [encoded[i - 1]];
      y := y + [encoded[i]];
      i := i + 1;
    }
  }

  /** The number of input/output pairs of a sequence of `n` steps. */
  function PairCount(n: nat): nat {
    if n == 0 then 0 else n - 1
  }

  /** `to_lstm_dataset(sequence, n_unique)`: encode, pair, and reshape every
      input row into a 1 x n_unique block; the outputs stay rows. */
  method ToLstmDataset(sequence: seq<int>, nUnique: nat)
    returns (r: Result<(seq<seq<seq<real>>>, seq<seq<real>>), IndexError>)
    ensures r.Ok? <==> forall i :: 0 <= i < |sequence| ==> OneHot.InRange(sequence[i], nUnique)
    ensures r.Ok? ==> |r.value.0| == |r.value.1| == PairCount(|sequence|)
    ensures r.Ok? ==> forall i :: 0 <= i < |r.value.0| ==>
      |r.value.0[i]| == 1 && |r.value.0[i][0]| == nUnique && |r.value.1[i]| == nUnique &&
      r.value.0[i] == [OneHot.Row(sequence[i], nUnique)] &&
      r.value.1[i] == OneHot.Row(sequence[i + 1], nUnique)
  {
    var encoded := Encode(sequence, nUnique);
    if encoded.Err? {
      return Err(encoded.error);
    }
    var x, y := ToXyPairs(encoded.value);
    var lstmX := seq(|x|, i requires 0 <= i < |x| => [x[i]]);
    return Ok((lstmX, y));
  }

  /** The loops that build `seqs`, `seqsX` and `seqsY` (the training set, and
      the test set the same way): one sequence `[seed] + rand_list + [seed]`
      per drawn seed, and its LSTM samples. The draws come from
      `random.randint(0, n_unique-1)`, so they lie in `[0, n_unique)`. */
  method BuildSequences(seeds: seq<int>, randList: seq<int>, nUnique: nat)
    returns (seqs: seq<seq<int>>, seqsX: seq<seq<seq<seq<real>>>>, seqsY: seq<seq<seq<real>>>)
    requires forall i :: 0 <= i < |seeds| ==> 0 <= seeds[i] < nUnique
    requires forall i :: 0 <= i < |randList| ==> 0 <= randList[i] < nUnique
    ensures |seqs| == |seqsX| == |seqsY| == |seeds|
    ensures forall i :: 0 <= i < |seeds| ==>
      seqs[i] == [seeds[i]] + randList + [seeds[i]] &&
      |seqs[i]| == |randList| + 2 && seqs[i][0] == seqs[i][|seqs[i]| - 1] &&
      forall t :: 0 <= t < |seqs[i]| ==> 0 <= seqs[i][t] < nUnique
    ensures forall i :: 0 <= i < |seeds| ==>
      |seqsX[i]| == |seqsY[i]| == |randList| + 1 &&
      forall t :: 0 <= t < |randList| + 1 ==>
        seqsX[i][t] == [OneHot.Row(seqs[i][t], nUnique)] && seqsY[i][t] == OneHot.Row(seqs[i][t + 1], nUnique)
  {
    seqs, seqsX, seqsY := [], [], [];
    for i := 0 to |seeds|
      invariant |seqs| == |seqsX| == |seqsY| == i
      invariant forall k :: 0 <= k < i ==> seqs[k] == [seeds[k]] + randList + [seeds[k]]
      invariant forall k :: 0 <= k < i ==>
        |seqsX[k]| == |seqsY[k]| == |randList| + 1 &&
        forall t :: 0 <= t < |randList| + 1 ==>
          seqsX[k][t] == [OneHot.Row(seqs[k][t], nUnique)] && seqsY[k][t] == OneHot.Row(seqs[k][t + 1], nUnique)
    {
      var seed := seeds[i];
      seqs := seqs + [[seed] + randList + [seed]];
      var lstmData := ToLstmDataset(seqs[i], nUnique);
      assert lstmData.Ok?;
      seqsX := seqsX + [lstmData.value.0];
      seqsY := seqsY + [lstmData.value.1];
    }
  }
}
