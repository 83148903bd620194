/** One-hot rows of reals. `encode` in Labs/Lab11/numbers_mem_LSTM.py builds them
    by hand (`row = [0.0 ...]; row[value] = 1.0`) and `to_categorical` builds the
    targets of Labs/Lab11/LM_mem_LSTM.py by the same rule. Both write the row
    through a Python/numpy index: a negative value counts from the end of the
    row, and a value outside [-width, width) raises IndexError. */
module OneHot {
  import opened Wrappers

  /** The values that `row[value] = 1.0` accepts on a row of `width` cells. */
  predicate InRange(value: int, width: nat)
    ensures InRange(value, width) <==> (0 <= value < width || 0 <= value + width < width)
  {
    -(width as int) <= value < width
  }

  /** The cell that `row[value]` designates: a negative index counts from the end. */
  function Position(value: int, width: nat): (p: nat)
    requires InRange(value, width)
    ensures p < width
    ensures p == value % width
  {
    if value >= 0 then value else value + width
  }

  /** A row of `width` zeros with a single 1.0 written at `value`. */
  function Row(value: int, width: nat): (r: seq<real>)
    requires InRange(value, width)
    ensures |r| == width
  {
    seq(width, j => if j == Position(value, width) then 1.0 else 0.0)
  }

  /** The first cell of a row that holds 1.0: the decoding of a one-hot row. */
  function HotIndex(row: seq<real>): (r: Option<nat>)
    ensures r.Some? ==> r.value < |row| && row[r.value] == 1.0
    ensures r.Some? ==> forall j :: 0 <= j < r.value ==> row[j] != 1.0
    ensures r.None? ==> forall j :: 0 <= j < |row| ==> row[j] != 1.0
  {
    if row == [] then None
    else if row[0] == 1.0 then Some(0)
    else match HotIndex(row[1..])
      case Some(k) => Some(k + 1)
      case None => None
  }

  /** A row holds exactly one 1.0, at the position of its value, and 0.0
      everywhere else; decoding it gives that position back, which is the
      value itself when the value is not negative. */
  lemma RowIsOneHot(value: int, width: nat)
    requires InRange(value, width)
    ensures Row(value, width)[Position(value, width)] == 1.0
    ensures forall j :: 0 <= j < width && j != Position(value, width) ==> Row(value, width)[j] == 0.0
    ensures HotIndex(Row(value, width)) == Some(Position(value, width))
    ensures 0 <= value ==> HotIndex(Row(value, width)) == Some(value)
  {
  }

  /** Two values give the same row exactly when they designate the same cell. */
  lemma RowsEqualIffSamePosition(v: int, w: int, width: nat)
    requires InRange(v, width) && InRange(w, width)
    ensures Row(v, width) == Row(w, width) <==> Position(v, width) == Position(w, width)
  {
    if Row(v, width) == Row(w, width) {
      RowIsOneHot(v, width);
      RowIsOneHot(w, width);
    }
  }
}
