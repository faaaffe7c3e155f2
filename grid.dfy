/** The column-extraction transpose shared by the diagnostic and the bingo
    solvers (`transpose_vec`). */
module Grid {

  /** The inputs `transpose_vec` accepts without panicking: there is a row 0,
      and every row is at least as long as row 0 (every row is indexed at
      each column index of row 0). */
  predicate Transposable<T>(m: seq<seq<T>>) {
    |m| > 0 && forall j :: 0 <= j < |m| ==> |m[0]| <= |m[j]|
  }

  /** Every row has the length of row 0. */
  predicate Rectangular<T>(m: seq<seq<T>>) {
    |m| > 0 && forall j :: 0 <= j < |m| ==> |m[j]| == |m[0]|
  }

  /** The column at `index`, read top to bottom. */
  function Column<T>(m: seq<seq<T>>, index: nat): (c: seq<T>)
    requires forall j :: 0 <= j < |m| ==> index < |m[j]|
    ensures |c| == |m|
    ensures forall j :: 0 <= j < |m| ==> c[j] == m[j][index]
  {
    if m == [] then [] else [m[0][index]] + Column(m[1..], index)
  }

  /** One output row per column of row 0; the output is the input with its
      two indices swapped. */
  function Transpose<T>(m: seq<seq<T>>): (t: seq<seq<T>>)
    requires Transposable(m)
    ensures |t| == |m[0]|
    ensures forall i :: 0 <= i < |t| ==> |t[i]| == |m|
    ensures forall i, j :: 0 <= i < |t| && 0 <= j < |m| ==> t[i][j] == m[j][i]
  {
    seq(|m[0]|, i requires 0 <= i < |m[0]| => Column(m, i))
  }

  /** The transpose of a rectangular matrix with non-empty rows is itself
      rectangular, so it can be transposed again. */
  lemma TransposeRectangular<T>(m: seq<seq<T>>)
    requires Rectangular(m) && |m[0]| > 0
    ensures Transposable(Transpose(m)) && Rectangular(Transpose(m))
  {
  }

  /** Transposing twice gives back a rectangular matrix. */
  lemma TransposeTwice<T>(m: seq<seq<T>>)
    requires Rectangular(m) && |m[0]| > 0
    ensures Transposable(Transpose(m))
    ensures Transpose(Transpose(m)) == m
  {
    var t := Transpose(m);
    TransposeRectangular(m);
    var tt := Transpose(t);
    assert |tt| == |m|;
    forall j | 0 <= j < |m|
      ensures tt[j] == m[j]
    {
      assert |tt[j]| == |t| == |m[j]|;
      forall i | 0 <= i < |m[j]|
        ensures tt[j][i] == m[j][i]
      {
        assert tt[j][i] == t[i][j];
      }
    }
  }
}
