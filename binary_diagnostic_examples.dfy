/** The diagnostic report of the Day 3 tests, worked through the model. */
module BinaryDiagnosticExamples {
  import opened Prelude
  import Grid
  import opened BinaryDiagnostic

  /** The twelve five-digit rows of the tests. */
  function ExampleReport(): seq<Row> {
    [[0, 0, 1, 0, 0], [1, 1, 1, 1, 0], [1, 0, 1, 1, 0], [1, 0, 1, 1, 1],
     [1, 0, 1, 0, 1], [0, 1, 1, 1, 1], [0, 0, 1, 1, 1], [1, 1, 1, 0, 0]]
    + [[1, 0, 0, 0, 0], [1, 1, 0, 0, 1], [0, 0, 0, 1, 0], [0, 1, 0, 1, 0]]
  }

  /** A row's contribution to `Zeros`. */
  function ZeroAt(row: Row, column: nat): nat
    requires column < |row|
  {
    if row[column] == 0 then 1 else 0
  }

  /** The zeros of four rows, spelled out. */
  lemma ZerosOfFour(a: Row, b: Row, c: Row, d: Row, column: nat)
    requires column < |a| && column < |b| && column < |c| && column < |d|
    ensures Readable([a, b, c, d], column)
    ensures Zeros([a, b, c, d], column)
      == ZeroAt(a, column) + ZeroAt(b, column) + ZeroAt(c, column) + ZeroAt(d, column)
  {
    assert [d][1..] == [];
    assert Zeros([d], column) == ZeroAt(d, column);
    assert [c, d][1..] == [d];
    assert Zeros([c, d], column) == ZeroAt(c, column) + Zeros([d], column);
    assert [b, c, d][1..] == [c, d];
    assert Zeros([b, c, d], column) == ZeroAt(b, column) + Zeros([c, d], column);
    assert [a, b, c, d][1..] == [b, c, d];
  }

  /** The report as three chunks of four rows. */
  lemma ExampleInThirds()
    ensures ExampleReport()
      == [[0, 0, 1, 0, 0], [1, 1, 1, 1, 0], [1, 0, 1, 1, 0], [1, 0, 1, 1, 1],
          [1, 0, 1, 0, 1], [0, 1, 1, 1, 1], [0, 0, 1, 1, 1], [1, 1, 1, 0, 0]]
       + [[1, 0, 0, 0, 0], [1, 1, 0, 0, 1], [0, 0, 0, 1, 0], [0, 1, 0, 1, 0]]
  {
  }

  /** Every row of the example has five digits. */
  lemma ExampleTransposable()
    ensures Grid.Transposable(ExampleReport())
  {
  }

  /** The example is a non-empty report of five-digit rows. */
  lemma ExampleWide()
    ensures |ExampleReport()| > 0 && |ExampleReport()[0]| == 5 && Wide(ExampleReport(), 5)
  {
  }

  lemma ExampleZerosFront0()
    ensures Readable([[0, 0, 1, 0, 0], [1, 1, 1, 1, 0], [1, 0, 1, 1, 0], [1, 0, 1, 1, 1], [1, 0, 1, 0, 1], [0, 1, 1, 1, 1], [0, 0, 1, 1, 1], [1, 1, 1, 0, 0]], 0)
    ensures Zeros([[0, 0, 1, 0, 0], [1, 1, 1, 1, 0], [1, 0, 1, 1, 0], [1, 0, 1, 1, 1], [1, 0, 1, 0, 1], [0, 1, 1, 1, 1], [0, 0, 1, 1, 1], [1, 1, 1, 0, 0]], 0) == 3
  {
    ZerosOfFour([0, 0, 1, 0, 0], [1, 1, 1, 1, 0], [1, 0, 1, 1, 0], [1, 0, 1, 1, 1], 0);
    assert Zeros([[0, 0, 1, 0, 0], [1, 1, 1, 1, 0], [1, 0, 1, 1, 0], [1, 0, 1, 1, 1]], 0) == 1;
    ZerosOfFour([1, 0, 1, 0, 1], [0, 1, 1, 1, 1], [0, 0, 1, 1, 1], [1, 1, 1, 0, 0], 0);
    assert Zeros([[1, 0, 1, 0, 1], [0, 1, 1, 1, 1], [0, 0, 1, 1, 1], [1, 1, 1, 0, 0]], 0) == 2;
    ZerosConcat([[0, 0, 1, 0, 0], [1, 1, 1, 1, 0], [1, 0, 1, 1, 0], [1, 0, 1, 1, 1]],
      [[1, 0, 1, 0, 1], [0, 1, 1, 1, 1], [0, 0, 1, 1, 1], [1, 1, 1, 0, 0]], 0);
  }

  lemma ExampleZeros0()
    ensures Readable(ExampleReport(), 0)
    ensures Zeros(ExampleReport(), 0) == 5
  {
    ZerosOfFour([1, 0, 0, 0, 0], [1, 1, 0, 0, 1], [0, 0, 0, 1, 0], [0, 1, 0, 1, 0], 0);
    assert Zeros([[1, 0, 0, 0, 0], [1, 1, 0, 0, 1], [0, 0, 0, 1, 0], [0, 1, 0, 1, 0]], 0) == 2;
    ExampleZerosFront0();
    ZerosConcat([[0, 0, 1, 0, 0], [1, 1, 1, 1, 0], [1, 0, 1, 1, 0], [1, 0, 1, 1, 1], [1, 0, 1, 0, 1], [0, 1, 1, 1, 1], [0, 0, 1, 1, 1], [1, 1, 1, 0, 0]],
      [[1, 0, 0, 0, 0], [1, 1, 0, 0, 1], [0, 0, 0, 1, 0], [0, 1, 0, 1, 0]], 0);
  }

  lemma ExampleZerosFront1()
    ensures Readable([[0, 0, 1, 0, 0], [1, 1, 1, 1, 0], [1, 0, 1, 1, 0], [1, 0, 1, 1, 1], [1, 0, 1, 0, 1], [0, 1, 1, 1, 1], [0, 0, 1, 1, 1], [1, 1, 1, 0, 0]], 1)
    ensures Zeros([[0, 0, 1, 0, 0], [1, 1, 1, 1, 0], [1, 0, 1, 1, 0], [1, 0, 1, 1, 1], [1, 0, 1, 0, 1], [0, 1, 1, 1, 1], [0, 0, 1, 1, 1], [1, 1, 1, 0, 0]], 1) == 5
  {
    ZerosOfFour([0, 0, 1, 0, 0], [1, 1, 1, 1, 0], [1, 0, 1, 1, 0], [1, 0, 1, 1, 1], 1);
    assert Zeros([[0, 0, 1, 0, 0], [1, 1, 1, 1, 0], [1, 0, 1, 1, 0], [1, 0, 1, 1, 1]], 1) == 3;
    ZerosOfFour([1, 0, 1, 0, 1], [0, 1, 1, 1, 1], [0, 0, 1, 1, 1], [1, 1, 1, 0, 0], 1);
    assert Zeros([[1, 0, 1, 0, 1], [0, 1, 1, 1, 1], [0, 0, 1, 1, 1], [1, 1, 1, 0, 0]], 1) == 2;
    ZerosConcat([[0, 0, 1, 0, 0], [1, 1, 1, 1, 0], [1, 0, 1, 1, 0], [1, 0, 1, 1, 1]],
      [[1, 0, 1, 0, 1], [0, 1, 1, 1, 1], [0, 0, 1, 1, 1], [1, 1, 1, 0, 0]], 1);
  }

  lemma ExampleZeros1()
    ensures Readable(ExampleReport(), 1)
    ensures Zeros(ExampleReport(), 1) == 7
  {
    ZerosOfFour([1, 0, 0, 0, 0], [1, 1, 0, 0, 1], [0, 0, 0, 1, 0], [0, 1, 0, 1, 0], 1);
    assert Zeros([[1, 0, 0, 0, 0], [1, 1, 0, 0, 1], [0, 0, 0, 1, 0], [0, 1, 0, 1, 0]], 1) == 2;
    ExampleZerosFront1();
    ZerosConcat([[0, 0, 1, 0, 0], [1, 1, 1, 1, 0], [1, 0, 1, 1, 0], [1, 0, 1, 1, 1], [1, 0, 1, 0, 1], [0, 1, 1, 1, 1], [0, 0, 1, 1, 1], [1, 1, 1, 0, 0]],
      [[1, 0, 0, 0, 0], [1, 1, 0, 0, 1], [0, 0, 0, 1, 0], [0, 1, 0, 1, 0]], 1);
  }

  lemma ExampleZerosFront2()
    ensures Readable([[0, 0, 1, 0, 0], [1, 1, 1, 1, 0], [1, 0, 1, 1, 0], [1, 0, 1, 1, 1], [1, 0, 1, 0, 1], [0, 1, 1, 1, 1], [0, 0, 1, 1, 1], [1, 1, 1, 0, 0]], 2)
    ensures Zeros([[0, 0, 1, 0, 0], [1, 1, 1, 1, 0], [1, 0, 1, 1, 0], [1, 0, 1, 1, 1], [1, 0, 1, 0, 1], [0, 1, 1, 1, 1], [0, 0, 1, 1, 1], [1, 1, 1, 0, 0]], 2) == 0
  {
    ZerosOfFour([0, 0, 1, 0, 0], [1, 1, 1, 1, 0], [1, 0, 1, 1, 0], [1, 0, 1, 1, 1], 2);
    assert Zeros([[0, 0, 1, 0, 0], [1, 1, 1, 1, 0], [1, 0, 1, 1, 0], [1, 0, 1, 1, 1]], 2) == 0;
    ZerosOfFour([1, 0, 1, 0, 1], [0, 1, 1, 1, 1], [0, 0, 1, 1, 1], [1, 1, 1, 0, 0], 2);
    assert Zeros([[1, 0, 1, 0, 1], [0, 1, 1, 1, 1], [0, 0, 1, 1, 1], [1, 1, 1, 0, 0]], 2) == 0;
    ZerosConcat([[0, 0, 1, 0, 0], [1, 1, 1, 1, 0], [1, 0, 1, 1, 0], [1, 0, 1, 1, 1]],
      [[1, 0, 1, 0, 1], [0, 1, 1, 1, 1], [0, 0, 1, 1, 1], [1, 1, 1, 0, 0]], 2);
  }

  lemma ExampleZeros2()
    ensures Readable(ExampleReport(), 2)
    ensures Zeros(ExampleReport(), 2) == 4
  {
    ZerosOfFour([1, 0, 0, 0, 0], [1, 1, 0, 0, 1], [0, 0, 0, 1, 0], [0, 1, 0, 1, 0], 2);
    assert Zeros([[1, 0, 0, 0, 0], [1, 1, 0, 0, 1], [0, 0, 0, 1, 0], [0, 1, 0, 1, 0]], 2) == 4;
    ExampleZerosFront2();
    ZerosConcat([[0, 0, 1, 0, 0], [1, 1, 1, 1, 0], [1, 0, 1, 1, 0], [1, 0, 1, 1, 1], [1, 0, 1, 0, 1], [0, 1, 1, 1, 1], [0, 0, 1, 1, 1], [1, 1, 1, 0, 0]],
      [[1, 0, 0, 0, 0], [1, 1, 0, 0, 1], [0, 0, 0, 1, 0], [0, 1, 0, 1, 0]], 2);
  }

  lemma ExampleZerosFront3()
    ensures Readable([[0, 0, 1, 0, 0], [1, 1, 1, 1, 0], [1, 0, 1, 1, 0], [1, 0, 1, 1, 1], [1, 0, 1, 0, 1], [0, 1, 1, 1, 1], [0, 0, 1, 1, 1], [1, 1, 1, 0, 0]], 3)
    ensures Zeros([[0, 0, 1, 0, 0], [1, 1, 1, 1, 0], [1, 0, 1, 1, 0], [1, 0, 1, 1, 1], [1, 0, 1, 0, 1], [0, 1, 1, 1, 1], [0, 0, 1, 1, 1], [1, 1, 1, 0, 0]], 3) == 3
  {
    ZerosOfFour([0, 0, 1, 0, 0], [1, 1, 1, 1, 0], [1, 0, 1, 1, 0], [1, 0, 1, 1, 1], 3);
    assert Zeros([[0, 0, 1, 0, 0], [1, 1, 1, 1, 0], [1, 0, 1, 1, 0], [1, 0, 1, 1, 1]], 3) == 1;
    ZerosOfFour([1, 0, 1, 0, 1], [0, 1, 1, 1, 1], [0, 0, 1, 1, 1], [1, 1, 1, 0, 0], 3);
    assert Zeros([[1, 0, 1, 0, 1], [0, 1, 1, 1, 1], [0, 0, 1, 1, 1], [1, 1, 1, 0, 0]], 3) == 2;
    ZerosConcat([[0, 0, 1, 0, 0], [1, 1, 1, 1, 0], [1, 0, 1, 1, 0], [1, 0, 1, 1, 1]],
      [[1, 0, 1, 0, 1], [0, 1, 1, 1, 1], [0, 0, 1, 1, 1], [1, 1, 1, 0, 0]], 3);
  }

  lemma ExampleZeros3()
    ensures Readable(ExampleReport(), 3)
    ensures Zeros(ExampleReport(), 3) == 5
  {
    ZerosOfFour([1, 0, 0, 0, 0], [1, 1, 0, 0, 1], [0, 0, 0, 1, 0], [0, 1, 0, 1, 0], 3);
    assert Zeros([[1, 0, 0, 0, 0], [1, 1, 0, 0, 1], [0, 0, 0, 1, 0], [0, 1, 0, 1, 0]], 3) == 2;
    ExampleZerosFront3();
    ZerosConcat([[0, 0, 1, 0, 0], [1, 1, 1, 1, 0], [1, 0, 1, 1, 0], [1, 0, 1, 1, 1], [1, 0, 1, 0, 1], [0, 1, 1, 1, 1], [0, 0, 1, 1, 1], [1, 1, 1, 0, 0]],
      [[1, 0, 0, 0, 0], [1, 1, 0, 0, 1], [0, 0, 0, 1, 0], [0, 1, 0, 1, 0]], 3);
  }

  lemma ExampleZerosFront4()
    ensures Readable([[0, 0, 1, 0, 0], [1, 1, 1, 1, 0], [1, 0, 1, 1, 0], [1, 0, 1, 1, 1], [1, 0, 1, 0, 1], [0, 1, 1, 1, 1], [0, 0, 1, 1, 1], [1, 1, 1, 0, 0]], 4)
    ensures Zeros([[0, 0, 1, 0, 0], [1, 1, 1, 1, 0], [1, 0, 1, 1, 0], [1, 0, 1, 1, 1], [1, 0, 1, 0, 1], [0, 1, 1, 1, 1], [0, 0, 1, 1, 1], [1, 1, 1, 0, 0]], 4) == 4
  {
    ZerosOfFour([0, 0, 1, 0, 0], [1, 1, 1, 1, 0], [1, 0, 1, 1, 0], [1, 0, 1, 1, 1], 4);
    assert Zeros([[0, 0, 1, 0, 0], [1, 1, 1, 1, 0], [1, 0, 1, 1, 0], [1, 0, 1, 1, 1]], 4) == 3;
    ZerosOfFour([1, 0, 1, 0, 1], [0, 1, 1, 1, 1], [0, 0, 1, 1, 1], [1, 1, 1, 0, 0], 4);
    assert Zeros([[1, 0, 1, 0, 1], [0, 1, 1, 1, 1], [0, 0, 1, 1, 1], [1, 1, 1, 0, 0]], 4) == 1;
    ZerosConcat([[0, 0, 1, 0, 0], [1, 1, 1, 1, 0], [1, 0, 1, 1, 0], [1, 0, 1, 1, 1]],
      [[1, 0, 1, 0, 1], [0, 1, 1, 1, 1], [0, 0, 1, 1, 1], [1, 1, 1, 0, 0]], 4);
  }

  lemma ExampleZeros4()
    ensures Readable(ExampleReport(), 4)
    ensures Zeros(ExampleReport(), 4) == 7
  {
    ZerosOfFour([1, 0, 0, 0, 0], [1, 1, 0, 0, 1], [0, 0, 0, 1, 0], [0, 1, 0, 1, 0], 4);
    assert Zeros([[1, 0, 0, 0, 0], [1, 1, 0, 0, 1], [0, 0, 0, 1, 0], [0, 1, 0, 1, 0]], 4) == 3;
    ExampleZerosFront4();
    ZerosConcat([[0, 0, 1, 0, 0], [1, 1, 1, 1, 0], [1, 0, 1, 1, 0], [1, 0, 1, 1, 1], [1, 0, 1, 0, 1], [0, 1, 1, 1, 1], [0, 0, 1, 1, 1], [1, 1, 1, 0, 0]],
      [[1, 0, 0, 0, 0], [1, 1, 0, 0, 1], [0, 0, 0, 1, 0], [0, 1, 0, 1, 0]], 4);
  }

  /** A bit as the digit it weighs. */
  function Weight(b: bool): nat {
    if b then 1 else 0
  }

  /** The value of five bits, first most significant. */
  lemma FiveBitsValue(bs: seq<bool>)
    requires |bs| == 5
    ensures BitsValue(bs)
      == 16 * Weight(bs[0]) + 8 * Weight(bs[1]) + 4 * Weight(bs[2]) + 2 * Weight(bs[3]) + Weight(bs[4])
  {
    assert bs[..4][..3] == bs[..3];
    assert bs[..3][..2] == bs[..2];
    assert bs[..2][..1] == bs[..1];
    assert bs[..1][..0] == [];
  }

  /** The value `bitvec_to_u32` reads from a five-digit row. */
  lemma FiveDigitRowValue(row: Row)
    requires |row| == 5
    ensures BitvecToU32(ToBools(row)) == Some(16 * (row[0] as nat) + 8 * (row[1] as nat) + 4 * (row[2] as nat) + 2 * (row[3] as nat) + row[4] as nat)
  {
    FiveBitsValue(ToBools(row));
  }

  /** Gamma bits `10110` give the rates 22 and 9. */
  lemma RatesOfGamma10110(transposed: seq<seq<Bit>>)
    requires |transposed| == 5
    requires var g := GammaBits(transposed); g[0] && !g[1] && g[2] && g[3] && !g[4]
    ensures CalculateBasicRates(transposed) == Some((22, 9))
  {
    var g := GammaBits(transposed);
    FiveBitsValue(g);
    FiveBitsValue(Complement(g));
  }

  /** Gamma `0b10110` (22) and epsilon `0b01001` (9). */
  lemma ExampleRates()
    ensures Grid.Transposable(ExampleReport())
    ensures CalculateBasicRates(Grid.Transpose(ExampleReport())) == Some((22, 9))
  {
    ExampleTransposable();
    ExampleZeros0();
    GammaAgainstZeros(ExampleReport(), 0);
    ExampleZeros1();
    GammaAgainstZeros(ExampleReport(), 1);
    ExampleZeros2();
    GammaAgainstZeros(ExampleReport(), 2);
    ExampleZeros3();
    GammaAgainstZeros(ExampleReport(), 3);
    ExampleZeros4();
    GammaAgainstZeros(ExampleReport(), 4);
    RatesOfGamma10110(Grid.Transpose(ExampleReport()));
  }

  // Each filtering step of the example, checked on its own.

  lemma ExampleOxygenDigit0()
    ensures MostCommonDigit(ExampleReport(), 0) == 1
  {
    ExampleZeros0();
  }

  lemma ExampleOxygenKeep0Part0()
    ensures KeepMatching([[0, 0, 1, 0, 0], [1, 1, 1, 1, 0], [1, 0, 1, 1, 0], [1, 0, 1, 1, 1]], 0, 1)
      == [[1, 1, 1, 1, 0], [1, 0, 1, 1, 0], [1, 0, 1, 1, 1]]
  {
  }

  lemma ExampleOxygenKeep0Part1()
    ensures KeepMatching([[1, 0, 1, 0, 1], [0, 1, 1, 1, 1], [0, 0, 1, 1, 1], [1, 1, 1, 0, 0]], 0, 1)
      == [[1, 0, 1, 0, 1], [1, 1, 1, 0, 0]]
  {
  }

  lemma ExampleOxygenKeep0Part2()
    ensures KeepMatching([[1, 0, 0, 0, 0], [1, 1, 0, 0, 1], [0, 0, 0, 1, 0], [0, 1, 0, 1, 0]], 0, 1)
      == [[1, 0, 0, 0, 0], [1, 1, 0, 0, 1]]
  {
  }

  lemma ExampleOxygenKeep0Front()
    ensures KeepMatching([[0, 0, 1, 0, 0], [1, 1, 1, 1, 0], [1, 0, 1, 1, 0], [1, 0, 1, 1, 1], [1, 0, 1, 0, 1], [0, 1, 1, 1, 1], [0, 0, 1, 1, 1], [1, 1, 1, 0, 0]], 0, 1)
      == [[1, 1, 1, 1, 0], [1, 0, 1, 1, 0], [1, 0, 1, 1, 1], [1, 0, 1, 0, 1], [1, 1, 1, 0, 0]]
  {
    KeepMatchingConcat([[0, 0, 1, 0, 0], [1, 1, 1, 1, 0], [1, 0, 1, 1, 0], [1, 0, 1, 1, 1]],
      [[1, 0, 1, 0, 1], [0, 1, 1, 1, 1], [0, 0, 1, 1, 1], [1, 1, 1, 0, 0]], 0, 1);
    assert [[0, 0, 1, 0, 0], [1, 1, 1, 1, 0], [1, 0, 1, 1, 0], [1, 0, 1, 1, 1]]
      + [[1, 0, 1, 0, 1], [0, 1, 1, 1, 1], [0, 0, 1, 1, 1], [1, 1, 1, 0, 0]]
      == [[0, 0, 1, 0, 0], [1, 1, 1, 1, 0], [1, 0, 1, 1, 0], [1, 0, 1, 1, 1], [1, 0, 1, 0, 1], [0, 1, 1, 1, 1], [0, 0, 1, 1, 1], [1, 1, 1, 0, 0]];
    assert [[1, 1, 1, 1, 0], [1, 0, 1, 1, 0], [1, 0, 1, 1, 1]] + [[1, 0, 1, 0, 1], [1, 1, 1, 0, 0]]
      == [[1, 1, 1, 1, 0], [1, 0, 1, 1, 0], [1, 0, 1, 1, 1], [1, 0, 1, 0, 1], [1, 1, 1, 0, 0]];
    ExampleOxygenKeep0Part0();
    ExampleOxygenKeep0Part1();
  }

  lemma ExampleOxygenKeep0()
    ensures KeepMatching(ExampleReport(), 0, 1)
      == [[1, 1, 1, 1, 0], [1, 0, 1, 1, 0], [1, 0, 1, 1, 1], [1, 0, 1, 0, 1], [1, 1, 1, 0, 0], [1, 0, 0, 0, 0], [1, 1, 0, 0, 1]]
  {
    ExampleInThirds();
    KeepMatchingConcat([[0, 0, 1, 0, 0], [1, 1, 1, 1, 0], [1, 0, 1, 1, 0], [1, 0, 1, 1, 1], [1, 0, 1, 0, 1], [0, 1, 1, 1, 1], [0, 0, 1, 1, 1], [1, 1, 1, 0, 0]],
      [[1, 0, 0, 0, 0], [1, 1, 0, 0, 1], [0, 0, 0, 1, 0], [0, 1, 0, 1, 0]], 0, 1);
    assert [[0, 0, 1, 0, 0], [1, 1, 1, 1, 0], [1, 0, 1, 1, 0], [1, 0, 1, 1, 1], [1, 0, 1, 0, 1], [0, 1, 1, 1, 1], [0, 0, 1, 1, 1], [1, 1, 1, 0, 0]]
      + [[1, 0, 0, 0, 0], [1, 1, 0, 0, 1], [0, 0, 0, 1, 0], [0, 1, 0, 1, 0]]
      == [[0, 0, 1, 0, 0], [1, 1, 1, 1, 0], [1, 0, 1, 1, 0], [1, 0, 1, 1, 1], [1, 0, 1, 0, 1], [0, 1, 1, 1, 1], [0, 0, 1, 1, 1], [1, 1, 1, 0, 0], [1, 0, 0, 0, 0], [1, 1, 0, 0, 1], [0, 0, 0, 1, 0], [0, 1, 0, 1, 0]];
    assert [[1, 1, 1, 1, 0], [1, 0, 1, 1, 0], [1, 0, 1, 1, 1], [1, 0, 1, 0, 1], [1, 1, 1, 0, 0]] + [[1, 0, 0, 0, 0], [1, 1, 0, 0, 1]]
      == [[1, 1, 1, 1, 0], [1, 0, 1, 1, 0], [1, 0, 1, 1, 1], [1, 0, 1, 0, 1], [1, 1, 1, 0, 0], [1, 0, 0, 0, 0], [1, 1, 0, 0, 1]];
    ExampleOxygenKeep0Front();
    ExampleOxygenKeep0Part2();
  }

  lemma ExampleOxygenStep0()
    ensures FilterFrom(ExampleReport(), MostCommon, 0, 5)
      == FilterFrom([[1, 1, 1, 1, 0], [1, 0, 1, 1, 0], [1, 0, 1, 1, 1], [1, 0, 1, 0, 1], [1, 1, 1, 0, 0], [1, 0, 0, 0, 0], [1, 1, 0, 0, 1]], MostCommon, 1, 5)
  {
    ExampleOxygenDigit0();
    ExampleOxygenKeep0();
  }

  lemma ExampleOxygenDigit1()
    ensures MostCommonDigit([[1, 1, 1, 1, 0], [1, 0, 1, 1, 0], [1, 0, 1, 1, 1], [1, 0, 1, 0, 1], [1, 1, 1, 0, 0], [1, 0, 0, 0, 0], [1, 1, 0, 0, 1]], 1) == 0
  {
    assert Zeros([[1, 1, 1, 1, 0], [1, 0, 1, 1, 0], [1, 0, 1, 1, 1], [1, 0, 1, 0, 1], [1, 1, 1, 0, 0], [1, 0, 0, 0, 0], [1, 1, 0, 0, 1]], 1) == 4;
  }

  lemma ExampleOxygenKeep1Part0()
    ensures KeepMatching([[1, 1, 1, 1, 0], [1, 0, 1, 1, 0], [1, 0, 1, 1, 1], [1, 0, 1, 0, 1]], 1, 0)
      == [[1, 0, 1, 1, 0], [1, 0, 1, 1, 1], [1, 0, 1, 0, 1]]
  {
  }

  lemma ExampleOxygenKeep1Part1()
    ensures KeepMatching([[1, 1, 1, 0, 0], [1, 0, 0, 0, 0], [1, 1, 0, 0, 1]], 1, 0)
      == [[1, 0, 0, 0, 0]]
  {
  }

  lemma ExampleOxygenKeep1()
    ensures KeepMatching([[1, 1, 1, 1, 0], [1, 0, 1, 1, 0], [1, 0, 1, 1, 1], [1, 0, 1, 0, 1], [1, 1, 1, 0, 0], [1, 0, 0, 0, 0], [1, 1, 0, 0, 1]], 1, 0)
      == [[1, 0, 1, 1, 0], [1, 0, 1, 1, 1], [1, 0, 1, 0, 1], [1, 0, 0, 0, 0]]
  {
    assert [[1, 1, 1, 1, 0], [1, 0, 1, 1, 0], [1, 0, 1, 1, 1], [1, 0, 1, 0, 1], [1, 1, 1, 0, 0], [1, 0, 0, 0, 0], [1, 1, 0, 0, 1]] == [[1, 1, 1, 1, 0], [1, 0, 1, 1, 0], [1, 0, 1, 1, 1], [1, 0, 1, 0, 1]] + [[1, 1, 1, 0, 0], [1, 0, 0, 0, 0], [1, 1, 0, 0, 1]];
    KeepMatchingConcat([[1, 1, 1, 1, 0], [1, 0, 1, 1, 0], [1, 0, 1, 1, 1], [1, 0, 1, 0, 1]],
      [[1, 1, 1, 0, 0], [1, 0, 0, 0, 0], [1, 1, 0, 0, 1]], 1, 0);
    assert [[1, 1, 1, 1, 0], [1, 0, 1, 1, 0], [1, 0, 1, 1, 1], [1, 0, 1, 0, 1]]
      + [[1, 1, 1, 0, 0], [1, 0, 0, 0, 0], [1, 1, 0, 0, 1]]
      == [[1, 1, 1, 1, 0], [1, 0, 1, 1, 0], [1, 0, 1, 1, 1], [1, 0, 1, 0, 1], [1, 1, 1, 0, 0], [1, 0, 0, 0, 0], [1, 1, 0, 0, 1]];
    assert [[1, 0, 1, 1, 0], [1, 0, 1, 1, 1], [1, 0, 1, 0, 1]] + [[1, 0, 0, 0, 0]]
      == [[1, 0, 1, 1, 0], [1, 0, 1, 1, 1], [1, 0, 1, 0, 1], [1, 0, 0, 0, 0]];
    ExampleOxygenKeep1Part0();
    ExampleOxygenKeep1Part1();
  }

  lemma ExampleOxygenStep1()
    ensures FilterFrom([[1, 1, 1, 1, 0], [1, 0, 1, 1, 0], [1, 0, 1, 1, 1], [1, 0, 1, 0, 1], [1, 1, 1, 0, 0], [1, 0, 0, 0, 0], [1, 1, 0, 0, 1]], MostCommon, 1, 5)
      == FilterFrom([[1, 0, 1, 1, 0], [1, 0, 1, 1, 1], [1, 0, 1, 0, 1], [1, 0, 0, 0, 0]], MostCommon, 2, 5)
  {
    ExampleOxygenDigit1();
    ExampleOxygenKeep1();
  }

  lemma ExampleOxygenDigit2()
    ensures MostCommonDigit([[1, 0, 1, 1, 0], [1, 0, 1, 1, 1], [1, 0, 1, 0, 1], [1, 0, 0, 0, 0]], 2) == 1
  {
    ZerosOfFour([1, 0, 1, 1, 0], [1, 0, 1, 1, 1], [1, 0, 1, 0, 1], [1, 0, 0, 0, 0], 2);
    assert Zeros([[1, 0, 1, 1, 0], [1, 0, 1, 1, 1], [1, 0, 1, 0, 1], [1, 0, 0, 0, 0]], 2) == 1;
  }

  lemma ExampleOxygenKeep2()
    ensures KeepMatching([[1, 0, 1, 1, 0], [1, 0, 1, 1, 1], [1, 0, 1, 0, 1], [1, 0, 0, 0, 0]], 2, 1)
      == [[1, 0, 1, 1, 0], [1, 0, 1, 1, 1], [1, 0, 1, 0, 1]]
  {
  }

  lemma ExampleOxygenStep2()
    ensures FilterFrom([[1, 0, 1, 1, 0], [1, 0, 1, 1, 1], [1, 0, 1, 0, 1], [1, 0, 0, 0, 0]], MostCommon, 2, 5)
      == FilterFrom([[1, 0, 1, 1, 0], [1, 0, 1, 1, 1], [1, 0, 1, 0, 1]], MostCommon, 3, 5)
  {
    ExampleOxygenDigit2();
    ExampleOxygenKeep2();
  }

  lemma ExampleOxygenDigit3()
    ensures MostCommonDigit([[1, 0, 1, 1, 0], [1, 0, 1, 1, 1], [1, 0, 1, 0, 1]], 3) == 1
  {
    assert Zeros([[1, 0, 1, 1, 0], [1, 0, 1, 1, 1], [1, 0, 1, 0, 1]], 3) == 1;
  }

  lemma ExampleOxygenKeep3()
    ensures KeepMatching([[1, 0, 1, 1, 0], [1, 0, 1, 1, 1], [1, 0, 1, 0, 1]], 3, 1)
      == [[1, 0, 1, 1, 0], [1, 0, 1, 1, 1]]
  {
  }

  lemma ExampleOxygenStep3()
    ensures FilterFrom([[1, 0, 1, 1, 0], [1, 0, 1, 1, 1], [1, 0, 1, 0, 1]], MostCommon, 3, 5)
      == FilterFrom([[1, 0, 1, 1, 0], [1, 0, 1, 1, 1]], MostCommon, 4, 5)
  {
    ExampleOxygenDigit3();
    ExampleOxygenKeep3();
  }

  lemma ExampleOxygenDigit4()
    ensures MostCommonDigit([[1, 0, 1, 1, 0], [1, 0, 1, 1, 1]], 4) == 1
  {
    assert Zeros([[1, 0, 1, 1, 0], [1, 0, 1, 1, 1]], 4) == 1;
  }

  lemma ExampleOxygenKeep4()
    ensures KeepMatching([[1, 0, 1, 1, 0], [1, 0, 1, 1, 1]], 4, 1)
      == [[1, 0, 1, 1, 1]]
  {
  }

  lemma ExampleOxygenStep4()
    ensures FilterFrom([[1, 0, 1, 1, 0], [1, 0, 1, 1, 1]], MostCommon, 4, 5)
      == FilterFrom([[1, 0, 1, 1, 1]], MostCommon, 5, 5)
  {
    ExampleOxygenDigit4();
    ExampleOxygenKeep4();
  }

  lemma ExampleOxygenFrom5()
    ensures FilterFrom([[1, 0, 1, 1, 1]], MostCommon, 5, 5) == [[1, 0, 1, 1, 1]]
  {
  }

  lemma ExampleOxygenFrom4()
    ensures FilterFrom([[1, 0, 1, 1, 0], [1, 0, 1, 1, 1]], MostCommon, 4, 5) == [[1, 0, 1, 1, 1]]
  {
    ExampleOxygenStep4();
    ExampleOxygenFrom5();
  }

  lemma ExampleOxygenFrom3()
    ensures FilterFrom([[1, 0, 1, 1, 0], [1, 0, 1, 1, 1], [1, 0, 1, 0, 1]], MostCommon, 3, 5) == [[1, 0, 1, 1, 1]]
  {
    ExampleOxygenStep3();
    ExampleOxygenFrom4();
  }

  lemma ExampleOxygenFrom2()
    ensures FilterFrom([[1, 0, 1, 1, 0], [1, 0, 1, 1, 1], [1, 0, 1, 0, 1], [1, 0, 0, 0, 0]], MostCommon, 2, 5) == [[1, 0, 1, 1, 1]]
  {
    ExampleOxygenStep2();
    ExampleOxygenFrom3();
  }

  lemma ExampleOxygenFrom1()
    ensures FilterFrom([[1, 1, 1, 1, 0], [1, 0, 1, 1, 0], [1, 0, 1, 1, 1], [1, 0, 1, 0, 1], [1, 1, 1, 0, 0], [1, 0, 0, 0, 0], [1, 1, 0, 0, 1]], MostCommon, 1, 5) == [[1, 0, 1, 1, 1]]
  {
    ExampleOxygenStep1();
    ExampleOxygenFrom2();
  }

  lemma ExampleOxygenFrom0()
    ensures FilterFrom(ExampleReport(), MostCommon, 0, 5) == [[1, 0, 1, 1, 1]]
  {
    ExampleOxygenStep0();
    ExampleOxygenFrom1();
  }

  lemma ExampleOxygenSurvivor()
    ensures FilterBinaries(ExampleReport(), MostCommon) == BitvecToU32(ToBools([1, 0, 1, 1, 1]))
  {
    ExampleWide();
    ExampleOxygenFrom0();
    FilterBinariesOfSurvivor(ExampleReport(), MostCommon, 5, [1, 0, 1, 1, 1]);
  }

  /** Oxygen generator rating `0b10111` (23). */
  lemma ExampleOxygen()
    ensures FilterBinaries(ExampleReport(), MostCommon) == Some(23)
  {
    ExampleOxygenSurvivor();
    FiveDigitRowValue([1, 0, 1, 1, 1]);
  }

  lemma ExampleCo2Digit0()
    ensures LeastCommonDigit(ExampleReport(), 0) == 0
  {
    ExampleZeros0();
  }

  lemma ExampleCo2Keep0Part0()
    ensures KeepMatching([[0, 0, 1, 0, 0], [1, 1, 1, 1, 0], [1, 0, 1, 1, 0], [1, 0, 1, 1, 1]], 0, 0)
      == [[0, 0, 1, 0, 0]]
  {
  }

  lemma ExampleCo2Keep0Part1()
    ensures KeepMatching([[1, 0, 1, 0, 1], [0, 1, 1, 1, 1], [0, 0, 1, 1, 1], [1, 1, 1, 0, 0]], 0, 0)
      == [[0, 1, 1, 1, 1], [0, 0, 1, 1, 1]]
  {
  }

  lemma ExampleCo2Keep0Part2()
    ensures KeepMatching([[1, 0, 0, 0, 0], [1, 1, 0, 0, 1], [0, 0, 0, 1, 0], [0, 1, 0, 1, 0]], 0, 0)
      == [[0, 0, 0, 1, 0], [0, 1, 0, 1, 0]]
  {
  }

  lemma ExampleCo2Keep0Front()
    ensures KeepMatching([[0, 0, 1, 0, 0], [1, 1, 1, 1, 0], [1, 0, 1, 1, 0], [1, 0, 1, 1, 1], [1, 0, 1, 0, 1], [0, 1, 1, 1, 1], [0, 0, 1, 1, 1], [1, 1, 1, 0, 0]], 0, 0)
      == [[0, 0, 1, 0, 0], [0, 1, 1, 1, 1], [0, 0, 1, 1, 1]]
  {
    KeepMatchingConcat([[0, 0, 1, 0, 0], [1, 1, 1, 1, 0], [1, 0, 1, 1, 0], [1, 0, 1, 1, 1]],
      [[1, 0, 1, 0, 1], [0, 1, 1, 1, 1], [0, 0, 1, 1, 1], [1, 1, 1, 0, 0]], 0, 0);
    assert [[0, 0, 1, 0, 0], [1, 1, 1, 1, 0], [1, 0, 1, 1, 0], [1, 0, 1, 1, 1]]
      + [[1, 0, 1, 0, 1], [0, 1, 1, 1, 1], [0, 0, 1, 1, 1], [1, 1, 1, 0, 0]]
      == [[0, 0, 1, 0, 0], [1, 1, 1, 1, 0], [1, 0, 1, 1, 0], [1, 0, 1, 1, 1], [1, 0, 1, 0, 1], [0, 1, 1, 1, 1], [0, 0, 1, 1, 1], [1, 1, 1, 0, 0]];
    assert [[0, 0, 1, 0, 0]] + [[0, 1, 1, 1, 1], [0, 0, 1, 1, 1]]
      == [[0, 0, 1, 0, 0], [0, 1, 1, 1, 1], [0, 0, 1, 1, 1]];
    ExampleCo2Keep0Part0();
    ExampleCo2Keep0Part1();
  }

  lemma ExampleCo2Keep0()
    ensures KeepMatching(ExampleReport(), 0, 0)
      == [[0, 0, 1, 0, 0], [0, 1, 1, 1, 1], [0, 0, 1, 1, 1], [0, 0, 0, 1, 0], [0, 1, 0, 1, 0]]
  {
    ExampleInThirds();
    KeepMatchingConcat([[0, 0, 1, 0, 0], [1, 1, 1, 1, 0], [1, 0, 1, 1, 0], [1, 0, 1, 1, 1], [1, 0, 1, 0, 1], [0, 1, 1, 1, 1], [0, 0, 1, 1, 1], [1, 1, 1, 0, 0]],
      [[1, 0, 0, 0, 0], [1, 1, 0, 0, 1], [0, 0, 0, 1, 0], [0, 1, 0, 1, 0]], 0, 0);
    assert [[0, 0, 1, 0, 0], [1, 1, 1, 1, 0], [1, 0, 1, 1, 0], [1, 0, 1, 1, 1], [1, 0, 1, 0, 1], [0, 1, 1, 1, 1], [0, 0, 1, 1, 1], [1, 1, 1, 0, 0]]
      + [[1, 0, 0, 0, 0], [1, 1, 0, 0, 1], [0, 0, 0, 1, 0], [0, 1, 0, 1, 0]]
      == [[0, 0, 1, 0, 0], [1, 1, 1, 1, 0], [1, 0, 1, 1, 0], [1, 0, 1, 1, 1], [1, 0, 1, 0, 1], [0, 1, 1, 1, 1], [0, 0, 1, 1, 1], [1, 1, 1, 0, 0], [1, 0, 0, 0, 0], [1, 1, 0, 0, 1], [0, 0, 0, 1, 0], [0, 1, 0, 1, 0]];
    assert [[0, 0, 1, 0, 0], [0, 1, 1, 1, 1], [0, 0, 1, 1, 1]] + [[0, 0, 0, 1, 0], [0, 1, 0, 1, 0]]
      == [[0, 0, 1, 0, 0], [0, 1, 1, 1, 1], [0, 0, 1, 1, 1], [0, 0, 0, 1, 0], [0, 1, 0, 1, 0]];
    ExampleCo2Keep0Front();
    ExampleCo2Keep0Part2();
  }

  lemma ExampleCo2Step0()
    ensures FilterFrom(ExampleReport(), LeastCommon, 0, 5)
      == FilterFrom([[0, 0, 1, 0, 0], [0, 1, 1, 1, 1], [0, 0, 1, 1, 1], [0, 0, 0, 1, 0], [0, 1, 0, 1, 0]], LeastCommon, 1, 5)
  {
    ExampleCo2Digit0();
    ExampleCo2Keep0();
  }

  lemma ExampleCo2Digit1()
    ensures LeastCommonDigit([[0, 0, 1, 0, 0], [0, 1, 1, 1, 1], [0, 0, 1, 1, 1], [0, 0, 0, 1, 0], [0, 1, 0, 1, 0]], 1) == 1
  {
    assert Zeros([[0, 0, 1, 0, 0], [0, 1, 1, 1, 1], [0, 0, 1, 1, 1], [0, 0, 0, 1, 0], [0, 1, 0, 1, 0]], 1) == 3;
  }

  lemma ExampleCo2Keep1()
    ensures KeepMatching([[0, 0, 1, 0, 0], [0, 1, 1, 1, 1], [0, 0, 1, 1, 1], [0, 0, 0, 1, 0], [0, 1, 0, 1, 0]], 1, 1)
      == [[0, 1, 1, 1, 1], [0, 1, 0, 1, 0]]
  {
  }

  lemma ExampleCo2Step1()
    ensures FilterFrom([[0, 0, 1, 0, 0], [0, 1, 1, 1, 1], [0, 0, 1, 1, 1], [0, 0, 0, 1, 0], [0, 1, 0, 1, 0]], LeastCommon, 1, 5)
      == FilterFrom([[0, 1, 1, 1, 1], [0, 1, 0, 1, 0]], LeastCommon, 2, 5)
  {
    ExampleCo2Digit1();
    ExampleCo2Keep1();
  }

  lemma ExampleCo2Digit2()
    ensures LeastCommonDigit([[0, 1, 1, 1, 1], [0, 1, 0, 1, 0]], 2) == 0
  {
    assert Zeros([[0, 1, 1, 1, 1], [0, 1, 0, 1, 0]], 2) == 1;
  }

  lemma ExampleCo2Keep2()
    ensures KeepMatching([[0, 1, 1, 1, 1], [0, 1, 0, 1, 0]], 2, 0)
      == [[0, 1, 0, 1, 0]]
  {
  }

  lemma ExampleCo2Step2()
    ensures FilterFrom([[0, 1, 1, 1, 1], [0, 1, 0, 1, 0]], LeastCommon, 2, 5)
      == FilterFrom([[0, 1, 0, 1, 0]], LeastCommon, 3, 5)
  {
    ExampleCo2Digit2();
    ExampleCo2Keep2();
  }

  lemma ExampleCo2From3()
    ensures FilterFrom([[0, 1, 0, 1, 0]], LeastCommon, 3, 5) == [[0, 1, 0, 1, 0]]
  {
    SingleRowStays([[0, 1, 0, 1, 0]], LeastCommon, 3, 5);
  }

  lemma ExampleCo2From2()
    ensures FilterFrom([[0, 1, 1, 1, 1], [0, 1, 0, 1, 0]], LeastCommon, 2, 5) == [[0, 1, 0, 1, 0]]
  {
    ExampleCo2Step2();
    ExampleCo2From3();
  }

  lemma ExampleCo2From1()
    ensures FilterFrom([[0, 0, 1, 0, 0], [0, 1, 1, 1, 1], [0, 0, 1, 1, 1], [0, 0, 0, 1, 0], [0, 1, 0, 1, 0]], LeastCommon, 1, 5) == [[0, 1, 0, 1, 0]]
  {
    ExampleCo2Step1();
    ExampleCo2From2();
  }

  lemma ExampleCo2From0()
    ensures FilterFrom(ExampleReport(), LeastCommon, 0, 5) == [[0, 1, 0, 1, 0]]
  {
    ExampleCo2Step0();
    ExampleCo2From1();
  }

  lemma ExampleCo2Survivor()
    ensures FilterBinaries(ExampleReport(), LeastCommon) == BitvecToU32(ToBools([0, 1, 0, 1, 0]))
  {
    ExampleWide();
    ExampleCo2From0();
    FilterBinariesOfSurvivor(ExampleReport(), LeastCommon, 5, [0, 1, 0, 1, 0]);
  }

  /** CO2 scrubber rating `0b01010` (10); one row is left after the third column. */
  lemma ExampleCo2()
    ensures FilterBinaries(ExampleReport(), LeastCommon) == Some(10)
  {
    ExampleCo2Survivor();
    FiveDigitRowValue([0, 1, 0, 1, 0]);
  }

  /** Power consumption 198 and life support rating 230. */
  lemma ExampleSolve()
    ensures Grid.Transposable(ExampleReport()) && |ExampleReport()[0]| > 0
    ensures Solve(ExampleReport()) == Some(Report(9, 22, 198, 23, 10, 230))
  {
    ExampleRates();
    ExampleOxygen();
    ExampleCo2();
  }
}
