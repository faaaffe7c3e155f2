/** Day 3, Binary Diagnostic: gamma and epsilon rates from the per-column
    majority bits, and the oxygen and CO2 ratings from column-by-column
    filtering of the report's rows. */
module BinaryDiagnostic {
  import opened Prelude
  import Grid

  /** One digit of a report row, as `line_to_vec` produces it. */
  type Bit = b: nat | b <= 1

  /** One row of the diagnostic report. */
  type Row = seq<Bit>

  // ---------------------------------------------------------------------
  // Characters and numbers
  // ---------------------------------------------------------------------

  /** The character mapping of `line_to_vec`: `'0'` and `'1'` become 0 and 1,
      and any other character stops the program (`None`). */
  function LineToBits(line: string): (r: Option<Row>)
    ensures r.Some? <==> forall k :: 0 <= k < |line| ==> line[k] == '0' || line[k] == '1'
    ensures r.Some? ==> |r.value| == |line|
    ensures r.Some? ==> forall k :: 0 <= k < |line| ==> (r.value[k] == 1 <==> line[k] == '1')
  {
    if line == [] then Some([])
    else if line[0] != '0' && line[0] != '1' then None
    else
      match LineToBits(line[1..])
      case None => None
      case Some(rest) => Some([if line[0] == '1' then 1 else 0] + rest)
  }

  /** The textual form of a row, one character per digit. */
  function BitsToLine(row: Row): (line: string)
    ensures |line| == |row|
  {
    if row == [] then "" else [if row[0] == 1 then '1' else '0'] + BitsToLine(row[1..])
  }

  /** Reading the text of a row gives the row back. */
  lemma {:induction false} LineToBitsOfBitsToLine(row: Row)
    ensures LineToBits(BitsToLine(row)) == Some(row)
  {
    if row != [] {
      var line := BitsToLine(row);
      assert line[1..] == BitsToLine(row[1..]);
      LineToBitsOfBitsToLine(row[1..]);
      assert row == [row[0]] + row[1..];
      assert LineToBits(line) == Some([if line[0] == '1' then 1 else 0] + row[1..]);
    }
  }

  /** A line that is read successfully is the text of the row read from it. */
  lemma {:induction false} BitsToLineOfLineToBits(line: string)
    requires LineToBits(line).Some?
    ensures BitsToLine(LineToBits(line).value) == line
  {
    if line != [] {
      BitsToLineOfLineToBits(line[1..]);
    }
  }

  /** `2` to the power `n`. */
  function Pow2(n: nat): (r: nat)
    ensures r >= 1
  {
    if n == 0 then 1 else 2 * Pow2(n - 1)
  }

  lemma {:induction false} Pow2Monotone(m: nat, n: nat)
    requires m <= n
    ensures Pow2(m) <= Pow2(n)
  {
    if m < n {
      Pow2Monotone(m, n - 1);
    }
  }

  /** The number a bit string denotes in base 2, read with its first element
      as the most significant digit; it is below `2^|bs|`. */
  function BitsValue(bs: seq<bool>): (r: nat)
    ensures r < Pow2(|bs|)
  {
    if bs == [] then 0
    else 2 * BitsValue(bs[..|bs| - 1]) + (if bs[|bs| - 1] then 1 else 0)
  }

  /** The first element is the most significant: it weighs `2^(|rest|)`. */
  lemma {:induction false} BitsValueFirstMostSignificant(b: bool, rest: seq<bool>)
    ensures BitsValue([b] + rest) == (if b then Pow2(|rest|) else 0) + BitsValue(rest)
  {
    if rest != [] {
      var init := rest[..|rest| - 1];
      assert ([b] + rest)[..|rest|] == [b] + init;
      BitsValueFirstMostSignificant(b, init);
    }
  }

  /** Every bit flipped. */
  function Complement(bs: seq<bool>): (c: seq<bool>)
    ensures |c| == |bs| && forall k :: 0 <= k < |bs| ==> c[k] == !bs[k]
  {
    seq(|bs|, k requires 0 <= k < |bs| => !bs[k])
  }

  /** A bit string and its complement add up to the all-ones string. */
  lemma {:induction false} ComplementSum(bs: seq<bool>)
    ensures BitsValue(bs) + BitsValue(Complement(bs)) == Pow2(|bs|) - 1
  {
    if bs != [] {
      var init := bs[..|bs| - 1];
      assert Complement(bs)[..|bs| - 1] == Complement(init);
      ComplementSum(init);
    }
  }

  const U32Modulus: nat := 0x1_0000_0000

  /** The number of values a 64-bit `usize` holds. */
  const UsizeModulus: nat := 0x1_0000_0000_0000_0000

  /** `bitvec_to_u32`: the bits are spelled as a base-2 string and parsed
      into a 64-bit `usize`, which fails (a panic, `None`) for the empty
      string and for a value that does not fit in 64 bits; any string of at
      most 64 digits fits. The value is then cut to `u32`. */
  function BitvecToU32(bs: seq<bool>): (r: Option<nat>)
    ensures r.Some? <==> |bs| >= 1 && BitsValue(bs) < UsizeModulus
    ensures 1 <= |bs| <= 64 ==> r.Some?
    ensures r.Some? ==> r.value < U32Modulus && r.value == BitsValue(bs) % U32Modulus
    ensures r.Some? && |bs| <= 32 ==> r.value == BitsValue(bs)
  {
    assert |bs| <= 64 ==> BitsValue(bs) < UsizeModulus by {
      if |bs| <= 64 {
        Pow2Monotone(|bs|, 64);
        Pow2Of64();
      }
    }
    if |bs| == 0 || BitsValue(bs) >= UsizeModulus then None
    else
      assert |bs| <= 32 ==> BitsValue(bs) < U32Modulus by {
        if |bs| <= 32 {
          Pow2Monotone(|bs|, 32);
          Pow2Of32();
        }
      }
      Some(BitsValue(bs) % U32Modulus)
  }

  /** Leading `'0'` digits do not change what `bitvec_to_u32` parses, however
      long the string grows. */
  lemma LeadingZeroIgnored(bs: seq<bool>)
    requires bs != []
    ensures BitvecToU32([false] + bs) == BitvecToU32(bs)
  {
    BitsValueFirstMostSignificant(false, bs);
  }

  lemma Pow2Of64()
    ensures Pow2(64) == UsizeModulus
  {
    Pow2Of32();
    Pow2Add(32, 32);
  }

  lemma Pow2Of32()
    ensures Pow2(32) == U32Modulus
  {
    assert Pow2(8) == 256;
    assert Pow2(16) == 256 * 256 by { Pow2Add(8, 8); }
    Pow2Add(16, 16);
  }

  lemma {:induction false} Pow2Add(m: nat, n: nat)
    ensures Pow2(m + n) == Pow2(m) * Pow2(n)
  {
    if n > 0 {
      Pow2Add(m, n - 1);
    }
  }

  // ---------------------------------------------------------------------
  // Part 1: gamma and epsilon
  // ---------------------------------------------------------------------

  /** How many entries of `s` are the digit `d`. */
  function CountOf(s: seq<Bit>, d: Bit): (r: nat)
    ensures r <= |s|
  {
    if s == [] then 0 else (if s[0] == d then 1 else 0) + CountOf(s[1..], d)
  }

  /** Every digit is a 0 or a 1. */
  lemma {:induction false} CountsAddUp(s: seq<Bit>)
    ensures CountOf(s, 0) + CountOf(s, 1) == |s|
  {
    if s != [] {
      CountsAddUp(s[1..]);
    }
  }

  /** The gamma bits of a transposed report (one row per original column):
      a 1 where the count of 1s exceeds half the length of the first row. */
  function GammaBits(transposed: seq<seq<Bit>>): seq<bool>
    requires |transposed| > 0
  {
    seq(|transposed|, i requires 0 <= i < |transposed| =>
      CountOf(transposed[i], 1) > |transposed[0]| / 2)
  }

  /** `calculate_basic_rates` on the transposed report: the gamma rate from
      the gamma bits and the epsilon rate from their complement. */
  function CalculateBasicRates(transposed: seq<seq<Bit>>): (r: Option<(nat, nat)>)
    requires |transposed| > 0
    ensures r.Some? <==> |transposed| <= 64
    ensures r.Some? ==>
      r.value == (BitsValue(GammaBits(transposed)) % U32Modulus,
                  BitsValue(Complement(GammaBits(transposed))) % U32Modulus)
    ensures r.Some? && |transposed| <= 32 ==>
      r.value == (BitsValue(GammaBits(transposed)), BitsValue(Complement(GammaBits(transposed))))
    ensures r.Some? && |transposed| <= 32 ==> r.value.0 + r.value.1 == Pow2(|transposed|) - 1
  {
    var gamma := GammaBits(transposed);
    ComplementSum(gamma);
    // Beyond 64 columns gamma and epsilon add up to at least `2^65 - 1`, so
    // one of them does not fit in a `usize`.
    assert |transposed| > 64 ==> Pow2(|transposed|) >= 2 * UsizeModulus by {
      if |transposed| > 64 {
        Pow2Monotone(65, |transposed|);
        Pow2Of64();
        assert Pow2(65) == 2 * Pow2(64);
      }
    }
    match (BitvecToU32(gamma), BitvecToU32(Complement(gamma)))
    case (Some(g), Some(e)) => Some((g, e))
    case _ => None
  }

  /** In a rectangular transposed report, a gamma bit is 1 exactly when its
      column holds strictly more 1s than 0s: a tie gives 0. */
  lemma GammaIsStrictMajority(transposed: seq<seq<Bit>>, i: nat)
    requires Grid.Rectangular(transposed) && i < |transposed|
    ensures GammaBits(transposed)[i] <==> CountOf(transposed[i], 1) > CountOf(transposed[i], 0)
  {
    CountsAddUp(transposed[i]);
  }

  /** Every row is long enough to be read at `column`. */
  predicate Readable(rows: seq<Row>, column: nat) {
    forall k :: 0 <= k < |rows| ==> column < |rows[k]|
  }

  /** How many rows have a 0 at `column`. */
  function Zeros(rows: seq<Row>, column: nat): (r: nat)
    requires Readable(rows, column)
    ensures r <= |rows|
  {
    if rows == [] then 0 else (if rows[0][column] == 0 then 1 else 0) + Zeros(rows[1..], column)
  }

  /** Counting zeros distributes over concatenation. */
  lemma {:induction false} ZerosConcat(a: seq<Row>, b: seq<Row>, column: nat)
    requires Readable(a, column) && Readable(b, column)
    ensures Readable(a + b, column)
    ensures Zeros(a + b, column) == Zeros(a, column) + Zeros(b, column)
  {
    if a != [] {
      assert (a + b)[1..] == a[1..] + b;
      ZerosConcat(a[1..], b, column);
    } else {
      assert a + b == b;
    }
  }

  /** The ones of a column are the rows that do not hold a 0 there. */
  lemma {:induction false} OnesOfColumn(rows: seq<Row>, column: nat)
    requires Readable(rows, column)
    ensures CountOf(Grid.Column(rows, column), 1) == |rows| - Zeros(rows, column)
  {
    if rows != [] {
      OnesOfColumn(rows[1..], column);
      assert Grid.Column(rows, column) == [rows[0][column]] + Grid.Column(rows[1..], column);
      assert Grid.Column(rows, column)[1..] == Grid.Column(rows[1..], column);
    }
  }

  /** The gamma bit of a column, read off the untransposed report: more
      rows than half of them (rounded down) hold a 1 there. */
  lemma GammaAgainstZeros(diagnostics: seq<Row>, i: nat)
    requires Grid.Transposable(diagnostics) && i < |diagnostics[0]|
    ensures Readable(diagnostics, i)
    ensures GammaBits(Grid.Transpose(diagnostics))[i]
      <==> |diagnostics| - Zeros(diagnostics, i) > |diagnostics| / 2
  {
    var t := Grid.Transpose(diagnostics);
    assert t[i] == Grid.Column(diagnostics, i);
    OnesOfColumn(diagnostics, i);
  }

  /** The gamma bit and the oxygen filter's digit read a column alike except
      on a tie, where the gamma bit is 0 and the most common digit is 1. */
  lemma GammaIsMostCommonExceptOnTies(diagnostics: seq<Row>, i: nat)
    requires Grid.Transposable(diagnostics) && i < |diagnostics[0]|
    ensures Readable(diagnostics, i)
    ensures GammaBits(Grid.Transpose(diagnostics))[i]
      <==> MostCommonDigit(diagnostics, i) == 1 && 2 * Zeros(diagnostics, i) != |diagnostics|
  {
    GammaAgainstZeros(diagnostics, i);
  }

  // ---------------------------------------------------------------------
  // Part 2: filtering
  // ---------------------------------------------------------------------

  /** `std::cmp::Ordering`. */
  datatype Ordering = Less | Equal | Greater

  /** `zero_count`: the number of 0s at `column` against half the number of
      rows, rounded down. */
  function ZeroCount(rows: seq<Row>, column: nat): (r: Ordering)
    requires Readable(rows, column)
    ensures r == Less <==> Zeros(rows, column) < |rows| / 2
    ensures r == Greater <==> Zeros(rows, column) > |rows| / 2
  {
    var zeroes := Zeros(rows, column);
    if zeroes < |rows| / 2 then Less else if zeroes == |rows| / 2 then Equal else Greater
  }

  /** `find_most_common_digit`: 0 when the zeros exceed half, otherwise 1. */
  function MostCommonDigit(rows: seq<Row>, column: nat): (d: Bit)
    requires Readable(rows, column)
    ensures d == 0 <==> Zeros(rows, column) > |rows| / 2
  {
    match ZeroCount(rows, column)
    case Greater => 0
    case Less => 1
    case Equal => 1
  }

  /** `find_least_common_digit`: always the other digit. */
  function LeastCommonDigit(rows: seq<Row>, column: nat): (d: Bit)
    requires Readable(rows, column)
    ensures d == 1 - MostCommonDigit(rows, column)
  {
    match ZeroCount(rows, column)
    case Greater => 1
    case Less => 0
    case Equal => 0
  }

  /** The digit-selection function handed to `filter_binaries`. */
  datatype Criterion = MostCommon | LeastCommon

  function SelectDigit(criterion: Criterion, rows: seq<Row>, column: nat): Bit
    requires Readable(rows, column)
  {
    match criterion
    case MostCommon => MostCommonDigit(rows, column)
    case LeastCommon => LeastCommonDigit(rows, column)
  }

  /** The rows with `digit` at `column`, in their original order (the
      `filter` of one fold step). */
  function KeepMatching(rows: seq<Row>, column: nat, digit: Bit): seq<Row>
    requires Readable(rows, column)
  {
    if rows == [] then []
    else
      var rest := KeepMatching(rows[1..], column, digit);
      if rows[0][column] == digit then [rows[0]] + rest else rest
  }

  /** `KeepMatching` keeps exactly the rows with `digit` at `column`: each
      kept row has that digit, and each row with that digit is kept as often
      as it occurs. */
  lemma {:induction false} KeepMatchingKeepsExactly(rows: seq<Row>, column: nat, digit: Bit)
    requires Readable(rows, column)
    ensures multiset(KeepMatching(rows, column, digit)) <= multiset(rows)
    ensures forall x :: x in KeepMatching(rows, column, digit) ==> x in rows && x[column] == digit
    ensures forall x :: x in rows && x[column] == digit ==>
      multiset(KeepMatching(rows, column, digit))[x] == multiset(rows)[x]
  {
    if rows != [] {
      KeepMatchingKeepsExactly(rows[1..], column, digit);
      assert rows == [rows[0]] + rows[1..];
    }
  }

  /** The order is kept: the rows kept from a front part come before the rows
      kept from the back part. */
  lemma {:induction false} KeepMatchingConcat(a: seq<Row>, b: seq<Row>, column: nat, digit: Bit)
    requires Readable(a, column) && Readable(b, column)
    ensures Readable(a + b, column)
    ensures KeepMatching(a + b, column, digit) == KeepMatching(a, column, digit) + KeepMatching(b, column, digit)
  {
    if a != [] {
      assert (a + b)[1..] == a[1..] + b;
      KeepMatchingConcat(a[1..], b, column, digit);
    } else {
      assert a + b == b;
    }
  }

  /** The rows kept for 0 are exactly as many as `Zeros` counts, and the two
      digits split the rows between them. */
  lemma {:induction false} KeepMatchingCounts(rows: seq<Row>, column: nat)
    requires Readable(rows, column)
    ensures |KeepMatching(rows, column, 0)| == Zeros(rows, column)
    ensures |KeepMatching(rows, column, 1)| == |rows| - Zeros(rows, column)
  {
    if rows != [] {
      KeepMatchingCounts(rows[1..], column);
    }
  }

  /** Keeping the most common digit keeps at least half of the rows,
      rounded up, so a non-empty list never becomes empty. */
  lemma MostCommonKeepsHalf(rows: seq<Row>, column: nat)
    requires Readable(rows, column)
    ensures |KeepMatching(rows, column, MostCommonDigit(rows, column))| >= (|rows| + 1) / 2
  {
    KeepMatchingCounts(rows, column);
  }

  /** Keeping the least common digit keeps at most half of the rows, rounded
      down, so a list of two or more rows always shrinks. */
  lemma LeastCommonKeepsAtMostHalf(rows: seq<Row>, column: nat)
    requires Readable(rows, column)
    ensures |KeepMatching(rows, column, LeastCommonDigit(rows, column))| <= |rows| / 2
  {
    KeepMatchingCounts(rows, column);
  }

  /** Every row has at least `width` digits. */
  predicate Wide(rows: seq<Row>, width: nat) {
    forall k :: 0 <= k < |rows| ==> width <= |rows[k]|
  }

  /** One step of the fold in `filter_binaries`: a single remaining row is
      kept as it is; otherwise the rows with the selected digit are kept. */
  function FilterStep(rows: seq<Row>, criterion: Criterion, column: nat): seq<Row>
    requires Readable(rows, column)
  {
    if |rows| == 1 then rows
    else KeepMatching(rows, column, SelectDigit(criterion, rows, column))
  }

  /** A step only drops rows, so the rows stay wide enough for the columns
      still to come. */
  lemma FilterStepDropsOnly(rows: seq<Row>, criterion: Criterion, column: nat, width: nat)
    requires column < width && Wide(rows, width)
    ensures multiset(FilterStep(rows, criterion, column)) <= multiset(rows)
    ensures Wide(FilterStep(rows, criterion, column), width)
  {
    var next := FilterStep(rows, criterion, column);
    if |rows| != 1 {
      KeepMatchingKeepsExactly(rows, column, SelectDigit(criterion, rows, column));
    }
    forall k | 0 <= k < |next| ensures width <= |next[k]| {
      assert next[k] in multiset(next);
    }
  }

  /** The fold of `filter_binaries` over the columns `column .. width - 1`. */
  function FilterFrom(rows: seq<Row>, criterion: Criterion, column: nat, width: nat): seq<Row>
    requires column <= width && Wide(rows, width)
    decreases width - column
  {
    if column == width then rows
    else
      FilterStepDropsOnly(rows, criterion, column, width);
      FilterFrom(FilterStep(rows, criterion, column), criterion, column + 1, width)
  }

  /** The fold only drops rows. */
  lemma {:induction false} FilterFromDropsOnly(rows: seq<Row>, criterion: Criterion, column: nat, width: nat)
    requires column <= width && Wide(rows, width)
    ensures multiset(FilterFrom(rows, criterion, column, width)) <= multiset(rows)
    decreases width - column
  {
    if column < width {
      FilterStepDropsOnly(rows, criterion, column, width);
      FilterFromDropsOnly(FilterStep(rows, criterion, column), criterion, column + 1, width);
    }
  }

  /** The digits of a row as the booleans `bitvec_to_u32` reads. */
  function ToBools(row: Row): (bs: seq<bool>)
    ensures |bs| == |row| && forall k :: 0 <= k < |row| ==> (bs[k] <==> row[k] == 1)
  {
    seq(|row|, k requires 0 <= k < |row| => row[k] == 1)
  }

  /** `filter_binaries`: the value of the one row that survives the
      filtering; the program stops (`None`) when none or several survive. */
  function FilterBinaries(diagnostics: seq<Row>, criterion: Criterion): (r: Option<nat>)
    requires |diagnostics| > 0 && Wide(diagnostics, |diagnostics[0]|)
    ensures r.Some? ==> |FilterFrom(diagnostics, criterion, 0, |diagnostics[0]|)| == 1
  {
    var remaining := FilterFrom(diagnostics, criterion, 0, |diagnostics[0]|);
    if |remaining| == 1 then BitvecToU32(ToBools(remaining[0])) else None
  }

  /** The value `filter_binaries` yields is read from one of the report's rows. */
  lemma FilterBinariesReadsARow(diagnostics: seq<Row>, criterion: Criterion)
    requires |diagnostics| > 0 && Wide(diagnostics, |diagnostics[0]|)
    ensures FilterBinaries(diagnostics, criterion).Some? ==>
      exists row :: row in diagnostics && BitvecToU32(ToBools(row)) == FilterBinaries(diagnostics, criterion)
  {
    var remaining := FilterFrom(diagnostics, criterion, 0, |diagnostics[0]|);
    if |remaining| == 1 {
      FilterFromDropsOnly(diagnostics, criterion, 0, |diagnostics[0]|);
      assert remaining[0] in multiset(remaining);
      assert remaining[0] in diagnostics;
    }
  }

  /** `filter_binaries` yields the value of the row that survives alone. */
  lemma FilterBinariesOfSurvivor(diagnostics: seq<Row>, criterion: Criterion, width: nat, row: Row)
    requires |diagnostics| > 0 && width == |diagnostics[0]| && Wide(diagnostics, width)
    requires FilterFrom(diagnostics, criterion, 0, width) == [row]
    ensures FilterBinaries(diagnostics, criterion) == BitvecToU32(ToBools(row))
  {
  }

  /** A string of `'0'`s only denotes 0. */
  lemma {:induction false} ZerosValue(n: nat)
    ensures BitsValue(seq(n, _ => false)) == 0
  {
    if n > 0 {
      assert seq(n, _ => false)[..n - 1] == seq(n - 1, _ => false);
      ZerosValue(n - 1);
    }
  }

  /** Once a single row remains, the remaining columns change nothing. */
  lemma {:induction false} SingleRowStays(rows: seq<Row>, criterion: Criterion, column: nat, width: nat)
    requires column <= width && Wide(rows, width) && |rows| == 1
    ensures FilterFrom(rows, criterion, column, width) == rows
    decreases width - column
  {
    if column < width {
      SingleRowStays(rows, criterion, column + 1, width);
    }
  }

  /** A report of one row of zeros rates 0 whatever its width: parsing
      fails on the value, not on the number of digits. */
  lemma LoneZeroRow(criterion: Criterion, width: nat)
    requires width >= 1
    ensures FilterBinaries([seq(width, _ => 0)], criterion) == Some(0)
  {
    var row: Row := seq(width, _ => 0);
    SingleRowStays([row], criterion, 0, width);
    assert ToBools(row) == seq(width, _ => false);
    ZerosValue(width);
  }

  /** The oxygen rating's filter never empties a non-empty list. */
  lemma {:induction false} MostCommonNeverEmpties(rows: seq<Row>, column: nat, width: nat)
    requires column <= width && Wide(rows, width) && |rows| > 0
    ensures |FilterFrom(rows, MostCommon, column, width)| > 0
    decreases width - column
  {
    if column < width {
      if |rows| != 1 {
        MostCommonKeepsHalf(rows, column);
      }
      FilterStepDropsOnly(rows, MostCommon, column, width);
      MostCommonNeverEmpties(FilterStep(rows, MostCommon, column), column + 1, width);
    }
  }

  /** The CO2 rating's filter shrinks every list of two or more rows. */
  lemma LeastCommonShrinks(rows: seq<Row>, column: nat)
    requires Readable(rows, column) && |rows| >= 2
    ensures |FilterStep(rows, LeastCommon, column)| < |rows|
  {
    LeastCommonKeepsAtMostHalf(rows, column);
  }

  /** Nothing is left to filter once the list is empty. */
  lemma {:induction false} EmptyStaysEmpty(criterion: Criterion, column: nat, width: nat)
    requires column <= width
    ensures FilterFrom([], criterion, column, width) == []
    decreases width - column
  {
    if column < width {
      EmptyStaysEmpty(criterion, column + 1, width);
    }
  }

  /** The CO2 filter can empty the list, and `filter_binaries` then stops:
      two equal rows are both dropped at the first column, whatever digit
      they hold there. */
  lemma LeastCommonCanEmpty(row: Row)
    requires |row| >= 1
    ensures FilterFrom([row, row], LeastCommon, 0, |row|) == []
    ensures FilterBinaries([row, row], LeastCommon) == None
  {
    var rows: seq<Row> := [row, row];
    assert rows[1..] == [row] && rows[1..][1..] == [];
    // Both rows carry the same digit at column 0, so the zeros there are 2
    // (`Greater`, keep the 1s) or 0 (`Less`, keep the 0s).
    var digit := SelectDigit(LeastCommon, rows, 0);
    if row[0] == 0 {
      assert Zeros(rows, 0) == 2;
      assert digit == 1;
    } else {
      assert Zeros(rows, 0) == 0;
      assert digit == 0;
    }
    assert KeepMatching(rows[1..], 0, digit) == [];
    assert KeepMatching(rows, 0, digit) == [];
    EmptyStaysEmpty(LeastCommon, 1, |row|);
  }

  // ---------------------------------------------------------------------
  // The whole report
  // ---------------------------------------------------------------------

  /** `DiagnosticReportResult`. */
  datatype Report = Report(
    epsilonRate: nat, gammaRate: nat, powerConsumption: nat,
    oxygenGeneratorRating: nat, co2ScrubberRating: nat, lifeSupportRating: nat)

  /** `solve`: both parts of the puzzle on a parsed report; `None` when any of
      the ratings stops the program. */
  function Solve(diagnostics: seq<Row>): (r: Option<Report>)
    requires Grid.Transposable(diagnostics) && |diagnostics[0]| > 0
    ensures r.Some? <==>
      |diagnostics[0]| <= 64 && FilterBinaries(diagnostics, MostCommon).Some?
      && FilterBinaries(diagnostics, LeastCommon).Some?
    ensures r.Some? ==>
      r.value.gammaRate == BitsValue(GammaBits(Grid.Transpose(diagnostics))) % U32Modulus
      && r.value.epsilonRate == BitsValue(Complement(GammaBits(Grid.Transpose(diagnostics)))) % U32Modulus
    ensures r.Some? && |diagnostics[0]| <= 32 ==>
      r.value.gammaRate == BitsValue(GammaBits(Grid.Transpose(diagnostics)))
      && r.value.epsilonRate == BitsValue(Complement(GammaBits(Grid.Transpose(diagnostics))))
    ensures r.Some? && |diagnostics[0]| <= 32 ==>
      r.value.gammaRate + r.value.epsilonRate == Pow2(|diagnostics[0]|) - 1
    ensures r.Some? ==>
      r.value.powerConsumption == r.value.gammaRate * r.value.epsilonRate
      && r.value.oxygenGeneratorRating == FilterBinaries(diagnostics, MostCommon).value
      && r.value.co2ScrubberRating == FilterBinaries(diagnostics, LeastCommon).value
      && r.value.lifeSupportRating == r.value.oxygenGeneratorRating * r.value.co2ScrubberRating
  {
    var transposed := Grid.Transpose(diagnostics);
    assert |transposed| == |diagnostics[0]|;
    var rates := CalculateBasicRates(transposed);
    var oxygen := FilterBinaries(diagnostics, MostCommon);
    var co2 := FilterBinaries(diagnostics, LeastCommon);
    if rates.Some? && oxygen.Some? && co2.Some? then
      var (gamma, epsilon) := rates.value;
      Some(Report(epsilon, gamma, Product(gamma, epsilon), oxygen.value, co2.value, Product(oxygen.value, co2.value)))
    else None
  }
}
