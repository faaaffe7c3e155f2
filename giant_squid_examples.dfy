/** The worked example of day 4: three boards and 27 draws. The first board
    to win scores 4512 and the last one 1924. */
module GiantSquidExamples {
  import opened Prelude
  import opened GiantSquid

  /** Board 1 of the example. */
  function Board1(): Board {
    Board([
      [22, 13, 17, 11, 0],
      [8, 2, 23, 4, 24],
      [21, 9, 14, 16, 7],
      [6, 10, 3, 18, 5],
      [1, 12, 20, 15, 19]])
  }

  /** Board 2 of the example. */
  function Board2(): Board {
    Board([
      [3, 15, 0, 2, 22],
      [9, 18, 13, 17, 5],
      [19, 8, 7, 25, 23],
      [20, 11, 10, 24, 4],
      [14, 21, 16, 12, 6]])
  }

  /** Board 3 of the example. */
  function Board3(): Board {
    Board([
      [14, 21, 17, 24, 4],
      [10, 16, 15, 9, 19],
      [18, 8, 23, 26, 20],
      [22, 11, 13, 6, 5],
      [2, 0, 12, 3, 7]])
  }

  /** The boards of the example, in input order. */
  function ExampleBoards(): seq<Board> {
    [Board1(), Board2(), Board3()]
  }

  /** The numbers of the example, in drawing order. */
  function ExampleDraws(): seq<U8> {
    [7, 4, 9, 5, 11, 17, 23, 2, 0, 14, 21, 24, 10, 16, 13, 6, 15, 25, 12, 22, 18, 20, 8, 19, 3, 26, 1]
  }

  /** The example boards have the shape `Board::from` checks. */
  lemma ExampleShapes()
    ensures WellShaped(Board1()) && WellShaped(Board2()) && WellShaped(Board3())
  {
  }

  /** A board with an undrawn number in every row and in every column does
      not win. */
  lemma LosesBy(b: Board, draws: seq<U8>, rowGaps: seq<nat>, columnGaps: seq<nat>)
    requires WellShaped(b)
    requires |rowGaps| == 5 && |columnGaps| == 5
    requires forall i :: 0 <= i < 5 ==> rowGaps[i] < 5 && b.rows[i][rowGaps[i]] !in draws
    requires forall j :: 0 <= j < 5 ==> columnGaps[j] < 5 && b.rows[columnGaps[j]][j] !in draws
    ensures !Wins(b, draws)
  {
    WellShapedTransposable(b);
    forall i | 0 <= i < 5
      ensures !Complete(b.rows[i], draws)
    {
      assert b.rows[i][rowGaps[i]] !in draws;
    }
    forall j | 0 <= j < 5
      ensures !ColumnComplete(b.rows, j, draws)
    {
      assert b.rows[columnGaps[j]][j] !in draws;
    }
  }

  /** A board whose row `i` is fully drawn wins. */
  lemma WinsByRow(b: Board, draws: seq<U8>, i: nat)
    requires WellShaped(b) && i < 5
    requires forall k :: 0 <= k < 5 ==> b.rows[i][k] in draws
    ensures Wins(b, draws)
  {
    assert Complete(b.rows[i], draws);
  }

  /** A board whose column `j` is fully drawn wins. */
  lemma WinsByColumn(b: Board, draws: seq<U8>, j: nat)
    requires WellShaped(b) && j < 5
    requires forall i :: 0 <= i < 5 ==> b.rows[i][j] in draws
    ensures Wins(b, draws)
  {
    WellShapedTransposable(b);
    assert ColumnComplete(b.rows, j, draws);
  }

  /** Appending a board appends it to the winners exactly when it wins. */
  lemma WinnersAppend(bs: seq<Board>, b: Board, draws: seq<U8>)
    requires AllWellShaped(bs) && WellShaped(b)
    ensures AllWellShaped(bs + [b])
    ensures Winners(bs + [b], draws) == Winners(bs, draws) + (if Wins(b, draws) then [b] else [])
  {
    assert (bs + [b])[..|bs|] == bs;
  }

  /** Appending a board appends it to the boards in play exactly when it
      does not win. */
  lemma LosersAppend(bs: seq<Board>, b: Board, draws: seq<U8>)
    requires AllWellShaped(bs) && WellShaped(b)
    ensures AllWellShaped(bs + [b])
    ensures Losers(bs + [b], draws) == Losers(bs, draws) + (if Wins(b, draws) then [] else [b])
  {
    assert (bs + [b])[..|bs|] == bs;
  }

  /** The winners among three boards, spelled out. */
  lemma WinnersOfThree(b1: Board, b2: Board, b3: Board, draws: seq<U8>)
    requires WellShaped(b1) && WellShaped(b2) && WellShaped(b3)
    ensures AllWellShaped([b1, b2, b3])
    ensures Winners([b1, b2, b3], draws)
      == (if Wins(b1, draws) then [b1] else []) + (if Wins(b2, draws) then [b2] else [])
        + (if Wins(b3, draws) then [b3] else [])
  {
    WinnersAppend([], b1, draws);
    assert [] + [b1] == [b1];
    WinnersAppend([b1], b2, draws);
    assert [b1] + [b2] == [b1, b2];
    WinnersAppend([b1, b2], b3, draws);
    assert [b1, b2] + [b3] == [b1, b2, b3];
  }

  /** The boards left in play among three boards, spelled out. */
  lemma LosersOfThree(b1: Board, b2: Board, b3: Board, draws: seq<U8>)
    requires WellShaped(b1) && WellShaped(b2) && WellShaped(b3)
    ensures AllWellShaped([b1, b2, b3])
    ensures Losers([b1, b2, b3], draws)
      == (if Wins(b1, draws) then [] else [b1]) + (if Wins(b2, draws) then [] else [b2])
        + (if Wins(b3, draws) then [] else [b3])
  {
    LosersAppend([], b1, draws);
    assert [] + [b1] == [b1];
    LosersAppend([b1], b2, draws);
    assert [b1] + [b2] == [b1, b2];
    LosersAppend([b1, b2], b3, draws);
    assert [b1, b2] + [b3] == [b1, b2, b3];
  }

  /** The value a number adds to the unmarked sum. */
  function Unmarked(n: U8, draws: seq<U8>): nat {
    if n in draws then 0 else n as nat
  }

  /** The unmarked sum of a row of five, spelled out. */
  lemma UnmarkedOfFive(row: seq<U8>, draws: seq<U8>)
    requires |row| == 5
    ensures SumUnmarked(row, draws) == Unmarked(row[0], draws) + Unmarked(row[1], draws)
      + Unmarked(row[2], draws) + Unmarked(row[3], draws) + Unmarked(row[4], draws)
  {
    assert row[4..][1..] == [];
    assert SumUnmarked(row[4..], draws) == Unmarked(row[4], draws);
    assert row[3..][1..] == row[4..];
    assert SumUnmarked(row[3..], draws) == Unmarked(row[3], draws) + SumUnmarked(row[4..], draws);
    assert row[2..][1..] == row[3..];
    assert SumUnmarked(row[2..], draws) == Unmarked(row[2], draws) + SumUnmarked(row[3..], draws);
    assert row[1..][1..] == row[2..];
    assert SumUnmarked(row[1..], draws) == Unmarked(row[1], draws) + SumUnmarked(row[2..], draws);
  }

  /** The score of a board from the unmarked sums of its five rows. */
  lemma ScoreFromRows(b: Board, draws: seq<U8>, s0: nat, s1: nat, s2: nat, s3: nat, s4: nat)
    requires |b.rows| >= 5 && |draws| > 0
    requires SumUnmarked(b.rows[0], draws) == s0 && SumUnmarked(b.rows[1], draws) == s1
    requires SumUnmarked(b.rows[2], draws) == s2 && SumUnmarked(b.rows[3], draws) == s3
    requires SumUnmarked(b.rows[4], draws) == s4
    ensures CalculateAnswer(b, draws) == (s0 + s1 + s2 + s3 + s4) * draws[|draws| - 1]
  {
    var rs: seq<seq<U8>> := b.rows[..5];
    assert rs[4..][1..] == [];
    assert RowsUnmarked(rs[4..], draws) == s4;
    assert rs[3..][1..] == rs[4..];
    assert RowsUnmarked(rs[3..], draws) == s3 + s4;
    assert rs[2..][1..] == rs[3..];
    assert RowsUnmarked(rs[2..], draws) == s2 + s3 + s4;
    assert rs[1..][1..] == rs[2..];
    assert RowsUnmarked(rs[1..], draws) == s1 + s2 + s3 + s4;
  }


  /** Board 1 does not win after 11 draws. */
  lemma Board1After11(draws: seq<U8>)
    requires draws == [7, 4, 9, 5, 11, 17, 23, 2, 0, 14, 21]
    ensures WellShaped(Board1()) && !Wins(Board1(), draws)
  {
    ExampleShapes();
    LosesBy(Board1(), draws, [0, 0, 3, 0, 0], [0, 0, 3, 2, 1]);
  }

  /** Board 2 does not win after 11 draws. */
  lemma Board2After11(draws: seq<U8>)
    requires draws == [7, 4, 9, 5, 11, 17, 23, 2, 0, 14, 21]
    ensures WellShaped(Board2()) && !Wins(Board2(), draws)
  {
    ExampleShapes();
    LosesBy(Board2(), draws, [0, 1, 0, 0, 2], [0, 0, 1, 2, 0]);
  }

  /** Board 3 does not win after 11 draws. */
  lemma Board3After11(draws: seq<U8>)
    requires draws == [7, 4, 9, 5, 11, 17, 23, 2, 0, 14, 21]
    ensures WellShaped(Board3()) && !Wins(Board3(), draws)
  {
    ExampleShapes();
    LosesBy(Board3(), draws, [3, 0, 0, 0, 2], [1, 1, 1, 0, 1]);
  }

  /** After 11 draws no board wins. */
  lemma ExampleAfter11(draws: seq<U8>)
    requires draws == [7, 4, 9, 5, 11, 17, 23, 2, 0, 14, 21]
    ensures AllWellShaped(ExampleBoards())
    ensures Winners(ExampleBoards(), draws) == []
  {
    Board1After11(draws);
    Board2After11(draws);
    Board3After11(draws);
    WinnersOfThree(Board1(), Board2(), Board3(), draws);
  }

  /** Board 1 does not win after 12 draws. */
  lemma Board1After12(draws: seq<U8>)
    requires draws == [7, 4, 9, 5, 11, 17, 23, 2, 0, 14, 21, 24]
    ensures WellShaped(Board1()) && !Wins(Board1(), draws)
  {
    ExampleShapes();
    LosesBy(Board1(), draws, [0, 0, 3, 0, 0], [0, 0, 3, 2, 4]);
  }

  /** Board 2 does not win after 12 draws. */
  lemma Board2After12(draws: seq<U8>)
    requires draws == [7, 4, 9, 5, 11, 17, 23, 2, 0, 14, 21, 24]
    ensures WellShaped(Board2()) && !Wins(Board2(), draws)
  {
    ExampleShapes();
    LosesBy(Board2(), draws, [0, 1, 0, 0, 2], [0, 0, 1, 2, 0]);
  }

  /** Board 3 wins after 12 draws: its row 0 is fully drawn. */
  lemma Board3After12(draws: seq<U8>)
    requires draws == [7, 4, 9, 5, 11, 17, 23, 2, 0, 14, 21, 24]
    ensures WellShaped(Board3()) && Wins(Board3(), draws)
  {
    ExampleShapes();
    WinsByRow(Board3(), draws, 0);
  }

  /** After 12 draws board 3 wins. */
  lemma ExampleAfter12(draws: seq<U8>)
    requires draws == [7, 4, 9, 5, 11, 17, 23, 2, 0, 14, 21, 24]
    ensures AllWellShaped(ExampleBoards())
    ensures Winners(ExampleBoards(), draws) == [Board3()]
  {
    Board1After12(draws);
    Board2After12(draws);
    Board3After12(draws);
    WinnersOfThree(Board1(), Board2(), Board3(), draws);
  }

  /** Board 1 wins after 14 draws: its row 2 is fully drawn. */
  lemma Board1After14(draws: seq<U8>)
    requires draws == [7, 4, 9, 5, 11, 17, 23, 2, 0, 14, 21, 24, 10, 16]
    ensures WellShaped(Board1()) && Wins(Board1(), draws)
  {
    ExampleShapes();
    WinsByRow(Board1(), draws, 2);
  }

  /** Board 2 does not win after 14 draws. */
  lemma Board2After14(draws: seq<U8>)
    requires draws == [7, 4, 9, 5, 11, 17, 23, 2, 0, 14, 21, 24, 10, 16]
    ensures WellShaped(Board2()) && !Wins(Board2(), draws)
  {
    ExampleShapes();
    LosesBy(Board2(), draws, [0, 1, 0, 0, 3], [0, 0, 1, 2, 0]);
  }

  /** Board 3 wins after 14 draws: its row 0 is fully drawn. */
  lemma Board3After14(draws: seq<U8>)
    requires draws == [7, 4, 9, 5, 11, 17, 23, 2, 0, 14, 21, 24, 10, 16]
    ensures WellShaped(Board3()) && Wins(Board3(), draws)
  {
    ExampleShapes();
    WinsByRow(Board3(), draws, 0);
  }

  /** After 14 draws boards 1 and 3 win. */
  lemma ExampleAfter14(draws: seq<U8>)
    requires draws == [7, 4, 9, 5, 11, 17, 23, 2, 0, 14, 21, 24, 10, 16]
    ensures AllWellShaped(ExampleBoards())
    ensures Losers(ExampleBoards(), draws) == [Board2()]
  {
    Board1After14(draws);
    Board2After14(draws);
    Board3After14(draws);
    LosersOfThree(Board1(), Board2(), Board3(), draws);
  }

  /** Board 1 wins after 15 draws: its row 2 is fully drawn. */
  lemma Board1After15(draws: seq<U8>)
    requires draws == [7, 4, 9, 5, 11, 17, 23, 2, 0, 14, 21, 24, 10, 16, 13]
    ensures WellShaped(Board1()) && Wins(Board1(), draws)
  {
    ExampleShapes();
    WinsByRow(Board1(), draws, 2);
  }

  /** Board 2 wins after 15 draws: its column 2 is fully drawn. */
  lemma Board2After15(draws: seq<U8>)
    requires draws == [7, 4, 9, 5, 11, 17, 23, 2, 0, 14, 21, 24, 10, 16, 13]
    ensures WellShaped(Board2()) && Wins(Board2(), draws)
  {
    ExampleShapes();
    WinsByColumn(Board2(), draws, 2);
  }

  /** Board 3 wins after 15 draws: its row 0 is fully drawn. */
  lemma Board3After15(draws: seq<U8>)
    requires draws == [7, 4, 9, 5, 11, 17, 23, 2, 0, 14, 21, 24, 10, 16, 13]
    ensures WellShaped(Board3()) && Wins(Board3(), draws)
  {
    ExampleShapes();
    WinsByRow(Board3(), draws, 0);
  }

  /** The prefixes of the draws the example turns on. */
  lemma ExamplePrefixes()
    ensures [] + ExampleDraws()[..11] == [7, 4, 9, 5, 11, 17, 23, 2, 0, 14, 21]
    ensures [] + ExampleDraws()[..12] == [7, 4, 9, 5, 11, 17, 23, 2, 0, 14, 21, 24]
    ensures [] + ExampleDraws()[..14] == [7, 4, 9, 5, 11, 17, 23, 2, 0, 14, 21, 24, 10, 16]
    ensures [] + ExampleDraws()[..15] == [7, 4, 9, 5, 11, 17, 23, 2, 0, 14, 21, 24, 10, 16, 13]
  {
  }

  /** Row 0 of board 3 after 12 draws: 0 unmarked. */
  lemma Board3Row0After12(draws: seq<U8>)
    requires draws == [7, 4, 9, 5, 11, 17, 23, 2, 0, 14, 21, 24]
    ensures SumUnmarked(Board3().rows[0], draws) == 0
  {
    var row := Board3().rows[0];
    assert row == [14, 21, 17, 24, 4];
    assert draws[9] == 14 && draws[10] == 21 && draws[5] == 17 && draws[11] == 24 && draws[1] == 4;
    UnmarkedOfFive(row, draws);
  }

  /** Row 1 of board 3 after 12 draws: 60 unmarked. */
  lemma Board3Row1After12(draws: seq<U8>)
    requires draws == [7, 4, 9, 5, 11, 17, 23, 2, 0, 14, 21, 24]
    ensures SumUnmarked(Board3().rows[1], draws) == 60
  {
    var row := Board3().rows[1];
    assert row == [10, 16, 15, 9, 19];
    assert forall k :: 0 <= k < |draws| ==> draws[k] != 10 && draws[k] != 16 && draws[k] != 15 && draws[k] != 19;
    assert draws[2] == 9;
    UnmarkedOfFive(row, draws);
  }

  /** Row 2 of board 3 after 12 draws: 72 unmarked. */
  lemma Board3Row2After12(draws: seq<U8>)
    requires draws == [7, 4, 9, 5, 11, 17, 23, 2, 0, 14, 21, 24]
    ensures SumUnmarked(Board3().rows[2], draws) == 72
  {
    var row := Board3().rows[2];
    assert row == [18, 8, 23, 26, 20];
    assert forall k :: 0 <= k < |draws| ==> draws[k] != 18 && draws[k] != 8 && draws[k] != 26 && draws[k] != 20;
    assert draws[6] == 23;
    UnmarkedOfFive(row, draws);
  }

  /** Row 3 of board 3 after 12 draws: 41 unmarked. */
  lemma Board3Row3After12(draws: seq<U8>)
    requires draws == [7, 4, 9, 5, 11, 17, 23, 2, 0, 14, 21, 24]
    ensures SumUnmarked(Board3().rows[3], draws) == 41
  {
    var row := Board3().rows[3];
    assert row == [22, 11, 13, 6, 5];
    assert forall k :: 0 <= k < |draws| ==> draws[k] != 22 && draws[k] != 13 && draws[k] != 6;
    assert draws[4] == 11 && draws[3] == 5;
    UnmarkedOfFive(row, draws);
  }

  /** Row 4 of board 3 after 12 draws: 15 unmarked. */
  lemma Board3Row4After12(draws: seq<U8>)
    requires draws == [7, 4, 9, 5, 11, 17, 23, 2, 0, 14, 21, 24]
    ensures SumUnmarked(Board3().rows[4], draws) == 15
  {
    var row := Board3().rows[4];
    assert row == [2, 0, 12, 3, 7];
    assert forall k :: 0 <= k < |draws| ==> draws[k] != 12 && draws[k] != 3;
    assert draws[7] == 2 && draws[8] == 0 && draws[0] == 7;
    UnmarkedOfFive(row, draws);
  }

  /** Board 3 after 12 draws: 0 + 60 + 72 + 41 + 15 = 188 unmarked, times 24. */
  lemma ExampleScore3(draws: seq<U8>)
    requires draws == [7, 4, 9, 5, 11, 17, 23, 2, 0, 14, 21, 24]
    ensures CalculateAnswer(Board3(), draws) == 4512
  {
    Board3Row0After12(draws);
    Board3Row1After12(draws);
    Board3Row2After12(draws);
    Board3Row3After12(draws);
    Board3Row4After12(draws);
    ScoreFromRows(Board3(), draws, 0, 60, 72, 41, 15);
  }

  /** Row 0 of board 2 after 15 draws: 40 unmarked. */
  lemma Board2Row0After15(draws: seq<U8>)
    requires draws == [7, 4, 9, 5, 11, 17, 23, 2, 0, 14, 21, 24, 10, 16, 13]
    ensures SumUnmarked(Board2().rows[0], draws) == 40
  {
    var row := Board2().rows[0];
    assert row == [3, 15, 0, 2, 22];
    assert forall k :: 0 <= k < |draws| ==> draws[k] != 3 && draws[k] != 15 && draws[k] != 22;
    assert draws[8] == 0 && draws[7] == 2;
    UnmarkedOfFive(row, draws);
  }

  /** Row 1 of board 2 after 15 draws: 18 unmarked. */
  lemma Board2Row1After15(draws: seq<U8>)
    requires draws == [7, 4, 9, 5, 11, 17, 23, 2, 0, 14, 21, 24, 10, 16, 13]
    ensures SumUnmarked(Board2().rows[1], draws) == 18
  {
    var row := Board2().rows[1];
    assert row == [9, 18, 13, 17, 5];
    assert forall k :: 0 <= k < |draws| ==> draws[k] != 18;
    assert draws[2] == 9 && draws[14] == 13 && draws[5] == 17 && draws[3] == 5;
    UnmarkedOfFive(row, draws);
  }

  /** Row 2 of board 2 after 15 draws: 52 unmarked. */
  lemma Board2Row2After15(draws: seq<U8>)
    requires draws == [7, 4, 9, 5, 11, 17, 23, 2, 0, 14, 21, 24, 10, 16, 13]
    ensures SumUnmarked(Board2().rows[2], draws) == 52
  {
    var row := Board2().rows[2];
    assert row == [19, 8, 7, 25, 23];
    assert forall k :: 0 <= k < |draws| ==> draws[k] != 19 && draws[k] != 8 && draws[k] != 25;
    assert draws[0] == 7 && draws[6] == 23;
    UnmarkedOfFive(row, draws);
  }

  /** Row 3 of board 2 after 15 draws: 20 unmarked. */
  lemma Board2Row3After15(draws: seq<U8>)
    requires draws == [7, 4, 9, 5, 11, 17, 23, 2, 0, 14, 21, 24, 10, 16, 13]
    ensures SumUnmarked(Board2().rows[3], draws) == 20
  {
    var row := Board2().rows[3];
    assert row == [20, 11, 10, 24, 4];
    assert forall k :: 0 <= k < |draws| ==> draws[k] != 20;
    assert draws[4] == 11 && draws[12] == 10 && draws[11] == 24 && draws[1] == 4;
    UnmarkedOfFive(row, draws);
  }

  /** Row 4 of board 2 after 15 draws: 18 unmarked. */
  lemma Board2Row4After15(draws: seq<U8>)
    requires draws == [7, 4, 9, 5, 11, 17, 23, 2, 0, 14, 21, 24, 10, 16, 13]
    ensures SumUnmarked(Board2().rows[4], draws) == 18
  {
    var row := Board2().rows[4];
    assert row == [14, 21, 16, 12, 6];
    assert forall k :: 0 <= k < |draws| ==> draws[k] != 12 && draws[k] != 6;
    assert draws[9] == 14 && draws[10] == 21 && draws[13] == 16;
    UnmarkedOfFive(row, draws);
  }

  /** Board 2 after 15 draws: 40 + 18 + 52 + 20 + 18 = 148 unmarked, times 13. */
  lemma ExampleScore2(draws: seq<U8>)
    requires draws == [7, 4, 9, 5, 11, 17, 23, 2, 0, 14, 21, 24, 10, 16, 13]
    ensures CalculateAnswer(Board2(), draws) == 1924
  {
    Board2Row0After15(draws);
    Board2Row1After15(draws);
    Board2Row2After15(draws);
    Board2Row3After15(draws);
    Board2Row4After15(draws);
    ScoreFromRows(Board2(), draws, 40, 18, 52, 20, 18);
  }

  /** Part 1 of the example: board 3 wins first, after 24 is drawn, and
      scores 188 * 24 = 4512. */
  lemma ExampleFirstWinningScore()
    ensures FirstWinningScore(ExampleBoards(), [], ExampleDraws()) == Some(4512)
  {
    var bs, draws := ExampleBoards(), ExampleDraws();
    ExamplePrefixes();
    ExampleAfter11([] + draws[..11]);
    ExampleAfter12([] + draws[..12]);
    FirstWinAt(bs, [], draws, 11);
    ExampleScore3([] + draws[..12]);
  }

  /** Part 2 of the example: board 3 wins after 12 draws, board 1 after 14
      and board 2 last, after 13 is drawn, scoring 148 * 13 = 1924. */
  lemma ExampleLastWinningScore()
    ensures LastWinningScore(ExampleBoards(), [], ExampleDraws()) == Some(1924)
  {
    var bs, draws := ExampleBoards(), ExampleDraws();
    ExamplePrefixes();
    ExampleAfter14([] + draws[..14]);
    Board2After15([] + draws[..15]);
    LastWinnerAt(bs, [], draws, 14, Board2());
    ExampleScore2([] + draws[..15]);
  }
}
