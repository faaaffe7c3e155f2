/** Day 4, Giant Squid: bingo against a squid. A game holds the boards still
    in play and the numbers drawn so far; two drivers play it to find the
    first and the last board to win. */
module GiantSquid {
  import opened Prelude
  import Grid

  // ---------------------------------------------------------------------
  // Boards
  // ---------------------------------------------------------------------

  /** A bingo board, as rows of numbers (`Board(Vec<Vec<u8>>)`). */
  datatype Board = Board(rows: seq<seq<U8>>)

  /** The shape every board built from the input has: five rows of five. */
  predicate WellShaped(b: Board) {
    |b.rows| == 5 && forall i :: 0 <= i < 5 ==> |b.rows[i]| == 5
  }

  /** A board of five rows of five can be transposed. */
  lemma WellShapedTransposable(b: Board)
    requires WellShaped(b)
    ensures Grid.Transposable(b.rows) && |b.rows[0]| == 5
  {
  }

  /** The shape checks of `Board::from` on already parsed lines: five lines,
      each of five numbers, or the program stops (`None`). */
  function BoardFrom(lines: seq<seq<U8>>): (r: Option<Board>)
    ensures r.Some? <==> WellShaped(Board(lines))
    ensures r.Some? ==> r.value.rows == lines
  {
    if |lines| != 5 then None
    else if exists i :: 0 <= i < |lines| && |lines[i]| != 5 then None
    else Some(Board(lines))
  }

  // ---------------------------------------------------------------------
  // Winning rows and columns
  // ---------------------------------------------------------------------

  /** Every number of `line` has been drawn. */
  ghost predicate Complete(line: seq<U8>, draws: seq<U8>) {
    forall k :: 0 <= k < |line| ==> line[k] in draws
  }

  /** Every number in column `j` of `rows` has been drawn. */
  ghost predicate ColumnComplete(rows: seq<seq<U8>>, j: nat, draws: seq<U8>) {
    forall i :: 0 <= i < |rows| ==> j < |rows[i]| && rows[i][j] in draws
  }

  /** `row.iter().all(|number| draws.contains(number))`. */
  function AllDrawn(line: seq<U8>, draws: seq<U8>): (r: bool)
    ensures r == Complete(line, draws)
  {
    if line == [] then true
    else
      assert forall k :: 1 <= k < |line| ==> line[k] == line[1..][k - 1];
      line[0] in draws && AllDrawn(line[1..], draws)
  }

  /** `lines.iter().any(|row| ...all drawn...)`. */
  function AnyDrawn(lines: seq<seq<U8>>, draws: seq<U8>): (r: bool)
    ensures r <==> exists i :: 0 <= i < |lines| && Complete(lines[i], draws)
  {
    if lines == [] then false
    else
      assert forall i :: 1 <= i < |lines| ==> lines[i] == lines[1..][i - 1];
      AllDrawn(lines[0], draws) || AnyDrawn(lines[1..], draws)
  }

  /** `has_winning_row`: some row of the board is fully drawn. */
  function HasWinningRow(b: Board, draws: seq<U8>): (r: bool)
    ensures r <==> exists i :: 0 <= i < |b.rows| && Complete(b.rows[i], draws)
  {
    AnyDrawn(b.rows, draws)
  }

  /** `has_winning_col`: some column of the board is fully drawn; the
      program checks the rows of the transposed board. */
  function HasWinningCol(b: Board, draws: seq<U8>): (r: bool)
    requires Grid.Transposable(b.rows)
    ensures r <==> exists j :: 0 <= j < |b.rows[0]| && ColumnComplete(b.rows, j, draws)
  {
    var transposed := Grid.Transpose(b.rows);
    assert forall j :: 0 <= j < |transposed| ==>
      (Complete(transposed[j], draws) <==> ColumnComplete(b.rows, j, draws));
    AnyDrawn(transposed, draws)
  }

  /** The test `pop_winners` partitions the boards by. */
  predicate Wins(b: Board, draws: seq<U8>)
    requires Grid.Transposable(b.rows)
  {
    HasWinningRow(b, draws) || HasWinningCol(b, draws)
  }

  /** Winning only asks whether numbers were drawn, so a board that wins
      keeps winning once more numbers are drawn. */
  lemma WinsMonotone(b: Board, draws: seq<U8>, more: seq<U8>)
    requires Grid.Transposable(b.rows)
    requires forall n :: n in draws ==> n in more
    ensures Wins(b, draws) ==> Wins(b, more)
  {
    if HasWinningRow(b, draws) {
      var i :| 0 <= i < |b.rows| && Complete(b.rows[i], draws);
      assert Complete(b.rows[i], more);
    } else if HasWinningCol(b, draws) {
      var j :| 0 <= j < |b.rows[0]| && ColumnComplete(b.rows, j, draws);
      assert ColumnComplete(b.rows, j, more);
    }
  }

  /** A board that wins still wins after the next `draw`. */
  lemma WinsAfterDraw(b: Board, draws: seq<U8>, number: U8)
    requires Grid.Transposable(b.rows)
    ensures Wins(b, draws) ==> Wins(b, draws + [number])
  {
    WinsMonotone(b, draws, draws + [number]);
  }

  // ---------------------------------------------------------------------
  // Scoring
  // ---------------------------------------------------------------------

  /** `all_numbers`: rows 0 to 4 one after the other. */
  function AllNumbers(b: Board): (r: seq<U8>)
    requires |b.rows| >= 5
    ensures |r| == |b.rows[0]| + |b.rows[1]| + |b.rows[2]| + |b.rows[3]| + |b.rows[4]|
  {
    [] + b.rows[0] + b.rows[1] + b.rows[2] + b.rows[3] + b.rows[4]
  }

  /** On a board of five rows of five, `all_numbers` lists the 25 numbers in
      row-major order. */
  lemma AllNumbersRowMajor(b: Board)
    requires WellShaped(b)
    ensures |AllNumbers(b)| == 25
    ensures forall i, j :: 0 <= i < 5 && 0 <= j < 5 ==> AllNumbers(b)[5 * i + j] == b.rows[i][j]
  {
    var r := AllNumbers(b);
    forall i, j | 0 <= i < 5 && 0 <= j < 5
      ensures r[5 * i + j] == b.rows[i][j]
    {
      if i == 0 {
      } else if i == 1 {
      } else if i == 2 {
      } else if i == 3 {
      } else {
      }
    }
  }

  /** The sum of the numbers of `numbers` that have not been drawn. */
  function SumUnmarked(numbers: seq<U8>, draws: seq<U8>): (r: nat)
    ensures r <= 255 * |numbers|
  {
    if numbers == [] then 0
    else (if numbers[0] in draws then 0 else numbers[0] as nat) + SumUnmarked(numbers[1..], draws)
  }

  /** The unmarked sum adds up over a concatenation. */
  lemma {:induction false} SumUnmarkedConcat(a: seq<U8>, b: seq<U8>, draws: seq<U8>)
    ensures SumUnmarked(a + b, draws) == SumUnmarked(a, draws) + SumUnmarked(b, draws)
  {
    if a != [] {
      assert (a + b)[1..] == a[1..] + b;
      SumUnmarkedConcat(a[1..], b, draws);
    } else {
      assert a + b == b;
    }
  }

  /** A sequence counts as its first element plus the rest. */
  lemma MultisetSplitFirst<T>(s: seq<T>)
    requires |s| > 0
    ensures multiset(s) == multiset{s[0]} + multiset(s[1..])
  {
    assert s == [s[0]] + s[1..];
  }

  /** One more occurrence adds the number once more. */
  lemma MultiplySuccessor(a: nat, c: nat)
    ensures a * (c + 1) == a * c + a
  {
  }

  /** Drawing a new number takes exactly its occurrences off the sum. */
  lemma {:induction false} SumUnmarkedAfterDraw(numbers: seq<U8>, draws: seq<U8>, number: U8)
    requires number !in draws
    ensures SumUnmarked(numbers, draws)
      == SumUnmarked(numbers, draws + [number]) + number * multiset(numbers)[number]
  {
    if numbers != [] {
      var tail, more := numbers[1..], draws + [number];
      SumUnmarkedAfterDraw(tail, draws, number);
      MultisetSplitFirst(numbers);
      var m: multiset<U8> := multiset(tail);
      var c: nat := m[number];
      var before, after := SumUnmarked(tail, draws), SumUnmarked(tail, more);
      assert before == after + number * c;
      if numbers[0] == number {
        assert SumUnmarked(numbers, draws) == number as nat + before;
        assert SumUnmarked(numbers, more) == after;
        assert multiset(numbers)[number] == c + 1;
        MultiplySuccessor(number, c);
      } else {
        assert multiset(numbers)[number] == c;
        assert numbers[0] in draws <==> numbers[0] in more;
      }
    }
  }

  /** Once every number is drawn nothing is left to count. */
  lemma {:induction false} SumUnmarkedAllDrawn(numbers: seq<U8>, draws: seq<U8>)
    requires Complete(numbers, draws)
    ensures SumUnmarked(numbers, draws) == 0
  {
    if numbers != [] {
      assert Complete(numbers[1..], draws) by {
        assert forall k :: 0 <= k < |numbers| - 1 ==> numbers[1..][k] == numbers[k + 1];
      }
      SumUnmarkedAllDrawn(numbers[1..], draws);
    }
  }

  /** The unmarked numbers of a board counted row by row: the reference the
      flattened count of `calculate_answer` is checked against. */
  function RowsUnmarked(rows: seq<seq<U8>>, draws: seq<U8>): nat {
    if rows == [] then 0 else SumUnmarked(rows[0], draws) + RowsUnmarked(rows[1..], draws)
  }

  /** A product of bounded factors is bounded. */
  lemma ProductBound(a: nat, b: nat, ma: nat, mb: nat)
    requires a <= ma && b <= mb
    ensures Product(a, b) <= ma * mb
  {
    calc {
      a * b;
    <= { assert a * b <= ma * b; }
      ma * b;
    <= ma * mb;
    }
  }

  /** `calculate_answer`: the unmarked numbers of the board, summed, times the
      last number drawn. Without a draw the program stops; callers always
      draw first. */
  function CalculateAnswer(b: Board, draws: seq<U8>): (r: nat)
    requires |b.rows| >= 5 && |draws| > 0
    ensures r == Product(RowsUnmarked(b.rows[..5], draws), draws[|draws| - 1])
    ensures WellShaped(b) ==> r <= 25 * 255 * 255 < 0x1_0000_0000
  {
    var sum := SumUnmarked(AllNumbers(b), draws);
    var lastDraw := draws[|draws| - 1];
    assert sum == RowsUnmarked(b.rows[..5], draws) by {
      var rs: seq<seq<U8>> := b.rows[..5];
      var r1 := rs[1..];
      var r2 := r1[1..];
      var r3 := r2[1..];
      var r4 := r3[1..];
      assert r1[0] == rs[1] && r2[0] == rs[2] && r3[0] == rs[3] && r4[0] == rs[4];
      assert r4[1..] == [];
      assert RowsUnmarked(r4, draws) == SumUnmarked(rs[4], draws);
      assert RowsUnmarked(r3, draws) == SumUnmarked(rs[3], draws) + RowsUnmarked(r4, draws);
      assert RowsUnmarked(r2, draws) == SumUnmarked(rs[2], draws) + RowsUnmarked(r3, draws);
      assert RowsUnmarked(r1, draws) == SumUnmarked(rs[1], draws) + RowsUnmarked(r2, draws);
      assert RowsUnmarked(rs, draws) == SumUnmarked(rs[0], draws) + SumUnmarked(rs[1], draws)
        + SumUnmarked(rs[2], draws) + SumUnmarked(rs[3], draws) + SumUnmarked(rs[4], draws);
      SumUnmarkedConcat([] + rs[0] + rs[1] + rs[2] + rs[3], rs[4], draws);
      SumUnmarkedConcat([] + rs[0] + rs[1] + rs[2], rs[3], draws);
      SumUnmarkedConcat([] + rs[0] + rs[1], rs[2], draws);
      SumUnmarkedConcat([] + rs[0], rs[1], draws);
      assert [] + rs[0] == rs[0];
    }
    assert WellShaped(b) ==> Product(sum, lastDraw) <= 25 * 255 * 255 by {
      if WellShaped(b) {
        ProductBound(sum, lastDraw, 25 * 255, 255);
      }
    }
    Product(sum, lastDraw)
  }

  // ---------------------------------------------------------------------
  // Partitioning the boards
  // ---------------------------------------------------------------------

  /** Every board has five rows of five: what `Board::from` guarantees. */
  predicate AllWellShaped(bs: seq<Board>) {
    forall i :: 0 <= i < |bs| ==> WellShaped(bs[i])
  }

  /** The boards that win, in order: the first half of the `partition`. */
  function Winners(bs: seq<Board>, draws: seq<U8>): (r: seq<Board>)
    requires AllWellShaped(bs)
    ensures AllWellShaped(r) && |r| <= |bs|
  {
    if bs == [] then []
    else
      var b := bs[|bs| - 1];
      Winners(bs[..|bs| - 1], draws) + (if Wins(b, draws) then [b] else [])
  }

  /** The boards that do not win, in order: the second half. */
  function Losers(bs: seq<Board>, draws: seq<U8>): (r: seq<Board>)
    requires AllWellShaped(bs)
    ensures AllWellShaped(r) && |r| <= |bs|
  {
    if bs == [] then []
    else
      var b := bs[|bs| - 1];
      Losers(bs[..|bs| - 1], draws) + (if Wins(b, draws) then [] else [b])
  }

  /** Every board the partition keeps as a winner wins. */
  lemma {:induction false} WinnersWin(bs: seq<Board>, draws: seq<U8>)
    requires AllWellShaped(bs)
    ensures forall i :: 0 <= i < |Winners(bs, draws)| ==> Wins(Winners(bs, draws)[i], draws)
  {
    if bs != [] {
      var init := bs[..|bs| - 1];
      WinnersWin(init, draws);
    }
  }

  /** No board the partition keeps in play wins. */
  lemma {:induction false} LosersLose(bs: seq<Board>, draws: seq<U8>)
    requires AllWellShaped(bs)
    ensures forall i :: 0 <= i < |Losers(bs, draws)| ==> !Wins(Losers(bs, draws)[i], draws)
  {
    if bs != [] {
      var init := bs[..|bs| - 1];
      LosersLose(init, draws);
    }
  }

  /** A sequence counts as its front plus its last element. */
  lemma MultisetSplitLast<T>(s: seq<T>)
    requires |s| > 0
    ensures multiset(s) == multiset(s[..|s| - 1]) + multiset{s[|s| - 1]}
  {
    assert s == s[..|s| - 1] + [s[|s| - 1]];
  }

  /** The partition loses no board and invents none. */
  lemma {:induction false} PartitionCounts(bs: seq<Board>, draws: seq<U8>)
    requires AllWellShaped(bs)
    ensures multiset(Winners(bs, draws)) + multiset(Losers(bs, draws)) == multiset(bs)
  {
    if bs != [] {
      var init := bs[..|bs| - 1];
      var b := bs[|bs| - 1];
      PartitionCounts(init, draws);
      var w, l := Winners(init, draws), Losers(init, draws);
      MultisetSplitLast(bs);
      if Wins(b, draws) {
        assert Winners(bs, draws) == w + [b] && Losers(bs, draws) == l;
        assert multiset(w + [b]) == multiset(w) + multiset{b};
      } else {
        assert Winners(bs, draws) == w && Losers(bs, draws) == l + [b];
        assert multiset(l + [b]) == multiset(l) + multiset{b};
      }
    }
  }

  /** The partition splits the boards into the ones that win and the ones
      that do not, losing none and inventing none. */
  lemma PartitionByWins(bs: seq<Board>, draws: seq<U8>)
    requires AllWellShaped(bs)
    ensures forall i :: 0 <= i < |Winners(bs, draws)| ==> Wins(Winners(bs, draws)[i], draws)
    ensures forall i :: 0 <= i < |Losers(bs, draws)| ==> !Wins(Losers(bs, draws)[i], draws)
    ensures multiset(Winners(bs, draws)) + multiset(Losers(bs, draws)) == multiset(bs)
  {
    WinnersWin(bs, draws);
    LosersLose(bs, draws);
    PartitionCounts(bs, draws);
  }

  /** No board wins exactly when the winners are empty. */
  lemma {:induction false} NoWinnersIff(bs: seq<Board>, draws: seq<U8>)
    requires AllWellShaped(bs)
    ensures Winners(bs, draws) == [] <==> forall i :: 0 <= i < |bs| ==> !Wins(bs[i], draws)
  {
    if bs != [] {
      var init := bs[..|bs| - 1];
      NoWinnersIff(init, draws);
      assert forall i :: 0 <= i < |init| ==> init[i] == bs[i];
    }
  }

  /** When no board wins, every board stays in play. */
  lemma {:induction false} NoWinnersKeepsAll(bs: seq<Board>, draws: seq<U8>)
    requires AllWellShaped(bs) && Winners(bs, draws) == []
    ensures Losers(bs, draws) == bs
  {
    if bs != [] {
      var init := bs[..|bs| - 1];
      var b := bs[|bs| - 1];
      assert !Wins(b, draws);
      assert Winners(init, draws) == [];
      NoWinnersKeepsAll(init, draws);
      assert Losers(bs, draws) == init + [b];
      assert bs == init + [b];
    }
  }

  /** Filtering again with more numbers drawn gives what one filtering with
      all of them gives: a board that lost with more numbers lost with fewer. */
  lemma {:induction false} LosersOfLosers(bs: seq<Board>, fewer: seq<U8>, more: seq<U8>)
    requires AllWellShaped(bs)
    requires forall n :: n in fewer ==> n in more
    ensures Losers(Losers(bs, fewer), more) == Losers(bs, more)
  {
    PartitionByWins(bs, fewer);
    if bs != [] {
      var init := bs[..|bs| - 1];
      var b := bs[|bs| - 1];
      var l := Losers(init, fewer);
      LosersOfLosers(init, fewer, more);
      WinsMonotone(b, fewer, more);
      assert Losers(bs, fewer) == l + (if Wins(b, fewer) then [] else [b]);
      assert Losers(bs, more) == Losers(init, more) + (if Wins(b, more) then [] else [b]);
      if Wins(b, fewer) {
        assert Losers(bs, fewer) == l;
        assert Losers(bs, more) == Losers(init, more);
      } else {
        var lb := l + [b];
        assert Losers(bs, fewer) == lb;
        assert lb[..|lb| - 1] == l;
        assert lb[|lb| - 1] == b;
        assert Losers(lb, more) == Losers(l, more) + (if Wins(b, more) then [] else [b]);
      }
    } else {
      assert Losers(bs, fewer) == [];
    }
  }

  /** More numbers drawn never turn winners into none. */
  lemma WinnersMonotone(bs: seq<Board>, fewer: seq<U8>, more: seq<U8>)
    requires AllWellShaped(bs)
    requires forall n :: n in fewer ==> n in more
    ensures Winners(bs, fewer) != [] ==> Winners(bs, more) != []
  {
    NoWinnersIff(bs, fewer);
    NoWinnersIff(bs, more);
    if Winners(bs, fewer) != [] {
      var i :| 0 <= i < |bs| && Wins(bs[i], fewer);
      WinsMonotone(bs[i], fewer, more);
    }
  }

  /** Every number of a prefix is a number of the whole. */
  lemma PrefixIncluded(a: seq<U8>, b: seq<U8>)
    requires a <= b
    ensures forall n :: n in a ==> n in b
  {
    assert forall k :: 0 <= k < |a| ==> a[k] == b[k];
  }

  // ---------------------------------------------------------------------
  // The game
  // ---------------------------------------------------------------------

  /** One more board of `bs` goes to exactly one side of the partition. */
  lemma PartitionStep(bs: seq<Board>, i: nat, draws: seq<U8>)
    requires AllWellShaped(bs) && i < |bs|
    ensures AllWellShaped(bs[..i]) && AllWellShaped(bs[..i + 1])
    ensures Winners(bs[..i + 1], draws) == Winners(bs[..i], draws) + (if Wins(bs[i], draws) then [bs[i]] else [])
    ensures Losers(bs[..i + 1], draws) == Losers(bs[..i], draws) + (if Wins(bs[i], draws) then [] else [bs[i]])
  {
    assert bs[..i + 1][..i] == bs[..i];
  }

  /** The `partition` of the boards by `has_winning_row || has_winning_col`:
      one pass that sends each board to the winners or to the rest. */
  method Partition(bs: seq<Board>, draws: seq<U8>) returns (won: seq<Board>, remaining: seq<Board>)
    requires AllWellShaped(bs)
    ensures won == Winners(bs, draws)
    ensures remaining == Losers(bs, draws)
  {
    won, remaining := [], [];
    for i := 0 to |bs|
      invariant won == Winners(bs[..i], draws)
      invariant remaining == Losers(bs[..i], draws)
    {
      var board := bs[i];
      PartitionStep(bs, i, draws);
      if HasWinningRow(board, draws) || HasWinningCol(board, draws) {
        won := won + [board];
      } else {
        remaining := remaining + [board];
      }
    }
    assert bs[..|bs|] == bs;
  }

  /** `Game`: the boards still in play and the numbers drawn so far. */
  class Game {
    var boards: seq<Board>
    var draws: seq<U8>

    /** Every board in play has the shape `Board::from` checked. */
    ghost predicate Valid()
      reads this
    {
      AllWellShaped(boards)
    }

    /** The game `parse` builds: all boards, nothing drawn yet. */
    constructor (boards: seq<Board>)
      requires AllWellShaped(boards)
      ensures Valid()
      ensures this.boards == boards && draws == []
    {
      this.boards := boards;
      draws := [];
    }

    /** `draw`: the number joins the drawn numbers; the boards stay. */
    method Draw(number: U8)
      requires Valid()
      modifies this
      ensures Valid()
      ensures draws == old(draws) + [number]
      ensures boards == old(boards)
    {
      draws := draws + [number];
    }

    /** `pop_winners`: the boards that win with the numbers drawn leave the
        game, in their order, and are returned, or `None` when there are
        none; the boards that do not win stay, in their order. */
    method PopWinners() returns (winners: Option<seq<Board>>)
      requires Valid()
      modifies this
      ensures Valid()
      ensures draws == old(draws)
      ensures boards == Losers(old(boards), draws)
      ensures winners.None? <==> Winners(old(boards), draws) == []
      ensures winners.Some? ==> winners.value == Winners(old(boards), draws)
      ensures forall i :: 0 <= i < |boards| ==> !Wins(boards[i], draws)
    {
      var won, remaining := Partition(boards, draws);
      LosersLose(boards, draws);
      boards := remaining;
      if won == [] {
        winners := None;
      } else {
        winners := Some(won);
      }
    }
  }

  // ---------------------------------------------------------------------
  // Part 1: the first board to win
  // ---------------------------------------------------------------------

  /** The boards that won together and the numbers drawn when they did:
      an entry of `results` in `solve_last_winning`. */
  datatype Round = Round(winners: seq<Board>, draws: seq<U8>)

  /** Drawing the numbers of `rest` one at a time after `drawn`, the first
      draw after which some board of `bs` wins, with those boards. */
  function FirstWin(bs: seq<Board>, drawn: seq<U8>, rest: seq<U8>): Option<Round>
    requires AllWellShaped(bs)
    decreases |rest|
  {
    if rest == [] then None
    else
      var d := drawn + [rest[0]];
      var w := Winners(bs, d);
      if w != [] then Some(Round(w, d)) else FirstWin(bs, d, rest[1..])
  }

  /** The first win comes after at least one more draw. */
  lemma {:induction false} FirstWinLonger(bs: seq<Board>, drawn: seq<U8>, rest: seq<U8>, round: Round)
    requires AllWellShaped(bs)
    requires FirstWin(bs, drawn, rest) == Some(round)
    ensures |drawn| < |round.draws|
    decreases |rest|
  {
    var d := drawn + [rest[0]];
    if Winners(bs, d) == [] {
      FirstWinLonger(bs, d, rest[1..], round);
    }
  }

  /** The first win is decided by the next draw, or comes later. */
  lemma FirstWinUnfold(bs: seq<Board>, drawn: seq<U8>, rest: seq<U8>, round: Round)
    requires AllWellShaped(bs)
    requires FirstWin(bs, drawn, rest) == Some(round)
    ensures rest != []
    ensures round.draws == drawn + [rest[0]] || FirstWin(bs, drawn + [rest[0]], rest[1..]) == Some(round)
  {
  }

  /** The draws of the first win are a prefix of all the numbers. */
  lemma {:induction false} FirstWinPrefix(bs: seq<Board>, drawn: seq<U8>, rest: seq<U8>, round: Round)
    requires AllWellShaped(bs)
    requires FirstWin(bs, drawn, rest) == Some(round)
    ensures round.draws <= drawn + rest
    decreases |rest|
  {
    FirstWinUnfold(bs, drawn, rest, round);
    var d, all := drawn + [rest[0]], drawn + rest;
    assert all == d + rest[1..];
    if round.draws == d {
      assert all[..|d|] == d;
    } else {
      FirstWinPrefix(bs, d, rest[1..], round);
    }
  }

  /** The first win comes after a draw from `rest`. */
  lemma FirstWinDraws(bs: seq<Board>, drawn: seq<U8>, rest: seq<U8>, round: Round)
    requires AllWellShaped(bs)
    requires FirstWin(bs, drawn, rest) == Some(round)
    ensures |drawn| < |round.draws| && round.draws <= drawn + rest
  {
    FirstWinLonger(bs, drawn, rest, round);
    FirstWinPrefix(bs, drawn, rest, round);
  }

  /** The winners of the first win are the boards that win with its draws. */
  lemma {:induction false} FirstWinWinners(bs: seq<Board>, drawn: seq<U8>, rest: seq<U8>, round: Round)
    requires AllWellShaped(bs)
    requires FirstWin(bs, drawn, rest) == Some(round)
    ensures round.winners == Winners(bs, round.draws) && round.winners != []
    decreases |rest|
  {
    var d := drawn + [rest[0]];
    if Winners(bs, d) == [] {
      FirstWinWinners(bs, d, rest[1..], round);
    }
  }

  /** If nothing had won before `rest`, nothing had won one draw before the
      first win either: it is the first. */
  lemma {:induction false} FirstWinNothingBefore(bs: seq<Board>, drawn: seq<U8>, rest: seq<U8>, round: Round)
    requires AllWellShaped(bs)
    requires FirstWin(bs, drawn, rest) == Some(round)
    requires Winners(bs, drawn) == []
    ensures |round.draws| > 0 && Winners(bs, round.draws[..|round.draws| - 1]) == []
    decreases |rest|
  {
    var d := drawn + [rest[0]];
    if Winners(bs, d) == [] {
      FirstWinNothingBefore(bs, d, rest[1..], round);
    } else {
      assert round.draws == d;
      assert d[..|d| - 1] == drawn;
    }
  }

  /** The first win happens after a draw from `rest`, the winners are the
      boards that win then, and, if nothing had won before `rest`, no board
      had won one draw earlier: nothing won before it. */
  lemma FirstWinIsFirst(bs: seq<Board>, drawn: seq<U8>, rest: seq<U8>, round: Round)
    requires AllWellShaped(bs)
    requires FirstWin(bs, drawn, rest) == Some(round)
    ensures |drawn| < |round.draws| && round.draws <= drawn + rest
    ensures round.winners == Winners(bs, round.draws) && round.winners != []
    ensures Winners(bs, drawn) == [] ==> Winners(bs, round.draws[..|round.draws| - 1]) == []
  {
    FirstWinDraws(bs, drawn, rest, round);
    FirstWinWinners(bs, drawn, rest, round);
    if Winners(bs, drawn) == [] {
      FirstWinNothingBefore(bs, drawn, rest, round);
    }
  }

  /** No board ever wins exactly when no board wins once every number of
      `rest` is drawn. */
  lemma {:induction false} FirstWinNoneIff(bs: seq<Board>, drawn: seq<U8>, rest: seq<U8>)
    requires AllWellShaped(bs)
    ensures FirstWin(bs, drawn, rest).None? <==> rest == [] || Winners(bs, drawn + rest) == []
    decreases |rest|
  {
    if rest != [] {
      var d := drawn + [rest[0]];
      var tail := rest[1..];
      assert d + tail == drawn + rest;
      WinnersMonotone(bs, d, drawn + rest);
      if Winners(bs, d) == [] {
        assert FirstWin(bs, drawn, rest) == FirstWin(bs, d, tail);
        FirstWinNoneIff(bs, d, tail);
        if tail == [] {
          assert rest == [rest[0]];
          assert drawn + rest == d;
        }
      }
    }
  }

  /** Moving the first number of `rest` over to `drawn` keeps the prefixes. */
  lemma PrefixShift(drawn: seq<U8>, rest: seq<U8>, k: nat)
    requires 0 < k < |rest|
    ensures drawn + [rest[0]] + rest[1..][..k - 1] == drawn + rest[..k]
    ensures drawn + [rest[0]] + rest[1..][..k] == drawn + rest[..k + 1]
    ensures drawn + [rest[0]] <= drawn + rest[..k]
  {
    assert rest[..k] == [rest[0]] + rest[1..][..k - 1];
    assert rest[..k + 1] == [rest[0]] + rest[1..][..k];
  }

  /** When the next draw makes some board win, it decides the first win. */
  lemma FirstWinNow(bs: seq<Board>, drawn: seq<U8>, rest: seq<U8>)
    requires AllWellShaped(bs)
    requires rest != [] && Winners(bs, drawn + [rest[0]]) != []
    ensures FirstWin(bs, drawn, rest) == Some(Round(Winners(bs, drawn + [rest[0]]), drawn + [rest[0]]))
  {
  }

  /** The same, with the next draw written as a prefix of `rest`. */
  lemma FirstWinHere(bs: seq<Board>, drawn: seq<U8>, rest: seq<U8>)
    requires AllWellShaped(bs)
    requires rest != [] && Winners(bs, drawn + rest[..1]) != []
    ensures FirstWin(bs, drawn, rest) == Some(Round(Winners(bs, drawn + rest[..1]), drawn + rest[..1]))
  {
    assert drawn + rest[..1] == drawn + [rest[0]];
    FirstWinNow(bs, drawn, rest);
  }

  /** When the next draw makes no board win, the first win comes later. */
  lemma FirstWinSkip(bs: seq<Board>, drawn: seq<U8>, rest: seq<U8>)
    requires AllWellShaped(bs)
    requires rest != [] && Winners(bs, drawn + [rest[0]]) == []
    ensures FirstWin(bs, drawn, rest) == FirstWin(bs, drawn + [rest[0]], rest[1..])
  {
  }

  /** The first win comes k draws into `rest` when nothing wins after k
      draws and something wins after k + 1. */
  lemma {:induction false} FirstWinAt(bs: seq<Board>, drawn: seq<U8>, rest: seq<U8>, k: nat)
    requires AllWellShaped(bs)
    requires k < |rest|
    requires Winners(bs, drawn + rest[..k]) == []
    requires Winners(bs, drawn + rest[..k + 1]) != []
    ensures FirstWin(bs, drawn, rest)
      == Some(Round(Winners(bs, drawn + rest[..k + 1]), drawn + rest[..k + 1]))
    decreases k
  {
    var d := drawn + [rest[0]];
    if k == 0 {
      FirstWinHere(bs, drawn, rest);
    } else {
      var tail, before, after := rest[1..], drawn + rest[..k], drawn + rest[..k + 1];
      PrefixShift(drawn, rest, k);
      assert Winners(bs, d + tail[..k - 1]) == [];
      assert Winners(bs, d + tail[..k]) != [];
      FirstWinAt(bs, d, tail, k - 1);
      assert Winners(bs, d) == [] by {
        PrefixIncluded(d, before);
        WinnersMonotone(bs, d, before);
      }
      FirstWinSkip(bs, drawn, rest);
    }
  }

  /** `solve_first_winning`'s answer: the score of the only board to win
      first, or `None` where the program stops (the draws run out, or more
      than one board wins first). */
  function FirstWinningScore(bs: seq<Board>, drawn: seq<U8>, rest: seq<U8>): (r: Option<nat>)
    requires AllWellShaped(bs)
    ensures r.Some? ==> r.value < 0x1_0000_0000
  {
    match FirstWin(bs, drawn, rest)
    case None => None
    case Some(round) =>
      if |round.winners| == 1 then
        assert |round.draws| > 0 && WellShaped(round.winners[0]) by {
          FirstWinIsFirst(bs, drawn, rest, round);
        }
        Some(CalculateAnswer(round.winners[0], round.draws))
      else None
  }

  /** The score of a first win, read off the round. */
  lemma FirstWinningScoreOf(bs: seq<Board>, drawn: seq<U8>, rest: seq<U8>, round: Round)
    requires AllWellShaped(bs)
    requires FirstWin(bs, drawn, rest) == Some(round)
    ensures |round.winners| == 1 ==> WellShaped(round.winners[0]) && |round.draws| > 0
    ensures FirstWinningScore(bs, drawn, rest)
      == if |round.winners| == 1 then Some(CalculateAnswer(round.winners[0], round.draws)) else None
  {
    FirstWinIsFirst(bs, drawn, rest, round);
  }

  // ---------------------------------------------------------------------
  // Part 2: the last board to win
  // ---------------------------------------------------------------------

  /** Drawing the numbers of `rest` one at a time after `drawn`, popping the
      winners after each draw: the rounds in which boards won, in order. */
  function Rounds(bs: seq<Board>, drawn: seq<U8>, rest: seq<U8>): seq<Round>
    requires AllWellShaped(bs)
    decreases |rest|
  {
    if rest == [] then []
    else
      var d := drawn + [rest[0]];
      var w := Winners(bs, d);
      var later := Rounds(Losers(bs, d), d, rest[1..]);
      if w == [] then later else [Round(w, d)] + later
  }

  /** The boards still in play once every number of `rest` is drawn. */
  function RemainingAfter(bs: seq<Board>, drawn: seq<U8>, rest: seq<U8>): (r: seq<Board>)
    requires AllWellShaped(bs)
    ensures AllWellShaped(r) && |r| <= |bs|
    decreases |rest|
  {
    if rest == [] then bs
    else
      var d := drawn + [rest[0]];
      RemainingAfter(Losers(bs, d), d, rest[1..])
  }

  /** `solve_last_winning`'s answer: the score of the only board of the last
      round, with the numbers drawn up to that round, or `None` where the
      program stops (no board ever wins, or the last round has several). */
  function LastWinningScore(bs: seq<Board>, drawn: seq<U8>, rest: seq<U8>): (r: Option<nat>)
    requires AllWellShaped(bs)
    ensures r.Some? ==> r.value < 0x1_0000_0000
  {
    var rounds := Rounds(bs, drawn, rest);
    if rounds == [] then None
    else
      var last := rounds[|rounds| - 1];
      if |last.winners| == 1 then
        assert |last.draws| > 0 && WellShaped(last.winners[0]) by {
          LastRoundShape(bs, drawn, rest);
        }
        Some(CalculateAnswer(last.winners[0], last.draws))
      else None
  }

  /** Every round has winners of the right shape and comes after a draw
      from `rest`; later rounds come after later draws. */
  lemma {:induction false} RoundsShape(bs: seq<Board>, drawn: seq<U8>, rest: seq<U8>)
    requires AllWellShaped(bs)
    ensures forall j :: 0 <= j < |Rounds(bs, drawn, rest)| ==>
      var round := Rounds(bs, drawn, rest)[j];
      && round.winners != [] && AllWellShaped(round.winners)
      && |drawn| < |round.draws| && round.draws <= drawn + rest
    ensures forall j :: 0 < j < |Rounds(bs, drawn, rest)| ==>
      |Rounds(bs, drawn, rest)[j - 1].draws| < |Rounds(bs, drawn, rest)[j].draws|
    decreases |rest|
  {
    if rest != [] {
      var d := drawn + [rest[0]];
      assert d + rest[1..] == drawn + rest;
      RoundsShape(Losers(bs, d), d, rest[1..]);
    }
  }

  /** With no boards in play no round has winners. */
  lemma {:induction false} RoundsOfNoBoards(drawn: seq<U8>, rest: seq<U8>)
    ensures Rounds([], drawn, rest) == []
    ensures RemainingAfter([], drawn, rest) == []
    decreases |rest|
  {
    if rest != [] {
      RoundsOfNoBoards(drawn + [rest[0]], rest[1..]);
    }
  }

  /** The two parts agree: there are rounds exactly when some board wins
      first, and the first round is that first win. */
  lemma {:induction false} RoundsStartWithFirstWin(bs: seq<Board>, drawn: seq<U8>, rest: seq<U8>)
    requires AllWellShaped(bs)
    ensures Rounds(bs, drawn, rest) == [] <==> FirstWin(bs, drawn, rest).None?
    ensures Rounds(bs, drawn, rest) != [] ==> Rounds(bs, drawn, rest)[0] == FirstWin(bs, drawn, rest).value
    decreases |rest|
  {
    if rest != [] {
      var d := drawn + [rest[0]];
      if Winners(bs, d) == [] {
        NoWinnersKeepsAll(bs, d);
        RoundsStartWithFirstWin(bs, d, rest[1..]);
      }
    }
  }

  /** Splitting the draws splits the rounds: the second part starts from the
      boards the first part leaves. */
  lemma {:induction false} RoundsSplit(bs: seq<Board>, drawn: seq<U8>, first: seq<U8>, second: seq<U8>)
    requires AllWellShaped(bs)
    ensures Rounds(bs, drawn, first + second)
      == Rounds(bs, drawn, first) + Rounds(RemainingAfter(bs, drawn, first), drawn + first, second)
    ensures RemainingAfter(bs, drawn, first + second)
      == RemainingAfter(RemainingAfter(bs, drawn, first), drawn + first, second)
    decreases |first|
  {
    if first == [] {
      assert first + second == second;
      assert drawn + first == drawn;
    } else {
      var d := drawn + [first[0]];
      assert (first + second)[0] == first[0];
      assert (first + second)[1..] == first[1..] + second;
      assert d + first[1..] == drawn + first;
      RoundsSplit(Losers(bs, d), d, first[1..], second);
    }
  }

  /** The last round, if any, has winners of the right shape and draws. */
  lemma LastRoundShape(bs: seq<Board>, drawn: seq<U8>, rest: seq<U8>)
    requires AllWellShaped(bs)
    ensures var rounds := Rounds(bs, drawn, rest);
      rounds != [] ==>
        var last := rounds[|rounds| - 1];
        last.winners != [] && AllWellShaped(last.winners) && |last.draws| > 0
  {
    RoundsShape(bs, drawn, rest);
  }

  /** One more draw after `played` adds its round, if any, to the rounds
      and leaves the boards that do not win with it. */
  lemma RoundsExtend(bs: seq<Board>, drawn: seq<U8>, played: seq<U8>, number: U8)
    requires AllWellShaped(bs)
    ensures var now := RemainingAfter(bs, drawn, played);
      var d := drawn + played + [number];
      var w := Winners(now, d);
      && Rounds(bs, drawn, played + [number])
        == Rounds(bs, drawn, played) + (if w == [] then [] else [Round(w, d)])
      && RemainingAfter(bs, drawn, played + [number]) == Losers(now, d)
  {
    var now := RemainingAfter(bs, drawn, played);
    var d := drawn + played + [number];
    RoundsSplit(bs, drawn, played, [number]);
    assert [number][1..] == [];
    assert Rounds(Losers(now, d), d, []) == [];
  }

  /** When a single board `b` is left in play after k draws of `rest` and
      wins with the next one, it is the last board to win and the answer
      is its score with those k + 1 draws. */
  lemma LastWinnerAt(bs: seq<Board>, drawn: seq<U8>, rest: seq<U8>, k: nat, b: Board)
    requires AllWellShaped(bs) && 0 < k < |rest|
    requires Losers(bs, drawn + rest[..k]) == [b]
    requires WellShaped(b) && Wins(b, drawn + rest[..k + 1])
    ensures LastWinningScore(bs, drawn, rest) == Some(CalculateAnswer(b, drawn + rest[..k + 1]))
  {
    var played, number, later := rest[..k], rest[k], rest[k + 1..];
    var d := drawn + rest[..k + 1];
    assert played + [number] == rest[..k + 1];
    assert rest[..k + 1] + later == rest;
    assert drawn + played + [number] == d;
    RemainingIsLosers(bs, drawn, played);
    RoundsExtend(bs, drawn, played, number);
    assert [b][..0] == [];
    assert Winners([b], d) == [b] && Losers([b], d) == [];
    RoundsSplit(bs, drawn, rest[..k + 1], later);
    RoundsOfNoBoards(d, later);
    var rounds := Rounds(bs, drawn, rest);
    assert rounds == Rounds(bs, drawn, played) + [Round([b], d)];
    assert rounds[|rounds| - 1] == Round([b], d);
  }

  /** Once some number of `rest` is drawn, the boards in play are exactly
      the boards that do not win with every number drawn. */
  lemma {:induction false} RemainingIsLosers(bs: seq<Board>, drawn: seq<U8>, rest: seq<U8>)
    requires AllWellShaped(bs)
    requires rest != []
    ensures RemainingAfter(bs, drawn, rest) == Losers(bs, drawn + rest)
    decreases |rest|
  {
    var d := drawn + [rest[0]];
    var tail := rest[1..];
    assert d + tail == drawn + rest;
    if tail == [] {
      assert rest == [rest[0]];
    } else {
      RemainingIsLosers(Losers(bs, d), d, tail);
      LosersOfLosers(bs, d, d + tail);
    }
  }

  /** The boards of a list of rounds, one round after the other. */
  function AllWinners(rounds: seq<Round>): seq<Board> {
    if rounds == [] then [] else rounds[0].winners + AllWinners(rounds[1..])
  }

  /** Every board wins in exactly one round or stays in play to the end:
      the rounds and the remaining boards together are the boards. */
  lemma {:induction false} RoundsPartition(bs: seq<Board>, drawn: seq<U8>, rest: seq<U8>)
    requires AllWellShaped(bs)
    ensures multiset(AllWinners(Rounds(bs, drawn, rest))) + multiset(RemainingAfter(bs, drawn, rest))
      == multiset(bs)
    decreases |rest|
  {
    if rest != [] {
      var d := drawn + [rest[0]];
      var w, l := Winners(bs, d), Losers(bs, d);
      var later := Rounds(l, d, rest[1..]);
      RoundsPartition(l, d, rest[1..]);
      PartitionCounts(bs, d);
      if w != [] {
        var rounds := [Round(w, d)] + later;
        assert rounds[1..] == later;
        assert AllWinners(rounds) == w + AllWinners(later);
      } else {
        assert multiset(w) == multiset{};
      }
    }
  }

  /** The boards that win in a round are the boards that win with its draws
      and did not win one draw earlier, provided nothing had won before
      `rest`. */
  ghost predicate NewWinners(bs: seq<Board>, round: Round)
    requires AllWellShaped(bs)
  {
    |round.draws| > 0
    && round.winners == Winners(Losers(bs, round.draws[..|round.draws| - 1]), round.draws)
  }

  /** A round after the draws `d` that holds the new winners among the
      boards that lost with `d` holds the new winners among all boards. */
  lemma NewWinnersOfLosers(bs: seq<Board>, d: seq<U8>, round: Round)
    requires AllWellShaped(bs)
    requires |d| < |round.draws| && d <= round.draws
    requires NewWinners(Losers(bs, d), round)
    ensures NewWinners(bs, round)
  {
    var before := round.draws[..|round.draws| - 1];
    assert d <= before;
    assert forall n :: n in d ==> n in before;
    LosersOfLosers(bs, d, before);
  }

  /** Each round holds the boards that win with its draws and not before. */
  lemma {:induction false} RoundsAreNewWinners(bs: seq<Board>, drawn: seq<U8>, rest: seq<U8>)
    requires AllWellShaped(bs)
    requires Winners(bs, drawn) == []
    ensures forall j :: 0 <= j < |Rounds(bs, drawn, rest)| ==> NewWinners(bs, Rounds(bs, drawn, rest)[j])
    decreases |rest|
  {
    if rest != [] {
      var d := drawn + [rest[0]];
      var w, l := Winners(bs, d), Losers(bs, d);
      var later := Rounds(l, d, rest[1..]);
      LosersLose(bs, d);
      NoWinnersIff(l, d);
      RoundsAreNewWinners(l, d, rest[1..]);
      RoundsShape(l, d, rest[1..]);
      forall j | 0 <= j < |later|
        ensures NewWinners(bs, later[j])
      {
        NewWinnersOfLosers(bs, d, later[j]);
      }
      if w != [] {
        NoWinnersKeepsAll(bs, drawn);
        assert d[..|d| - 1] == drawn;
        var rounds := [Round(w, d)] + later;
        assert forall j :: 0 < j < |rounds| ==> rounds[j] == later[j - 1];
      }
    }
  }

  /** After the last round no further board wins: the boards that lose with
      the last round's draws lose with every draw. */
  lemma {:induction false} NothingWinsAfterLastRound(bs: seq<Board>, drawn: seq<U8>, rest: seq<U8>)
    requires AllWellShaped(bs)
    requires Rounds(bs, drawn, rest) != []
    ensures var rounds := Rounds(bs, drawn, rest);
      Losers(bs, rounds[|rounds| - 1].draws) == Losers(bs, drawn + rest)
    decreases |rest|
  {
    var d := drawn + [rest[0]];
    var tail := rest[1..];
    var w, l := Winners(bs, d), Losers(bs, d);
    var later := Rounds(l, d, tail);
    assert d + tail == drawn + rest;
    if later != [] {
      NothingWinsAfterLastRound(l, d, tail);
      RoundsShape(l, d, tail);
      var last := later[|later| - 1].draws;
      assert d <= last;
      assert forall n :: n in d ==> n in last;
      LosersOfLosers(bs, d, last);
      LosersOfLosers(bs, d, d + tail);
      if w != [] {
        var rounds := [Round(w, d)] + later;
        assert rounds[|rounds| - 1] == later[|later| - 1];
      }
    } else {
      RoundsStartWithFirstWin(l, d, tail);
      FirstWinNoneIff(l, d, tail);
      if tail != [] {
        NoWinnersKeepsAll(l, d + tail);
        LosersOfLosers(bs, d, d + tail);
      } else {
        assert rest == [rest[0]];
      }
    }
  }

  /** One turn of the `loop` of `solve_first_winning`, on the draws made so
      far: when draw `i` makes some board win, the first win from here is
      that one; otherwise it is the one found from draw `i + 1` on. */
  lemma FirstWinStep(bs: seq<Board>, drawn0: seq<U8>, all: seq<U8>, i: nat)
    requires AllWellShaped(bs) && i < |all|
    ensures drawn0 + all[..i] + [all[i]] == drawn0 + all[..i + 1]
    ensures Winners(bs, drawn0 + all[..i + 1]) != [] ==>
      FirstWin(bs, drawn0 + all[..i], all[i..]) == Some(Round(Winners(bs, drawn0 + all[..i + 1]), drawn0 + all[..i + 1]))
    ensures Winners(bs, drawn0 + all[..i + 1]) == [] ==>
      FirstWin(bs, drawn0 + all[..i], all[i..]) == FirstWin(bs, drawn0 + all[..i + 1], all[i + 1..])
  {
    var drawn, rest := drawn0 + all[..i], all[i..];
    assert rest[0] == all[i] && rest[1..] == all[i + 1..];
    assert all[..i + 1] == all[..i] + [all[i]];
    assert drawn + [rest[0]] == drawn0 + all[..i + 1];
    if Winners(bs, drawn + [rest[0]]) != [] {
      FirstWinNow(bs, drawn, rest);
    } else {
      FirstWinSkip(bs, drawn, rest);
    }
  }

  // ---------------------------------------------------------------------
  // The drivers
  // ---------------------------------------------------------------------

  /** The `loop` of `solve_first_winning`: draw the numbers in turn,
      popping the winners after each draw, until some board wins; `None`
      where `all_draws[i]` runs past the end. */
  method DrawUntilWin(game: Game, allDraws: seq<U8>) returns (winning: Option<seq<Board>>)
    requires game.Valid()
    modifies game
    ensures game.Valid()
    ensures winning.None? <==> FirstWin(old(game.boards), old(game.draws), allDraws).None?
    ensures winning.None? ==> game.boards == old(game.boards) && game.draws == old(game.draws) + allDraws
    ensures winning.Some? ==> FirstWin(old(game.boards), old(game.draws), allDraws) == Some(Round(winning.value, game.draws))
    ensures winning.Some? ==> game.boards == Losers(old(game.boards), game.draws)
  {
    ghost var boards0, drawn0 := game.boards, game.draws;
    var i := 0;
    while true
      invariant game.Valid()
      invariant i <= |allDraws|
      invariant game.boards == boards0 && game.draws == drawn0 + allDraws[..i]
      invariant FirstWin(boards0, drawn0 + allDraws[..i], allDraws[i..]) == FirstWin(boards0, drawn0, allDraws)
      decreases |allDraws| - i
    {
      if i == |allDraws| {
        assert allDraws[..i] == allDraws && allDraws[i..] == [];
        return None;
      }
      var number := allDraws[i];
      FirstWinStep(boards0, drawn0, allDraws, i);
      game.Draw(number);
      var popped := game.PopWinners();
      if popped.Some? {
        return popped;
      }
      NoWinnersKeepsAll(boards0, game.draws);
      i := i + 1;
    }
  }

  /** `solve_first_winning`: the score of the board that wins first, when it
      is the only one. */
  method SolveFirstWinning(game: Game, allDraws: seq<U8>) returns (answer: Option<nat>)
    requires game.Valid()
    modifies game
    ensures answer == FirstWinningScore(old(game.boards), old(game.draws), allDraws)
    ensures game.Valid()
    ensures FirstWin(old(game.boards), old(game.draws), allDraws).None? ==>
      game.boards == old(game.boards) && game.draws == old(game.draws) + allDraws
    ensures FirstWin(old(game.boards), old(game.draws), allDraws).Some? ==>
      var round := FirstWin(old(game.boards), old(game.draws), allDraws).value;
      game.draws == round.draws && game.boards == Losers(old(game.boards), round.draws)
  {
    ghost var boards0, drawn0 := game.boards, game.draws;
    var winning := DrawUntilWin(game, allDraws);
    if winning.None? {
      return None;
    }
    var boards := winning.value;
    FirstWinningScoreOf(boards0, drawn0, allDraws, Round(boards, game.draws));
    if |boards| == 1 {
      answer := Some(CalculateAnswer(boards[0], game.draws));
    } else {
      // "More than one board won first".
      answer := None;
    }
  }

  /** `solve_last_winning`: draw every number, popping the winners after
      each draw and recording every round; the answer is the score of the
      last round's board when it is the only one. */
  method SolveLastWinning(game: Game, allDraws: seq<U8>) returns (answer: Option<nat>)
    requires game.Valid()
    modifies game
    ensures game.Valid()
    ensures game.draws == old(game.draws) + allDraws
    ensures game.boards == RemainingAfter(old(game.boards), old(game.draws), allDraws)
    ensures answer == LastWinningScore(old(game.boards), old(game.draws), allDraws)
  {
    ghost var boards0, drawn0 := game.boards, game.draws;
    var results: seq<Round> := [];
    for i := 0 to |allDraws|
      invariant game.Valid()
      invariant game.draws == drawn0 + allDraws[..i]
      invariant game.boards == RemainingAfter(boards0, drawn0, allDraws[..i])
      invariant results == Rounds(boards0, drawn0, allDraws[..i])
    {
      assert allDraws[..i + 1] == allDraws[..i] + [allDraws[i]];
      RoundsExtend(boards0, drawn0, allDraws[..i], allDraws[i]);
      game.Draw(allDraws[i]);
      var popped := game.PopWinners();
      if popped.Some? {
        results := results + [Round(popped.value, game.draws)];
      }
    }
    assert allDraws[..|allDraws|] == allDraws;
    if results == [] {
      // `results.last().unwrap()` finds no round.
      return None;
    }
    var last := results[|results| - 1];
    if |last.winners| == 1 {
      LastRoundShape(boards0, drawn0, allDraws);
      answer := Some(CalculateAnswer(last.winners[0], last.draws));
    } else {
      // The last round has more than one board.
      answer := None;
    }
  }
}
