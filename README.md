# Advent of Code 2021, days 1 to 4, in Dafny

A model of the solvers for the first four puzzles of a Rust Advent of Code 2021
repository. Each solver runs on input that has already been parsed. Properties
of each solver are proved as contracts and lemmas.

- `prelude.dfy` (`Prelude`): an `Option` that stands for "the program panics
  here" (`None`), Rust's `u8`, and `Product`, the unbounded product of two
  numbers that days 3 and 4 compute.
- `grid.dfy` (`Grid`): `transpose_vec`, the column-by-column transpose that
  days 3 and 4 share.
- `sonar_sweep.dfy` (`SonarSweep`): day 1. It counts the depth measurements
  that are larger than the one before, both one by one and over a sliding
  window of three. The two loops of the source are methods, each proved
  against a specification function: `Increases`, a recursive count, and
  `WindowSums`, a sequence comprehension.
- `dive.dfy` (`Dive`): day 2. It plots the submarine's course, once directly
  and once with an aim. Both loops are methods proved against a fold of one
  step function. The final positions are also given in closed form: total
  forward distance, net dive, and aim-weighted depth.
- `binary_diagnostic.dfy` (`BinaryDiagnostic`): day 3.
  - The gamma and epsilon rates come from per-column majority bits.
  - The oxygen and CO2 ratings come from filtering the rows column by
    column, keeping the most or least common digit.
  - `bitvec_to_u32` parses a bit string in base 2 into a `usize`, then
    truncates it to `u32`. Parsing fails when the value, not the number of
    digits, exceeds 64 bits: leading zeros are free.
- `giant_squid.dfy` (`GiantSquid`): day 4, bingo.
  - A `Game` object holds the boards still in play and the numbers drawn so
    far. `Draw` and `PopWinners` update it in place.
  - `SolveFirstWinning` and `SolveLastWinning` play the game by calling
    those methods. The first-winner loop is its own method, `DrawUntilWin`.
  - Each driver is proved to return a score, and to leave a game state,
    given by a recursive function over the draws (`FirstWin`, `Rounds`). Lemmas about those functions
    state what the rounds mean: winners are exactly the boards that win
    with the round's draws and not before, every board wins once or stays
    in play, and nothing wins after the last round.
- `binary_diagnostic_examples.dfy` and `giant_squid_examples.dfy`: the
  worked examples from the repository's tests, proved on the model
  (198 and 230 for day 3; 4512 and 1924 for day 4).

How panics are modelled:
- A panic caused by indexing or unwrapping a helper's own argument becomes
  a `requires`. Examples: `transpose_vec` of an empty matrix and
  `count_increments` of an empty list (indexing), and `calculate_answer`
  with nothing drawn (the `unwrap` of `draws.last()`).
- A panic that ends a solver on some puzzle input becomes a `None` result:
  - `filter_binaries` finding no row or several rows left;
  - the `unwrap` of an empty bit string;
  - the first-winner loop running out of draws;
  - several boards winning together in the round that decides the answer;
  - no board ever winning in part 2.

In a column with as many ones as zeros, the gamma bit is 0, because the
program compares the count of ones strictly against half the number of rows.
The oxygen filter's most common digit is 1 in that case. The model follows
the code, not the puzzle's "most common bit" wording, and
`BinaryDiagnostic.GammaIsMostCommonExceptOnTies` states exactly where the two
disagree.

## Model

| member | source | states |
|---|---|---|
| Grid.Column | src/util.rs:7 | the column has one entry per row, and entry `j` is row `j`'s element at the index |
| Grid.Transpose | src/util.rs:2-9 | requires a row 0 and every row at least as long as row 0 (otherwise an index panics); the result has one row per column of row 0, each as long as the input has rows, with entry `[i][j]` equal to input entry `[j][i]` |
| Grid.TransposeRectangular | src/util.rs:2-9 | the transpose of a rectangular matrix with non-empty rows is rectangular and can itself be transposed |
| Grid.TransposeTwice | src/util.rs:2-9 | transposing a rectangular matrix twice gives it back |
| SonarSweep.Increases | src/bin/day1.rs:24-37 | the increase count of `n >= 1` values is at most `n - 1` |
| SonarSweep.IncreasesCountsIndices | src/bin/day1.rs:28-34 | the count equals the number of positions `i >= 1` whose value is strictly larger than the value at `i - 1` |
| SonarSweep.IncreasesZeroIff | src/bin/day1.rs:29 | the count is 0 exactly when no value exceeds its predecessor, so equal values never count |
| SonarSweep.IncreasesFullIff | src/bin/day1.rs:29 | the count reaches `n - 1` exactly when the values strictly increase throughout |
| SonarSweep.CountIncrements | src/bin/day1.rs:24-37 | requires a first number (it is indexed); the loop's count is the increase count of the whole list, at most `n - 1` |
| SonarSweep.WindowSums | src/bin/day1.rs:45-59 | entry `i` is the sum of numbers `i`, `i + 1` and `i + 2`, for the `n - 2` windows (definition the loop is proved against) |
| SonarSweep.GroupToSumsOf3 | src/bin/day1.rs:45-59 | requires two numbers (both are indexed); returns `n - 2` sums, sum `i` being numbers `i`, `i + 1` and `i + 2` added |
| SonarSweep.CountIncrements3 | src/bin/day1.rs:40-43 | requires three numbers, so that the window list is non-empty; the count of window increases equals the number of positions whose value exceeds the one three places earlier |
| SonarSweep.WindowIncreasesAreDistance3 | src/bin/day1.rs:40-59 | for every list, consecutive window sums increase exactly where the entering number exceeds the leaving one |
| SonarSweep.Examples | src/bin/day1.rs:81-103 | the window example of the comment on `group_to_sums_of_3` (line 45), 7 increases of the test measurements, and 5 window increases |
| Dive.Command | src/bin/day2.rs:33-38 | the three commands, each with a `u8` amount (datatype) |
| Dive.Position | src/bin/day2.rs:28-31 | `SubmarinePosition`'s horizontal position and depth (datatype) |
| Dive.AimState | src/bin/day2.rs:62-67 | the position `solve_with_aim` updates together with its local `aim` (datatype) |
| Dive.MoveBasic | src/bin/day2.rs:51-55 | `Forward` only moves horizontally by its amount, and `Up`/`Down` only change the depth |
| Dive.MoveWithAim | src/bin/day2.rs:70-77 | `Forward` keeps the aim, and `Up`/`Down` keep the position |
| Dive.PlotBasic | src/bin/day2.rs:45-56 | the position `solve_basic`'s loop reaches: the plain step folded over the commands from (0, 0) (definition; its closed form is the next row) |
| Dive.PlotWithAim | src/bin/day2.rs:62-78 | the position and aim `solve_with_aim`'s loop reaches: the aimed step folded from (0, 0) and aim 0 (definition) |
| Dive.PlotBasicIsTotals | src/bin/day2.rs:44-59 | the plain course ends at the total forward amount and the net `Down` amount (downs minus ups) |
| Dive.PlotWithAimIsTotals | src/bin/day2.rs:61-81 | the aimed course has the same horizontal as the plain one; its aim equals the plain depth; its depth adds up each forward amount times the net `Down` before it |
| Dive.SolveBasic | src/bin/day2.rs:44-59 | the loop ends at the fold of the plain step, which is the total forward and net `Down` |
| Dive.SolveWithAim | src/bin/day2.rs:61-81 | the loop ends at the fold of the aimed step, which is the total forward and the aim-weighted depth |
| Dive.ExampleBasic | src/bin/day2.rs:125-132 | the test course ends at (15, 10), answer 150 |
| Dive.ExampleWithAim | src/bin/day2.rs:143-150 | with aim the test course ends at (15, 60), answer 900 |
| BinaryDiagnostic.LineToBits | src/bin/day3.rs:22-31 | a line is read exactly when every character is `'0'` or `'1'`; digit `k` is 1 exactly when character `k` is `'1'` |
| BinaryDiagnostic.LineToBitsOfBitsToLine | src/bin/day3.rs:22-31 | reading the text of a row gives the row back |
| BinaryDiagnostic.BitsToLineOfLineToBits | src/bin/day3.rs:22-31 | a line that is read is the text of the row read from it |
| BinaryDiagnostic.BitsValue | src/bin/day3.rs:139-146 | the base-2 value of `n` bits is below `2^n` |
| BinaryDiagnostic.BitsValueFirstMostSignificant | src/bin/day3.rs:139-146 | the first bit weighs `2^(n-1)`: the string is read most significant bit first |
| BinaryDiagnostic.Complement | src/bin/day3.rs:74 | same length, every bit flipped |
| BinaryDiagnostic.ComplementSum | src/bin/day3.rs:72-77 | a bit string and its complement add up to `2^n - 1` |
| BinaryDiagnostic.BitvecToU32 | src/bin/day3.rs:139-146 | parsing succeeds exactly for a non-empty string whose value fits a 64-bit `usize` (the empty string and overflow panic), so always for 1 to 64 digits; the result is the base-2 value cut to `u32` (`as u32`), hence below `2^32`, and up to 32 bits it is the base-2 value itself |
| BinaryDiagnostic.LeadingZeroIgnored | src/bin/day3.rs:139-146 | a leading `'0'` never changes what is parsed, so no number of digits alone makes parsing fail |
| BinaryDiagnostic.CountOf | src/bin/day3.rs:68 | the `filter(..).count()` of one digit in a transposed row; never more than the row's length |
| BinaryDiagnostic.GammaBits | src/bin/day3.rs:62-70 | one bit per transposed row: whether its count of 1s exceeds half of `transposed[0]`'s length (definition) |
| BinaryDiagnostic.CalculateBasicRates | src/bin/day3.rs:61-78 | the rates exist exactly when there are at most 64 columns; they are the values of the gamma bits and of their complement, cut to `u32`, and exactly those values up to 32 columns, where gamma plus epsilon is `2^n - 1` |
| BinaryDiagnostic.GammaIsStrictMajority | src/bin/day3.rs:66-70 | in a rectangular report, a gamma bit is 1 exactly when its column holds strictly more ones than zeros |
| BinaryDiagnostic.GammaAgainstZeros | src/bin/day3.rs:61-70 | a gamma bit is 1 exactly when more rows than half of them, rounded down, hold a 1 in that column |
| BinaryDiagnostic.GammaIsMostCommonExceptOnTies | src/bin/day3.rs:119-136 | the gamma bit is 1 exactly when the most common digit is 1 and the column is not a tie |
| BinaryDiagnostic.Zeros | src/bin/day3.rs:129-133 | the number of rows with a 0 at the column, at most the number of rows |
| BinaryDiagnostic.ZeroCount | src/bin/day3.rs:127-136 | `Less`, `Greater` and `Equal` compare the zeros of the column with half the number of rows, rounded down |
| BinaryDiagnostic.MostCommonDigit | src/bin/day3.rs:119-125 | the digit is 0 exactly when the zeros exceed half the rows |
| BinaryDiagnostic.LeastCommonDigit | src/bin/day3.rs:111-117 | the digit is always the other one |
| BinaryDiagnostic.SelectDigit | src/bin/day3.rs:95 | the digit the passed closure selects: `find_most_common_digit` or `find_least_common_digit` (definition) |
| BinaryDiagnostic.KeepMatching | src/bin/day3.rs:97-99 | the rows with the selected digit at the column, in order (definition; its properties are the three lemmas below) |
| BinaryDiagnostic.KeepMatchingKeepsExactly | src/bin/day3.rs:97-99 | the filter keeps only rows of the input with the digit at the column, and keeps every such row |
| BinaryDiagnostic.KeepMatchingConcat | src/bin/day3.rs:97-99 | the filter keeps order: it distributes over concatenation |
| BinaryDiagnostic.KeepMatchingCounts | src/bin/day3.rs:97-99 | rows kept for 0 number as many as the column's zeros; rows kept for 1 are the rest |
| BinaryDiagnostic.MostCommonKeepsHalf | src/bin/day3.rs:119-125 | keeping the most common digit keeps at least half of the rows, rounded up |
| BinaryDiagnostic.LeastCommonKeepsAtMostHalf | src/bin/day3.rs:111-117 | keeping the least common digit keeps at most half of the rows, rounded down |
| BinaryDiagnostic.FilterStep | src/bin/day3.rs:89-99 | one fold step: a single row is returned as it is, otherwise the rows with the selected digit (definition) |
| BinaryDiagnostic.FilterFrom | src/bin/day3.rs:88-100 | the fold of that step over the columns from `column` to the row length (definition) |
| BinaryDiagnostic.FilterStepDropsOnly | src/bin/day3.rs:88-100 | one step of the fold keeps a sub-multiset of the rows, and they stay wide enough |
| BinaryDiagnostic.FilterFromDropsOnly | src/bin/day3.rs:88-100 | the whole fold keeps a sub-multiset of the rows |
| BinaryDiagnostic.SingleRowStays | src/bin/day3.rs:89-93 | once a single row is left, the remaining columns keep it |
| BinaryDiagnostic.MostCommonNeverEmpties | src/bin/day3.rs:88-100 | the oxygen filter never empties a non-empty list |
| BinaryDiagnostic.LeastCommonShrinks | src/bin/day3.rs:95-99 | a CO2 step on two or more rows removes at least one |
| BinaryDiagnostic.EmptyStaysEmpty | src/bin/day3.rs:88-100 | the fold leaves an empty list empty over any remaining columns |
| BinaryDiagnostic.LeastCommonCanEmpty | src/bin/day3.rs:89-107 | any report of two equal rows is emptied by the CO2 filter at its first column, whatever digit they hold, and `filter_binaries` then ends in the panic |
| BinaryDiagnostic.ToBools | src/bin/day3.rs:104 | one boolean per digit, true exactly for a 1 |
| BinaryDiagnostic.FilterBinaries | src/bin/day3.rs:82-109 | a rating exists only when exactly one row survives the fold |
| BinaryDiagnostic.LoneZeroRow | src/bin/day3.rs:88-105 | a report of one all-zero row rates 0 for every width, 65 digits and more included |
| BinaryDiagnostic.FilterBinariesReadsARow | src/bin/day3.rs:102-108 | a rating is the value of one of the report's rows |
| BinaryDiagnostic.FilterBinariesOfSurvivor | src/bin/day3.rs:102-108 | the rating is the value of the row that survives alone |
| BinaryDiagnostic.Report | src/bin/day3.rs:34-41 | the six fields of `DiagnosticReportResult` (datatype) |
| BinaryDiagnostic.Solve | src/bin/day3.rs:43-58 | the report exists exactly when there are at most 64 columns and both ratings exist; gamma and epsilon are the values of the gamma bits of the transposed report and of their complement (cut to `u32`), and up to 32 columns add up to `2^n - 1`; power consumption is gamma times epsilon; the two ratings are `filter_binaries` with the most and least common digit; life support is their product |
| BinaryDiagnosticExamples.ExampleRates | src/bin/day3.rs:170-178 | gamma 22 (`0b10110`) and epsilon 9 (`0b01001`) for the test report |
| BinaryDiagnosticExamples.ExampleOxygen | src/bin/day3.rs:188-196 | oxygen generator rating 23 (`0b10111`) |
| BinaryDiagnosticExamples.ExampleCo2 | src/bin/day3.rs:188-196 | CO2 scrubber rating 10 (`0b01010`) |
| BinaryDiagnosticExamples.ExampleSolve | src/bin/day3.rs:170-196 | power consumption 198 and life support rating 230 |
| GiantSquid.Board | src/bin/day4.rs:47-48 | `struct Board`: the board's rows of numbers (datatype) |
| GiantSquid.BoardFrom | src/bin/day4.rs:96-115 | a board is built exactly from five lines of five numbers, and keeps those lines |
| GiantSquid.AllDrawn | src/bin/day4.rs:64 | a line is all drawn exactly when each of its numbers is among the draws |
| GiantSquid.AnyDrawn | src/bin/day4.rs:62-64 | true exactly when some line is all drawn |
| GiantSquid.HasWinningRow | src/bin/day4.rs:61-65 | true exactly when some row is fully drawn |
| GiantSquid.HasWinningCol | src/bin/day4.rs:52-58 | true exactly when some column is fully drawn; requires the shape the transpose needs |
| GiantSquid.Wins | src/bin/day4.rs:33-35 | the `partition` test: a winning row or a winning column (definition) |
| GiantSquid.WinsMonotone | src/bin/day4.rs:29-35 | a board that wins with some numbers still wins once more numbers are drawn |
| GiantSquid.WinsAfterDraw | src/bin/day4.rs:24-35 | a winning board still wins after one more `draw` |
| GiantSquid.AllNumbers | src/bin/day4.rs:83-92 | requires five rows; lists as many numbers as the five rows hold |
| GiantSquid.AllNumbersRowMajor | src/bin/day4.rs:83-92 | on a 5×5 board, the 25 numbers in row-major order: entry `5i + j` is row `i`, column `j` |
| GiantSquid.SumUnmarked | src/bin/day4.rs:70-75 | the sum of the undrawn numbers is at most 255 per number |
| GiantSquid.SumUnmarkedConcat | src/bin/day4.rs:70-75 | the unmarked sum adds up over concatenation |
| GiantSquid.SumUnmarkedAfterDraw | src/bin/day4.rs:70-75 | drawing a new number takes exactly its occurrences off the unmarked sum |
| GiantSquid.SumUnmarkedAllDrawn | src/bin/day4.rs:70-75 | a fully drawn line leaves nothing unmarked |
| GiantSquid.CalculateAnswer | src/bin/day4.rs:67-80 | requires five rows and a draw (`last().unwrap()`); the score is the unmarked sum counted row by row times the last draw, and on a 5×5 board at most `25 · 255 · 255`, which fits `u32` |
| GiantSquid.Winners | src/bin/day4.rs:32-35 | the winners are well shaped and no more than the boards |
| GiantSquid.Losers | src/bin/day4.rs:32-37 | the boards kept in play are well shaped and no more than the boards |
| GiantSquid.WinnersWin | src/bin/day4.rs:32-35 | every board in the winners' part wins |
| GiantSquid.LosersLose | src/bin/day4.rs:32-37 | no board in the remaining part wins |
| GiantSquid.PartitionCounts | src/bin/day4.rs:32-35 | the two parts together are the boards: no board lost or invented |
| GiantSquid.PartitionByWins | src/bin/day4.rs:32-37 | the partition splits the boards into winners and non-winners, as multisets |
| GiantSquid.NoWinnersIff | src/bin/day4.rs:39-43 | no winners exactly when no board wins |
| GiantSquid.NoWinnersKeepsAll | src/bin/day4.rs:32-37 | with no winners, every board stays in play in order |
| GiantSquid.LosersOfLosers | src/bin/day4.rs:31-37 | removing winners again with more numbers drawn equals removing them once with all the numbers |
| GiantSquid.WinnersMonotone | src/bin/day4.rs:31-43 | more numbers drawn never turn some winners into none |
| GiantSquid.Partition | src/bin/day4.rs:32-35 | one pass over the boards builds exactly the winners and the non-winners, each in the boards' order |
| GiantSquid.Game | src/bin/day4.rs:17-21 | `struct Game`: the boards in play and the numbers drawn, as two fields updated in place (class; `Valid` is `AllWellShaped`) |
| GiantSquid.Game.Valid | src/bin/day4.rs:96-115 | every board in play has the five-by-five shape `Board::from` checks (class invariant) |
| GiantSquid.Game.constructor | src/bin/day4.rs:137-140 | the game holds the boards and no draws |
| GiantSquid.Game.Draw | src/bin/day4.rs:25-27 | the number is appended to the draws; the boards do not change and stay well shaped |
| GiantSquid.Game.PopWinners | src/bin/day4.rs:31-44 | the draws do not change; the boards become the non-winners in order; `None` exactly when no board wins, otherwise the winners in order; afterwards no board in play wins |
| GiantSquid.Round | src/bin/day4.rs:169-176 | an entry `(Vec<Board>, Vec<u8>)` of `results`: the boards that won together and the draws at that point (datatype) |
| GiantSquid.FirstWin | src/bin/day4.rs:149-158 | the first draw after which some board wins, with the boards winning then; `None` when the numbers run out (definition the loop is proved against) |
| GiantSquid.FirstWinDraws | src/bin/day4.rs:146-158 | the first win comes after at least one more draw, and its draws are a prefix of all the numbers |
| GiantSquid.FirstWinWinners | src/bin/day4.rs:149-155 | the first win's boards are exactly the boards winning with its draws, and there is at least one |
| GiantSquid.FirstWinNothingBefore | src/bin/day4.rs:149-158 | if nothing won at the start, nothing won one draw before the first win |
| GiantSquid.FirstWinIsFirst | src/bin/day4.rs:146-158 | the three facts above together |
| GiantSquid.FirstWinNoneIff | src/bin/day4.rs:149-158 | the loop runs out of draws, which panics, exactly when no board wins with every number drawn |
| GiantSquid.FirstWinAt | src/bin/day4.rs:149-158 | when nothing wins after `k` draws and something wins after `k + 1`, the first win is after `k + 1` draws, with those winners |
| GiantSquid.FirstWinningScore | src/bin/day4.rs:146-164 | the first winner's score fits `u32` |
| GiantSquid.Rounds | src/bin/day4.rs:171-177 | the `(winners, draws)` pairs `results` collects, one per draw after which boards won, popping them each time (definition the loop is proved against) |
| GiantSquid.RemainingAfter | src/bin/day4.rs:171-177 | the boards left in play are well shaped and no more than at the start |
| GiantSquid.LastWinningScore | src/bin/day4.rs:168-185 | the last winner's score fits `u32` |
| GiantSquid.RoundsShape | src/bin/day4.rs:171-177 | every recorded round has winners of the right shape and the draws of a later prefix; rounds come in order of strictly more draws |
| GiantSquid.RoundsOfNoBoards | src/bin/day4.rs:171-177 | with no boards there are no rounds and nothing remains |
| GiantSquid.RoundsStartWithFirstWin | src/bin/day4.rs:146-177 | both parts agree: there are rounds exactly when there is a first win, and the first round is that win |
| GiantSquid.RoundsSplit | src/bin/day4.rs:171-177 | playing two runs of draws records the first run's rounds, then the second run's rounds from the boards left |
| GiantSquid.RoundsExtend | src/bin/day4.rs:171-177 | one more draw adds its round, if any, and leaves the boards that do not win |
| GiantSquid.LastRoundShape | src/bin/day4.rs:179-184 | the last round, if there is one, has well-shaped winners and at least one draw |
| GiantSquid.LastWinnerAt | src/bin/day4.rs:168-185 | when one board is left after `k` draws and it wins with draw `k + 1`, the answer is its score with those draws |
| GiantSquid.RemainingIsLosers | src/bin/day4.rs:171-177 | after at least one draw, the boards in play are exactly the boards that do not win with all the numbers drawn |
| GiantSquid.RoundsPartition | src/bin/day4.rs:171-177 | every board wins in exactly one round or stays in play to the end |
| GiantSquid.NewWinnersOfLosers | src/bin/day4.rs:171-177 | a round of new winners among the boards left is a round of new winners among all the boards |
| GiantSquid.RoundsAreNewWinners | src/bin/day4.rs:171-177 | if nothing had won at the start, each round holds exactly the boards that win with its draws and did not with one draw fewer |
| GiantSquid.NothingWinsAfterLastRound | src/bin/day4.rs:171-179 | after the last round no further board wins: what is left then is what is left at the end |
| GiantSquid.FirstWinNow | src/bin/day4.rs:150-155 | when the next number makes some board win, the loop stops there with those winners and draws |
| GiantSquid.FirstWinSkip | src/bin/day4.rs:150-157 | when the next number makes no board win, the first win is the one found from the following number on |
| GiantSquid.FirstWinStep | src/bin/day4.rs:150-157 | one turn of the loop: when draw `i` makes some board win, the first win from the draws so far is that one, with those winners and draws; otherwise it is the one from draw `i + 1` on |
| GiantSquid.DrawUntilWin | src/bin/day4.rs:149-158 | the loop stops with the first win's boards, the draws are those of the first win and the boards left are the ones that do not win with them; when it runs out of numbers, all are drawn and the boards are unchanged |
| GiantSquid.FirstWinningScoreOf | src/bin/day4.rs:160-163 | a single first winner is well shaped and has draws, and the score of the first win is its score; more than one first winner gives `None` |
| GiantSquid.SolveFirstWinning | src/bin/day4.rs:146-164 | the answer is the first winner's score, `None` for the two panics; the game ends just after the deciding draw, without the winners, or with every number drawn when no board wins |
| GiantSquid.SolveLastWinning | src/bin/day4.rs:168-185 | all numbers are drawn; the boards left are the ones that never won; the answer is the last winner's score, `None` for the panics |
| GiantSquidExamples.ExampleShapes | src/bin/day4.rs:192-212 | the three test boards are 5×5 |
| GiantSquidExamples.ExampleScore3 | src/bin/day4.rs:216-222 | board 3 after 12 draws scores 188 × 24 = 4512 |
| GiantSquidExamples.ExampleScore2 | src/bin/day4.rs:232-238 | board 2 after 15 draws scores 148 × 13 = 1924 |
| GiantSquidExamples.ExampleFirstWinningScore | src/bin/day4.rs:216-222 | the first board to win in the test game scores 4512 |
| GiantSquidExamples.ExampleLastWinningScore | src/bin/day4.rs:232-238 | the last board to win in the test game scores 1924 |

## Left out

- Parsing is not modelled: `parse` on each day, `line_to_command` and its
  regular expression, `str::trim`, `split_whitespace` and the `u8`/`i32`
  text parses. The models start from parsed values. `LineToBits` models only
  the character mapping of a line that is already trimmed. `BoardFrom`
  models only the shape checks of `Board::from` on parsed lines.
- `read_from_stdin` (`src/stdin.rs`), `main` and its printing are I/O and
  are not modelled.
- The tests against the puzzle input files are not modelled, because those
  files are not part of this model. The worked-example tests are.
- SonarSweep.GroupToSumsOf3: window sums are unbounded integers. Overflow
  of the source's `i32` sums is not modelled.
- Dive.SolveBasic: positions are unbounded integers. `i32` overflow is not
  modelled.
- Dive.SolveWithAim: the same for the aim and the product `aim * x`.
- BinaryDiagnostic.Solve: power consumption and life support rating are
  products of unbounded numbers. `u32` overflow of the product, a panic in
  a debug build, is not modelled.
- BinaryDiagnostic.BitvecToU32: `usize` is taken to be 64 bits wide.
- BinaryDiagnostic.FilterBinaries: the generic digit-selection closure is
  modelled only for the two functions the program passes. They are two
  cases of a `Criterion` value.
- GiantSquid.SolveFirstWinning and GiantSquid.SolveLastWinning: Rust takes
  the game by value, and `main` passes a clone. The model passes one `Game`
  object that the drivers change. The caller's untouched copy is not
  modelled.
- In Rust a panic ends the program. The model returns `None` instead, and
  the panic messages are not part of it.
