/** Day 2, Dive: plotting the submarine's course from a list of commands,
    once directly and once through an aim. */
module Dive {
  import opened Prelude

  /** One parsed course command; the amount is a single digit read as `u8`. */
  datatype Command = Forward(amount: U8) | Up(amount: U8) | Down(amount: U8)

  /** `SubmarinePosition`. */
  datatype Position = Position(horizontal: int, depth: int)

  /** What `solve_with_aim` keeps while it runs: the position and the local
      `aim`. */
  datatype AimState = AimState(position: Position, aim: int)

  /** One iteration of `solve_basic`'s loop. */
  function MoveBasic(p: Position, c: Command): (r: Position)
    ensures c.Forward? ==> r.depth == p.depth && r.horizontal == p.horizontal + c.amount
    ensures !c.Forward? ==> r.horizontal == p.horizontal
  {
    match c
    case Forward(x) => p.(horizontal := p.horizontal + x)
    case Up(x) => p.(depth := p.depth - x)
    case Down(x) => p.(depth := p.depth + x)
  }

  /** One iteration of `solve_with_aim`'s loop: only `Forward` moves the
      submarine, and only `Up` and `Down` turn it. */
  function MoveWithAim(s: AimState, c: Command): (r: AimState)
    ensures c.Forward? ==> r.aim == s.aim
    ensures !c.Forward? ==> r.position == s.position
  {
    match c
    case Forward(x) =>
      AimState(Position(s.position.horizontal + x, s.position.depth + s.aim * x), s.aim)
    case Up(x) => s.(aim := s.aim - x)
    case Down(x) => s.(aim := s.aim + x)
  }

  /** The state `solve_basic` reaches after the given commands, from (0, 0). */
  function PlotBasic(cmds: seq<Command>): Position {
    if cmds == [] then Position(0, 0)
    else MoveBasic(PlotBasic(cmds[..|cmds| - 1]), cmds[|cmds| - 1])
  }

  /** The state `solve_with_aim` reaches after the given commands, from
      position (0, 0) and aim 0. */
  function PlotWithAim(cmds: seq<Command>): AimState {
    if cmds == [] then AimState(Position(0, 0), 0)
    else MoveWithAim(PlotWithAim(cmds[..|cmds| - 1]), cmds[|cmds| - 1])
  }

  /** The total of the amounts of the `Forward` commands. */
  function SumForward(cmds: seq<Command>): nat {
    if cmds == [] then 0
    else SumForward(cmds[..|cmds| - 1]) + (if cmds[|cmds| - 1].Forward? then cmds[|cmds| - 1].amount else 0)
  }

  /** The total of the `Down` amounts less the total of the `Up` amounts. */
  function NetDown(cmds: seq<Command>): int {
    if cmds == [] then 0
    else
      var c := cmds[|cmds| - 1];
      NetDown(cmds[..|cmds| - 1]) + (if c.Down? then c.amount else if c.Up? then -(c.amount as int) else 0)
  }

  /** The sum, over every `Forward(x)`, of `x` times the net `Down` of the
      commands before it. */
  function AimWeightedDepth(cmds: seq<Command>): int {
    if cmds == [] then 0
    else
      var init, c := cmds[..|cmds| - 1], cmds[|cmds| - 1];
      AimWeightedDepth(init) + (if c.Forward? then c.amount * NetDown(init) else 0)
  }

  /** The plain course ends at the total forward distance and at the net
      `Down`. */
  lemma {:induction false} PlotBasicIsTotals(cmds: seq<Command>)
    ensures PlotBasic(cmds) == Position(SumForward(cmds), NetDown(cmds))
  {
    if cmds != [] {
      PlotBasicIsTotals(cmds[..|cmds| - 1]);
    }
  }

  /** The aimed course: the same horizontal as the plain one, an aim equal to
      the plain course's depth, and a depth that weighs each forward move by
      the aim at that moment. */
  lemma {:induction false} PlotWithAimIsTotals(cmds: seq<Command>)
    ensures PlotWithAim(cmds).position.horizontal == SumForward(cmds) == PlotBasic(cmds).horizontal
    ensures PlotWithAim(cmds).aim == NetDown(cmds) == PlotBasic(cmds).depth
    ensures PlotWithAim(cmds).position.depth == AimWeightedDepth(cmds)
  {
    PlotBasicIsTotals(cmds);
    if cmds != [] {
      PlotWithAimIsTotals(cmds[..|cmds| - 1]);
    }
  }

  /** `solve_basic`. */
  method SolveBasic(cmds: seq<Command>) returns (position: Position)
    ensures position == PlotBasic(cmds)
    ensures position.horizontal == SumForward(cmds) && position.depth == NetDown(cmds)
  {
    position := Position(0, 0);
    for i := 0 to |cmds|
      invariant position == PlotBasic(cmds[..i])
    {
      assert cmds[..i + 1][..i] == cmds[..i];
      match cmds[i]
      case Forward(x) => position := position.(horizontal := position.horizontal + x);
      case Up(x) => position := position.(depth := position.depth - x);
      case Down(x) => position := position.(depth := position.depth + x);
    }
    assert cmds[..|cmds|] == cmds;
    PlotBasicIsTotals(cmds);
  }

  /** `solve_with_aim`. */
  method SolveWithAim(cmds: seq<Command>) returns (position: Position)
    ensures position == PlotWithAim(cmds).position
    ensures position.horizontal == SumForward(cmds) && position.depth == AimWeightedDepth(cmds)
  {
    var aim := 0;
    position := Position(0, 0);
    for i := 0 to |cmds|
      invariant AimState(position, aim) == PlotWithAim(cmds[..i])
    {
      assert cmds[..i + 1][..i] == cmds[..i];
      match cmds[i]
      case Forward(x) =>
        position := Position(position.horizontal + x, position.depth + aim * x);
      case Up(x) => aim := aim - x;
      case Down(x) => aim := aim + x;
    }
    assert cmds[..|cmds|] == cmds;
    PlotWithAimIsTotals(cmds);
  }

  /** The course of the tests. */
  function ExampleCourse(): seq<Command> {
    [Forward(5), Down(5), Forward(8), Up(3), Down(8), Forward(2)]
  }

  /** Plainly, the test course ends 15 forward at depth 10 (answer 150). */
  lemma ExampleBasic()
    ensures PlotBasic(ExampleCourse()) == Position(15, 10)
    ensures PlotBasic(ExampleCourse()).horizontal * PlotBasic(ExampleCourse()).depth == 150
  {
    var cmds := ExampleCourse();
    assert cmds[..1][..0] == [];
    assert PlotBasic(cmds[..1]) == Position(5, 0);
    assert cmds[..2][..1] == cmds[..1];
    assert PlotBasic(cmds[..2]) == Position(5, 5);
    assert cmds[..3][..2] == cmds[..2];
    assert PlotBasic(cmds[..3]) == Position(13, 5);
    assert cmds[..4][..3] == cmds[..3];
    assert PlotBasic(cmds[..4]) == Position(13, 2);
    assert cmds[..5][..4] == cmds[..4];
    assert PlotBasic(cmds[..5]) == Position(13, 10);
    assert cmds[..6][..5] == cmds[..5] && cmds[..6] == cmds;
  }

  /** With aim, the test course ends 15 forward at depth 60 (answer 900). */
  lemma ExampleWithAim()
    ensures PlotWithAim(ExampleCourse()).position == Position(15, 60)
    ensures PlotWithAim(ExampleCourse()).position.horizontal * PlotWithAim(ExampleCourse()).position.depth == 900
  {
    var cmds := ExampleCourse();
    assert cmds[..1][..0] == [];
    assert PlotWithAim(cmds[..1]) == AimState(Position(5, 0), 0);
    assert cmds[..2][..1] == cmds[..1];
    assert PlotWithAim(cmds[..2]) == AimState(Position(5, 0), 5);
    assert cmds[..3][..2] == cmds[..2];
    assert PlotWithAim(cmds[..3]) == AimState(Position(13, 40), 5);
    assert cmds[..4][..3] == cmds[..3];
    assert PlotWithAim(cmds[..4]) == AimState(Position(13, 40), 2);
    assert cmds[..5][..4] == cmds[..4];
    assert PlotWithAim(cmds[..5]) == AimState(Position(13, 40), 10);
    assert cmds[..6][..5] == cmds[..5] && cmds[..6] == cmds;
  }
}
