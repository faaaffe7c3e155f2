/** Day 1, Sonar Sweep: counting the depth measurements that increase, one
    by one and over a sliding window of three. */
module SonarSweep {

  /** The number of positions `i >= 1` of `s` whose value is strictly larger
      than the one before; a list of `n >= 1` values has at most `n - 1`. */
  function Increases(s: seq<int>): (r: nat)
    ensures r <= if |s| == 0 then 0 else |s| - 1
  {
    if |s| < 2 then 0
    else Increases(s[..|s| - 1]) + (if s[|s| - 1] > s[|s| - 2] then 1 else 0)
  }

  /** The positions that `Increases` counts, as a set. */
  ghost function IncreaseIndices(s: seq<int>): set<int> {
    set i | 1 <= i < |s| && IsIncrease(s, i)
  }

  /** Position `i` holds a larger value than position `i - 1`. */
  ghost predicate IsIncrease(s: seq<int>, i: int)
    requires 1 <= i < |s|
  {
    s[i] > s[i - 1]
  }

  /** `Increases` counts exactly the positions whose value exceeds its
      predecessor's. */
  lemma {:induction false} IncreasesCountsIndices(s: seq<int>)
    ensures Increases(s) == |IncreaseIndices(s)|
  {
    if |s| < 2 {
      assert IncreaseIndices(s) == {};
    } else {
      var init := s[..|s| - 1];
      IncreasesCountsIndices(init);
      var last := |s| - 1;
      if s[last] > s[last - 1] {
        assert IncreaseIndices(s) == IncreaseIndices(init) + {last};
        assert last !in IncreaseIndices(init);
      } else {
        assert IncreaseIndices(s) == IncreaseIndices(init);
      }
    }
  }

  /** The comparison is strict: the count is zero exactly when no value is
      larger than the one before it, so a run of equal values counts nothing. */
  lemma {:induction false} IncreasesZeroIff(s: seq<int>)
    ensures Increases(s) == 0 <==> forall i :: 1 <= i < |s| ==> s[i] <= s[i - 1]
  {
    if |s| >= 2 {
      var init := s[..|s| - 1];
      IncreasesZeroIff(init);
      assert forall i :: 0 <= i < |init| ==> init[i] == s[i];
    }
  }

  /** The count reaches its bound `|s| - 1` exactly when every value is
      strictly larger than the one before it. */
  lemma {:induction false} IncreasesFullIff(s: seq<int>)
    requires |s| > 0
    ensures Increases(s) == |s| - 1 <==> forall i :: 1 <= i < |s| ==> s[i] > s[i - 1]
  {
    if |s| >= 2 {
      var init := s[..|s| - 1];
      IncreasesFullIff(init);
      assert forall i :: 0 <= i < |init| ==> init[i] == s[i];
    }
  }

  /** `count_increments`: walks the list once, remembering the previous
      number. */
  method CountIncrements(numbers: seq<int>) returns (count: nat)
    requires |numbers| > 0
    ensures count == Increases(numbers)
    ensures count <= |numbers| - 1
  {
    count := 0;
    var prevNumber := numbers[0];
    for i := 1 to |numbers|
      invariant count == Increases(numbers[..i])
      invariant prevNumber == numbers[i - 1]
    {
      var number := numbers[i];
      assert numbers[..i + 1][..i] == numbers[..i];
      if number > prevNumber {
        count := count + 1;
      }
      prevNumber := number;
    }
    assert numbers[..|numbers|] == numbers;
  }

  /** The sums of the size-3 windows of `s`, in order. */
  function WindowSums(s: seq<int>): seq<int>
    requires |s| >= 2
  {
    seq(|s| - 2, i requires 0 <= i < |s| - 2 => s[i] + s[i + 1] + s[i + 2])
  }

  /** `group_to_sums_of_3`: slides a window of three over the numbers,
      keeping the two previous numbers in `prev2` and `prev1`. */
  method GroupToSumsOf3(numbers: seq<int>) returns (sums: seq<int>)
    requires |numbers| >= 2
    ensures |sums| == |numbers| - 2
    ensures forall i :: 0 <= i < |sums| ==> sums[i] == numbers[i] + numbers[i + 1] + numbers[i + 2]
    ensures sums == WindowSums(numbers)
  {
    var prev2 := numbers[0];
    var prev1 := numbers[1];
    sums := [];
    for i := 2 to |numbers|
      invariant prev2 == numbers[i - 2] && prev1 == numbers[i - 1]
      invariant sums == WindowSums(numbers)[..i - 2]
    {
      var number := numbers[i];
      assert WindowSums(numbers)[..i - 1] == WindowSums(numbers)[..i - 2] + [prev2 + prev1 + number];
      sums := sums + [prev2 + prev1 + number];
      prev2 := prev1;
      prev1 := number;
    }
    assert WindowSums(numbers)[..|numbers| - 2] == WindowSums(numbers);
  }

  /** `count_increments_3`: the increase count of the window sums. The
      window list must be non-empty, so at least three numbers are needed. */
  method CountIncrements3(numbers: seq<int>) returns (count: nat)
    requires |numbers| >= 3
    ensures count == Increases(WindowSums(numbers))
    ensures count == IncreasesAtDistance3(numbers)
  {
    var sums := GroupToSumsOf3(numbers);
    count := CountIncrements(sums);
    WindowIncreasesAreDistance3(numbers);
  }

  /** An independent reading of the window count: the positions `i >= 3`
      whose value exceeds the value three places earlier. */
  function IncreasesAtDistance3(s: seq<int>): nat {
    if |s| < 4 then 0
    else IncreasesAtDistance3(s[..|s| - 1]) + (if s[|s| - 1] > s[|s| - 4] then 1 else 0)
  }

  /** Two consecutive windows share two numbers, so a window sum grows
      exactly when the number entering the window exceeds the one leaving it. */
  lemma {:induction false} WindowIncreasesAreDistance3(s: seq<int>)
    requires |s| >= 2
    ensures Increases(WindowSums(s)) == IncreasesAtDistance3(s)
  {
    if |s| >= 4 {
      var init := s[..|s| - 1];
      WindowIncreasesAreDistance3(init);
      var w := WindowSums(s);
      assert w[..|w| - 1] == WindowSums(init);
      assert w[|w| - 1] - w[|w| - 2] == s[|s| - 1] - s[|s| - 4];
    } else {
      assert |WindowSums(s)| < 2;
    }
  }

  /** The sliding-window example from the comment on `group_to_sums_of_3`, and the
      measurements of its tests: 7 single increases, 5 window increases. */
  lemma Examples()
    ensures WindowSums([1, 2, 3, 4, 5, 6]) == [6, 9, 12, 15]
    ensures Increases([199, 200, 208, 210, 200, 207, 240, 269, 260, 263]) == 7
    ensures Increases(WindowSums([199, 200, 208, 210, 200, 207, 240, 269, 260, 263])) == 5
  {
    var s := [199, 200, 208, 210, 200, 207, 240, 269, 260, 263];
    assert Increases(s[..2]) == 1;
    assert s[..3][..2] == s[..2];
    assert Increases(s[..3]) == 2;
    assert s[..4][..3] == s[..3];
    assert Increases(s[..4]) == 3;
    assert s[..5][..4] == s[..4];
    assert Increases(s[..5]) == 3;
    assert s[..6][..5] == s[..5];
    assert Increases(s[..6]) == 4;
    assert s[..7][..6] == s[..6];
    assert Increases(s[..7]) == 5;
    assert s[..8][..7] == s[..7];
    assert Increases(s[..8]) == 6;
    assert s[..9][..8] == s[..8];
    assert Increases(s[..9]) == 6;
    assert s[..10] == s;
    WindowIncreasesAreDistance3(s);
    assert IncreasesAtDistance3(s[..4]) == 1;
    assert s[..5][..4] == s[..4];
    assert IncreasesAtDistance3(s[..5]) == 1;
    assert s[..6][..5] == s[..5];
    assert IncreasesAtDistance3(s[..6]) == 1;
    assert s[..7][..6] == s[..6];
    assert IncreasesAtDistance3(s[..7]) == 2;
    assert s[..8][..7] == s[..7];
    assert IncreasesAtDistance3(s[..8]) == 3;
    assert s[..9][..8] == s[..8];
    assert IncreasesAtDistance3(s[..9]) == 4;
  }
}
