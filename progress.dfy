/** The fill fraction shown by the linear and circular progress bars. */
module Progress {

  /** Swift's `min`: the second argument when it is smaller, else the first. */
  function Min(x: real, y: real): real {
    if y < x then y else x
  }

  /** `min(value / goal, 1.0)`, for a positive goal. */
  function FillFraction(value: real, goal: real): (r: real)
    requires goal > 0.0
    ensures r <= 1.0
    ensures value <= goal ==> r == value / goal
    ensures value >= goal ==> r == 1.0
    ensures value >= 0.0 ==> r >= 0.0
  {
    Min(value / goal, 1.0)
  }

  /** More intake never shows less progress. */
  lemma FillMonotone(value: real, value': real, goal: real)
    requires goal > 0.0 && value <= value'
    ensures FillFraction(value, goal) <= FillFraction(value', goal)
  {
    assert value / goal <= value' / goal by {
      assert (value' - value) / goal >= 0.0;
      assert value' / goal - value / goal == (value' - value) / goal;
    }
  }
}
