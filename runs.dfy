/**
 Sequences of user actions on the ledger, and what holds of every state
 they reach: goals and intakes stay non-negative (so the progress bars stay
 between empty and full), the start page never comes back once dismissed,
 the running totals never decrease, and a run of Adds logs the running totals
 in non-decreasing order.
 */
module LedgerRuns {
  import opened Wrappers
  import opened Offsets
  import opened Progress
  import opened IntakeLedger

  /** One user action, with the parsed text-field values it reads. */
  datatype Action =
    | ProteinGoalCommitted(input: Option<real>)
    | CalorieGoalCommitted(input: Option<real>)
    | SetGoalsTapped(protein: Option<real>, calorie: Option<real>)
    | EditGoalsTapped
    | SaveGoalsTapped(protein: Option<real>, calorie: Option<real>)
    | AddTapped(protein: Option<real>, calorie: Option<real>, now: Date)
    | LogsDeleted(offsets: set<nat>)

  /** One action; `None` when a deletion names an offset past the end of the
      list, where `remove(atOffsets:)` traps. */
  function Step(s: LedgerState, a: Action): (r: Option<LedgerState>)
    ensures r.None? <==> a.LogsDeleted? && !ValidOffsets(a.offsets, |s.dailyLogs|)
    ensures r.Some? && NonNegative(s) ==> NonNegative(r.value)
    ensures r.Some? && !s.isStartPageActive ==> !r.value.isStartPageActive
    ensures r.Some? ==> r.value.proteinIntake >= s.proteinIntake && r.value.calorieIntake >= s.calorieIntake
  {
    match a
    case ProteinGoalCommitted(input) => Some(CommitProtein(s, input))
    case CalorieGoalCommitted(input) => Some(CommitCalorie(s, input))
    case SetGoalsTapped(protein, calorie) => Some(SetStartGoals(s, protein, calorie))
    case EditGoalsTapped => Some(OpenEditGoals(s))
    case SaveGoalsTapped(protein, calorie) => Some(SaveGoals(s, protein, calorie))
    case AddTapped(protein, calorie, now) => Some(AddIntake(s, protein, calorie, now))
    case LogsDeleted(offsets) =>
      if ValidOffsets(offsets, |s.dailyLogs|) then Some(DeleteLogs(s, offsets)) else None
  }

  /** The actions in order; `None` as soon as one traps. */
  function Run(s: LedgerState, actions: seq<Action>): Option<LedgerState>
    decreases |actions|
  {
    if actions == [] then Some(s)
    else
      match Step(s, actions[0])
      case None => None
      case Some(t) => Run(t, actions[1..])
  }

  /** Goals and intakes stay non-negative along any run. */
  lemma {:induction false} RunKeepsNonNegative(s: LedgerState, actions: seq<Action>)
    requires NonNegative(s)
    ensures Run(s, actions).Some? ==> NonNegative(Run(s, actions).value)
    decreases |actions|
  {
    if actions != [] {
      var next := Step(s, actions[0]);
      if next.Some? {
        RunKeepsNonNegative(next.value, actions[1..]);
      }
    }
  }

  /** Once dismissed, the start page is never shown again. */
  lemma {:induction false} StartPageStaysDismissed(s: LedgerState, actions: seq<Action>)
    requires !s.isStartPageActive
    ensures Run(s, actions).Some? ==> !Run(s, actions).value.isStartPageActive
    decreases |actions|
  {
    if actions != [] {
      var next := Step(s, actions[0]);
      if next.Some? {
        StartPageStaysDismissed(next.value, actions[1..]);
      }
    }
  }

  /** The running totals never decrease, whatever the actions (deleting log
      entries does not reduce them either). */
  lemma {:induction false} TotalsNeverDecrease(s: LedgerState, actions: seq<Action>)
    ensures Run(s, actions).Some? ==>
              Run(s, actions).value.proteinIntake >= s.proteinIntake &&
              Run(s, actions).value.calorieIntake >= s.calorieIntake
    decreases |actions|
  {
    if actions != [] {
      var next := Step(s, actions[0]);
      if next.Some? {
        TotalsNeverDecrease(next.value, actions[1..]);
      }
    }
  }

  /** Every state reachable from launch shows both progress bars between
      empty and full whenever the goal is positive. */
  lemma ReachableProgressInRange(stored: Option<seq<DailyLog>>, actions: seq<Action>)
    requires Run(Initial(stored), actions).Some?
    ensures var t := Run(Initial(stored), actions).value;
            (t.proteinGoal > 0.0 ==> 0.0 <= FillFraction(t.proteinIntake, t.proteinGoal) <= 1.0) &&
            (t.calorieGoal > 0.0 ==> 0.0 <= FillFraction(t.calorieIntake, t.calorieGoal) <= 1.0)
  {
    RunKeepsNonNegative(Initial(stored), actions);
  }

  predicate AllAdds(actions: seq<Action>) {
    forall i :: 0 <= i < |actions| ==> actions[i].AddTapped?
  }

  /** The protein accepted by a run of Adds. */
  function ProteinAdded(actions: seq<Action>): (total: real)
    requires AllAdds(actions)
    ensures total >= 0.0
  {
    if actions == [] then 0.0 else Amount(actions[0].protein) + ProteinAdded(actions[1..])
  }

  /** The calories accepted by a run of Adds. */
  function CalorieAdded(actions: seq<Action>): (total: real)
    requires AllAdds(actions)
    ensures total >= 0.0
  {
    if actions == [] then 0.0 else Amount(actions[0].calorie) + CalorieAdded(actions[1..])
  }

  /** A run of Adds never traps, keeps the earlier entries, appends one entry
      per Add, accumulates exactly the accepted amounts and leaves the new
      totals in the last entry. */
  lemma {:induction false} AddsAppendRunningTotals(s: LedgerState, actions: seq<Action>)
    requires AllAdds(actions)
    decreases |actions|
    ensures Run(s, actions).Some?
    ensures var t := Run(s, actions).value;
            && |t.dailyLogs| == |s.dailyLogs| + |actions|
            && t.dailyLogs[..|s.dailyLogs|] == s.dailyLogs
            && t.proteinIntake == s.proteinIntake + ProteinAdded(actions)
            && t.calorieIntake == s.calorieIntake + CalorieAdded(actions)
            && (actions != [] ==>
                  t.dailyLogs[|t.dailyLogs| - 1].proteinIntake == t.proteinIntake &&
                  t.dailyLogs[|t.dailyLogs| - 1].calorieIntake == t.calorieIntake)
  {
    if actions != [] {
      var a := actions[0];
      var u := AddIntake(s, a.protein, a.calorie, a.now);
      AllAddsTail(actions);
      assert Run(s, actions) == Run(u, actions[1..]);
      AddsAppendRunningTotals(u, actions[1..]);
      var t := Run(u, actions[1..]).value;
      var n := |s.dailyLogs|;
      assert t.dailyLogs[..n] == s.dailyLogs by {
        assert t.dailyLogs[..n] == t.dailyLogs[..n + 1][..n];
      }
    }
  }

  /** The `i`-th entry a run of Adds appends holds the date of the `i`-th Add
      and the totals after the first `i + 1` Adds. */
  lemma {:induction false} AddsLogEachEntry(s: LedgerState, actions: seq<Action>, i: nat)
    requires AllAdds(actions) && i < |actions|
    decreases |actions|
    ensures Run(s, actions).Some?
    ensures var t := Run(s, actions).value;
            && |t.dailyLogs| == |s.dailyLogs| + |actions|
            && t.dailyLogs[|s.dailyLogs| + i] ==
                 DailyLog(actions[i].now,
                          s.proteinIntake + ProteinAdded(actions[..i + 1]),
                          s.calorieIntake + CalorieAdded(actions[..i + 1]))
  {
    AddsAppendRunningTotals(s, actions);
    var a := actions[0];
    var u := AddIntake(s, a.protein, a.calorie, a.now);
    AllAddsTail(actions);
    assert Run(s, actions) == Run(u, actions[1..]);
    AddsAppendRunningTotals(u, actions[1..]);
    var t := Run(u, actions[1..]).value;
    var n := |s.dailyLogs|;
    var first := actions[..i + 1];
    assert AllAdds(first) by {
      forall k | 0 <= k < |first| ensures first[k].AddTapped? {
        assert first[k] == actions[k];
      }
    }
    assert first[0] == a;
    if i == 0 {
      assert first[1..] == [];
      assert t.dailyLogs[n] == u.dailyLogs[n] by {
        assert t.dailyLogs[..n + 1][n] == t.dailyLogs[n];
      }
    } else {
      AddsLogEachEntry(u, actions[1..], i - 1);
      assert first[1..] == actions[1..][..i];
      assert actions[1..][i - 1] == actions[i];
    }
  }

  /** The entries a run of Adds logs lie between the old and the new totals
      and never decrease from one entry to the next. */
  lemma {:induction false} AddsLogOrderedTotals(s: LedgerState, actions: seq<Action>)
    requires AllAdds(actions)
    decreases |actions|
    ensures Run(s, actions).Some?
    ensures var t := Run(s, actions).value;
            var n := |s.dailyLogs|;
            && |t.dailyLogs| == n + |actions|
            && (forall i :: n <= i < |t.dailyLogs| ==>
                  s.proteinIntake <= t.dailyLogs[i].proteinIntake <= t.proteinIntake &&
                  s.calorieIntake <= t.dailyLogs[i].calorieIntake <= t.calorieIntake)
            && (forall i, j :: n <= i < j < |t.dailyLogs| ==>
                  t.dailyLogs[i].proteinIntake <= t.dailyLogs[j].proteinIntake &&
                  t.dailyLogs[i].calorieIntake <= t.dailyLogs[j].calorieIntake)
  {
    if actions != [] {
      var a := actions[0];
      var u := AddIntake(s, a.protein, a.calorie, a.now);
      AllAddsTail(actions);
      assert Run(s, actions) == Run(u, actions[1..]);
      AddsAppendRunningTotals(u, actions[1..]);
      AddsLogOrderedTotals(u, actions[1..]);
      var t := Run(u, actions[1..]).value;
      var n := |s.dailyLogs|;
      var logs := t.dailyLogs;
      assert logs[n] == u.dailyLogs[n] by {
        assert logs[..n + 1][n] == logs[n];
      }
      assert logs[n].proteinIntake == u.proteinIntake && logs[n].calorieIntake == u.calorieIntake;
      forall i | n <= i < |logs|
        ensures s.proteinIntake <= logs[i].proteinIntake <= t.proteinIntake
        ensures s.calorieIntake <= logs[i].calorieIntake <= t.calorieIntake
      {
        if i > n {
          assert n + 1 <= i;
        }
      }
      forall i, j | n <= i < j < |logs|
        ensures logs[i].proteinIntake <= logs[j].proteinIntake
        ensures logs[i].calorieIntake <= logs[j].calorieIntake
      {
        if i > n {
          assert n + 1 <= i;
        }
      }
    }
  }

  /** Dropping the first action of a run of Adds leaves a run of Adds. */
  lemma AllAddsTail(actions: seq<Action>)
    requires AllAdds(actions) && actions != []
    ensures AllAdds(actions[1..])
  {
  }
  /** Launch with no stored logs, set goals 150 g and 2000 kcal, then add
      50 g / 600 kcal and 60 g / 500 kcal on the same date: the log holds two
      entries (one per Add, not one per day), the second with the running totals
      110 g and 1100 kcal, and the bars show 11/15 and 0.55. */
  lemma SameDayAddsAppendTwoEntries(today: Date)
    ensures var actions := [
              SetGoalsTapped(Some(150.0), Some(2000.0)),
              AddTapped(Some(50.0), Some(600.0), today),
              AddTapped(Some(60.0), Some(500.0), today)];
            var t := Run(Initial(None), actions);
            && t.Some?
            && t.value.dailyLogs == [DailyLog(today, 50.0, 600.0), DailyLog(today, 110.0, 1100.0)]
            && !t.value.isStartPageActive
            && t.value.proteinGoal == 150.0 && t.value.calorieGoal == 2000.0
            && FillFraction(t.value.proteinIntake, t.value.proteinGoal) == 11.0 / 15.0
            && FillFraction(t.value.calorieIntake, t.value.calorieGoal) == 0.55
  {
    var s0 := Initial(None);
    var s1 := SetStartGoals(s0, Some(150.0), Some(2000.0));
    var s2 := AddIntake(s1, Some(50.0), Some(600.0), today);
    var s3 := AddIntake(s2, Some(60.0), Some(500.0), today);
    var actions := [
      SetGoalsTapped(Some(150.0), Some(2000.0)),
      AddTapped(Some(50.0), Some(600.0), today),
      AddTapped(Some(60.0), Some(500.0), today)];
    assert s1.proteinGoal == 150.0 && s1.calorieGoal == 2000.0 && s1.dailyLogs == [];
    assert s2.dailyLogs == [DailyLog(today, 50.0, 600.0)];
    assert s3.proteinIntake == 110.0 && s3.calorieIntake == 1100.0;
    assert s3.dailyLogs == [DailyLog(today, 50.0, 600.0), DailyLog(today, 110.0, 1100.0)];
    assert Step(s0, actions[0]) == Some(s1);
    assert Step(s1, actions[1]) == Some(s2);
    assert Step(s2, actions[2]) == Some(s3);
    assert Run(s2, actions[2..]) == Some(s3) by {
      assert actions[2..][1..] == [];
    }
    assert Run(s1, actions[1..]) == Some(s3) by {
      assert actions[1..][1..] == actions[2..];
    }
    assert Run(s0, actions) == Some(s3);
    assert FillFraction(110.0, 150.0) == 110.0 / 150.0;
  }

  /** A negative protein goal is ignored while a valid calorie goal is taken. */
  lemma NegativeGoalIgnored(s: LedgerState)
    ensures SaveGoals(s, Some(-5.0), Some(100.0)).proteinGoal == s.proteinGoal
    ensures SaveGoals(s, Some(-5.0), Some(100.0)).calorieGoal == 100.0
  {
  }
}
