/**
 The intake and goal ledger of the app's main view: the running protein and
 calorie intake, the two goals, the flags that show the start page and the
 Edit Goals sheet, and the list of daily log entries.

 Each handler is specified by a pure transition of `LedgerState`; the
 `Ledger` class holds the same fields as mutable state and its methods
 perform the handlers' assignments one by one.
 */
module IntakeLedger {
  import opened Wrappers
  import opened Offsets

  /** A point in time, as seconds since the platform's reference date. */
  datatype Date = Date(secondsSinceReference: real)

  /** One log entry: when it was added and the running totals at that moment. */
  datatype DailyLog = DailyLog(date: Date, proteinIntake: real, calorieIntake: real)

  /** The view's state fields. */
  datatype LedgerState = LedgerState(
    proteinIntake: real,
    calorieIntake: real,
    proteinGoal: real,
    calorieGoal: real,
    isStartPageActive: bool,
    isEditGoalsActive: bool,
    dailyLogs: seq<DailyLog>)

  /** A text field's parsed value is taken only when it parsed and is not negative. */
  predicate Accepts(input: Option<real>) {
    input.Some? && input.value >= 0.0
  }

  /** The amount an Add contributes from one field: the value if accepted, else nothing. */
  function Amount(input: Option<real>): real {
    if Accepts(input) then input.value else 0.0
  }

  /** Goals and intakes are never negative. */
  predicate NonNegative(s: LedgerState) {
    s.proteinIntake >= 0.0 && s.calorieIntake >= 0.0 && s.proteinGoal >= 0.0 && s.calorieGoal >= 0.0
  }

  /** The state at launch: zero intakes and goals, the start page shown, and
      the stored log list when it could be read and decoded (`None` otherwise). */
  function Initial(stored: Option<seq<DailyLog>>): (s: LedgerState)
    ensures NonNegative(s)
    ensures s.proteinGoal == 0.0 && s.calorieGoal == 0.0
    ensures s.proteinIntake == 0.0 && s.calorieIntake == 0.0
    ensures s.isStartPageActive && !s.isEditGoalsActive
    ensures stored.Some? ==> s.dailyLogs == stored.value
    ensures stored.None? ==> s.dailyLogs == []
  {
    LedgerState(0.0, 0.0, 0.0, 0.0, true, false, if stored.Some? then stored.value else [])
  }

  /** Committing the protein field on the start page. */
  function CommitProtein(s: LedgerState, input: Option<real>): (r: LedgerState)
    ensures Accepts(input) ==> r.proteinGoal == input.value && !r.isStartPageActive
    ensures Accepts(input) ==> r == s.(proteinGoal := r.proteinGoal, isStartPageActive := false)
    ensures !Accepts(input) ==> r == s
    ensures NonNegative(s) ==> NonNegative(r)
  {
    match input
    case Some(v) => if v >= 0.0 then s.(proteinGoal := v, isStartPageActive := false) else s
    case None => s
  }

  /** Committing the calorie field on the start page. */
  function CommitCalorie(s: LedgerState, input: Option<real>): (r: LedgerState)
    ensures Accepts(input) ==> r.calorieGoal == input.value && !r.isStartPageActive
    ensures Accepts(input) ==> r == s.(calorieGoal := r.calorieGoal, isStartPageActive := false)
    ensures !Accepts(input) ==> r == s
    ensures NonNegative(s) ==> NonNegative(r)
  {
    match input
    case Some(v) => if v >= 0.0 then s.(calorieGoal := v, isStartPageActive := false) else s
    case None => s
  }

  /** The Set Goals button on the start page. */
  function SetStartGoals(s: LedgerState, protein: Option<real>, calorie: Option<real>): (r: LedgerState)
    ensures r.proteinGoal == (if Accepts(protein) then protein.value else s.proteinGoal)
    ensures r.calorieGoal == (if Accepts(calorie) then calorie.value else s.calorieGoal)
    ensures Accepts(protein) || Accepts(calorie) ==> !r.isStartPageActive
    ensures s.isStartPageActive ==> (r.isStartPageActive <==> !Accepts(protein) && !Accepts(calorie))
    ensures !Accepts(protein) && !Accepts(calorie) ==> r == s
    ensures r.proteinIntake == s.proteinIntake && r.calorieIntake == s.calorieIntake
    ensures r.isEditGoalsActive == s.isEditGoalsActive && r.dailyLogs == s.dailyLogs
    ensures NonNegative(s) ==> NonNegative(r)
  {
    var afterProtein :=
      if protein.Some? && protein.value >= 0.0
      then s.(proteinGoal := protein.value, isStartPageActive := false)
      else s;
    if calorie.Some? && calorie.value >= 0.0
    then afterProtein.(calorieGoal := calorie.value, isStartPageActive := false)
    else afterProtein
  }

  /** The Edit Goals button on the home tab opens the Edit Goals sheet. */
  function OpenEditGoals(s: LedgerState): (r: LedgerState)
    ensures r.isEditGoalsActive
    ensures r.(isEditGoalsActive := s.isEditGoalsActive) == s
  {
    s.(isEditGoalsActive := true)
  }

  /** The Save Goals button on the Edit Goals sheet. */
  function SaveGoals(s: LedgerState, protein: Option<real>, calorie: Option<real>): (r: LedgerState)
    ensures r.proteinGoal == (if Accepts(protein) then protein.value else s.proteinGoal)
    ensures r.calorieGoal == (if Accepts(calorie) then calorie.value else s.calorieGoal)
    ensures !r.isEditGoalsActive
    ensures r.isStartPageActive == s.isStartPageActive
    ensures r.proteinIntake == s.proteinIntake && r.calorieIntake == s.calorieIntake
    ensures r.dailyLogs == s.dailyLogs
    ensures NonNegative(s) ==> NonNegative(r)
  {
    var afterProtein := if protein.Some? && protein.value >= 0.0 then s.(proteinGoal := protein.value) else s;
    var afterCalorie :=
      if calorie.Some? && calorie.value >= 0.0 then afterProtein.(calorieGoal := calorie.value) else afterProtein;
    afterCalorie.(isEditGoalsActive := false)
  }

  /** The Add button: accepted amounts are added to the running totals, then one
      entry holding the new totals and the current date is appended. */
  function AddIntake(s: LedgerState, protein: Option<real>, calorie: Option<real>, now: Date): (r: LedgerState)
    ensures r.proteinIntake == s.proteinIntake + Amount(protein)
    ensures r.calorieIntake == s.calorieIntake + Amount(calorie)
    ensures r.proteinIntake >= s.proteinIntake && r.calorieIntake >= s.calorieIntake
    ensures |r.dailyLogs| == |s.dailyLogs| + 1
    ensures r.dailyLogs[..|s.dailyLogs|] == s.dailyLogs
    ensures r.dailyLogs[|s.dailyLogs|] == DailyLog(now, r.proteinIntake, r.calorieIntake)
    ensures r.proteinGoal == s.proteinGoal && r.calorieGoal == s.calorieGoal
    ensures r.isStartPageActive == s.isStartPageActive && r.isEditGoalsActive == s.isEditGoalsActive
    ensures NonNegative(s) ==> NonNegative(r)
  {
    var afterProtein :=
      if protein.Some? && protein.value >= 0.0 then s.(proteinIntake := s.proteinIntake + protein.value) else s;
    var afterCalorie :=
      if calorie.Some? && calorie.value >= 0.0
      then afterProtein.(calorieIntake := afterProtein.calorieIntake + calorie.value)
      else afterProtein;
    var entry := DailyLog(now, afterCalorie.proteinIntake, afterCalorie.calorieIntake);
    afterCalorie.(dailyLogs := afterCalorie.dailyLogs + [entry])
  }

  /** Swiping entries away in the log list, at a set of valid offsets. */
  function DeleteLogs(s: LedgerState, offsets: set<nat>): (r: LedgerState)
    requires ValidOffsets(offsets, |s.dailyLogs|)
    ensures |r.dailyLogs| == |s.dailyLogs| - |offsets|
    ensures |r.dailyLogs| == |KeptIndices(|s.dailyLogs|, offsets)|
    ensures forall j :: 0 <= j < |r.dailyLogs| ==>
              r.dailyLogs[j] == s.dailyLogs[KeptIndices(|s.dailyLogs|, offsets)[j]]
    ensures r.(dailyLogs := s.dailyLogs) == s
  {
    RemovedAt(s.dailyLogs, offsets);
    RemovedLength(s.dailyLogs, offsets);
    s.(dailyLogs := RemoveAtOffsets(s.dailyLogs, offsets))
  }

  /** The Set Goals button does what committing the protein field and then
      the calorie field does. */
  lemma SetGoalsIsBothCommits(s: LedgerState, protein: Option<real>, calorie: Option<real>)
    ensures SetStartGoals(s, protein, calorie) == CommitCalorie(CommitProtein(s, protein), calorie)
  {
  }

  /** Saving on the Edit Goals sheet and setting them on the start page accept
      the same inputs; they differ only in the flag each one clears. */
  lemma SaveAndSetAgreeOnGoals(s: LedgerState, protein: Option<real>, calorie: Option<real>)
    ensures SaveGoals(s, protein, calorie).(isEditGoalsActive := s.isEditGoalsActive)
         == SetStartGoals(s, protein, calorie).(isStartPageActive := s.isStartPageActive)
  {
  }

  /** Deleting one entry cuts out exactly that entry. */
  lemma DeleteOneEntry(s: LedgerState, i: nat)
    requires i < |s.dailyLogs|
    ensures DeleteLogs(s, {i}).dailyLogs == s.dailyLogs[..i] + s.dailyLogs[i + 1..]
  {
    RemoveOne(s.dailyLogs, i);
  }

  /** The view's state, updated in place by its handlers. */
  class Ledger {
    var proteinIntake: real
    var calorieIntake: real
    var proteinGoal: real
    var calorieGoal: real
    var isStartPageActive: bool
    var isEditGoalsActive: bool
    var dailyLogs: seq<DailyLog>

    /** The fields as one value. */
    function State(): LedgerState
      reads this
    {
      LedgerState(proteinIntake, calorieIntake, proteinGoal, calorieGoal,
                  isStartPageActive, isEditGoalsActive, dailyLogs)
    }

    /** Goals and intakes are never negative. No handler needs this to run;
        it is carried so that the progress bars' fill fraction stays between
        empty and full (see `LedgerRuns.ReachableProgressInRange`). */
    ghost predicate Valid()
      reads this
    {
      NonNegative(State())
    }

    /** Launch: `stored` is the decoded log list, or `None` when there was
        nothing stored or it did not decode. */
    constructor (stored: Option<seq<DailyLog>>)
      ensures Valid()
      ensures State() == Initial(stored)
    {
      proteinIntake := 0.0;
      calorieIntake := 0.0;
      proteinGoal := 0.0;
      calorieGoal := 0.0;
      isStartPageActive := true;
      isEditGoalsActive := false;
      dailyLogs := [];
      if stored.Some? {
        dailyLogs := stored.value;
      }
    }

    method CommitProteinGoal(input: Option<real>)
      requires Valid()
      modifies this
      ensures Valid()
      ensures State() == CommitProtein(old(State()), input)
    {
      if input.Some? && input.value >= 0.0 {
        proteinGoal := input.value;
        isStartPageActive := false;
      }
    }

    method CommitCalorieGoal(input: Option<real>)
      requires Valid()
      modifies this
      ensures Valid()
      ensures State() == CommitCalorie(old(State()), input)
    {
      if input.Some? && input.value >= 0.0 {
        calorieGoal := input.value;
        isStartPageActive := false;
      }
    }

    method SetGoals(protein: Option<real>, calorie: Option<real>)
      requires Valid()
      modifies this
      ensures Valid()
      ensures State() == SetStartGoals(old(State()), protein, calorie)
    {
      if protein.Some? && protein.value >= 0.0 {
        proteinGoal := protein.value;
        isStartPageActive := false;
      }
      if calorie.Some? && calorie.value >= 0.0 {
        calorieGoal := calorie.value;
        isStartPageActive := false;
      }
    }

    method EditGoals()
      requires Valid()
      modifies this
      ensures Valid()
      ensures State() == OpenEditGoals(old(State()))
    {
      isEditGoalsActive := true;
    }

    method SaveEditedGoals(protein: Option<real>, calorie: Option<real>)
      requires Valid()
      modifies this
      ensures Valid()
      ensures State() == SaveGoals(old(State()), protein, calorie)
    {
      if protein.Some? && protein.value >= 0.0 {
        proteinGoal := protein.value;
      }
      if calorie.Some? && calorie.value >= 0.0 {
        calorieGoal := calorie.value;
      }
      isEditGoalsActive := false;
    }

    /** `now` is the current date, read by the handler when it runs. */
    method Add(protein: Option<real>, calorie: Option<real>, now: Date)
      requires Valid()
      modifies this
      ensures Valid()
      ensures State() == AddIntake(old(State()), protein, calorie, now)
    {
      if protein.Some? && protein.value >= 0.0 {
        proteinIntake := proteinIntake + protein.value;
      }
      if calorie.Some? && calorie.value >= 0.0 {
        calorieIntake := calorieIntake + calorie.value;
      }
      var entry := DailyLog(now, proteinIntake, calorieIntake);
      dailyLogs := dailyLogs + [entry];
    }

    method DeleteLog(offsets: set<nat>)
      requires Valid()
      requires ValidOffsets(offsets, |dailyLogs|)
      modifies this
      ensures Valid()
      ensures State() == DeleteLogs(old(State()), offsets)
    {
      dailyLogs := RemoveAtOffsets(dailyLogs, offsets);
    }
  }
}
