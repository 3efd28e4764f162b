/**
 * The mutable `habits_db` list of the three demo backends, as one class:
 * a named constructor per backend's seed rows, creation with and without
 * goal-type validation, and the check-in and miss endpoints, which update
 * the first record with the given id in place.
 */
module HabitStore {
  import opened Wrappers
  import opened HabitTable

  function DemoHabit(id: string, title: string, notes: string, goalType: string, target: real,
                     grace: int, timezone: Option<string>, streak: int, due: bool, bestHour: int): Habit
  {
    Habit(id, title, Some(notes), goalType, Some(target), grace, timezone,
          "2024-01-01T00:00:00Z", streak, due, Some(bestHour))
  }

  /** The three seed rows of the simplified backend. */
  const SimpleSeed: seq<Habit> := [
    DemoHabit("demo-1", "Drink Water", "Stay hydrated throughout the day", "count", 8.0, 2, None, 5, true, 9),
    DemoHabit("demo-2", "Exercise", "30 minutes of physical activity", "duration", 30.0, 1, None, 3, false, 7),
    DemoHabit("demo-3", "Read", "Read for personal development", "duration", 20.0, 1, None, 2, true, 21)
  ]

  /** The two seed rows of the minimal backend. */
  const MinimalSeed: seq<Habit> := SimpleSeed[..2]

  /** The two seed rows of the main application, which also carry a timezone. */
  const MainSeed: seq<Habit> := [
    DemoHabit("demo-1", "Drink Water", "Stay hydrated", "count", 8.0, 2, Some("UTC"), 5, true, 9),
    DemoHabit("demo-2", "Exercise", "30 minutes daily", "duration", 30.0, 1, Some("UTC"), 3, false, 7)
  ]

  /**
   * A create request of the simplified and minimal backends with only a
   * title: goal type "check", target 1, one grace day a week, no notes.
   */
  function DemoCreateRequest(title: string): HabitCreate {
    HabitCreate(title, None, "check", Some(1.0), 1, None)
  }

  /**
   * A create request of the main application with a title and goal type:
   * no target, one grace day a week, timezone "UTC", no notes.
   */
  function MainCreateRequest(title: string, goalType: string): HabitCreate {
    HabitCreate(title, None, goalType, None, 1, Some("UTC"))
  }

  /** A title-only request creates a daily check habit with target 1 and one grace day. */
  lemma DemoCreateDefaults(title: string, id: string, createdAt: string)
    ensures var h := NewHabit(id, DemoCreateRequest(title), createdAt);
      && IsGoalType(h.goalType) && h.goalType == "check"
      && h.targetValue == Some(1.0) && h.gracePerWeek == 1 && h.notes.None?
      && h.streak == 0 && h.isDueToday && h.bestHour.None?
  {
  }

  /** The main application's new habits are in UTC unless told otherwise, with no target. */
  lemma MainCreateDefaults(title: string, goalType: string, id: string, createdAt: string)
    ensures var h := NewHabit(id, MainCreateRequest(title, goalType), createdAt);
      && h.timezone == Some("UTC") && h.targetValue.None? && h.gracePerWeek == 1
      && h.goalType == goalType && h.streak == 0 && h.isDueToday && h.bestHour.None?
  {
  }

  class HabitStore {
    var habits: seq<Habit>

    /** Every stored streak is a count of days. */
    ghost predicate Valid()
      reads this
    {
      StreaksNonNegative(habits)
    }

    constructor SimpleDemo()
      ensures habits == SimpleSeed && Valid()
    {
      habits := SimpleSeed;
    }

    constructor MinimalDemo()
      ensures habits == MinimalSeed && Valid()
    {
      habits := MinimalSeed;
    }

    constructor MainDemo()
      ensures habits == MainSeed && Valid()
    {
      habits := MainSeed;
    }

    /**
     * `create_habit` with goal-type validation: a goal type other than
     * check, count or duration is refused with 400 and the table is left as
     * it was; otherwise the new record is appended.  `newId` and
     * `createdAt` stand for the generated UUID and the current time.
     */
    method CreateHabit(req: HabitCreate, newId: string, createdAt: string)
      returns (r: Result<Habit, ApiError>)
      requires Valid()
      modifies this
      ensures Valid()
      ensures !IsGoalType(req.goalType) ==>
        r == Failure(BadRequest(GoalTypeDetail)) && habits == old(habits)
      ensures IsGoalType(req.goalType) ==>
        r == Success(NewHabit(newId, req, createdAt)) && habits == old(habits) + [r.value]
    {
      if !(req.goalType == "check" || req.goalType == "count" || req.goalType == "duration") {
        return Failure(BadRequest(GoalTypeDetail));
      }
      var h := NewHabit(newId, req, createdAt);
      habits := habits + [h];
      r := Success(h);
    }

    /** `create_habit` of the minimal backend: any goal type is stored. */
    method CreateHabitUnchecked(req: HabitCreate, newId: string, createdAt: string)
      returns (h: Habit)
      requires Valid()
      modifies this
      ensures Valid()
      ensures h == NewHabit(newId, req, createdAt)
      ensures habits == old(habits) + [h]
    {
      h := NewHabit(newId, req, createdAt);
      habits := habits + [h];
    }

    /**
     * `checkin_habit`: 404 for an unknown id; otherwise the first record
     * with the id gains a streak day and is no longer due today, and the
     * reply carries its new streak.
     */
    method CheckinHabit(id: string) returns (r: Result<StreakReply, ApiError>)
      requires Valid()
      modifies this
      ensures Valid()
      ensures habits == CheckinTable(old(habits), id)
      ensures IndexOf(old(habits), id).None? ==> r == Failure(NotFound)
      ensures IndexOf(old(habits), id).Some? ==>
        r == Success(StreakReply(CheckinMessage(id), old(habits)[IndexOf(old(habits), id).value].streak + 1))
    {
      var found := FindFirst(habits, id);
      if found.None? {
        return Failure(NotFound);
      }
      var i := found.value;
      var h := habits[i];
      h := h.(streak := h.streak + 1);
      h := h.(isDueToday := false);
      habits := habits[i := h];
      r := Success(StreakReply(CheckinMessage(id), h.streak));
    }

    /**
     * `miss_habit`: 404 for an unknown id; otherwise the first record with
     * the id has its streak reset and is no longer due today, and the reply
     * carries the streak, now 0.
     */
    method MissHabit(id: string) returns (r: Result<StreakReply, ApiError>)
      requires Valid()
      modifies this
      ensures Valid()
      ensures habits == MissTable(old(habits), id)
      ensures IndexOf(old(habits), id).None? ==> r == Failure(NotFound)
      ensures IndexOf(old(habits), id).Some? ==> r == Success(StreakReply(MissMessage(id), 0))
    {
      var found := FindFirst(habits, id);
      if found.None? {
        return Failure(NotFound);
      }
      var i := found.value;
      var h := habits[i];
      if h.streak > 0 {
        h := h.(streak := 0);
      }
      h := h.(isDueToday := false);
      habits := habits[i := h];
      r := Success(StreakReply(MissMessage(id), h.streak));
    }
  }

  /** The seed ids are distinct, so each seed record is found by its own id. */
  lemma SeedLookups()
    ensures IndexOf(SimpleSeed, "demo-1") == Some(0)
    ensures IndexOf(SimpleSeed, "demo-2") == Some(1)
    ensures IndexOf(SimpleSeed, "demo-3") == Some(2)
    ensures IndexOf(MinimalSeed, "demo-3").None?
    ensures IndexOf(MainSeed, "demo-2") == Some(1)
  {
    assert "demo-1" != "demo-2" by { assert "demo-1"[5] != "demo-2"[5]; }
    assert "demo-1" != "demo-3" by { assert "demo-1"[5] != "demo-3"[5]; }
    assert "demo-2" != "demo-3" by { assert "demo-2"[5] != "demo-3"[5]; }
    assert SimpleSeed[1..][1..] == [SimpleSeed[2]];
    assert MinimalSeed[1..][1..] == [];
  }
}
