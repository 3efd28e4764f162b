/**
 * The demo backends' in-memory habit table: a list of habit records looked
 * up by id (the first record whose id matches), and the check-in and miss
 * updates applied to the record found.
 */
module HabitTable {
  import opened Wrappers

  /** One row of `habits_db`; `timezone` is None in the backends that have no such column. */
  datatype Habit = Habit(
    id: string,
    title: string,
    notes: Option<string>,
    goalType: string,
    targetValue: Option<real>,
    gracePerWeek: int,
    timezone: Option<string>,
    createdAt: string,
    streak: int,
    isDueToday: bool,
    bestHour: Option<int>)

  /** The fields of a create request, after the request model filled in its defaults. */
  datatype HabitCreate = HabitCreate(
    title: string,
    notes: Option<string>,
    goalType: string,
    targetValue: Option<real>,
    gracePerWeek: int,
    timezone: Option<string>)

  datatype ApiError = NotFound | BadRequest(detail: string)

  /** The HTTP status each error is raised with. */
  function StatusCode(e: ApiError): (code: int)
    ensures e.NotFound? <==> code == 404
    ensures e.BadRequest? <==> code == 400
  {
    match e
    case NotFound => 404
    case BadRequest(_) => 400
  }

  const GoalTypeDetail := "goal_type must be 'check', 'count', or 'duration'"

  predicate IsGoalType(goalType: string) {
    goalType == "check" || goalType == "count" || goalType == "duration"
  }

  /** The record `create_habit` appends: no streak yet, due today, no best hour. */
  function NewHabit(id: string, req: HabitCreate, createdAt: string): (h: Habit)
    ensures h.id == id && h.title == req.title && h.notes == req.notes
    ensures h.goalType == req.goalType && h.targetValue == req.targetValue
    ensures h.gracePerWeek == req.gracePerWeek && h.timezone == req.timezone
    ensures h.createdAt == createdAt
    ensures h.streak == 0 && h.isDueToday && h.bestHour.None?
  {
    Habit(id, req.title, req.notes, req.goalType, req.targetValue, req.gracePerWeek,
          req.timezone, createdAt, 0, true, None)
  }

  /**
   * The position of the first record with this id, as the generator
   * `next((h for h in habits_db if h["id"] == habit_id), None)` finds it.
   */
  function IndexOf(habits: seq<Habit>, id: string): (r: Option<nat>)
    ensures r.Some? ==> r.value < |habits| && habits[r.value].id == id
  {
    if habits == [] then None
    else if habits[0].id == id then Some(0)
    else match IndexOf(habits[1..], id)
      case None => None
      case Some(i) => Some(i + 1)
  }

  /** The lookup fails exactly when no record has the id, and otherwise finds the first one. */
  lemma {:induction false} IndexOfIsFirstMatch(habits: seq<Habit>, id: string)
    ensures IndexOf(habits, id).None? <==> forall j :: 0 <= j < |habits| ==> habits[j].id != id
    ensures IndexOf(habits, id).Some? ==>
      forall j :: 0 <= j < IndexOf(habits, id).value ==> habits[j].id != id
  {
    if habits != [] && habits[0].id != id {
      IndexOfIsFirstMatch(habits[1..], id);
      assert forall j :: 1 <= j < |habits| ==> habits[j] == habits[1..][j - 1];
    }
  }

  /** The first-match search as the backends run it, one record at a time. */
  method FindFirst(habits: seq<Habit>, id: string) returns (found: Option<nat>)
    ensures found == IndexOf(habits, id)
  {
    IndexOfIsFirstMatch(habits, id);
    var i := 0;
    while i < |habits|
      invariant 0 <= i <= |habits|
      invariant forall j :: 0 <= j < i ==> habits[j].id != id
    {
      if habits[i].id == id {
        return Some(i);
      }
      i := i + 1;
    }
    return None;
  }

  /** The record a check-in leaves: one more streak day, no longer due today. */
  function Checkin(h: Habit): (r: Habit)
    ensures r.streak == h.streak + 1 && !r.isDueToday
    ensures r == h.(streak := r.streak, isDueToday := false)
  {
    h.(streak := h.streak + 1, isDueToday := false)
  }

  /** The record a miss leaves: the streak reset, no longer due today. */
  function Miss(h: Habit): (r: Habit)
    ensures h.streak >= 0 ==> r.streak == 0
    ensures h.streak < 0 ==> r.streak == h.streak
    ensures !r.isDueToday
    ensures r == h.(streak := r.streak, isDueToday := false)
  {
    var streak := if h.streak > 0 then 0 else h.streak;
    h.(streak := streak, isDueToday := false)
  }

  /** The table after a check-in on `id`; unchanged when no record has that id. */
  function CheckinTable(habits: seq<Habit>, id: string): (t: seq<Habit>)
    ensures |t| == |habits|
  {
    match IndexOf(habits, id)
    case None => habits
    case Some(i) => habits[i := Checkin(habits[i])]
  }

  /** The table after a miss on `id`; unchanged when no record has that id. */
  function MissTable(habits: seq<Habit>, id: string): (t: seq<Habit>)
    ensures |t| == |habits|
  {
    match IndexOf(habits, id)
    case None => habits
    case Some(i) => habits[i := Miss(habits[i])]
  }

  /** Every stored streak is a count of days. */
  predicate StreaksNonNegative(habits: seq<Habit>) {
    forall j :: 0 <= j < |habits| ==> habits[j].streak >= 0
  }

  /**
   * A check-in changes exactly the first record with that id (streak up by
   * one, due flag cleared) and leaves every other record as it was; for an
   * unknown id nothing changes.
   */
  lemma CheckinTableEffect(habits: seq<Habit>, id: string)
    ensures var t := CheckinTable(habits, id);
      && |t| == |habits|
      && (IndexOf(habits, id).None? ==> t == habits)
      && (IndexOf(habits, id).Some? ==>
            var i := IndexOf(habits, id).value;
            && t[i].streak == habits[i].streak + 1
            && !t[i].isDueToday
            && t[i] == habits[i].(streak := t[i].streak, isDueToday := false)
            && forall j :: 0 <= j < |habits| && j != i ==> t[j] == habits[j])
  {
  }

  /**
   * A miss sets the first matching record's streak to 0 from any stored
   * streak, clears its due flag and leaves every other record as it was.
   */
  lemma MissTableEffect(habits: seq<Habit>, id: string)
    requires StreaksNonNegative(habits)
    ensures var t := MissTable(habits, id);
      && |t| == |habits|
      && (IndexOf(habits, id).None? ==> t == habits)
      && (IndexOf(habits, id).Some? ==>
            var i := IndexOf(habits, id).value;
            && t[i].streak == 0
            && !t[i].isDueToday
            && t[i] == habits[i].(streak := 0, isDueToday := false)
            && forall j :: 0 <= j < |habits| && j != i ==> t[j] == habits[j])
  {
  }

  /** Updates keep every id in place, so later lookups find the same records. */
  lemma UpdatesKeepLookups(habits: seq<Habit>, id: string, other: string)
    ensures IndexOf(CheckinTable(habits, id), other) == IndexOf(habits, other)
    ensures IndexOf(MissTable(habits, id), other) == IndexOf(habits, other)
  {
    SameIdsSameIndex(habits, CheckinTable(habits, id), other);
    SameIdsSameIndex(habits, MissTable(habits, id), other);
  }

  lemma {:induction false} SameIdsSameIndex(a: seq<Habit>, b: seq<Habit>, id: string)
    requires |a| == |b| && forall j :: 0 <= j < |a| ==> a[j].id == b[j].id
    ensures IndexOf(a, id) == IndexOf(b, id)
  {
    if a != [] && a[0].id != id {
      SameIdsSameIndex(a[1..], b[1..], id);
    }
  }

  /** Creating, checking in and missing all keep streaks non-negative. */
  lemma UpdatesKeepStreaksNonNegative(habits: seq<Habit>, id: string, h: Habit)
    requires StreaksNonNegative(habits)
    ensures StreaksNonNegative(CheckinTable(habits, id))
    ensures StreaksNonNegative(MissTable(habits, id))
    ensures h.streak == 0 ==> StreaksNonNegative(habits + [h])
  {
  }

  /** `n` check-ins in a row on the same id. */
  function CheckinTimes(habits: seq<Habit>, id: string, n: nat): (t: seq<Habit>)
    ensures |t| == |habits|
  {
    if n == 0 then habits else CheckinTable(CheckinTimes(habits, id, n - 1), id)
  }

  /** `n` check-ins take a streak of `s` to `s + n`, and touch no other record. */
  lemma {:induction false} RepeatedCheckinsKeepIndex(habits: seq<Habit>, id: string, n: nat)
    ensures IndexOf(CheckinTimes(habits, id, n), id) == IndexOf(habits, id)
  {
    if n > 0 {
      RepeatedCheckinsKeepIndex(habits, id, n - 1);
      UpdatesKeepLookups(CheckinTimes(habits, id, n - 1), id, id);
    }
  }

  /** One more check-in, once the first match is known to sit at `i`. */
  lemma CheckinStep(habits: seq<Habit>, id: string, i: nat, n: nat)
    requires IndexOf(habits, id) == Some(i)
    requires n > 0
    ensures i < |CheckinTimes(habits, id, n - 1)|
    ensures var prev := CheckinTimes(habits, id, n - 1);
      CheckinTimes(habits, id, n) == prev[i := Checkin(prev[i])]
  {
    RepeatedCheckinsKeepIndex(habits, id, n - 1);
  }

  lemma {:induction false} RepeatedCheckins(habits: seq<Habit>, id: string, i: nat, n: nat)
    requires IndexOf(habits, id) == Some(i)
    ensures CheckinTimes(habits, id, n)[i].streak == habits[i].streak + n
  {
    if n > 0 {
      RepeatedCheckins(habits, id, i, n - 1);
      CheckinStep(habits, id, i, n);
    }
  }

  lemma {:induction false} RepeatedCheckinsTouchNoOther(habits: seq<Habit>, id: string, i: nat, n: nat)
    requires IndexOf(habits, id) == Some(i)
    ensures forall j :: 0 <= j < |habits| && j != i ==> CheckinTimes(habits, id, n)[j] == habits[j]
  {
    if n > 0 {
      RepeatedCheckinsTouchNoOther(habits, id, i, n - 1);
      CheckinStep(habits, id, i, n);
    }
  }

  /** A miss followed by a check-in leaves a streak of exactly one day. */
  lemma MissThenCheckin(habits: seq<Habit>, id: string)
    requires StreaksNonNegative(habits)
    requires IndexOf(habits, id).Some?
    ensures var i := IndexOf(habits, id).value;
      CheckinTable(MissTable(habits, id), id)[i].streak == 1
  {
    MissTableEffect(habits, id);
    UpdatesKeepLookups(habits, id, id);
    CheckinTableEffect(MissTable(habits, id), id);
  }

  /** The reply of the check-in and miss endpoints. */
  datatype StreakReply = StreakReply(message: string, streak: int)

  function CheckinMessage(id: string): string {
    "Habit " + id + " checked in successfully"
  }

  function MissMessage(id: string): string {
    "Habit " + id + " marked as missed"
  }

  /** The record with this id, or "Habit not found". */
  function Lookup(habits: seq<Habit>, id: string): (r: Result<Habit, ApiError>)
    ensures r.Failure? <==> forall j :: 0 <= j < |habits| ==> habits[j].id != id
    ensures r.Failure? ==> r.error == NotFound
    ensures r.Success? ==> r.value.id == id && r.value in habits
  {
    IndexOfIsFirstMatch(habits, id);
    match IndexOf(habits, id)
    case None => Failure(NotFound)
    case Some(i) => Success(habits[i])
  }
}
