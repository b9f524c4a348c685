/** The habit store and the credit ledger together, as the state that
    add_habit, update_habit_progress and get_credit work on (main.py:157-214).
    The `Habits` table is a map from row id to record; the single `Credits`
    row of the default user is an optional ledger entry. */
module Habits {
  import opened Rewards
  import opened Ledger

  /** A row of the `Habits` table (main.py:31-41). */
  datatype Habit = Habit(
    name: string,
    category: string,
    subCategory: string,
    frequency: string,
    progress: int,
    goal: int,
    note: string,
    highlighted: bool)

  /** `UPDATE Habits SET progress = progress + 1 WHERE id = ?`, run only when
      the habit was done: exactly the row `id` gains one, a missing id
      matches no row, and nothing else changes. */
  function Bump(habits: map<int, Habit>, id: int, doneToday: bool): (r: map<int, Habit>)
    ensures r.Keys == habits.Keys
    ensures forall k :: k in habits && (k != id || !doneToday) ==> r[k] == habits[k]
    ensures doneToday && id in habits ==> r[id] == habits[id].(progress := habits[id].progress + 1)
  {
    if doneToday && id in habits then habits[id := habits[id].(progress := habits[id].progress + 1)]
    else habits
  }

  /** The reply of update_habit_progress and get_credit. */
  datatype CreditReport = CreditReport(currentCredit: int, reward: Reward)

  class HabitServer {
    var habits: map<int, Habit>
    /** The id the autoincrementing key will hand out next. */
    var nextId: int
    var ledger: Option<Entry>

    /** Ids are positive and below `nextId`, progress never drops below its
        default 0, and the credit is non-negative. */
    ghost predicate Valid()
      reads this
    {
      nextId >= 1 &&
      (forall k :: k in habits ==> 1 <= k < nextId && habits[k].progress >= 0) &&
      NonNegative(ledger)
    }

    /** Empty tables, as init_db leaves them on a fresh database file. */
    constructor ()
      ensures Valid()
      ensures habits == map[] && ledger == None && nextId == 1
    {
      habits := map[];
      nextId := 1;
      ledger := None;
    }

    /** add_habit: inserts a row with progress at its column default 0 under
        a fresh id, which it returns; the ledger is untouched. The optional
        arguments take the source's defaults. */
    method AddHabit(name: string, category: string, subCategory: string := "",
                    frequency: string := "daily", goal: int := 30, note: string := "",
                    highlighted: bool := false) returns (id: int)
      requires Valid()
      modifies this
      ensures Valid()
      ensures id !in old(habits) && forall k :: k in old(habits) ==> k < id
      ensures habits == old(habits)[id := Habit(name, category, subCategory, frequency, 0, goal, note, highlighted)]
      ensures nextId == id + 1
      ensures ledger == old(ledger)
    {
      id := nextId;
      habits := habits[id := Habit(name, category, subCategory, frequency, 0, goal, note, highlighted)];
      nextId := nextId + 1;
    }

    /** update_habit_progress, with the date of the call passed in. The habit
        step and the ledger step follow each other; the reply carries the
        final credit and its tier. */
    method UpdateHabitProgress(habitId: int, doneToday: bool, today: string) returns (report: CreditReport)
      modifies this
      ensures old(Valid()) ==> Valid()
      ensures habits == Bump(old(habits), habitId, doneToday)
      ensures ledger == Some(Step(old(ledger), doneToday, today))
      ensures nextId == old(nextId)
      ensures report.currentCredit == ledger.value.credit
      ensures report.reward == GetRewardTier(report.currentCredit)
    {
      if doneToday && habitId in habits {
        habits := habits[habitId := habits[habitId].(progress := habits[habitId].progress + 1)];
      }

      var credit: int;
      if ledger.None? {
        credit := InitialCredit + (if doneToday then 1 else 0);
        ledger := Some(Entry(credit, today));
      } else {
        credit := ledger.value.credit;
        var lastUpdated := ledger.value.lastUpdated;
        if lastUpdated != today && !doneToday {
          credit := Max(0, credit - 1);
        }
        if doneToday {
          credit := credit + 1;
        }
        ledger := Some(Entry(credit, today));
      }

      // The source awaits get_reward_tier, a plain function; the model
      // returns the tier it evidently means.
      report := CreditReport(credit, GetRewardTier(credit));
    }

    /** get_credit: reads the stored credit, or 21 when no row exists, and
        its tier; changes nothing. */
    method GetCredit() returns (report: CreditReport)
      ensures report.currentCredit == StoredCredit(ledger)
      ensures report.reward == GetRewardTier(report.currentCredit)
      ensures Valid() ==> report.currentCredit >= 0
    {
      var credit := if ledger.Some? then ledger.value.credit else InitialCredit;
      // As in UpdateHabitProgress, the source awaits get_reward_tier, a plain
      // function; the model returns the tier it evidently means.
      report := CreditReport(credit, GetRewardTier(credit));
    }
  }

  /** One update moves the reported rank by at most one rung, relative to
      what get_credit reported just before it. */
  lemma TierMovesAtMostOneRung(l: Option<Entry>, doneToday: bool, today: string)
    requires NonNegative(l)
    ensures Level(GetRewardTier(StoredCredit(l)).rank) - 1 <= Level(GetRewardTier(Step(l, doneToday, today).credit).rank)
    ensures Level(GetRewardTier(Step(l, doneToday, today).credit).rank) <= Level(GetRewardTier(StoredCredit(l)).rank) + 1
  {
  }

  /** A client of the specifications: a fresh server, one habit added with
      the default optional arguments, two completions and a missed call on the next day. */
  method Walkthrough() returns (r1: CreditReport, r2: CreditReport, r3: CreditReport)
    ensures r1.currentCredit == 22 && r2.currentCredit == 23 && r3.currentCredit == 22
    ensures r3.reward.rank == Newbie
  {
    var s := new HabitServer();
    var id := s.AddHabit("Run", "Health");
    assert s.habits[id].goal == 30 && s.habits[id].frequency == "daily";
    r1 := s.UpdateHabitProgress(id, true, "2024-05-01");
    r2 := s.UpdateHabitProgress(id, true, "2024-05-01");
    assert s.habits[id].progress == 2;
    r3 := s.UpdateHabitProgress(id, false, "2024-05-02");
    assert s.habits[id].progress == 2;
    ReachedThresholds(22);
  }
}
