# Habit credit and reward tiers

A Dafny model of the habit-credit part of the AsesinoMCP productivity server
(`main.py`). Three operations make it up:

- `get_reward_tier` classifies an integer credit into one of five ranks:
  Newbie, Bronze, Silver, Gold and Champion. The cut points are 50, 100, 147
  and 200.
- `update_habit_progress` works on two stores. If the habit was done, it adds
  one to that habit's progress. Then it applies the daily rule to the single
  credit row of the default user:
  - With no row, it creates one with 21 credits, plus one if the habit was done.
  - If the habit was done, it adds one credit, whatever the stored date.
  - If the habit was not done on a new day, it takes one credit away, never
    going below 0.
  - If the habit was not done on the same day, the credit stays as it is.

  It always stamps the row with today's date. It returns the final credit and
  that credit's tier.
- `get_credit` reads the stored credit, or 21 when no row exists, with its tier.

`add_habit` is modelled as the insert that puts a fresh habit id into the
habit store with progress 0, and it keeps the source's default arguments.

Files:

- `rewards.dfy` (module `Rewards`) holds the classifier. Its second
  definition counts how many thresholds a credit has reached. Lemmas show the
  two definitions agree, that the five bands partition the integers, that the
  tier is monotone, and that it moves at most one rank when the credit
  changes by one.
- `ledger.dfy` (module `Ledger`) has the credit row as a value. `Step` is
  the daily rule and `Run` applies a sequence of calls. Lemmas by induction
  cover whole runs of calls.
- `habits.dfy` (module `Habits`) has a class `HabitServer`. Its state is the
  habit table (a map from id to record), the next autoincrement id, and the
  optional ledger row. Its methods are proved against `Step`, `Bump` and
  `GetRewardTier`.

`today` is a parameter of `UpdateHabitProgress`. In the source it is
`datetime.date.today().isoformat()`.

On line 202 and line 213, the source writes `await get_reward_tier(credit)`.
But `get_reward_tier` is an ordinary function that returns a dict, so that
`await` would raise a `TypeError`. In update_habit_progress this happens after
its writes are committed (main.py:178, main.py:200). In get_credit, which
writes nothing, it happens before anything is returned. The model returns the
result the code evidently means: the tier of the final credit.

## Model

| member | source | states |
|---|---|---|
| `Rewards.GetRewardTier` | main.py:82-92 | the rank is the rung of the ladder Newbie..Champion indexed by how many of the thresholds 50, 100, 147, 200 the credit has reached; the message is that rank's fixed message |
| `Rewards.TierIsBand` | main.py:82-92 | the classifier yields rank r exactly when the credit lies in r's band (below 50, 50-99, 100-146, 147-199, 200 and up), both directions |
| `Rewards.BandsPartition` | main.py:82-92 | every integer credit lies in the band of its rank and in no other band: no gaps, no overlaps |
| `Rewards.ReachedMonotone` | main.py:82-92 | a larger credit has reached at least as many thresholds |
| `Rewards.TierMonotone` | main.py:82-92 | the rank is monotone non-decreasing in the credit, through the monotone threshold count |
| `Rewards.TierStepsByAtMostOne` | main.py:82-92 | credits that differ by at most one get ranks at most one rung apart |
| `Rewards.ReachedThresholds` | main.py:83-91 | the threshold count is 0..4 according to the comparisons with 50, 100, 147, 200 |
| `Rewards.Boundaries` | main.py:82-92 | the ranks at 49/50, 99/100, 146/147, 199/200 are the two sides of each cut |
| `Ledger.StoredCredit` | main.py:212 | the stored credit when the row exists, 21 when it does not; non-negative when the ledger is |
| `Ledger.Step` | main.py:184-199 | the ledger branch of update_habit_progress: the new row is dated today, a completion adds exactly one, and from a non-negative credit the result is non-negative and is one more exactly when the habit was done (the cases are in StepCases, the bounds in StepDelta) |
| `Ledger.StepCases` | main.py:184-199 | with no row, the new credit is 22 if done and 21 if not; with a row, done adds exactly 1 whatever the date, not-done on another day gives max(0, C-1), and not-done on the same day leaves the row as it was; the date is always today |
| `Ledger.StepDelta` | main.py:190-199 | a non-negative credit stays non-negative and moves by at most one; it goes up by one exactly when the habit was done |
| `Ledger.DoneTwiceAddsTwo` | main.py:192-195 | two completions on one day add 2, so the update is not idempotent |
| `Ledger.NotDoneSameDayIdempotent` | main.py:191-199 | a second not-done call on the same day changes nothing, so decay fires at most once a day |
| `Ledger.RunDated` | main.py:184-199 | after any non-empty sequence of updates, from any ledger, the row exists and carries the last call's date |
| `Ledger.RunKeepsInvariant` | main.py:184-200 | over any sequence of updates a non-negative credit stays non-negative |
| `Ledger.RunBounds` | main.py:184-199 | over any sequence of updates credit rises by at most the number of completions and falls by at most the number of calls without one, whatever the gaps between dates |
| `Ledger.AllDoneRun` | main.py:185-195 | a sequence of completions adds exactly one credit per call, on any dates (from no row: 21 + calls) |
| `Ledger.SameDayRun` | main.py:191-199 | once the row carries a date, calls on that date never decay: credit grows by exactly the number of completions |
| `Ledger.SameDayAfterDecay` | main.py:192-195 | when the first call of a new day has no completion, that call decays once, and later calls that day only add completions |
| `Ledger.Scenarios` | main.py:184-199 | first call done yields 22; first call not done yields 21; 30 decays to 29; 0 stays 0; 146 done becomes 147 |
| `Habits.Bump` | main.py:175-178 | when done, exactly the row habit_id gains one progress and every other row is unchanged; a missing id or a not-done call leaves the map as it was; the set of ids never changes |
| `Habits.HabitServer.constructor` | main.py:29-54 | on a fresh database file both tables start empty: no habits, no ledger row, first id 1 |
| `Habits.HabitServer.AddHabit` | main.py:158-167 | inserts the given fields, with the optional ones defaulting to subCategory "", frequency "daily", goal 30, note "" and highlighted false, and with progress 0 (main.py:37) under a fresh id larger than every existing one and returns it; the ledger is unchanged; the invariant is kept |
| `Habits.HabitServer.UpdateHabitProgress` | main.py:171-203 | the habit map becomes Bump of the old one, the ledger becomes Step of the old one, the reply is the new credit and its tier; ids and invariant kept |
| `Habits.HabitServer.GetCredit` | main.py:207-214 | returns the stored credit, or 21 with no row, and its tier; changes nothing; non-negative under the invariant |
| `Habits.TierMovesAtMostOneRung` | main.py:184-203 | one update moves the reported rank at most one rung from the rank get_credit reported just before it |
| `Habits.Walkthrough` | main.py:158-203 | from empty stores, one habit added with the default arguments (goal 30, frequency "daily") and completions on two same-day calls yield 22 then 23; a missed call the next day yields 22 and the rank Newbie |

## Left out

- The constructor stands only for a fresh database file. On restart, `CREATE TABLE IF NOT EXISTS` keeps the existing rows and the AUTOINCREMENT counter; the class invariant is what the model assumes of such a state.
- Integers in the model are unbounded. SQLite INTEGER is 64-bit, and the driver raises OverflowError when it binds a `goal` or `habit_id` outside that range (main.py:165, main.py:177). The model has no such error; a credit reaching 2^63 is out of reach in practice.
- The aiosqlite connections, SQL text, commits and schema creation in `init_db` are left out. The two tables are abstract state.
- The non-atomic write to the two stores is left out, along with async execution and concurrent calls. The model runs the habit step and then the ledger step in sequence, so it cannot show the state left by a crash between them.
- `datetime.date.today()` is a clock read, so the model takes `today` as a parameter. Dates are plain strings compared for equality, as the source compares them.
- The `TypeError` from `await get_reward_tier(...)` (main.py:202, main.py:213) is not modelled. The reply is the tier of the final credit.
- FastMCP tool registration and the HTTP transport are RPC plumbing and are left out.
- Task, note and expense CRUD, `list_habits` and the `category` resource are left out. They are thin SQL wrappers with no logic beyond their queries, and the expense amounts are floating point; the `category` resource returns a fixed string after a file-existence check.
- `firstServer.py` is left out. It is float arithmetic and random dice with no state.
- The message strings: the emoji after the Newbie message is dropped. Each message is an opaque constant per rank.
- Habits.HabitServer.AddHabit: this requires the class invariant, so that the next autoincrement id is fresh. SQLite guarantees this for the source.
- Ledger.Step: "one more exactly when the habit was done" is stated only for a non-negative credit, because at a stored credit of -1 a decay also yields 0, which is -1 + 1.
- Ledger.StepDelta: this is stated only for a non-negative stored credit. If the stored credit were negative (it can only get there by an outside write), decay would raise it straight to 0.
