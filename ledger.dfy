/** The credit ledger: the single `Credits` row of the default user, and the
    daily accrual/decay rule that update_habit_progress applies to it
    (main.py:180-200). The ledger is modelled as a value; the store that holds
    it is in module Habits. */
module Ledger {

  datatype Option<T> = None | Some(value: T)

  /** The row `(credit, last_updated)`; `lastUpdated` is an ISO-8601 date string. */
  datatype Entry = Entry(credit: int, lastUpdated: string)

  /** The credit of a ledger created lazily, and the value read when no row exists. */
  const InitialCredit: int := 21

  /** One call of update_habit_progress, with the date the call was made on. */
  datatype Call = Call(doneToday: bool, today: string)

  /** Python's `max` on two integers. */
  function Max(a: int, b: int): (m: int)
    ensures m >= a && m >= b && (m == a || m == b)
  {
    if a < b then b else a
  }

  /** The credit get_credit reports: the stored one, or 21 with no row. */
  function StoredCredit(l: Option<Entry>): (c: int)
    ensures l.Some? ==> c == l.value.credit
    ensures l.None? ==> c == InitialCredit
    ensures NonNegative(l) ==> c >= 0
  {
    match l
    case None => InitialCredit
    case Some(e) => e.credit
  }

  predicate NonNegative(l: Option<Entry>)
  {
    l.Some? ==> l.value.credit >= 0
  }

  /** The ledger row after one progress update on `today`: created with 21
      (plus one when done) when absent; otherwise plus one when done, whatever
      the stored date, minus one (not below zero) on a new day when not done,
      and unchanged on the same day when not done. The date is always `today`. */
  function Step(l: Option<Entry>, doneToday: bool, today: string): (r: Entry)
    ensures r.lastUpdated == today
    ensures doneToday ==> r.credit == StoredCredit(l) + 1
    ensures NonNegative(l) ==> r.credit >= 0 && (r.credit == StoredCredit(l) + 1 <==> doneToday)
  {
    match l
    case None => Entry(InitialCredit + (if doneToday then 1 else 0), today)
    case Some(e) =>
      if doneToday then Entry(e.credit + 1, today)
      else if e.lastUpdated != today then Entry(Max(0, e.credit - 1), today)
      else Entry(e.credit, today)
  }

  /** The cases of Step, each as the source states it. */
  lemma StepCases(l: Option<Entry>, doneToday: bool, today: string)
    ensures Step(l, doneToday, today).lastUpdated == today
    ensures l.None? ==> Step(l, doneToday, today).credit == if doneToday then 22 else 21
    ensures l.Some? && doneToday ==> Step(l, doneToday, today).credit == l.value.credit + 1
    ensures l.Some? && !doneToday && l.value.lastUpdated != today ==>
      Step(l, doneToday, today).credit == Max(0, l.value.credit - 1)
    ensures l.Some? && !doneToday && l.value.lastUpdated == today ==>
      Step(l, doneToday, today) == l.value
  {
  }

  /** A non-negative ledger stays non-negative, and one update moves a
      non-negative credit by at most one. */
  lemma StepDelta(l: Option<Entry>, doneToday: bool, today: string)
    requires NonNegative(l)
    ensures Step(l, doneToday, today).credit >= 0
    ensures StoredCredit(l) - 1 <= Step(l, doneToday, today).credit <= StoredCredit(l) + 1
    ensures Step(l, doneToday, today).credit == StoredCredit(l) + 1 <==> doneToday
  {
  }

  /** Two completions on the same day add two: the update is not idempotent. */
  lemma DoneTwiceAddsTwo(l: Option<Entry>, today: string)
    ensures Step(Some(Step(l, true, today)), true, today).credit == StoredCredit(l) + 2
    ensures Step(Some(Step(l, true, today)), true, today) != Step(l, true, today)
  {
  }

  /** Without a completion a second call on the same day changes nothing:
      decay fires at most once per calendar day. */
  lemma NotDoneSameDayIdempotent(l: Option<Entry>, today: string)
    ensures Step(Some(Step(l, false, today)), false, today) == Step(l, false, today)
  {
  }

  // ---- Sequences of calls ----

  /** The ledger after the calls `calls`, made in order. */
  function Run(l: Option<Entry>, calls: seq<Call>): Option<Entry>
    decreases |calls|
  {
    if calls == [] then l
    else Run(Some(Step(l, calls[0].doneToday, calls[0].today)), calls[1..])
  }

  function CountDone(calls: seq<Call>): (n: nat)
    ensures n <= |calls|
  {
    if calls == [] then 0 else (if calls[0].doneToday then 1 else 0) + CountDone(calls[1..])
  }

  predicate AllOn(calls: seq<Call>, day: string)
  {
    forall i :: 0 <= i < |calls| ==> calls[i].today == day
  }

  /** After any non-empty run the row exists and carries the last call's date. */
  lemma {:induction false} RunDated(l: Option<Entry>, calls: seq<Call>)
    ensures calls != [] ==> Run(l, calls).Some? && Run(l, calls).value.lastUpdated == calls[|calls| - 1].today
    decreases |calls|
  {
    if |calls| > 1 {
      RunDated(Some(Step(l, calls[0].doneToday, calls[0].today)), calls[1..]);
    }
  }

  /** Over any run a non-negative credit stays non-negative. */
  lemma {:induction false} RunKeepsInvariant(l: Option<Entry>, calls: seq<Call>)
    requires NonNegative(l)
    ensures NonNegative(Run(l, calls))
    decreases |calls|
  {
    if calls != [] {
      var l' := Some(Step(l, calls[0].doneToday, calls[0].today));
      StepDelta(l, calls[0].doneToday, calls[0].today);
      RunKeepsInvariant(l', calls[1..]);
    }
  }

  /** Credit rises by at most the number of completions, and falls by at most
      the number of calls without one: decay is one per call, never one per
      elapsed day. */
  lemma {:induction false} RunBounds(l: Option<Entry>, calls: seq<Call>)
    requires NonNegative(l)
    ensures StoredCredit(l) - (|calls| - CountDone(calls)) <= StoredCredit(Run(l, calls))
    ensures StoredCredit(Run(l, calls)) <= StoredCredit(l) + CountDone(calls)
    decreases |calls|
  {
    if calls != [] {
      var l' := Some(Step(l, calls[0].doneToday, calls[0].today));
      StepDelta(l, calls[0].doneToday, calls[0].today);
      RunBounds(l', calls[1..]);
    }
  }

  /** A run made only of completions adds exactly one per call, on any dates. */
  lemma {:induction false} AllDoneRun(l: Option<Entry>, calls: seq<Call>)
    requires CountDone(calls) == |calls|
    ensures StoredCredit(Run(l, calls)) == StoredCredit(l) + |calls|
    decreases |calls|
  {
    if calls != [] {
      var l' := Some(Step(l, calls[0].doneToday, calls[0].today));
      assert CountDone(calls[1..]) == |calls[1..]|;
      AllDoneRun(l', calls[1..]);
    }
  }

  /** Once the row carries `day`, further calls on that day never decay:
      credit grows by exactly the number of completions. */
  lemma {:induction false} SameDayRun(e: Entry, calls: seq<Call>, day: string)
    requires e.lastUpdated == day && AllOn(calls, day)
    ensures Run(Some(e), calls) == Some(Entry(e.credit + CountDone(calls), day))
    decreases |calls|
  {
    if calls != [] {
      var e' := Step(Some(e), calls[0].doneToday, calls[0].today);
      assert calls[0].today == day;
      assert AllOn(calls[1..], day) by {
        forall i | 0 <= i < |calls[1..]| ensures calls[1..][i].today == day {
          assert calls[1..][i] == calls[i + 1];
        }
      }
      SameDayRun(e', calls[1..], day);
    }
  }

  /** When the first call of a new day has no completion, that call decays
      once, and later calls that day only add completions. */
  lemma SameDayAfterDecay(e: Entry, calls: seq<Call>, day: string)
    requires e.lastUpdated != day && AllOn(calls, day)
    ensures Run(Some(e), [Call(false, day)] + calls) == Some(Entry(Max(0, e.credit - 1) + CountDone(calls), day))
  {
    var cs := [Call(false, day)] + calls;
    assert cs[1..] == calls;
    SameDayRun(Step(Some(e), false, day), calls, day);
  }

  /** Worked cases of Step: the first row with and without a completion, a
      decay, the clamp at 0, and the Silver/Gold cut at 147. */
  lemma Scenarios()
    ensures Step(None, true, "2024-05-02") == Entry(22, "2024-05-02")
    ensures Step(None, false, "2024-05-02") == Entry(21, "2024-05-02")
    ensures Step(Some(Entry(30, "2024-05-01")), false, "2024-05-02").credit == 29
    ensures Step(Some(Entry(0, "2024-05-01")), false, "2024-05-02").credit == 0
    ensures Step(Some(Entry(146, "2024-05-02")), true, "2024-05-02").credit == 147
  {
  }
}
