/** The statistics of one couple (src/hooks/useStatistics.tsx): one bucket
    per day of the last `days` days, with that day's mood, completed habits,
    goal progress and transaction count, and overall figures. Dates are day
    numbers; the date-only columns are compared as days, which is what the
    comparison of their `yyyy-MM-dd` renderings amounts to. */
module Statistics {
  import opened Common
  import Goals

  /** The projections the statistics queries select. */
  datatype MoodRow = MoodRow(entryDate: int, moodScore: Option<int>)
  datatype CompletionRow = CompletionRow(completedAt: int, habitId: string)
  datatype TransactionRow = TransactionRow(transactionDate: int, amount: int)

  datatype DailyStats = DailyStats(
    date: int, moodScore: int, habitsCompleted: nat, goalsProgress: int, transactions: nat)

  datatype OverallStats = OverallStats(
    totalJournalEntries: nat, avgMoodScore: int, totalHabitsCompleted: nat,
    totalGoalsCompleted: nat, totalTransactions: nat, daysTogether: int)

  const MsPerDay: int := 1000 * 60 * 60 * 24

  /** `data || []`: a failed query counts as no rows. */
  function RowsOr<T>(f: Fetch<T>): seq<T> {
    if f.Rows? then f.rows else []
  }

  /** `mood_score || 0`. */
  function ScoreOrZero(m: Option<int>): int {
    if m.Some? then m.value else 0
  }

  function MoodSum(js: seq<MoodRow>): int {
    if js == [] then 0 else MoodSum(js[..|js| - 1]) + ScoreOrZero(js[|js| - 1].moodScore)
  }

  /** The mood figure: `Math.round(mean * 20)` of the scores, a missing score
      counting as 0, and 0 when there are no entries. */
  function Mood(js: seq<MoodRow>): int {
    if |js| > 0 then RoundDiv(20 * MoodSum(js), |js|) else 0
  }

  predicate ScoreInRange(m: Option<int>, lo: int) {
    lo <= ScoreOrZero(m) <= 5
  }

  lemma {:induction false} MoodSumBounds(js: seq<MoodRow>, lo: int)
    requires forall k :: 0 <= k < |js| ==> ScoreInRange(js[k].moodScore, lo)
    ensures lo * |js| <= MoodSum(js) <= 5 * |js|
  {
    if js != [] {
      var n := |js| - 1;
      var init := js[..n];
      assert forall k :: 0 <= k < |init| ==> init[k] == js[k];
      MoodSumBounds(init, lo);
      var s := ScoreOrZero(js[n].moodScore);
      assert ScoreInRange(js[n].moodScore, lo);
      assert MoodSum(js) == MoodSum(init) + s;
      assert lo * |js| == lo * n + lo;
    }
  }

  /** Scores between 0 and 5 give a mood between 0 and 100; when every entry
      has a score of at least 1 the mood of a non-empty day is at least 20. */
  lemma MoodBounds(js: seq<MoodRow>, lo: int)
    requires 0 <= lo <= 1
    requires forall k :: 0 <= k < |js| ==> ScoreInRange(js[k].moodScore, lo)
    ensures 0 <= Mood(js) <= 100
    ensures lo == 1 && js != [] ==> 20 <= Mood(js)
  {
    if |js| > 0 {
      MoodSumBounds(js, lo);
      RoundDivBounds(20 * MoodSum(js), |js|, 20 * lo, 100);
    }
  }

  /** The goals counted as in progress: a truthy current amount above 0 and a
      truthy target amount. */
  predicate HasProgress(g: Goals.Goal) {
    g.currentAmount > 0 && NonZero(g.targetAmount)
  }

  /** `goalsProgress`: the percentage of goals in progress, 0 without goals. */
  function GoalsProgress(goals: seq<Goals.Goal>): (r: int)
    ensures 0 <= r <= 100
    ensures goals == [] ==> r == 0
  {
    var inProgress := Filter(goals, HasProgress);
    PercentBounds(|inProgress|, |goals|);
    Percent(|inProgress|, |goals|)
  }

  /** The filters of one day's bucket: the journal entries, completions
      and transactions dated d. */
  function JournalOnDay(d: int): MoodRow -> bool { (j: MoodRow) => j.entryDate == d }
  function CompletionOnDay(d: int): CompletionRow -> bool { (c: CompletionRow) => c.completedAt == d }
  function TransactionOnDay(d: int): TransactionRow -> bool { (t: TransactionRow) => t.transactionDate == d }

  /** `coupleHabitIds.has(c.habit_id)`. */
  function OfCoupleHabits(ids: seq<string>): CompletionRow -> bool {
    (c: CompletionRow) => c.habitId in ids
  }

  /** The completions of the couple's own habits. */
  function CoupleCompletions(cs: seq<CompletionRow>, ids: seq<string>): seq<CompletionRow> {
    Filter(cs, OfCoupleHabits(ids))
  }

  /** The bucket of day d; `cs` are the couple's completions. */
  function DayStats(d: int, js: seq<MoodRow>, cs: seq<CompletionRow>,
                    goals: seq<Goals.Goal>, ts: seq<TransactionRow>): (r: DailyStats)
    ensures r.date == d
    ensures r.habitsCompleted == |Filter(cs, CompletionOnDay(d))| <= |cs|
    ensures r.transactions == |Filter(ts, TransactionOnDay(d))| <= |ts|
    ensures r.goalsProgress == GoalsProgress(goals)
    ensures (forall k :: 0 <= k < |js| ==> js[k].entryDate != d) ==> r.moodScore == 0
  {
    var dayJournals := Filter(js, JournalOnDay(d));
    assert |dayJournals| > 0 ==> dayJournals[0] in js && dayJournals[0].entryDate == d;
    DailyStats(d, Mood(dayJournals), |Filter(cs, CompletionOnDay(d))|,
      GoalsProgress(goals), |Filter(ts, TransactionOnDay(d))|)
  }

  /** With every score between lo (0 or 1) and 5, a bucket's mood lies in
      0..100, and with scores of at least 1 a day that has an entry has a
      mood of at least 20. */
  lemma DayMoodBounds(d: int, js: seq<MoodRow>, cs: seq<CompletionRow>,
                      goals: seq<Goals.Goal>, ts: seq<TransactionRow>, lo: int)
    requires 0 <= lo <= 1
    requires forall k :: 0 <= k < |js| ==> ScoreInRange(js[k].moodScore, lo)
    ensures 0 <= DayStats(d, js, cs, goals, ts).moodScore <= 100
    ensures lo == 1 && (exists k :: 0 <= k < |js| && js[k].entryDate == d) ==>
      20 <= DayStats(d, js, cs, goals, ts).moodScore
  {
    var day := Filter(js, JournalOnDay(d));
    forall k | 0 <= k < |day| ensures ScoreInRange(day[k].moodScore, lo) {
      var j :| 0 <= j < |js| && js[j] == day[k];
    }
    MoodBounds(day, lo);
    if exists k :: 0 <= k < |js| && js[k].entryDate == d {
      var k :| 0 <= k < |js| && js[k].entryDate == d;
      assert js[k] in day;
    }
  }

  /** A day's habit count is the number of fetched completions of that day
      whose habit belongs to the couple. */
  lemma DayHabitsOfCouple(d: int, js: seq<MoodRow>, raw: seq<CompletionRow>, ids: seq<string>,
                          goals: seq<Goals.Goal>, ts: seq<TransactionRow>)
    ensures DayStats(d, js, CoupleCompletions(raw, ids), goals, ts).habitsCompleted
         == |Filter(raw, (c: CompletionRow) => c.habitId in ids && c.completedAt == d)|
    ensures DayStats(d, js, CoupleCompletions(raw, ids), goals, ts).habitsCompleted
         <= |CoupleCompletions(raw, ids)|
  {
    FilterFilter(raw, OfCoupleHabits(ids), CompletionOnDay(d), (c: CompletionRow) => c.habitId in ids && c.completedAt == d);
  }

  /** The buckets of the last `days` days, oldest first, the last one today. */
  function Daily(days: int, today: int, js: seq<MoodRow>, cs: seq<CompletionRow>,
                 goals: seq<Goals.Goal>, ts: seq<TransactionRow>): seq<DailyStats>
  {
    seq(if days > 0 then days else 0, (i: int) => DayStats(today - (days - 1 - i), js, cs, goals, ts))
  }

  /** One bucket per day when `days` is positive and none otherwise; the
      dates run up one day at a time and end today; every bucket carries the
      same goal progress. */
  lemma DailyShape(days: int, today: int, js: seq<MoodRow>, cs: seq<CompletionRow>,
                   goals: seq<Goals.Goal>, ts: seq<TransactionRow>)
    ensures var d := Daily(days, today, js, cs, goals, ts);
      && |d| == (if days > 0 then days else 0)
      && (days > 0 ==> d[days - 1].date == today)
      && (forall i :: 0 < i < |d| ==> d[i].date == d[i - 1].date + 1)
      && (forall i :: 0 <= i < |d| ==> d[i].goalsProgress == GoalsProgress(goals))
  {
    var d := Daily(days, today, js, cs, goals, ts);
    forall i | 0 <= i < |d|
      ensures d[i].date == today - (days - 1 - i) && d[i].goalsProgress == GoalsProgress(goals)
    {
      assert d[i] == DayStats(today - (days - 1 - i), js, cs, goals, ts);
    }
  }

  /** The daily loop of `fetchStatistics`. */
  method BuildDailyStats(days: int, today: int, js: seq<MoodRow>, cs: seq<CompletionRow>,
                         goals: seq<Goals.Goal>, ts: seq<TransactionRow>)
    returns (daily: seq<DailyStats>)
    ensures daily == Daily(days, today, js, cs, goals, ts)
  {
    ghost var whole := Daily(days, today, js, cs, goals, ts);
    daily := [];
    var i := 0;
    while i < days
      invariant 0 <= i && (days > 0 ==> i <= days) && (days <= 0 ==> i == 0)
      invariant i <= |whole| && daily == whole[..i]
    {
      assert whole[i] == DayStats(today - (days - 1 - i), js, cs, goals, ts);
      assert whole[..i + 1] == whole[..i] + [whole[i]];
      daily := daily + [DayStats(today - (days - 1 - i), js, cs, goals, ts)];
      i := i + 1;
    }
    assert whole[..|whole|] == whole;
  }

  /** `daysTogether`: whole days since the couple was created, at least 1. */
  function DaysTogether(now: int, createdAt: int): (r: int)
    ensures r >= 1
    ensures r > 1 ==> r * MsPerDay <= now - createdAt < (r + 1) * MsPerDay
    ensures r > 1 <==> now - createdAt >= 2 * MsPerDay
  {
    var whole := (now - createdAt) / MsPerDay;
    if whole > 1 then whole else 1
  }

  predicate IsCompleted(g: Goals.Goal) { g.status == "completed" }

  /** The overall figures; `cs` are the couple's completions. The completed
      goals are counted among all goals, none when no goal is completed. */
  function Overall(js: seq<MoodRow>, cs: seq<CompletionRow>, goals: seq<Goals.Goal>,
                   ts: seq<TransactionRow>, now: int, createdAt: int): (r: OverallStats)
    ensures r.totalJournalEntries == |js| && r.totalHabitsCompleted == |cs| && r.totalTransactions == |ts|
    ensures r.totalGoalsCompleted <= |goals|
    ensures r.totalGoalsCompleted == 0 <==> forall k :: 0 <= k < |goals| ==> !IsCompleted(goals[k])
    ensures r.daysTogether >= 1
  {
    var completed := Filter(goals, IsCompleted);
    assert |completed| > 0 ==> IsCompleted(completed[0]) && completed[0] in goals;
    OverallStats(|js|, Mood(js), |cs|, |completed|, |ts|, DaysTogether(now, createdAt))
  }

  /** The state of `useStatistics`. */
  class StatisticsState {
    var coupleId: Option<string>
    var days: int
    var dailyStats: seq<DailyStats>
    var overall: Option<OverallStats>
    var loading: bool

    constructor (coupleId: Option<string>, days: int)
      ensures this.coupleId == coupleId && this.days == days
      ensures dailyStats == [] && overall.None? && loading
    {
      this.coupleId := coupleId;
      this.days := days;
      dailyStats := [];
      overall := None;
      loading := true;
    }

    /** `fetchStatistics`: nothing happens without a couple. Otherwise every
        query's rows (none when it fails) feed the buckets and the overall
        figures, counting only completions of the couple's own habits, and
        loading ends. `today` is the current day, `now` the clock reading and
        `createdAt` the couple's creation time, both in milliseconds. */
    method FetchStatistics(today: int, now: int, createdAt: int,
                           journals: Fetch<MoodRow>, completions: Fetch<CompletionRow>,
                           habitIds: Fetch<string>, goals: Fetch<Goals.Goal>,
                           transactions: Fetch<TransactionRow>)
      modifies this
      ensures coupleId == old(coupleId) && days == old(days)
      ensures !Given(coupleId) ==>
        dailyStats == old(dailyStats) && overall == old(overall) && loading == old(loading)
      ensures Given(coupleId) ==>
        var cs := CoupleCompletions(RowsOr(completions), RowsOr(habitIds));
        && !loading
        && dailyStats == Daily(days, today, RowsOr(journals), cs, RowsOr(goals), RowsOr(transactions))
        && overall == Some(Overall(RowsOr(journals), cs, RowsOr(goals), RowsOr(transactions), now, createdAt))
    {
      if !Given(coupleId) {
        return;
      }
      loading := true;
      var cs := CoupleCompletions(RowsOr(completions), RowsOr(habitIds));
      dailyStats := BuildDailyStats(days, today, RowsOr(journals), cs, RowsOr(goals), RowsOr(transactions));
      overall := Some(Overall(RowsOr(journals), cs, RowsOr(goals), RowsOr(transactions), now, createdAt));
      loading := false;
    }

    /** The effect that runs on a couple or `days` change: without a couple
        loading simply ends, otherwise the statistics are fetched. */
    method Refresh(today: int, now: int, createdAt: int,
                   journals: Fetch<MoodRow>, completions: Fetch<CompletionRow>,
                   habitIds: Fetch<string>, goals: Fetch<Goals.Goal>,
                   transactions: Fetch<TransactionRow>)
      modifies this
      ensures coupleId == old(coupleId) && days == old(days) && !loading
      ensures !Given(coupleId) ==> dailyStats == old(dailyStats) && overall == old(overall)
      ensures Given(coupleId) ==>
        var cs := CoupleCompletions(RowsOr(completions), RowsOr(habitIds));
        && dailyStats == Daily(days, today, RowsOr(journals), cs, RowsOr(goals), RowsOr(transactions))
        && overall == Some(Overall(RowsOr(journals), cs, RowsOr(goals), RowsOr(transactions), now, createdAt))
    {
      if !Given(coupleId) {
        loading := false;
        return;
      }
      FetchStatistics(today, now, createdAt, journals, completions, habitIds, goals, transactions);
    }
  }
}
