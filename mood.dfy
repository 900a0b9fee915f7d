/**
 * The mood-logging gamification engine (controllers/moodController.js).
 *
 * Logging a mood stores the log, buckets the student's whole history by
 * calendar day, walks backward from today counting consecutive logged days
 * (at most 365), and then creates or recomputes the student's gamification
 * record: points, streak, last check-in day and badges. The stats endpoint
 * reports that record with a seven-day series of daily mean moods.
 *
 * Time is a timestamp in milliseconds; a calendar day is a day number.
 */
module Mood {
  import opened Common
  import opened Seqs

  /** The `mood` enum of the mood-log schema. */
  datatype MoodLabel = Happy | Okay | Sad | Angry | Neutral

  function LabelName(m: MoodLabel): string {
    match m
    case Happy => "Happy"
    case Okay => "Okay"
    case Sad => "Sad"
    case Angry => "Angry"
    case Neutral => "Neutral"
  }

  /** Schema validation of a submitted label: only the five enum names are accepted. */
  function ParseMood(s: string): (m: Option<MoodLabel>)
    ensures m.Some? ==> LabelName(m.value) == s
    ensures m.None? ==> forall l: MoodLabel :: LabelName(l) != s
  {
    if s == "Happy" then Some(Happy)
    else if s == "Okay" then Some(Okay)
    else if s == "Sad" then Some(Sad)
    else if s == "Angry" then Some(Angry)
    else if s == "Neutral" then Some(Neutral)
    else None
  }

  /** The `source` enum of the mood-log schema: a self report or the camera detector. */
  datatype Source = SelfReport | Camera

  function SourceName(s: Source): string {
    match s
    case SelfReport => "self"
    case Camera => "camera"
  }

  /** `source || 'self'`, then schema validation: the source a request names, if it is one of the two. */
  function ParseSource(s: string): (r: Option<Source>)
    ensures s == "" ==> r == Some(SelfReport)
    ensures s != "" && r.Some? ==> SourceName(r.value) == s
    ensures s != "" && r.None? ==> forall x: Source :: SourceName(x) != s
  {
    if s == "" || s == "self" then Some(SelfReport)
    else if s == "camera" then Some(Camera)
    else None
  }

  /**
   * A mood log; `score` is the detector's optional confidence and
   * `createdAt` the creation timestamp in milliseconds.
   */
  datatype MoodLog = MoodLog(student: ObjectId, mood: MoodLabel, score: Option<real>, source: Source, createdAt: int)

  /** The `min: 0, max: 1` validators of `score`, which an absent score skips. */
  predicate ScoreInRange(score: Option<real>) {
    score.None? || 0.0 <= score.value <= 1.0
  }

  /**
   * `MoodLog.create` for a request: schema validation accepts a known
   * label, a score in 0..1 or none, and a known source or none (self);
   * a failed validation is answered with 500.
   */
  function NewLog(student: ObjectId, mood: string, score: Option<real>, source: string, now: int)
    : (r: Result<MoodLog, Failure>)
    ensures r.Ok? <==> ParseMood(mood).Some? && ScoreInRange(score) && ParseSource(source).Some?
    ensures r.Err? ==> r.error == ServerError
    ensures r.Ok? ==> && r.value.student == student && LabelName(r.value.mood) == mood
                      && r.value.score == score && r.value.createdAt == now
    ensures r.Ok? ==> SourceName(r.value.source) == if source == "" then "self" else source
  {
    var parsed := ParseMood(mood);
    var origin := ParseSource(source);
    if parsed.None? || !ScoreInRange(score) || origin.None? then Err(ServerError)
    else Ok(MoodLog(student, parsed.value, score, origin.value, now))
  }

  const MsPerDay: int := 86_400_000
  /** The backward walk looks at no more than this many days. */
  const StreakHorizon: nat := 365
  const SevenDayBadge: string := "7-day-streak"
  const ThirtyDayBadge: string := "30-day-streak"

  /**
   * The UTC calendar day of a timestamp: the `YYYY-MM-DD` prefix of its ISO
   * 8601 form, as a day number. Dafny's `/` rounds down for a positive
   * divisor, as truncating to the date does for times before 1970 too.
   */
  function DayKey(t: int): int {
    t / MsPerDay
  }

  lemma DayKeyShift(t: int, k: int)
    ensures DayKey(t + k * MsPerDay) == DayKey(t) + k
  {
  }

  /** Some log of `logs` falls on `day`. */
  predicate LoggedOn(logs: seq<MoodLog>, day: int) {
    exists i | 0 <= i < |logs| :: DayKey(logs[i].createdAt) == day
  }

  lemma LoggedOnMember(logs: seq<MoodLog>, l: MoodLog)
    requires l in logs
    ensures LoggedOn(logs, DayKey(l.createdAt))
  {
    var i :| 0 <= i < |logs| && logs[i] == l;
  }

  /** A day is logged in `init + [last]` iff it is logged in `init` or `last` falls on it. */
  lemma LoggedOnSnoc(init: seq<MoodLog>, last: MoodLog, day: int)
    ensures LoggedOn(init + [last], day) <==> LoggedOn(init, day) || DayKey(last.createdAt) == day
  {
    var logs := init + [last];
    if LoggedOn(init, day) {
      var i :| 0 <= i < |init| && DayKey(init[i].createdAt) == day;
      assert logs[i] == init[i];
    }
    if DayKey(last.createdAt) == day {
      assert logs[|init|] == last;
    }
    if LoggedOn(logs, day) && DayKey(last.createdAt) != day {
      var i :| 0 <= i < |logs| && DayKey(logs[i].createdAt) == day;
      assert i < |init| && logs[i] == init[i];
    }
  }

  // ---- The streak ----

  /**
   * The number of consecutive logged days ending at `today`, looking at most
   * `horizon` days back: every day of the run has a log, and unless the run
   * reached the horizon the day before it has none.
   */
  function Streak(logs: seq<MoodLog>, today: int, horizon: nat): (n: nat)
    ensures n <= horizon
    ensures forall d :: today - n < d <= today ==> LoggedOn(logs, d)
    ensures n < horizon ==> !LoggedOn(logs, today - n)
    decreases horizon
  {
    if horizon == 0 || !LoggedOn(logs, today) then 0
    else 1 + Streak(logs, today - 1, horizon - 1)
  }

  /** The three properties in Streak's contract single out its value. */
  lemma StreakIsUnique(logs: seq<MoodLog>, today: int, horizon: nat, n: nat)
    requires n <= horizon
    requires forall d :: today - n < d <= today ==> LoggedOn(logs, d)
    requires n < horizon ==> !LoggedOn(logs, today - n)
    ensures n == Streak(logs, today, horizon)
  {
  }

  /** The streak depends only on which days have at least one log. */
  lemma StreakDependsOnlyOnLoggedDays(a: seq<MoodLog>, b: seq<MoodLog>, today: int, horizon: nat)
    requires forall d :: LoggedOn(a, d) <==> LoggedOn(b, d)
    ensures Streak(a, today, horizon) == Streak(b, today, horizon)
  {
    StreakIsUnique(b, today, horizon, Streak(a, today, horizon));
  }

  /** Reordering the logs, or logging the same thing several times, leaves the streak unchanged. */
  lemma StreakIgnoresOrderAndRepeats(a: seq<MoodLog>, b: seq<MoodLog>, today: int)
    requires forall l :: l in a <==> l in b
    ensures Streak(a, today, StreakHorizon) == Streak(b, today, StreakHorizon)
  {
    forall d ensures LoggedOn(a, d) <==> LoggedOn(b, d) {
      if LoggedOn(a, d) {
        var i :| 0 <= i < |a| && DayKey(a[i].createdAt) == d;
        LoggedOnMember(b, a[i]);
      }
      if LoggedOn(b, d) {
        var i :| 0 <= i < |b| && DayKey(b[i].createdAt) == d;
        LoggedOnMember(a, b[i]);
      }
    }
    StreakDependsOnlyOnLoggedDays(a, b, today, StreakHorizon);
  }

  /**
   * The logs of `logs` that fall on `day`, in order: one bucket of the day
   * grouping; `LogsOnKeepsEveryLog` shows that every log of that day is
   * in it as often as in `logs`.
   */
  function LogsOn(logs: seq<MoodLog>, day: int): (r: seq<MoodLog>)
    ensures forall l :: l in r ==> l in logs && DayKey(l.createdAt) == day
    ensures r != [] <==> LoggedOn(logs, day)
  {
    if logs == [] then []
    else
      var init, last := logs[..|logs| - 1], logs[|logs| - 1];
      assert logs == init + [last];
      LoggedOnSnoc(init, last, day);
      LogsOn(init, day) + (if DayKey(last.createdAt) == day then [last] else [])
  }

  /** Every log of `day` is in the day's bucket exactly as often as in `logs`, and no other log is. */
  lemma {:induction false} LogsOnKeepsEveryLog(logs: seq<MoodLog>, day: int)
    ensures forall l :: multiset(LogsOn(logs, day))[l] == if DayKey(l.createdAt) == day then multiset(logs)[l] else 0
  {
    if logs != [] {
      var init, last := logs[..|logs| - 1], logs[|logs| - 1];
      assert logs == init + [last];
      LogsOnKeepsEveryLog(init, day);
    }
  }

  /**
   * Bucket the logs by calendar day: a day is a key iff some log falls on it,
   * and its bucket holds that day's logs in their original order.
   */
  method GroupByDay(logs: seq<MoodLog>) returns (byDay: map<int, seq<MoodLog>>)
    ensures forall d :: d in byDay <==> LoggedOn(logs, d)
    ensures forall d :: d in byDay ==> byDay[d] == LogsOn(logs, d)
  {
    byDay := map[];
    for i := 0 to |logs|
      invariant forall d :: d in byDay <==> LogsOn(logs[..i], d) != []
      invariant forall d :: d in byDay ==> byDay[d] == LogsOn(logs[..i], d)
    {
      assert logs[..i + 1][..i] == logs[..i];
      var day := DayKey(logs[i].createdAt);
      if day !in byDay {
        byDay := byDay[day := []];
      }
      byDay := byDay[day := byDay[day] + [logs[i]]];
    }
    assert logs[..|logs|] == logs;
  }

  /**
   * The backward walk from today over the day buckets, stopping at the first
   * day without a log or after 365 days. `logs` are the logs the buckets
   * were built from.
   */
  method ComputeStreak(byDay: map<int, seq<MoodLog>>, today: int, ghost logs: seq<MoodLog>) returns (streakCount: nat)
    requires forall d :: (d in byDay && byDay[d] != []) <==> LoggedOn(logs, d)
    ensures streakCount == Streak(logs, today, StreakHorizon)
  {
    streakCount := 0;
    var i := 0;
    while i < StreakHorizon
      invariant 0 <= i <= StreakHorizon && streakCount == i
      invariant Streak(logs, today, StreakHorizon) == i + Streak(logs, today - i, StreakHorizon - i)
    {
      var checkDay := today - i;
      if checkDay in byDay && |byDay[checkDay]| > 0 {
        streakCount := streakCount + 1;
      } else {
        break;
      }
      i := i + 1;
    }
  }

  /** The streak of a history: bucket it by day, then walk back from today. */
  method CurrentStreak(userMoods: seq<MoodLog>, today: int) returns (streakCount: nat)
    ensures streakCount == Streak(userMoods, today, StreakHorizon)
  {
    var moodsByDate := GroupByDay(userMoods);
    streakCount := ComputeStreak(moodsByDate, today, userMoods);
  }

  // ---- Badges ----

  /**
   * The badge list after a recomputation with streak `streak`: each
   * threshold badge is appended when its threshold is reached and it is not
   * already held; nothing is removed or reordered.
   */
  function AwardBadges(badges: seq<string>, streak: nat): (r: seq<string>)
    ensures badges <= r && |r| <= |badges| + 2
    ensures forall b :: b in r ==> b in badges || b == SevenDayBadge || b == ThirtyDayBadge
    ensures SevenDayBadge in r <==> SevenDayBadge in badges || streak >= 7
    ensures ThirtyDayBadge in r <==> ThirtyDayBadge in badges || streak >= 30
    ensures Distinct(badges) ==> Distinct(r)
  {
    assert SevenDayBadge != ThirtyDayBadge by { assert SevenDayBadge[0] != ThirtyDayBadge[0]; }
    var withSeven := if streak >= 7 && SevenDayBadge !in badges then badges + [SevenDayBadge] else badges;
    if streak >= 30 && ThirtyDayBadge !in withSeven then withSeven + [ThirtyDayBadge] else withSeven
  }

  /** A badge once held is kept by every later recomputation, whatever the later streak. */
  lemma {:induction false} BadgesNeverRevoked(badges: seq<string>, streaks: seq<nat>, b: string)
    requires b in badges
    ensures b in AwardAll(badges, streaks)
    decreases |streaks|
  {
    if streaks != [] {
      BadgesNeverRevoked(AwardBadges(badges, streaks[0]), streaks[1..], b);
    }
  }

  /** The badge list after recomputations with each of `streaks` in turn. */
  function AwardAll(badges: seq<string>, streaks: seq<nat>): seq<string>
    decreases |streaks|
  {
    if streaks == [] then badges else AwardAll(AwardBadges(badges, streaks[0]), streaks[1..])
  }

  // ---- The gamification record and the store ----

  /** A gamification document: one per student. */
  datatype GamRecord = GamRecord(student: ObjectId, points: int, streakCount: nat, lastCheckInDate: int, badges: seq<string>)

  /** The reply to a logged mood: the stored log and the student's record. */
  datatype LoggedMood = LoggedMood(log: MoodLog, gamification: GamRecord)

  /** The stats reply: the record's numbers (0 or none without a record) and the daily series. */
  datatype Stats = Stats(points: int, streakCount: nat, lastCheckInDate: Option<int>, history7d: seq<DayMood>)

  /** One entry of the seven-day series: a day and its rounded mean mood (0: no log). */
  datatype DayMood = DayMood(day: int, mood: int)

  /** A student's logs: what `MoodLog.find({ student })` returns, whatever its sort order. */
  function History(logs: seq<MoodLog>, student: ObjectId): (h: seq<MoodLog>)
    ensures forall l :: l in h <==> l in logs && l.student == student
    ensures forall l :: multiset(h)[l] == if l.student == student then multiset(logs)[l] else 0
  {
    FilterCounts(logs, (l: MoodLog) => l.student == student);
    Filter(logs, (l: MoodLog) => l.student == student)
  }

  // ---- The seven-day series ----

  /** The mood scale of the series: Happy 3, Neutral and Okay 2, Sad 1, any other label 2. */
  function MoodToNum(m: MoodLabel): (v: int)
    ensures 1 <= v <= 3
    ensures v == 3 <==> m == Happy
    ensures v == 1 <==> m == Sad
  {
    if m == Happy then 3 else if m == Neutral || m == Okay then 2 else if m == Sad then 1 else 2
  }

  /** The mood values of the logs that fall on `day`, in order: `MoodToNum` of each log of the day's bucket. */
  function MoodValuesOn(logs: seq<MoodLog>, day: int): (r: seq<int>)
    ensures forall v :: v in r ==> 1 <= v <= 3
    ensures r == [] <==> !LoggedOn(logs, day)
    ensures |r| == |LogsOn(logs, day)|
    ensures forall k :: 0 <= k < |r| ==> r[k] == MoodToNum(LogsOn(logs, day)[k].mood)
  {
    if logs == [] then []
    else
      var init, last := logs[..|logs| - 1], logs[|logs| - 1];
      assert logs == init + [last];
      LoggedOnSnoc(init, last, day);
      MoodValuesOn(init, day) + (if DayKey(last.createdAt) == day then [MoodToNum(last.mood)] else [])
  }

  function Sum(vals: seq<int>): int {
    if vals == [] then 0 else Sum(vals[..|vals| - 1]) + vals[|vals| - 1]
  }

  lemma {:induction false} SumBounds(vals: seq<int>)
    requires forall v :: v in vals ==> 1 <= v <= 3
    ensures |vals| <= Sum(vals) <= 3 * |vals|
  {
    if vals != [] {
      var init := vals[..|vals| - 1];
      assert forall v :: v in init ==> v in vals;
      assert vals[|vals| - 1] in vals;
      SumBounds(init);
    }
  }

  /**
   * `sum / n` rounded to the nearest integer, halves upward (what
   * `Number(avg.toFixed(0))` gives for a positive mean).
   */
  function RoundedMean(sum: int, n: nat): (r: int)
    requires n > 0
    ensures n * (2 * r - 1) <= 2 * sum < n * (2 * r + 1)
  {
    (2 * sum + n) / (2 * n)
  }

  /** A day's series value: 0 without logs, otherwise the rounded mean, which lies in 1..3. */
  function DailyMood(vals: seq<int>): (r: int)
    ensures vals == [] ==> r == 0
    ensures vals != [] ==> |vals| * (2 * r - 1) <= 2 * Sum(vals) < |vals| * (2 * r + 1)
    ensures vals != [] && (forall v :: v in vals ==> 1 <= v <= 3) ==> 1 <= r <= 3
  {
    if vals == [] then 0
    else
      var r := RoundedMean(Sum(vals), |vals|);
      if forall v :: v in vals ==> 1 <= v <= 3 then
        SumBounds(vals);
        MeanInRange(Sum(vals), |vals|, r);
        r
      else r
  }

  /** A rounded mean of values in 1..3 lies in 1..3. */
  lemma MeanInRange(sum: int, n: nat, r: int)
    requires n > 0
    requires n * (2 * r - 1) <= 2 * sum < n * (2 * r + 1)
    ensures n <= sum <= 3 * n ==> 1 <= r <= 3
  {
    assert n * (2 * r + 1) == 2 * (n * r) + n;
    assert n * (2 * r - 1) == 2 * (n * r) - n;
  }

  /**
   * Bucket the mood values of the logs by calendar day: a day is a key iff
   * some log falls on it, and its bucket holds that day's values in order.
   */
  method GroupMoodValues(recent: seq<MoodLog>) returns (byDay: map<int, seq<int>>)
    ensures forall d :: d in byDay <==> LoggedOn(recent, d)
    ensures forall d :: d in byDay ==> byDay[d] == MoodValuesOn(recent, d)
  {
    byDay := map[];
    for j := 0 to |recent|
      invariant forall d :: d in byDay <==> MoodValuesOn(recent[..j], d) != []
      invariant forall d :: d in byDay ==> byDay[d] == MoodValuesOn(recent[..j], d)
    {
      assert recent[..j + 1][..j] == recent[..j];
      var k := DayKey(recent[j].createdAt);
      var arr := if k in byDay then byDay[k] else [];
      arr := arr + [MoodToNum(recent[j].mood)];
      byDay := byDay[k := arr];
    }
    assert recent[..|recent|] == recent;
  }

  /**
   * Build the seven-day series from the logs of the stats window: one entry
   * per day from six days ago to today, oldest first.
   */
  method BuildSeries(recent: seq<MoodLog>, now: int) returns (series: seq<DayMood>)
    ensures |series| == 7
    ensures forall i :: 0 <= i < 7 ==> series[i].day == DayKey(now) - 6 + i
    ensures forall i :: 0 <= i < 7 ==> series[i].mood == DailyMood(MoodValuesOn(recent, DayKey(now) - 6 + i))
  {
    var start := now - 6 * MsPerDay;
    var byDay := GroupMoodValues(recent);
    series := [];
    for i := 0 to 7
      invariant |series| == i
      invariant forall n :: 0 <= n < i ==> series[n].day == DayKey(now) - 6 + n
      invariant forall n :: 0 <= n < i ==> series[n].mood == DailyMood(MoodValuesOn(recent, DayKey(now) - 6 + n))
    {
      DayKeyShift(start, i);
      DayKeyShift(now, -6);
      var k := DayKey(start + i * MsPerDay);
      assert k == DayKey(now) - 6 + i;
      var arr := if k in byDay then byDay[k] else [];
      var avg := if |arr| > 0 then RoundedMean(Sum(arr), |arr|) else 0;
      series := series + [DayMood(k, avg)];
    }
  }

  /** The stats query: the student's logs from six days before `now` up to `now` inclusive. */
  function RecentLogs(logs: seq<MoodLog>, student: ObjectId, now: int): (r: seq<MoodLog>)
    ensures forall l :: l in r <==> l in logs && l.student == student && now - 6 * MsPerDay <= l.createdAt <= now
    ensures forall l :: multiset(r)[l] ==
                        (if l.student == student && now - 6 * MsPerDay <= l.createdAt <= now then multiset(logs)[l] else 0)
  {
    FilterCounts(logs, (l: MoodLog) => l.student == student && now - 6 * MsPerDay <= l.createdAt <= now);
    Filter(logs, (l: MoodLog) => l.student == student && now - 6 * MsPerDay <= l.createdAt <= now)
  }

  /**
   * The record `createMood` stores, given the student's record before the
   * call (None: no record), the number of logs in their history and the
   * streak. A first record gets 10 points and no badges, whatever the
   * history; an existing one is recomputed from the history and may gain
   * badges. Either way the streak and the check-in day are today's.
   */
  function NextRecord(prev: Option<GamRecord>, student: ObjectId, totalMoods: nat, streak: nat, today: int)
    : (g: GamRecord)
    ensures g.streakCount == streak && g.lastCheckInDate == today
    ensures prev.None? ==> g.student == student && g.points == 10 && g.badges == []
    ensures prev.Some? ==> && g.student == prev.value.student
                           && g.points == totalMoods * 10 + streak * 5
                           && g.badges == AwardBadges(prev.value.badges, streak)
  {
    match prev
    case None => GamRecord(student, 10, streak, today, [])
    case Some(gam) =>
      gam.(points := totalMoods * 10 + streak * 5, streakCount := streak,
           lastCheckInDate := today, badges := AwardBadges(gam.badges, streak))
  }

  /**
   * Recomputing an existing record ignores the points it replaces: points
   * spent on vouchers since the last mood log are given back by the next one.
   */
  lemma RecomputationIgnoresSpending(prev: GamRecord, spent: int, student: ObjectId, totalMoods: nat, streak: nat, today: int)
    ensures NextRecord(Some(prev.(points := prev.points - spent)), student, totalMoods, streak, today)
         == NextRecord(Some(prev), student, totalMoods, streak, today)
  {
  }

  /**
   * The gamification collection: one record per student. Mood logging
   * recomputes a record and voucher redemption spends its points, so both
   * stores hold the same collection.
   */
  class GamificationStore {
    var records: map<ObjectId, GamRecord>

    constructor ()
      ensures records == map[]
    {
      records := map[];
    }
  }

  /** The mood-log collection and the gamification collection it updates. */
  class MoodStore {
    var logs: seq<MoodLog>
    const gamification: GamificationStore

    constructor (gamification: GamificationStore)
      ensures logs == [] && this.gamification == gamification
    {
      logs := [];
      this.gamification := gamification;
    }

    /**
     * Log a mood for `student` at time `now` (`score` and `source` as the
     * request gives them, `source` "" when absent), then recompute the
     * student's gamification record from the full history, which already
     * holds the new log.
     */
    method CreateMood(student: ObjectId, mood: string, score: Option<real>, source: string, now: int)
      returns (r: Result<LoggedMood, Failure>)
      modifies this, gamification
      ensures mood == "" ==> r == Err(BadRequest("mood required")) && unchanged(this, gamification)
      ensures mood != "" && NewLog(student, mood, score, source, now).Err? ==>
        r == Err(ServerError) && unchanged(this, gamification)
      ensures NewLog(student, mood, score, source, now).Ok? ==>
        logs == old(logs) + [NewLog(student, mood, score, source, now).value]
      ensures NewLog(student, mood, score, source, now).Ok? ==>
        var history := History(logs, student);
        var prev := if student in old(gamification.records) then Some(old(gamification.records)[student]) else None;
        var streak := Streak(history, DayKey(now), StreakHorizon);
        && streak >= 1
        && gamification.records == old(gamification.records)[student := NextRecord(prev, student, |history|, streak, DayKey(now))]
        && r == Ok(LoggedMood(logs[|logs| - 1], gamification.records[student]))
    {
      if mood == "" {
        return Err(BadRequest("mood required"));
      }
      var created := NewLog(student, mood, score, source, now);
      if created.Err? {
        return Err(ServerError);
      }
      var log := created.value;
      logs := logs + [log];

      var userMoods := History(logs, student);
      var today := DayKey(now);
      var streakCount := CurrentStreak(userMoods, today);
      LoggedOnMember(userMoods, log);

      var prev := if student in gamification.records then Some(gamification.records[student]) else None;
      var gam := NextRecord(prev, student, |userMoods|, streakCount, today);
      gamification.records := gamification.records[student := gam];
      r := Ok(LoggedMood(log, gam));
    }

    /** The stats reply for `student` at time `now`. */
    method GetStats(student: ObjectId, now: int) returns (stats: Stats)
      ensures var records := gamification.records;
        && stats.points == (if student in records then records[student].points else 0)
        && stats.streakCount == (if student in records then records[student].streakCount else 0)
        && stats.lastCheckInDate == (if student in records then Some(records[student].lastCheckInDate) else None)
      ensures |stats.history7d| == 7
      ensures forall i :: 0 <= i < 7 ==>
        var day := DayKey(now) - 6 + i;
        stats.history7d[i] == DayMood(day, DailyMood(MoodValuesOn(RecentLogs(logs, student, now), day)))
    {
      var series := BuildSeries(RecentLogs(logs, student, now), now);
      if student in gamification.records {
        var gam := gamification.records[student];
        stats := Stats(gam.points, gam.streakCount, Some(gam.lastCheckInDate), series);
      } else {
        stats := Stats(0, 0, None, series);
      }
    }
  }
}
