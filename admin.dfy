/**
 * The administrators' dashboard aggregations (controllers/adminController.js):
 * mood counts over the last four weeks, and counsellors per campus.
 */
module Admin {
  import opened Common
  import opened Seqs
  import M = Mood

  /** Seven days of milliseconds. */
  const MsPerWeek: int := 604_800_000

  // ---- Weekly trends ----

  /** One entry of the weekly trend: its label (`name`) and the Happy, Sad and Neutral counts. */
  datatype WeekCounts = WeekCounts(name: string, happy: nat, sad: nat, neutral: nat)

  /** `MoodLog.find({ createdAt: { $gte: start, $lt: end } })`: the logs of the half-open window. */
  function InWindow(logs: seq<M.MoodLog>, start: int, end: int): seq<M.MoodLog> {
    if logs == [] then []
    else
      var last := logs[|logs| - 1];
      InWindow(logs[..|logs| - 1], start, end) + (if start <= last.createdAt < end then [last] else [])
  }

  /** The window holds exactly the logs created at or after `start` and strictly before `end`. */
  lemma {:induction false} InWindowMembers(logs: seq<M.MoodLog>, start: int, end: int)
    ensures forall l :: l in InWindow(logs, start, end) <==> l in logs && start <= l.createdAt < end
  {
    if logs != [] {
      var init, last := logs[..|logs| - 1], logs[|logs| - 1];
      InWindowMembers(init, start, end);
      assert logs == init + [last];
    }
  }

  /** The number of logs with mood `m`. */
  function MoodCount(logs: seq<M.MoodLog>, m: M.MoodLabel): nat {
    if logs == [] then 0
    else
      var last := logs[|logs| - 1];
      MoodCount(logs[..|logs| - 1], m) + (if last.mood == m then 1 else 0)
  }

  /** "Week 1" .. "Week 4". */
  function WeekLabel(n: nat): string
    requires 1 <= n <= 4
  {
    "Week " + ["1234"[n - 1]]
  }

  /** The window of weekly offset `i`: from `i + 1` weeks before `now` up to, not including, `i` weeks before. */
  function WeekStart(now: int, i: int): int {
    now - (i + 1) * MsPerWeek
  }

  function WeekEnd(now: int, i: int): int {
    now - i * MsPerWeek
  }

  /** The mood count a week entry reports for `m`; the trend has no Okay or Angry column. */
  function Reported(w: WeekCounts, m: M.MoodLabel): nat {
    match m
    case Happy => w.happy
    case Sad => w.sad
    case Neutral => w.neutral
    case _ => 0
  }

  /**
   * Entry `k` (0 = oldest) of the trend: labelled `Week k+1`, over the
   * window of offset `3 - k`, counting each of Happy, Sad and Neutral.
   */
  function Week(logs: seq<M.MoodLog>, now: int, k: nat): WeekCounts
    requires k < 4
  {
    var window := InWindow(logs, WeekStart(now, 3 - k), WeekEnd(now, 3 - k));
    WeekCounts(WeekLabel(k + 1), MoodCount(window, M.Happy), MoodCount(window, M.Sad), MoodCount(window, M.Neutral))
  }

  /** `getWeeklyTrends`: four entries, oldest first, each counting its window's logs by mood. */
  method WeeklyTrends(logs: seq<M.MoodLog>, now: int) returns (weeks: seq<WeekCounts>)
    ensures |weeks| == 4
    ensures forall k :: 0 <= k < 4 ==> weeks[k] == Week(logs, now, k)
    ensures forall k :: 0 <= k < 4 ==> weeks[k].name == WeekLabel(k + 1)
  {
    weeks := [];
    var i := 3;
    while i >= 0
      invariant -1 <= i <= 3
      invariant |weeks| == 3 - i
      invariant forall k :: 0 <= k < |weeks| ==> weeks[k] == Week(logs, now, k)
    {
      var window := InWindow(logs, WeekStart(now, i), WeekEnd(now, i));
      var happy, sad, neutral := CountMoods(window);
      weeks := weeks + [WeekCounts(WeekLabel(4 - i), happy, sad, neutral)];
      i := i - 1;
    }
  }

  /** The `counts` object of one window: only its three keys are ever incremented. */
  method CountMoods(window: seq<M.MoodLog>) returns (happy: nat, sad: nat, neutral: nat)
    ensures happy == MoodCount(window, M.Happy)
    ensures sad == MoodCount(window, M.Sad)
    ensures neutral == MoodCount(window, M.Neutral)
  {
    happy, sad, neutral := 0, 0, 0;
    for j := 0 to |window|
      invariant happy == MoodCount(window[..j], M.Happy)
      invariant sad == MoodCount(window[..j], M.Sad)
      invariant neutral == MoodCount(window[..j], M.Neutral)
    {
      assert window[..j + 1][..j] == window[..j];
      match window[j].mood
      case Happy => happy := happy + 1;
      case Sad => sad := sad + 1;
      case Neutral => neutral := neutral + 1;
      case _ =>
    }
    assert window[..|window|] == window;
  }

  /** Counting over a window split at `mid` is counting over its two halves. */
  lemma {:induction false} WindowSplit(logs: seq<M.MoodLog>, start: int, mid: int, end: int, m: M.MoodLabel)
    requires start <= mid <= end
    ensures MoodCount(InWindow(logs, start, end), m)
         == MoodCount(InWindow(logs, start, mid), m) + MoodCount(InWindow(logs, mid, end), m)
  {
    if logs != [] {
      var init, last := logs[..|logs| - 1], logs[|logs| - 1];
      WindowSplit(init, start, mid, end, m);
      var whole, lo, hi := InWindow(init, start, end), InWindow(init, start, mid), InWindow(init, mid, end);
      var w := if start <= last.createdAt < end then [last] else [];
      var l := if start <= last.createdAt < mid then [last] else [];
      var h := if mid <= last.createdAt < end then [last] else [];
      CountAppend(whole, w, m);
      CountAppend(lo, l, m);
      CountAppend(hi, h, m);
    }
  }

  lemma {:induction false} CountAppend(a: seq<M.MoodLog>, b: seq<M.MoodLog>, m: M.MoodLabel)
    requires |b| <= 1
    ensures MoodCount(a + b, m) == MoodCount(a, m) + MoodCount(b, m)
  {
    if b != [] {
      assert (a + b)[..|a + b| - 1] == a;
      assert b[..0] == [];
    } else {
      assert a + b == a;
    }
  }

  /**
   * The four windows are contiguous and do not overlap: together the
   * weekly counts of a mood are its count over the last 28 days.
   */
  lemma WeeksCoverLast28Days(logs: seq<M.MoodLog>, now: int, m: M.MoodLabel)
    requires m == M.Happy || m == M.Sad || m == M.Neutral
    ensures Reported(Week(logs, now, 0), m) + Reported(Week(logs, now, 1), m)
          + Reported(Week(logs, now, 2), m) + Reported(Week(logs, now, 3), m)
         == MoodCount(InWindow(logs, now - 4 * MsPerWeek, now), m)
  {
    var w := MsPerWeek;
    assert WeekStart(now, 3) == now - 4 * w && WeekEnd(now, 0) == now;
    assert WeekEnd(now, 3) == WeekStart(now, 2);
    assert WeekEnd(now, 2) == WeekStart(now, 1);
    assert WeekEnd(now, 1) == WeekStart(now, 0);
    WindowSplit(logs, now - 4 * w, now - 3 * w, now, m);
    WindowSplit(logs, now - 3 * w, now - 2 * w, now, m);
    WindowSplit(logs, now - 2 * w, now - w, now, m);
  }

  /** An Okay or Angry log changes no entry of the trend. */
  lemma UncountedMoodsIgnored(logs: seq<M.MoodLog>, extra: M.MoodLog, now: int, k: nat)
    requires k < 4
    requires extra.mood == M.Okay || extra.mood == M.Angry
    ensures Week(logs + [extra], now, k) == Week(logs, now, k)
  {
    var start, end := WeekStart(now, 3 - k), WeekEnd(now, 3 - k);
    assert (logs + [extra])[..|logs|] == logs;
    var window := InWindow(logs, start, end);
    var added := if start <= extra.createdAt < end then [extra] else [];
    assert InWindow(logs + [extra], start, end) == window + added;
    CountAppend(window, added, M.Happy);
    CountAppend(window, added, M.Sad);
    CountAppend(window, added, M.Neutral);
  }

  // ---- Campus breakdown ----

  /** One entry of the breakdown: a campus and how many counsellors it has. */
  datatype CampusCount = CampusCount(campus: string, counsellors: nat)

  /** The campus each counsellor is reported under, in order. */
  function Campuses(counsellors: seq<User>): (cs: seq<string>)
    ensures |cs| == |counsellors|
    ensures forall i :: 0 <= i < |counsellors| ==> cs[i] == CampusOf(counsellors[i])
  {
    if counsellors == [] then []
    else Campuses(counsellors[..|counsellors| - 1]) + [CampusOf(counsellors[|counsellors| - 1])]
  }

  function Total(entries: seq<CampusCount>): nat {
    if entries == [] then 0 else Total(entries[..|entries| - 1]) + entries[|entries| - 1].counsellors
  }

  /** Summing entries that hold the tally of each key is the tally sum of the keys. */
  lemma {:induction false} TotalIsTallySum(entries: seq<CampusCount>, keys: seq<string>, cs: seq<string>)
    requires |entries| == |keys|
    requires forall i :: 0 <= i < |keys| ==> entries[i].counsellors == Count(cs, keys[i])
    ensures Total(entries) == TallySum(keys, cs)
  {
    if keys != [] {
      TotalIsTallySum(entries[..|entries| - 1], keys[..|keys| - 1], cs);
    }
  }

  /**
   * `getCampusBreakdown`: the counsellors of `users` tallied by campus
   * (a missing campus counts as Main Campus). Each campus appears once,
   * in the order it is first met, with its number of counsellors, and the
   * numbers add up to the number of counsellors.
   */
  method CampusBreakdown(users: seq<User>) returns (result: seq<CampusCount>)
    ensures var cs := Campuses(Filter(users, IsCounsellorRecord));
      && |result| == |FirstSeen(cs)|
      && forall i :: 0 <= i < |result| ==> result[i] == CampusCount(FirstSeen(cs)[i], Count(cs, FirstSeen(cs)[i]))
    ensures forall i :: 0 <= i < |result| ==> result[i].counsellors > 0
    ensures Total(result) == |Filter(users, IsCounsellorRecord)|
  {
    var counsellors := Filter(users, IsCounsellorRecord);
    var cs := Campuses(counsellors);
    var keys, counts := TallyCampuses(counsellors);
    result := Entries(keys, counts);
    forall i | 0 <= i < |result| ensures result[i].counsellors > 0 {
      assert keys[i] in keys;
    }
    TotalIsTallySum(result, keys, cs);
    TallyOfFirstSeen(cs);
  }

  /** `Array.from(map.entries())`: one entry per key, in key order. */
  function Entries(keys: seq<string>, counts: map<string, nat>): (r: seq<CampusCount>)
    requires forall c :: c in keys ==> c in counts
    ensures |r| == |keys|
    ensures forall i :: 0 <= i < |keys| ==> r[i] == CampusCount(keys[i], counts[keys[i]])
  {
    seq(|keys|, i requires 0 <= i < |keys| => CampusCount(keys[i], counts[keys[i]]))
  }

  /** The `Map` filled by `forEach`: its keys in insertion order, and the count of each. */
  method TallyCampuses(counsellors: seq<User>) returns (keys: seq<string>, counts: map<string, nat>)
    ensures keys == FirstSeen(Campuses(counsellors))
    ensures forall c :: c in counts <==> c in keys
    ensures forall c :: c in counts ==> counts[c] == Count(Campuses(counsellors), c)
  {
    keys, counts := [], map[];
    ghost var seen: seq<string> := [];
    for j := 0 to |counsellors|
      invariant seen == Campuses(counsellors[..j])
      invariant keys == FirstSeen(seen)
      invariant forall c :: c in counts <==> c in keys
      invariant forall c :: c in counts ==> counts[c] == Count(seen, c)
    {
      var campus := CampusOf(counsellors[j]);
      assert counsellors[..j + 1][..j] == counsellors[..j];
      FirstSeenAppend(seen, campus);
      var previous := if campus in counts then counts[campus] else 0;
      if campus !in counts {
        keys := keys + [campus];
      }
      ghost var countsBefore := counts;
      counts := counts[campus := previous + 1];
      forall c | c in counts ensures counts[c] == Count(seen + [campus], c) {
        CountSnoc(seen, campus, c);
        if c != campus {
          assert counts[c] == countsBefore[c];
        }
      }
      seen := seen + [campus];
    }
    assert counsellors[..|counsellors|] == counsellors;
  }
}
