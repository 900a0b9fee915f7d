# Mental-health backend: a verified model of its business rules

This project models, in Dafny, the business logic of an Express/MongoDB
backend for a student mental-health app, and proves what each controller
promises. Seven controllers are covered:

- **Mood gamification** (`Mood`). Logging a mood stores the log and buckets
  the student's history by UTC calendar day. It then walks back from today
  to count the streak of consecutive logged days, at most 365. Finally it
  creates or recomputes the student's gamification record: points, streak,
  last check-in day and badges. The stats endpoint reports that record and
  a seven-day series of rounded daily mean moods.
- **Vouchers** (`Vouchers`). Listing shows the active, in-stock vouchers,
  cheapest first. Redemption is a guarded transaction over the voucher's
  stock and the student's points.
- **Forum** (`Forum`). Covers creating a post with its defaults, toggling a
  like, replying, and deleting a post as its author or an admin.
- **Appointments** (`Appointments`). Covers booking with a counsellor, the
  caller's own listing in date-then-time order, status updates, and
  cancellation. Updates and cancellation are open only to the two parties.
- **Counsellor directory** (`Counsellors`). Profiles get default values for
  missing fields. They are then grouped into four keyword categories plus
  General, which is their complement.
- **Admin dashboard** (`Admin`). Counts Happy, Sad and Neutral logs in four
  consecutive half-open weekly windows. Tallies counsellors per campus.
- **Crisis alerts** (`Alerts`). Covers raising an alert, the inbox order
  (unhandled first, then newest first), and marking an alert handled.

`Common` holds what the controllers share: results, the rejected-request
replies (400, 401, 403, 404, 500), callers and roles, the user document and
id lookup. `Seqs` holds the order-preserving filter behind every query, the
first-seen tally of a JavaScript `Map`, and the ordering a `.sort(...)` clause
promises. Sorting is an insertion sort proved sorted and a permutation of its
input.

Modelling conventions:

- Each collection the controllers change is a class holding a `seq` of
  records, or a `map` keyed by student for gamification records. Its methods
  state the whole new state and the reply. The mood store and the voucher
  shop hold the same gamification collection object.
- Fresh ids come from a `nextId` counter. A `Valid` invariant keeps every
  stored id below that counter.
- A timestamp is an integer number of milliseconds. A calendar day is the
  timestamp divided by 86 400 000, rounded down. This is the `YYYY-MM-DD`
  prefix of its ISO 8601 form.
- An absent string field is `""`, which is falsy like `undefined`. An
  absent array field is `None`; an empty array is present and truthy.
- Mongoose schema validation failures become `ServerError`, the 500 every
  controller's `catch` answers. These cover a mood, mood source or alert
  level outside its enum, a mood score outside 0..1, and an alert without a
  student.
- `Number(avg.toFixed(0))` of a positive mean is rounding half up. It is
  computed exactly as `(2*sum + n) / (2*n)`.

Behaviour modelled as the code has it:

- A student's first gamification record gets 10 points and no badges,
  whatever the history. Later records get `totalMoods*10 + streak*5`.
- The stats query window runs from exactly six days before `now` up to `now`.
  So the oldest day of the series only counts logs made later in that day
  than `now`'s time of day.
- Mood logging and voucher redemption share each student's gamification
  record. The next mood log recomputes its points from the history alone,
  so points spent on vouchers come back then
  (`Mood.RecomputationIgnoresSpending`).
- Mongoose hydrates an absent array field as an empty array, so the
  `|| default` on a counsellor's arrays rarely fires. Either way a
  counsellor with no specialization lands under General
  (`Counsellors.NoSpecializationIsGeneral`).

## Model

| member | source | states |
|---|---|---|
| `Mood.ParseMood` | models/MoodLog.js:6 | a label is accepted exactly when it is one of the five enum names, and it maps back to that name |
| `Mood.ParseSource` | models/MoodLog.js:8 | an absent source is `self`; a given one is accepted exactly when it is `self` or `camera`, and maps back to that name |
| `Mood.NewLog` | controllers/moodController.js:6-8 | the log is created exactly when the label is known, the score is absent or in 0..1, and the source is absent or known; any other request fails with 500. A created log carries the student, the label, the score, the source (`self` when absent) and `now` |
| `Mood.Streak` | controllers/moodController.js:29-39 | the streak is at most 365; every day of the run ending today has a log; unless the cap was reached, the day before the run has none (so no log today gives 0) |
| `Mood.StreakIsUnique` | controllers/moodController.js:29-39 | any count with those three properties is the streak: they define it |
| `Mood.StreakDependsOnlyOnLoggedDays` | controllers/moodController.js:16-39 | two histories with the same logged days have the same streak |
| `Mood.StreakIgnoresOrderAndRepeats` | controllers/moodController.js:11-23 | reordering the history, or repeating logs, leaves the streak unchanged |
| `Mood.LogsOn` | controllers/moodController.js:17-23 | a day's bucket holds only logs of that day and is non-empty exactly when some log falls on it |
| `Mood.LogsOnKeepsEveryLog` | controllers/moodController.js:17-23 | every log of the day is in its bucket exactly as often as in the history, and no other log is |
| `Mood.GroupByDay` | controllers/moodController.js:16-23 | after the loop a day is a key exactly when some log falls on it, and its bucket is that day's logs in order |
| `Mood.ComputeStreak` | controllers/moodController.js:26-39 | the backward walk with its `break`, over buckets that agree with the history, returns exactly the streak |
| `Mood.CurrentStreak` | controllers/moodController.js:15-39 | bucketing and then walking back yields the streak of the history |
| `Mood.AwardBadges` | controllers/moodController.js:62-68 | badges only grow, by at most the two streak badges; each streak badge is held afterwards iff it was held or its threshold (7, 30) is reached; no duplicates appear |
| `Mood.BadgesNeverRevoked` | controllers/moodController.js:62-68 | a badge once held survives any sequence of later recomputations |
| `Mood.History` | controllers/moodController.js:11-13 | the history holds exactly the student's logs, each as often as it is stored, so its length is the student's number of logs |
| `Mood.MoodToNum` | controllers/moodController.js:101 | values lie in 1..3; 3 exactly for Happy and 1 exactly for Sad |
| `Mood.MoodValuesOn` | controllers/moodController.js:103-108 | a day's values are the mood values of that day's logs, one each and in order; they lie in 1..3 and are empty iff nothing was logged that day |
| `Mood.RoundedMean` | controllers/moodController.js:115-117 | the result is the integer nearest to `sum / n`, halves rounded up |
| `Mood.DailyMood` | controllers/moodController.js:114-117 | a day without logs shows 0; a day with logs shows the mean of its values rounded to the nearest integer (halves up), which lies in 1..3 |
| `Mood.GroupMoodValues` | controllers/moodController.js:102-108 | after the loop a day is a key iff some log falls on it, and its array is that day's values in order |
| `Mood.BuildSeries` | controllers/moodController.js:109-118 | exactly 7 entries, oldest first, for today-6 .. today, each the daily mood of that day's logs |
| `Mood.RecentLogs` | controllers/moodController.js:95-98 | the stats query holds exactly the student's logs from six days before `now` up to `now`, each as often as it is stored |
| `Mood.NextRecord` | controllers/moodController.js:45-68 | a first record gets 10 points and no badges; an existing one keeps its student and gets `totalMoods*10 + streak*5` points and the awarded badges; both get the streak and today as check-in day |
| `Mood.RecomputationIgnoresSpending` | controllers/moodController.js:55-58 | recomputing a record gives the same result whatever points were spent from it before |
| `Mood.MoodStore.CreateMood` | controllers/moodController.js:4-78 | an empty mood gives 400 and a request `MoodLog.create` refuses gives 500, both without a change. Otherwise the log is appended and only the student's gamification record changes, to `NextRecord` of the old record, the history's length and the history's streak, which is at least 1 |
| `Mood.MoodStore.GetStats` | controllers/moodController.js:90-129 | the record's points, streak and check-in day, or 0/0/none without a record, and the seven-day series over the stats query |
| `Vouchers.ListVouchers` | controllers/voucherController.js:5-12 | exactly the active vouchers with stock above 0, as a permutation of that filter, in ascending cost |
| `Vouchers.RedeemGuard` | controllers/voucherController.js:17-21 | "Voucher unavailable" iff the voucher is missing, inactive or out of stock, and this is checked first. Then "Insufficient points" iff there is no record or too few points. Passing both leaves a non-negative balance |
| `Vouchers.VoucherShop.Redeem` | controllers/voucherController.js:14-39 | a refused redemption changes nothing. A successful one takes exactly the cost from the points of the student's gamification record (the one mood logging recomputes), changing nothing else in it and one unit from the voucher's stock, records a redemption with the voucher's code and the cost, and reports the non-negative remaining points |
| `Forum.NewPost` | controllers/forumController.js:18-36 | missing title or content gives 400. Otherwise: the category is the given one, or "General Discussion" when none is given; the post is anonymous unless exactly `false` was passed; tags are the given array or empty; there are no likes or replies |
| `Forum.Toggled` | controllers/forumController.js:45-47 | a present user's first occurrence is removed (the rest keeps its order); an absent user is appended at the end |
| `Forum.ToggleFlips` | controllers/forumController.js:45-47 | on a duplicate-free list a toggle flips the user's membership, changes the count by exactly one, and introduces no duplicate |
| `Forum.ToggleTwiceRestores` | controllers/forumController.js:45-47 | from a list without the user, two toggles give back the same list |
| `Forum.ForumBoard.CreatePost` | controllers/forumController.js:18-36 | stores the post `NewPost` builds under a fresh id, or nothing when it is refused |
| `Forum.ForumBoard.ToggleLike` | controllers/forumController.js:39-54 | 401 without a caller, then 404 for an unknown post, both without a change; otherwise only that post's likes are toggled |
| `Forum.ForumBoard.AddReply` | controllers/forumController.js:57-72 | 401 without a caller, 400 for empty text before the lookup, 404 for an unknown post; otherwise exactly one reply is appended to that post |
| `Forum.ForumBoard.Remove` | controllers/forumController.js:75-90 | 401, then 404; the post is removed iff it has no author, the caller wrote it, or the caller is an admin; otherwise 403 and no change |
| `Appointments.ParseStatus` | controllers/appointmentController.js:49-51 | a status is accepted exactly when it is scheduled, cancelled or completed |
| `Appointments.ScheduleLeIsTotalPreorder` | controllers/appointmentController.js:35 | the date-then-time order is total and transitive, so the listing's sort is well defined |
| `Appointments.MyAppointments` | controllers/appointmentController.js:31-43 | a counsellor sees exactly the appointments they give; anyone else sees exactly the ones they booked. The result is sorted by date, then time |
| `Appointments.AppointmentBook.Book` | controllers/appointmentController.js:4-29 | a missing counsellor id, date or time gives 400; a target that is not a counsellor gives 400; otherwise one scheduled appointment is appended under a fresh id |
| `Appointments.AppointmentBook.UpdateStatus` | controllers/appointmentController.js:45-71 | an invalid status gives 400 before any lookup; then 404; a non-party gets 403. A party sets any valid status whatever the current one, and nothing else changes |
| `Appointments.AppointmentBook.Delete` | controllers/appointmentController.js:73-90 | 404 for an unknown id; a non-party gets 403 and nothing changes; a party's appointment is removed |
| `Counsellors.Format` | controllers/counsellorController.js:8-20 | `id` and `_id` are both the record id; each missing field takes its fixed default and present fields are kept |
| `Counsellors.ListCounsellors` | controllers/counsellorController.js:3-39 | all counsellor records are formatted in order. Each named category holds exactly the profiles whose specialization contains one of its keywords. General holds exactly those in no named category, and every profile is in some category |
| `Counsellors.GeneralIsComplement` | controllers/counsellorController.js:24-28 | matching none of the nine keywords is the same as being in none of the four named categories |
| `Counsellors.CategoriesKeepOrder` | controllers/counsellorController.js:24-28 | every category lists its counsellors in the order of the full list |
| `Counsellors.DefaultSpecializationIsGeneral` | controllers/counsellorController.js:14-28 | "General Counseling" contains none of the nine keywords |
| `Counsellors.NoSpecializationIsGeneral` | controllers/counsellorController.js:14-28 | a counsellor without specializations (absent or empty) is listed under General only |
| `Admin.InWindowMembers` | controllers/adminController.js:27-31 | a window holds exactly the logs created at or after its start and strictly before its end |
| `Admin.CountMoods` | controllers/adminController.js:32-35 | the per-window loop counts exactly the Happy, Sad and Neutral logs of the window |
| `Admin.WeeklyTrends` | controllers/adminController.js:21-48 | exactly four entries labelled Week 1..Week 4, oldest first; entry k holds the Happy, Sad and Neutral counts of the half-open window from `4-k` to `3-k` weeks before now |
| `Admin.WindowSplit` | controllers/adminController.js:27-31 | counting over a half-open window split at any point is counting over its two parts |
| `Admin.WeeksCoverLast28Days` | controllers/adminController.js:26-31 | the four windows tile the last 28 days: summed over the weeks, each reported count is that mood's count over the whole period |
| `Admin.UncountedMoodsIgnored` | controllers/adminController.js:32-35 | adding an Okay or Angry log changes no weekly entry |
| `Common.CampusOf` | controllers/adminController.js:56 | a counsellor is reported under their own campus when one is set, and under "Main Campus" otherwise |
| `Seqs.TallyOfFirstSeen` | controllers/adminController.js:54-59 | tallying over the first-seen keys accounts for every element exactly once |
| `Admin.TallyCampuses` | controllers/adminController.js:54-58 | the map's keys are the campuses in first-seen order, and each count is that campus's number of counsellors |
| `Admin.CampusBreakdown` | controllers/adminController.js:50-65 | one entry per campus in first-seen order, each with its number of counsellors (positive); the counts sum to the number of counsellors |
| `Alerts.ParseLevel` | models/Alert.js:7 | a level is accepted exactly when it is info, warning or critical |
| `Alerts.NewAlert` | controllers/alertController.js:5-23 | a missing or whitespace-only message gives 400. No student, or an unknown level, fails validation with 500. Otherwise the alert is unhandled, for that student, at `now`, critical unless a level was given |
| `Alerts.Inbox` | controllers/alertController.js:26-41 | every alert is listed once; unhandled alerts come before handled ones, newest first within each group |
| `Alerts.SetHandled` | controllers/alertController.js:47-51 | only the alert with that id changes, and only its `handled` flag, which becomes true |
| `Alerts.SetHandledIdempotent` | controllers/alertController.js:47-51 | marking an alert handled twice gives the same collection as marking it once |
| `Alerts.AlertInbox.Create` | controllers/alertController.js:5-23 | stores the alert `NewAlert` builds under a fresh id, or nothing when it is refused |
| `Alerts.AlertInbox.MarkHandled` | controllers/alertController.js:44-61 | 404 for an unknown id. Otherwise the alert is handled, nothing else changes, and an already handled alert leaves the collection as it was |

## Left out

- Database access (queries, `save`, `create`, `deleteOne`, `populate`): each collection is a sequence or map of records, and a lookup by id is `FindIndex`. A malformed id, which makes Mongoose throw and the controller answer 500, is not modelled.
- HTTP plumbing (routes, server, serverless entry points, CORS): only the reply or the rejection status and message is kept.
- Authentication and password hashing (bcrypt), token signing (JWT), and the chat proxy to an external AI service: these are foreign libraries or network calls.
- The seeder, the smoke test, and the admin overview's document counts: they are fixtures and database counts with no logic of their own.
- `listMyMoods` (the student's latest 50 logs) and the public forum listing: they are a single query with a sort and no logic beyond it.
- Clocks: `now` is a parameter in milliseconds. Local-time `setDate` versus UTC day keys is not modelled. Days are exact 86 400 000 ms steps, so daylight-saving shifts are out.
- Mood.BuildSeries: the series labels each day by its day number, not by the locale's short weekday name. The source's mean is a floating-point average rounded by `toFixed(0)`; the model computes the same value with exact integer rounding.
- Mood.MoodStore.CreateMood: the non-atomic read-modify-write of the record is modelled sequentially. A `score` that is not a number, which Mongoose fails to cast, is not modelled; the score is a real number.
- Vouchers.VoucherShop.Redeem: the read-modify-write of points and stock is modelled as one sequential step; concurrent redemptions are not modelled.
- Alerts.AlertInbox.MarkHandled: the `createdAt`/`updatedAt` timestamps Mongoose maintains are not modelled, apart from `createdAt` on alerts. So marking a handled alert again leaves the modelled alert unchanged, although the stored document's `updatedAt` still moves.
- Seqs.SortBy: it orders by the sort clause but does not fix the order of ties, which the database leaves unspecified too.
- Alerts.IsBlank: white space is the ECMAScript set that `trim` removes. A non-string message, which makes `trim` throw, is not modelled.
- Forum.NewPost: a request field is a string or a tagged value (absent, boolean, string array, other). The `Array.isArray` test on tags does not check element types, and the model takes tags as strings.
