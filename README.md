# Activity scoring backend — a Dafny model of its scoring pipeline

Wearable boards publish telemetry events. Each event says whether the wearer is standing, how
many steps they took since the last event, and whether they are outside. The backend turns
these events into hourly score entries per user. From those entries it builds a leaderboard of
"standings" for today and yesterday. This project models the two services that do that work
and proves what they guarantee:

- `EventHandleService.handleEvent` / `isJson` (`backend/services/eventHandleService.js`).
  - It resolves an event's board to a device and the device to its owner, discarding the event
    on any miss.
  - It then finds the owner's score entry for the current hour. If there is none, it creates
    one, which may carry the counters forward from the entry covering the previous hour.
  - Last, it adds the elapsed minutes, adds the steps, stamps `lastUpdate` and recomputes the
    score.
- `StadingsService.generateStandings` / `addScoreToStanding`
  (`backend/services/standingsService.js`).
  - For every user it folds today's and yesterday's entries into four dimensions: score,
    steps, standing minutes and outside minutes.
  - It is meant to ratchet the user's highscore and save the user when it rose. As written,
    the comparison at line 40 never fires (see "## Findings"); the model uses the corrected
    comparison.
  - It sorts the standings ascending by today's score.

Modules, by file:

| file | module | what it holds |
|---|---|---|
| `clock.dfy` | `Wrappers`, `Clock` | `Option`; millisecond time, local hours under a fixed offset, UTC days |
| `score_windows.dfy` | `ScoreWindows` | the score-entry record, the store lookups, window creation with carry-forward |
| `event_handling.dfy` | `EventHandling` | message resolution, rounding, the score formula, the store transition, the `EventHandleService` class |
| `standings.dfy` | `Standings` | dimensions, the per-entry fold, the day filters, the highscore ratchet, one user's standing |
| `standings_service.dfy` | `StandingsService` | the mutable `Standing` object, the in-place sort, the `StandingsService` class, the line-40 finding |

Units and representation:

- Time is an integer number of milliseconds since the epoch.
- The event side uses local time, namely UTC shifted by a fixed `offset`, which is a field of
  `EventHandleService`. The standings side uses UTC days of 86 400 000 ms.
- Minutes are kept in integer hundredths of a minute, because the source rounds them to two
  decimals. The score is therefore an exact integer ceiling.
- Each score entry stores `start`, `end`, `score`, `steps`, `standingMinutes`, `outsideMinutes`
  and `lastUpdate`.
- The entry store is a sequence in insertion order. `findOne` returns the first match in that
  order.
- The device and user lookups are two maps:
  - `deviceByBoard` maps a board id to a device;
  - `ownerByDevice` maps a device to the user that holds it.

The model follows the code in these details:

- There is no cap on the elapsed time an event adds.
- The score weights are 0.5 per step, 1 per standing minute and 1 per outside minute.
- The hourly lists are plain append lists: no 24 slots, no forward-fill smoothing.
- A new window carries forward from the entry spanning the previous hour's start to this hour's
  start, not from the most recent entry of the same day.
- Hours are local (`Date` setters), while the standings use UTC days.
- A window created at 23:xx ends at 00:00 of the same date.

## Model

| member | source | states |
|---|---|---|
| `Clock.LocalHour` | backend/services/eventHandleService.js:70 | the hour of day lies in 0..23 and `t` lies inside that hour of its local day |
| `Clock.HourBegin` | backend/services/eventHandleService.js:62-68 | minutes, seconds and milliseconds zeroed: `t` lies in `[r, r + 1 h)`, `r` is hour-aligned in local time, same day and same hour as `t` |
| `Clock.WindowEnd` | backend/services/eventHandleService.js:70-76 | before hour 23 the end is the next hour's start; at hour 23 it wraps to 00:00 of the same date, before the window's start |
| `Clock.PrevHourBegin` | backend/services/eventHandleService.js:78-85 | from hour 1 on, the start of the previous hour is exactly one hour before `HourBegin`, on the same local day |
| `Clock.UtcDayBegin` | backend/services/standingsService.js:28 | `startOf('day')` in UTC: a multiple of the day length no later than `t` and less than a day before it |
| `Clock.UtcDayEnd` | backend/services/standingsService.js:29 | `endOf('day')`: the last millisecond of the UTC day holding `t` |
| `ScoreWindows.FindOne` | backend/services/eventHandleService.js:54-58 | `findOne` with `start <= lo` and `end >= hi`: the index found matches and no earlier entry does; none is found iff no entry matches |
| `ScoreWindows.CarrySource` | backend/services/eventHandleService.js:78-92 | a source is found only from hour 1 on; it is the first entry in store order spanning from the previous hour's start to this hour's start (no earlier entry does); none iff hour 0 or no entry spans them |
| `ScoreWindows.NewWindow` | backend/services/eventHandleService.js:60-103 | the created entry belongs to the user, starts at the current local hour, ends per `WindowEnd`, and copies score, steps, both minute counters and `lastUpdate` from the carry source, or starts at zero with `lastUpdate = now` |
| `ScoreWindows.HourTwentyThreeWindowHoldsNoTime` | backend/services/eventHandleService.js:54-76 | a window created at hour 23 never satisfies the current-window lookup, for any time |
| `ScoreWindows.NewWindowHoldsNow` | backend/services/eventHandleService.js:54-76 | a window created before hour 23 holds the event time it was created for |
| `EventHandling.IsJson` | backend/services/eventHandleService.js:132-139 | `isJson`: true exactly when `JSON.parse` accepts the message, that is for a message that parses to an event |
| `EventHandling.NotJsonLeavesStoreUnchanged` | backend/services/eventHandleService.js:24-26 | a message `isJson` rejects is discarded as unparseable, and the store stays as it was |
| `EventHandling.Resolve` | backend/services/eventHandleService.js:24-48 | the event is discarded iff it is not JSON, its board is unknown or the device has no owner; otherwise it resolves to that owner and that event |
| `EventHandling.MsToHundredths` | backend/services/eventHandleService.js:109-116 | `toFixed(2)` on minutes: the result is the nearest hundredth of a minute (600 ms) to the input, with halves rounded away from zero |
| `EventHandling.Score` | backend/services/eventHandleService.js:124-125 | `ceil(steps * 0.5 + standing + outside)`: the least integer not below the weighted sum |
| `EventHandling.ApplyEvent` | backend/services/eventHandleService.js:108-125 | steps grow by exactly `stepsSinceLastUpdate`; each minute counter becomes the old counter plus the elapsed time, rounded by `MsToHundredths` (nearest hundredth, halves away from zero), iff its flag is set, and is unchanged otherwise; `lastUpdate = now`; the score is the ceiling of the new counters; window and user unchanged |
| `EventHandling.NextEntries` | backend/services/eventHandleService.js:23-130 | a discarded message leaves the store unchanged; the store grows by at most one entry, and stays the same length iff a window holds `now`; that window alone is updated, or else exactly the new window is appended, already updated |
| `EventHandling.EventHandleService.HandleEvent` | backend/services/eventHandleService.js:23-130 | always answers `{}`, and the store afterwards is `NextEntries` of the store before |
| `EventHandling.SameWindowGrowsStoreAtMostOnce` | backend/services/eventHandleService.js:54-105 | before hour 23, two events of one user in the same hour add at most one entry |
| `EventHandling.HourTwentyThreeAppendsPerEvent` | backend/services/eventHandleService.js:54-105 | at hour 23, with no stored window holding either time, two events of one user add two entries |
| `Standings.MaxOf` | backend/services/standingsService.js:71-72 | the repeated `Math.max`: no smaller than the start value or any value, and equal to one of them |
| `Standings.Dimension.Push` | backend/services/standingsService.js:71-73 | one dimension, one value: the selected day's list gets the value appended and its maximum becomes the larger of the old maximum and the value; the other day is unchanged |
| `Standings.AddScore` | backend/services/standingsService.js:70-86 | `addScoreToStanding` on a value: the user is kept and every dimension receives its own reading of the entry (score, steps, standing, outside) on the selected day |
| `Standings.AddScoreEffect` | backend/services/standingsService.js:70-86 | one call appends exactly the entry's reading to the selected day's list of each dimension and never lowers that day's maximum; the other day's maximum and list are unchanged |
| `Standings.FoldEntriesPerDimension` | backend/services/standingsService.js:38-56 | folding entries into a standing folds each dimension over that dimension's readings, in order, and keeps the user |
| `Standings.FoldDimEffect` | backend/services/standingsService.js:70-86 | folding values into one day sets its maximum to the max of the old maximum and the values, appends the values in order, and leaves the other day untouched |
| `Standings.Query` | backend/services/standingsService.js:31-35 | `find` with `start >= lo` and `end <= hi`: an entry is in the result iff it is in the store, belongs to the user and lies inside the bounds; the result is no longer than the store (the same query serves yesterday at lines 48-52) |
| `Standings.QueryAppend` | backend/services/standingsService.js:31-35 | the query is a filter: the result for a store `a + b` is the result for `a` followed by the result for `b`; with `QuerySingle` this fixes store order and keeps every duplicate |
| `Standings.QuerySingle` | backend/services/standingsService.js:31-35 | on a one-entry store the result is that entry iff it belongs to the user and lies inside the bounds, and empty otherwise |
| `Standings.TodayEntries` | backend/services/standingsService.js:28-35 | today's entries are exactly the user's entries with `start` at or after today's UTC midnight and `end` at or before 23:59:59.999 of today |
| `Standings.YesterdayEntries` | backend/services/standingsService.js:46-52 | yesterday's entries are exactly the user's entries with `start` at or after yesterday's UTC midnight and `end` at or before today's midnight |
| `Standings.Ratchet` | backend/services/standingsService.js:37-44 | the ratcheted highscore is never below the old one, and the changed flag is set iff it rose |
| `Standings.RatchetIsMaxOf` | backend/services/standingsService.js:37-44 | the ratcheted highscore is the max of the old highscore and today's scores |
| `Standings.StandingFor` | backend/services/standingsService.js:10-58 | the standing pushed for a user shows that user, with a highscore no lower than before (its dimensions are stated by `StandingForSpec`) |
| `Standings.StandingForSpec` | backend/services/standingsService.js:10-58 | each dimension's `today` and `yesterday` lists are the readings of that day's entries in store order; `current` and `lastDay` are the max of 0 and those lists and bound every element; the highscore never decreases |
| `Standings.HighscoreTracksCurrent` | backend/services/standingsService.js:37-44 | with a non-negative highscore, the new highscore is the larger of the old one and today's `score.current` |
| `StandingsService.Standing.constructor` | backend/services/standingsService.js:11-26 | all four dimensions start at `current = lastDay = 0` with empty lists, as separate values |
| `StandingsService.Standing.AddScoreToStanding` | backend/services/standingsService.js:70-86 | the in-place update leaves the standing equal to `AddScore` of the standing before |
| `StandingsService.SortByScore` | backend/services/standingsService.js:65 | the array ends sorted ascending by `score.current` and is a permutation of what it held |
| `StandingsService.BuildStanding` | backend/services/standingsService.js:11-56 | the two loops build exactly `StandingFor` of the user, and their running highscore and flag are those of the ratchet |
| `StandingsService.ExpectedAt` | backend/services/standingsService.js:10-58 | the `i`-th pushed standing is the standing of the `i`-th user |
| `StandingsService.RatchetedUsersAt` | backend/services/standingsService.js:37-44 | after the ratchet each user keeps its id and position, and its highscore never decreases: it is the max of the old one and today's scores |
| `StandingsService.BuildAll` | backend/services/standingsService.js:10-63 | the user loop pushes exactly the per-user standings in listing order, leaves every user ratcheted, and saves exactly the raised users in order |
| `StandingsService.RaisedUsersSpec` | backend/services/standingsService.js:60-62 | a user id is saved iff one of that user's scores of today exceeds its old highscore |
| `StandingsService.RaisedUsersAppend` | backend/services/standingsService.js:60-62 | the save log is a filter of the users: for users `a + b` it is the log for `a` followed by the log for `b` |
| `StandingsService.RaisedUsersSingle` | backend/services/standingsService.js:60-62 | one user is saved once if one of today's scores beats its highscore, and not at all otherwise; with `RaisedUsersAppend` this fixes the order of the saves and rules out duplicates beyond the users' own |
| `StandingsService.RatchetRaisedIff` | backend/services/standingsService.js:37-44 | the ratchet's changed flag is set iff some score of today beats the old highscore |
| `StandingsService.SavedOnlyWhenRaised` | backend/services/standingsService.js:60-62 | storing the user only when the flag is set leaves it equal to the ratcheted user either way |
| `StandingsService.StandingsService.GenerateStandings` | backend/services/standingsService.js:6-68 | one standing per user, a permutation of the per-user standings, sorted ascending by `score.current`; the user collection becomes the ratcheted users, and exactly the raised users are saved, in listing order |
| `StandingsService.RatchetAsWritten` | backend/services/standingsService.js:37-44 | the loop with line 40 as written: the highscore never decreases, and the changed flag is set only when it rose |
| `StandingsService.RatchetAsWrittenNeverFires` | backend/services/standingsService.js:40-43 | as written, the comparison at line 40 is never true: the highscore stays put and no user is saved |
| `StandingsService.RatchetAsWrittenMissesRaise` | backend/services/standingsService.js:40-43 | a user at highscore 0 with a score-10 entry today keeps 0 as written, while the ratchet gives 10 and saves the user |

## Left out

- MQTT subscription, the topic check and the WebSocket broadcast (eventHandleService.js lines 6-21) are transport I/O.
- `JSON.parse` is a library call, so a message is either text that does not parse or a parsed event. Valid JSON that lacks the event's fields is not modelled.
- The database is modelled as values: the score-entry store is a sequence, and the device and user collections are maps. Storage failures, timeouts and mongoose's schema casting are not modelled.
- The mongoose schemas in `backend/models` are not part of this model. They declare fewer fields than the services read and write, and `start`/`end` as strings. The record here holds the fields the services use, as numbers.
- Floating point is replaced by integer hundredths of a minute. The model reads the two-decimal value stored at lines 112 and 116 as a number, which is the evidently intended reading. As written, `toFixed(2)` returns a string and no schema field casts it back. The sum at line 124 would then join strings instead of adding: 10 steps, standing, no time elapsed gives `5 + "0.00" + 0`, that is `"50.000"`, whose ceiling is 50, not 5. That string behaviour is not modelled.
- `Date` and luxon clock reads become one `now` per call. The time zone is a fixed offset, so daylight-saving changes are not modelled.
- Several `new Date()` calls inside one `handleEvent` collapse into the single `now`.
- Concurrent events and read-modify-write races between overlapping `handleEvent` calls are not modelled. Each call is one atomic transition.
- `console.log` diagnostics and `copyObject` are left out. The JSON copy is modelled by dimensions being values.
- `StandingsService.SortByScore` is an insertion sort. It stands for `Array.prototype.sort` with the comparator `a.score.current - b.score.current`; the order among equal scores is not specified.
- The standings are returned as a sequence of value snapshots, not wrapped in the `{ standings: [...] }` object.
- Users are values in the service's `users` field. `user.save()` is recorded by appending the user's id to `saved`. The shared reference between a standing and its user object shows up as the ratcheted highscore in that standing.

## Findings

| source | as written | input that shows it | evidently intended | confidence | as-written member | corrected member |
|---|---|---|---|---|---|---|
| backend/services/standingsService.js:40-41 | `score.score.current > user.highscore` reads `current` on a number, giving `undefined`; the comparison is always false, so the highscore is never raised and the user is never saved | a user with highscore 0 and one entry today with score 10 | compare the entry's score `score.score` with the highscore and raise it to that score | high, not executed | `StandingsService.RatchetAsWrittenMissesRaise` | `Standings.RatchetIsMaxOf` |

The standings and the saved users are modelled with the corrected comparison: `Standings.Ratchet`, used by `StandingsService.StandingsService.GenerateStandings`. Under either reading the highscore never decreases.
