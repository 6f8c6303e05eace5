# osu! session tracker: a verified model of its core

The tracker reads a stream of game-state snapshots from osu! and turns them into play records.
A play opens on menu state 2 and is closed by one of three events: a results screen (state 7),
a return to the menus (states 0, 1, 5), or an in-place retry. A fourth way leaves no record. A
session still open when play ends in any other menu state is dropped silently when the next
state-2 snapshot opens a new one. Every record it builds passes a
noise filter before it joins the store: ghost quits, impossible hit rates and near-duplicates
of the last five records are dropped. The renderer shows the store in two paged tables. One
lists the plays and the other the per-beatmap statistics. It also formats durations as text.

The model has these files:

- `records.dfy` (`Records`): the play record, the noise filter of `savePlay`, and the
  `delete-play` filter.
- `session_machine.dfy` (`SessionMachine`): the state of `main.js` as one value (`Engine`).
  `handleStateChange`, `startNewSession` and `completeSession` are pure functions over it.
  `Step` is one snapshot.
- `session_properties.dfy` (`SessionProperties`): what the state machine promises, proved of
  `Step`.
- `tracker.dfy` (`Tracker`): the class `SessionTracker`. Its fields are the module-level
  variables of `main.js`, and its methods update them in place as the source does. Each
  method is proved to produce exactly the state the matching `SessionMachine` function
  describes.
- `formatting.dfy` (`Formatting`): `formatTime` and `formatTotalTime`, with lemmas that read
  the text back into the numbers it shows.
- `table_view.dfy` (`TableView`): the page arithmetic, the sort toggle, and the class `ViewState`
  with the page and sort click handlers.
- `stats_groups.dfy` (`StatsGroups`): the grouping fold of `renderStatsTable`. It has a loop
  method over a dictionary and a reference definition per key.
- `text.dfy` (`Text`): decimal rendering, `padStart`, `toUpperCase` and `includes`.
- `wrappers.dfy` (`Wrappers`): `Option`.

The model replaces a few inputs and library calls:

- The wall clock (`Date.now()`) is the parameter `now`.
- The random record id (`Date.now() + Math.random()`) is the parameter `id`.
- The results-screen timestamp arrives already parsed to milliseconds, or `None`.

## Model

| member | source | states |
|---|---|---|
| Records.SaveRecord | main.js:112-161 | An accepted record grows the store by exactly one and becomes its last element, with every earlier record unchanged. A rejected record leaves the store as it was. |
| Records.Accepts | main.js:122-151 | A record is accepted exactly when it is not a Quit with score 0, it does not exceed 18 hits per second over more than one second, and none of the last five stored records has the same map id, score and mods within 2 s of duration. |
| Records.GhostQuitNeverStored | main.js:122-125 | A Quit with score 0 never changes the store. |
| Records.ShortSessionsPassSpeedCheck | main.js:130-136 | A record of at most one second always passes the speed check. |
| Records.SpeedIsHitRate | main.js:130-132 | The integer test `hits > 18 * duration` is equivalent to the hit rate `hits / duration > 18`. |
| Records.FortyHitsPerSecondRejected | main.js:130-136 | 200 hits in 5 seconds is rejected whatever the status. |
| Records.Recent | main.js:141 | `slice(-5)` holds the last min(5, n) records of the store. |
| Records.HasDuplicate | main.js:141-146 | The `some` test is true exactly when some recent record has the same map id, score and mods and a duration less than 2 s away. |
| Records.DuplicateWindowOnly | main.js:141-151 | The duplicate check looks exactly at the last five positions of the store and nowhere else. |
| Records.NearDuplicateRejected | main.js:141-151 | A record matching the newest stored record is dropped. |
| Records.ResubmissionStoredOnce | main.js:112-161 | Offering the same record twice in a row stores it at most once: savePlay is idempotent. |
| Records.WithoutId | main.js:102-110 | The filter keeps exactly the records whose id differs and never grows the store. It is the identity when no id matches and shortens the store when one does. |
| Records.WithoutIdSingle | main.js:105 | Filtering one record keeps it exactly when its id differs from the deleted id. |
| Records.WithoutIdAppend | main.js:105 | Filtering a concatenation is the concatenation of the filtered parts. With WithoutIdSingle this fixes the result: the kept records stay in their stored order, each as often as it was stored. |
| SessionMachine.Initial | main.js:15-29 | Start-up has no session, last menu state 0 and the stored records. |
| SessionMachine.Round | main.js:395-397 | Math.round gives the integer nearest to x, with halves going up. |
| SessionMachine.DurationSeconds | main.js:376-379 | The duration is floor(time / 1000) seconds. When that is not positive, it is the elapsed wall-clock seconds since the session opened. |
| SessionMachine.CompleteWith | main.js:340-402 | Every path leaves no session open. The store gains at most one record, and only one the filter accepts. A replay or a missing session adds nothing. The counters, the fail flag and the last menu state are untouched. |
| SessionMachine.StartSession | main.js:317-338 | The new state has a fresh non-replay session on the beatmap and mods, zero best combo, previous combo and slider breaks, zeroed live statistics and a cleared fail flag. The store, the last menu state and the save time are kept. |
| SessionMachine.Save | main.js:112-155 | The store becomes `SaveRecord` of the record. An accepted record is appended and moves the last save time to now, with every other field kept. A dropped record changes nothing. |
| SessionMachine.BuildRecord | main.js:347-398 | The record carries the session's start, beatmap and mods, the status, the session's best combo, the live slider breaks and the duration of `DurationSeconds`. A Pass takes score, accuracy and hits from the results snapshot and its grade ("?" when absent). Fail and Quit take them from the live statistics and are ranked F and -. |
| SessionMachine.LiveUpdate | main.js:261-288 | The best combo becomes the larger of the old best and the current combo. A combo drop from above 5 with no new miss adds exactly one slider break, and otherwise the count is kept. Mods are replaced by a non-empty mods text. The fail flag is set exactly when it was set or the mods lack NF at zero health with a positive score. The live statistics become exactly the snapshot's pp, accuracy, score, misses, 50/100/300 counts and unstable rate, the new slider-break count and the current time. The store is kept. |
| SessionMachine.PlayingStep | main.js:245-289 | A replay session leaves the state unchanged. A name mismatch marks the session as a replay. Only a retry can add a record, and at most one. A session stays open. |
| SessionMachine.LeavePlay | main.js:291-312 | A results or exit state right after play closes the session, and otherwise nothing changes. A stale results screen adds no record, and at most one record is added. |
| SessionMachine.Step | main.js:222-315 | A malformed snapshot changes nothing. Outside play the last menu state becomes the snapshot's state. In play a session is open whenever one was or a play starts. |
| SessionProperties.StepKeepsConsistent | main.js:222-315 | Each snapshot preserves the invariant: state 2 was last seen only with a session open, the counters are non-negative, and liveStats.sb mirrors sliderBreaks. |
| SessionProperties.MalformedIgnored | main.js:223 | A snapshot without menu, beatmap or gameplay changes nothing. |
| SessionProperties.StepAppendsAtMostOne | main.js:222-315 | Per snapshot the store keeps its prefix and grows by at most one record, which passed the filter. |
| SessionProperties.SliderBreaksStep | main.js:236-270 | Slider breaks restart at 0 when a session (re)opens. Otherwise they never fall, and they rise by exactly one only on a combo drop from above 5 with no new miss. |
| SessionProperties.InPlayUpdate | main.js:261-288 | A snapshot that continues a recorded play adds exactly one slider break on the combo-drop pattern and none otherwise. It sets the fail flag at zero health with a score and without NF. It raises the best combo to the larger of the old best and the current combo. It copies the snapshot's figures, including the 50/100/300 counts, into the live statistics, and it stores nothing. |
| SessionProperties.FirstInPlaySnapshot | main.js:236-288 | The first snapshot of a play that is not a replay opens a session on its beatmap and mods text. The best combo is max(0, combo), there are no slider breaks yet, and the fail flag comes from this snapshot alone. |
| SessionProperties.FailLatch | main.js:285-288 | Once set, the fail flag stays set until a session (re)opens. It is set only in play, without NF in the mods, at zero health and with a positive score. startNewSession clears the flag at main.js:337. |
| SessionProperties.ReplayNeverRecorded | main.js:341-345 | A replay session yields no record, and it stays a replay until it is closed or replaced. |
| SessionProperties.NameMismatchMarksReplay | main.js:231-248 | A player name that differs from the profile name marks the session as a replay and stores nothing. When the play starts on that snapshot, best combo and slider breaks are 0 and the fail flag is clear. |
| SessionProperties.QuickQuitLeavesNoRecord | main.js:122-125 | Entering play and leaving it before scoring leaves the store as it was. |
| SessionProperties.RetryClosesAndReopens | main.js:254-259 | An in-place retry offers the running attempt as Fail or Quit, then opens a fresh session with zeroed counters on the same snapshot. |
| SessionProperties.ResultsScreenCommitsPass | main.js:292-306 | A results screen after play closes the session and offers a Pass record to the noise filter: the store becomes `SaveRecord` of it, so a ghost, too-fast or duplicate record is still dropped. The record takes score, hits and grade ("?" when absent) from the snapshot and maxCombo from the session. The results figures are chosen at main.js:350-361. |
| SessionProperties.StaleResultsDiscarded | main.js:294-302 | A results timestamp more than 60 s before the session start closes the session with no record. |
| SessionProperties.ExitCommitsFailOrQuit | main.js:309-312 | Leaving play for state 0, 1 or 5 closes the session and offers a Fail (rank F, flag set) or Quit (rank -) record built from the live statistics to the noise filter: the store becomes `SaveRecord` of it. The record's score, accuracy, misses and 50/100/300 counts are the last in-play snapshot's, as chosen at main.js:362-374. |
| Tracker.SessionTracker.constructor | main.js:15-29 | The fields start in the state `Initial` describes and satisfy the invariant. |
| Tracker.SessionTracker.StartNewSession | main.js:317-338 | Opens a non-replay session and zeroes maxCombo, prevCombo, sliderBreaks, liveStats and hasFailed. The store and the last menu state are untouched. |
| Tracker.SessionTracker.SavePlay | main.js:112-161 | The early-return filter leaves the store equal to `SaveRecord` of the old store. |
| Tracker.SessionTracker.CompleteSession | main.js:340-402 | The new state is `CompleteWith` of the old one, so no session stays open. |
| Tracker.SessionTracker.WhilePlaying | main.js:245-289 | Block 2 of the handler matches `PlayingStep`, including the early returns for replay, name mismatch and retry. |
| Tracker.SessionTracker.UpdateLive | main.js:261-288 | The in-play update of best combo, mods, slider breaks, live statistics and the fail latch takes the state to `LiveUpdate` of the old one. |
| Tracker.SessionTracker.HandleStateChange | main.js:222-315 | One snapshot takes the fields to `Step` of the old state and keeps the invariant. |
| Tracker.SessionTracker.DeletePlay | main.js:102-110 | The store becomes `WithoutId` of the old store. Nothing else changes. |
| Text.NatToString | renderer.js:122 | The text is decimal digits only, one digit exactly below 10, and has no leading zero. |
| Text.IntToString | renderer.js:122 | A non-negative number prints as its digits, and a negative one as "-" followed by the digits of its magnitude. |
| Text.DigitsRoundTrip | renderer.js:122 | Reading the digits back gives the number. |
| Text.PadTwo | renderer.js:122 | `padStart(2, '0')` keeps the string as its suffix, puts only zeros in front and reaches length at least 2. |
| Text.ToUpper | main.js:228 | `toUpperCase` keeps the length and maps each character to its upper-case form. |
| Text.ContainsAt | main.js:285 | `includes` is true exactly when the needle occurs at some position. |
| Formatting.JsRem | renderer.js:121 | JavaScript `%` equals the mathematical remainder for a non-negative dividend. For a negative one it lies in (-b, 0]. In both cases a = trunc(a / b) * b + r, which fixes its value, and a - r is a multiple of b. |
| Formatting.FormatTime | renderer.js:118-123 | 0 gives "0s". Any other value gives a minutes:seconds text. |
| Formatting.FormatTimeReadsBack | renderer.js:118-123 | For s > 0 the text is m, ":" and two digits s' with s' < 60 and 60 m + s' = s. |
| Formatting.FormatTotalTime | renderer.js:125-132 | From 3600 s on it prints "h m", from 60 s on "m s", and below that "s". A negative total prints its truncated remainder in seconds. |
| Formatting.FormatTotalTimeReadsBack | renderer.js:125-132 | The numbers shown read back as whole hours and leftover minutes, or whole minutes and leftover seconds, and account for the total. |
| TableView.TotalPages | renderer.js:159 | There is at least one page, exactly one for no rows, and otherwise ceil(n/50): the fewest pages of 50 that hold every row. The stats table repeats this at renderer.js:248. |
| TableView.ClampPage | renderer.js:160-161 | The page is pulled into [1, totalPages] and kept when already there. The stats table repeats this at renderer.js:249-250. |
| TableView.PageSlice | renderer.js:163-165 | At most 50 rows, starting at index (page-1)*50 and in order. The slice is empty past the end. The stats table repeats this at renderer.js:252-254. |
| TableView.PagesCoverRows | renderer.js:159-165 | Paging through every page shows each row exactly once, in order. |
| TableView.ClampedPageNotEmpty | renderer.js:159-165 | With at least one row, the clamped page is never empty. |
| TableView.PrevPage | renderer.js:74 | "Previous" steps back one page only above page 1, so the page never drops below 1. The stats button at renderer.js:82 does the same. |
| TableView.Toggle | renderer.js:96-97 | Clicking the sorted column flips the direction. Clicking another column sorts by it ascending. The stats table repeats this at renderer.js:100-101. |
| TableView.ToggleTwice | renderer.js:96-97 | Two clicks on the sorted column restore the order. On another column they leave it descending. |
| TableView.ViewState.constructor | renderer.js:5-12 | Both pages start at 1, with plays by startTime descending and stats by plays descending. |
| TableView.ViewState.OnUpdateData | renderer.js:22-33 | New data resets both pages to 1. |
| TableView.ViewState.OnSearch | renderer.js:108-116 | Typing a search resets the plays page to 1. |
| TableView.ViewState.PrevPlays | renderer.js:73-75 | The plays page becomes `PrevPage` of itself and stays at least 1. |
| TableView.ViewState.NextPlays | renderer.js:76-78 | The plays page goes up by one. |
| TableView.ViewState.PrevStats | renderer.js:81-83 | The stats page becomes `PrevPage` of itself and stays at least 1. |
| TableView.ViewState.NextStats | renderer.js:84-86 | The stats page goes up by one. |
| TableView.ViewState.ClickHeader | renderer.js:89-106 | A header click toggles the clicked table's order and leaves the other table's. A header without a column does nothing. |
| TableView.ViewState.RenderPlaysPage | renderer.js:159-165 | Clamps the plays page into range and returns `PageSlice` of the filtered rows on it. |
| TableView.ViewState.RenderStatsPage | renderer.js:248-254 | Clamps the stats page into range and returns `PageSlice` of the grouped rows on it. |
| StatsGroups.GroupCounts | renderer.js:214-231 | A group exists only for a key some record has. Its plays count those records, its passes count the Pass records among them (never more than plays), and its totalSeconds is the sum of their durations. |
| StatsGroups.GroupMaxBounds | renderer.js:228-231 | A row's maxCombo, maxPP and maxAcc are at least 0 and at least the value of every record of the group. |
| StatsGroups.GroupMaxAttained | renderer.js:228-231 | Each of maxCombo, maxPP and maxAcc is 0 or the value of one record of the group. With the bounds, it is their maximum. |
| StatsGroups.PassRate | renderer.js:234-237 | The pass rate lies in [0, 100]. It is 100 exactly when every play passed and 0 exactly when none did. |
| StatsGroups.DistinctKeys | renderer.js:214-216 | The keys are pairwise distinct, and a key is listed exactly when some record has it. |
| StatsGroups.RowsFor | renderer.js:234 | One row per listed key, holding that key's group. |
| StatsGroups.GroupPlays | renderer.js:213-234 | The in-place dictionary fold yields exactly `GroupRows`: one row per distinct key, in first-seen order. |
| StatsGroups.RowsCountEveryRecordOnce | renderer.js:214-226 | The plays column sums to the number of records. |
| StatsGroups.RowsPassesWithinPlays | renderer.js:214-227 | Every row has at least one play and no more passes than plays. |
| StatsGroups.KeyOf | renderer.js:215 | The group key is the map id when it is non-zero, and otherwise artist, title and difficulty joined. |
| StatsGroups.NewGroup | renderer.js:216-223 | A new group starts with all counters and maxima at 0. Title, artist and difficulty fall back to "Unknown", "Unknown" and "?" when empty, and it takes the beatmap set id. |
| StatsGroups.AddPlay | renderer.js:225-231 | Adding a record increases plays by one and passes by one for a Pass, and adds its duration. Each maximum becomes the larger of the old maximum and the record's value. The labels are kept. |
| StatsGroups.Accumulate | renderer.js:214-232 | After the fold, a group that exists has between 1 and n plays, no more passes than plays, and maxima at least 0. |

## Left out

- The WebSocket connection and its reconnect timer (main.js:194-220) are network I/O and asynchronous timers. Each message is one call of `HandleStateChange`.
- The Electron window, single-instance lock, login items and IPC sends are left out as user-interface plumbing. So are spawning and killing the memory reader.
- Reading and writing the JSON store file is left out. The store is the in-memory field `plays`, loaded once by the constructor.
- Date.now(), Math.random() and the parsing of the results-screen date become the parameters `now`, `id` and `resultsPlayTime`. A date the source cannot parse (NaN, never stale) arrives as `None`.
- JavaScript numbers are modelled as mathematical integers and reals, with no floating-point rounding. Math.round is modelled as floor(x + 0.5). A record's id is an integer, although the source's id has a random fraction.
- Missing scalar fields that the source reads with `|| 0` or `|| ""` arrive already defaulted in the model's `Snapshot`.
- Snapshots on which the source throws are not modelled. The `Snapshot` datatype cannot express the missing objects. These are:
  - `menu.mods` (main.js:228);
  - `gameplay.combo`, `gameplay.hits`, `gameplay.pp` or `gameplay.hp` in play (main.js:261, 262, 272, 286);
  - `gameplay.pp` or `gameplay.hits` on a Pass snapshot (main.js:351, 354);
  - `bm.metadata` or `bm.stats` when a session opens (main.js:322-328);
  - `hits.grade` on a Pass.
- On such a snapshot, main.js:209 swallows the error. The state written before the throw stays, and `lastMenuState` is not updated (main.js:314). So with `gameplay.hp` absent, every in-play snapshot reopens a session. The model reads an empty grade as "?".
- An absent `gameplay.score` is not modelled. The source's retry test (main.js:254) compares it with `=== 0` without a default, so an absent score never signals a retry, while the model's defaulted 0 can.
- An absent `gameplay.hp.normal` is not modelled. The source tests it with `=== 0` (main.js:286) without a default, so the fail flag is never set when it is absent. The model's `hpNormal` is always present, and a defaulted 0.0 can set the flag.
- Pass records whose figures are absent are not modelled. The Pass path (main.js:350-360) copies score, accuracy, misses and hit counts without defaults, while the model's `Gameplay` always holds numbers.
- liveStats.grade (main.js:283) is written but never read in the core, so it is not modelled.
- The search filter and the two sort comparators of renderTable and renderStatsTable (renderer.js:142-157, 239-245) are not modelled. The page methods take the already filtered and sorted rows.
- DOM rendering, HTML templates, toLocaleString and toFixed are presentation only.
- Text.ToUpper: only ASCII letters are upper-cased. JavaScript's full Unicode case mapping is not modelled.
- StatsGroups.GroupPlays: the rows come in the order their keys are first met. Object.values lists integer-like keys first in ascending numeric order, and that only changes the order of rows that tie under the later sort.
- StatsGroups.KeyOf: a numeric map id and a concatenated name key are different keys in the model. In the source they collide when the name text equals the id's digits, because both become object property names. The source's dictionary is a plain object (renderer.js:214). A record with map id 0 whose artist, title and difficulty concatenate to an inherited property name ("constructor", "toString", "valueOf", "__proto__") finds that property already truthy. So it gets no group of its own, its counts are written onto the prototype chain, and `Object.values` never lists them. The model gives such a key a fresh row. For such input, RowsCountEveryRecordOnce and GroupCounts therefore describe the model's keyed dictionary, not the source's object.
- SessionMachine.Session is a value that the machine reassigns. The source mutates the one session object in place (isReplay, mods), and nothing else aliases that object.
