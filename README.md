# `/stats` popup of the Codex TUI, in Dafny

This project models the `/stats` feature of the Codex terminal UI. It has two parts.

- **The session statistics aggregator** (`SessionStats`). It holds:
  - a log of finished commands;
  - two path-to-count maps, for files modified and files accessed;
  - a per-turn token log and its turn counter;
  - two open/close timing intervals, for model wait and tool execution, with their running totals.

  It also has `format_duration`, which prints a duration as `"1h 1m"`, `"1m 30s"`, `"30s"` or `"500ms"`.
- **The stats popup** (`StatsView`). It builds a fixed list of lines once, from a snapshot of the aggregator. It moves a scroll cursor with the arrow keys and `k`/`j`, and closes on Esc or Enter. Each render pass computes how many list rows fit in its area and caches that number, and the key handling that follows uses the cached number.

Modules:

- `Common` (`common.dfy`): `Option`, `Min`, and `SatSub` (Rust's `saturating_sub`).
- `Decimal` (`decimal.dfy`): decimal text of natural numbers, and a reader for it.
- `Session` (`session.dfy`): the aggregator, a class whose methods change its fields in place. Around it are the pure reductions it uses, the top-files ranking and `FormatDuration`.
- `Scroll` (`scroll.dfy`): the scroll cursor shared by the bottom-pane popups. It is a `Copy` value in Rust, so here it is a datatype.
- `StatsPopup` (`stats_view.dfy`):
  - the display lines, as a datatype of line kinds;
  - `BuildStatsLines`;
  - the key and geometry vocabulary;
  - the `StatsView` class.

The clock is a parameter. Each aggregator query that reads `Instant::now()` takes the current instant `now`, and durations are natural numbers of nanoseconds. A snapshot of the popup is taken at one instant: the three timing lines all use the same `now`. The Rust code reads the clock once per line, which the model does not capture (see "Left out").

`build_stats_lines` is one Rust function that pushes lines onto a vector in order. Here each of its four sections is a method, and `PushStats`, `PushFiles` and `PushTurns` are its runs of pushes and its two `for` loops. Each method states its exact result as a pure layout function of its input: `WithCommandsSection`, `WithFilesSection`, `WithTurnsSection` and `WithTimingSection`. Those four compose into `Layout`, and `StatsLayout` is the layout of one snapshot.

`BuildStatsLines` is specified by `DescribesSnapshot`. The predicate says the lines are exactly `StatsLayout(stats, now, top)` for some top-3 list `top` of the accessed-files map; `top` is left open because the order among equal counts is. Lemmas about the layout then give:
- its length (`SnapshotShape`, `LayoutLength`);
- its first section and its last section (`SnapshotShape`, `SnapshotClosesWithTiming`);
- its section titles in order, its thirteen label/value lines, its file items and its turn items (`SnapshotProjections`, `LayoutProjections`).

## Model

| member | source | states |
|---|---|---|
| Session.CountSuccessful | codex-rs/tui/src/session_stats.rs:117-120 | at most the number of commands, and equal to it exactly when every command exited with 0 (`is_success`, line 26-28, is `exit_code == 0`) |
| Session.CountFailed | codex-rs/tui/src/session_stats.rs:122-125 | failed plus successful is the number of commands: each command is one or the other |
| Session.DurationsBoundedBySum | codex-rs/tui/src/session_stats.rs:135-138 | every recorded duration is at most the sum; the sum is 0 exactly when every duration is 0 (in particular for an empty log) |
| Session.TokenSumsSplit | codex-rs/tui/src/session_stats.rs:43-46 | summing per-turn totals (`total` is input + output) equals the input sum plus the output sum |
| Session.Increment | codex-rs/tui/src/session_stats.rs:144-152 | `entry(path).or_insert(0) += 1`: the path becomes a key, its count goes up by exactly 1 (from 0 when absent), every other path's count is unchanged, positive counts stay positive |
| Session.RecordSamePathRepeatedly | codex-rs/tui/src/session_stats.rs:150-162 | recording one path n > 0 times adds it once to the keys and raises its count by n; from an empty map there is one distinct path, with count n |
| Session.InsertByCount | codex-rs/tui/src/session_stats.rs:167 | inserting into a descending listing keeps it descending and adds exactly that entry |
| Session.SortByCountDescending | codex-rs/tui/src/session_stats.rs:167 | `sort_by(\|a, b\| b.1.cmp(&a.1))`: the result is in non-increasing count order and a permutation of the input |
| Session.CollectEntries | codex-rs/tui/src/session_stats.rs:166 | collecting the map's `(path, count)` pairs gives each key exactly once, with its count |
| Session.PermutedEntries | codex-rs/tui/src/session_stats.rs:166-167 | a permutation of a distinct listing of map entries is again one, over the same paths |
| Session.TruncatedListingIsTop | codex-rs/tui/src/session_stats.rs:167-169 | truncating a descending listing of the whole map to `limit` gives a top list: min(limit, \|map\|) distinct entries of the map, descending, and no left-out path has a larger count than a kept one |
| Session.TopListLeadsWithLargest | codex-rs/tui/src/session_stats.rs:165-170 | the first entry of a non-empty top list has a count no smaller than any path in the map |
| Session.TopFiles | codex-rs/tui/src/session_stats.rs:165-179 | collect, sort, truncate: the result is a top list of the map for `limit` |
| Session.CloseInterval | codex-rs/tui/src/session_stats.rs:240-256 | `marker.take()` plus `total += start.elapsed()`: the marker is cleared and the total never decreases. With no open interval the total is unchanged; otherwise it grows by `now - start` |
| Session.SecondCloseIsNoOp | codex-rs/tui/src/session_stats.rs:240-256 | a second close right after a close changes neither the total nor the marker |
| Session.Percentage | codex-rs/tui/src/session_stats.rs:274-289 | 0 when the whole is 0; otherwise non-negative and `r * whole == 100 * part` |
| Session.FractionOfWhole | codex-rs/tui/src/session_stats.rs:128-133 | for 0 ≤ part ≤ whole with whole > 0, part/whole lies in [0, 1], is 1 exactly when part == whole, and times whole gives part back |
| Session.Elapsed | codex-rs/tui/src/session_stats.rs:240-256 | `start.elapsed()` at `now`: `now - start` once the clock has passed `start`, 0 (saturating) before it, and never more than `now` |
| Session.SessionStats.constructor | codex-rs/tui/src/session_stats.rs:84-97 | empty logs and maps, turn 0, zero totals, no open interval, session started at `now` |
| Session.SessionStats.RecordCommand | codex-rs/tui/src/session_stats.rs:104-110 | appends one record; total goes up by 1, successful or failed (by exit code) by 1, command time by the duration |
| Session.SessionStats.TotalCommands | codex-rs/tui/src/session_stats.rs:112-115 | the number of commands is the successful ones plus the failed ones |
| Session.SessionStats.SuccessfulCommands | codex-rs/tui/src/session_stats.rs:117-120 | at most the number of commands |
| Session.SessionStats.FailedCommands | codex-rs/tui/src/session_stats.rs:122-125 | the commands that are not successful: failed plus successful is the number of commands |
| Session.SessionStats.SuccessRate | codex-rs/tui/src/session_stats.rs:127-133 | 100 for an empty log; within [0, 100]; 100 exactly when no command failed; otherwise `rate * total == 100 * successful` |
| Session.SessionStats.TotalCommandTime | codex-rs/tui/src/session_stats.rs:135-138 | no single command's duration exceeds the total, and the total is 0 exactly when every command took no time, so 0 for an empty log |
| Session.SessionStats.RecordFileModified | codex-rs/tui/src/session_stats.rs:144-147 | the modified map becomes `Increment(old, path)`; the accessed map and all other fields are untouched |
| Session.SessionStats.RecordFileAccessed | codex-rs/tui/src/session_stats.rs:149-152 | the accessed map becomes `Increment(old, path)`; the modified map and all other fields are untouched |
| Session.SessionStats.FilesModifiedCount | codex-rs/tui/src/session_stats.rs:154-157 | the number of distinct modified paths; 0 exactly when none was recorded |
| Session.SessionStats.FilesAccessedCount | codex-rs/tui/src/session_stats.rs:159-162 | the number of distinct accessed paths; 0 exactly when none was recorded |
| Session.SessionStats.TopAccessedFiles | codex-rs/tui/src/session_stats.rs:164-170 | a top list of the accessed map for `limit` |
| Session.SessionStats.TopModifiedFiles | codex-rs/tui/src/session_stats.rs:172-179 | a top list of the modified map for `limit` |
| Session.SessionStats.StartTurn | codex-rs/tui/src/session_stats.rs:185-188 | the turn counter goes up by exactly 1; turn tags stay no larger than the counter |
| Session.SessionStats.RecordTurnTokens | codex-rs/tui/src/session_stats.rs:190-200 | appends exactly one record tagged with the current turn, with the usage's four fields; the counter and earlier records are unchanged |
| Session.SessionStats.TotalInputTokens | codex-rs/tui/src/session_stats.rs:220-223 | 0 for an empty turn log; non-negative when every record's input count is |
| Session.SessionStats.TotalOutputTokens | codex-rs/tui/src/session_stats.rs:225-228 | 0 for an empty turn log; non-negative when every record's output count is |
| Session.SessionStats.TotalTokens | codex-rs/tui/src/session_stats.rs:212-228 | equals total input plus total output tokens, and 0 for an empty turn log |
| Session.SessionStats.StartModelRequest | codex-rs/tui/src/session_stats.rs:234-237 | opens the model-wait interval at `now` |
| Session.SessionStats.EndModelRequest | codex-rs/tui/src/session_stats.rs:239-244 | model wait total and marker become `CloseInterval` of the old ones at `now` |
| Session.SessionStats.StartToolExecution | codex-rs/tui/src/session_stats.rs:246-249 | opens the tool interval at `now` |
| Session.SessionStats.EndToolExecution | codex-rs/tui/src/session_stats.rs:251-256 | tool total and marker become `CloseInterval` of the old ones at `now` |
| Session.SessionStats.SessionDuration | codex-rs/tui/src/session_stats.rs:268-271 | `now - start` once the clock has passed the start, and never smaller at a later instant |
| Session.SessionStats.ModelWaitPercentage | codex-rs/tui/src/session_stats.rs:273-280 | 0 when the session duration is 0; otherwise `r * duration == 100 * model wait` |
| Session.SessionStats.ToolExecutionPercentage | codex-rs/tui/src/session_stats.rs:282-289 | 0 when the session duration is 0; otherwise `r * duration == 100 * tool time` |
| Session.HoursMinutesReadBack | codex-rs/tui/src/session_stats.rs:295-298 | `"{h}h {m}m"` parses back to hours h and minutes m |
| Session.MinutesSecondsReadBack | codex-rs/tui/src/session_stats.rs:299-302 | `"{m}m {s}s"` parses back to minutes m and seconds s |
| Session.SecondsReadBack | codex-rs/tui/src/session_stats.rs:303-304 | `"{s}s"` parses back to s seconds |
| Session.FormatDurationReadsBack | codex-rs/tui/src/session_stats.rs:293-309 | the text always parses back, and to a shape that describes the duration truthfully, with truncated fields. That is hours+minutes from 3600 s, minutes+seconds from 60 s, seconds from 1 s, milliseconds below |
| Session.FormatDurationExamples | codex-rs/tui/src/session_stats.rs:347-352 | 500 ms → "500ms", 30 s → "30s", 90 s → "1m 30s", 3661 s → "1h 1m" |
| Session.CommandTrackingExample | codex-rs/tui/src/session_stats.rs:315-326 | exits 0, 0, 1 give total 3, successful 2, failed 1, and a rate strictly between 66 and 67 |
| Session.FileTrackingExample | codex-rs/tui/src/session_stats.rs:329-344 | two accesses of one path and one of another give 2 accessed paths, 1 modified; the top-5 list has 2 entries, led by `("src/main.rs", 2)` |
| Decimal.NatToString | codex-rs/tui/src/session_stats.rs:293-309 | the `{}` text of a number: at least one digit, no leading zero, and its digits read back as the number |
| Decimal.LeadingDigits | codex-rs/tui/src/session_stats.rs:293-309 | the digits at the front of a string end where a non-digit begins |
| Decimal.ParseNatThenOfNatToString | codex-rs/tui/src/session_stats.rs:293-309 | a number followed by a unit suffix reads back as that number |
| Scroll.MoveUpWrap | codex-rs/tui/src/bottom_pane/stats_view.rs:78 | on a non-empty list the selection ends valid, and a valid selection i moves to (i + len - 1) mod len (0 wraps to the last line); an empty list is unchanged |
| Scroll.MoveDownWrap | codex-rs/tui/src/bottom_pane/stats_view.rs:88 | on a non-empty list the selection ends valid, and a valid selection i moves to (i + 1) mod len (the last line wraps to 0); an empty list is unchanged |
| Scroll.EnsureVisible | codex-rs/tui/src/bottom_pane/stats_view.rs:79-80 | selection unchanged; top within [0, len - rows]. With rows > 0 a valid selection is shown in the window, and an already visible, in-range window does not move |
| StatsPopup.TurnLinesFor | codex-rs/tui/src/bottom_pane/stats_view.rs:297-305 | one turn line per record, in record order |
| StatsPopup.RecentTurnLines | codex-rs/tui/src/bottom_pane/stats_view.rs:295-305 | `iter().rev().take(5).rev()`: min(5, n) turn lines, the i-th being the line of record n - min(5, n) + i (the last five, oldest first); all n of them when n ≤ 5 |
| StatsPopup.FileLinesFor | codex-rs/tui/src/bottom_pane/stats_view.rs:263-273 | one file item per top entry, the i-th showing the i-th entry's path and count |
| StatsPopup.LayoutLength | codex-rs/tui/src/bottom_pane/stats_view.rs:225-333 | with four, two, four and three counters the layout has 20 lines, plus 1 + the entries of the top list when it is non-empty, plus 1 + min(5, turn records) when there are any |
| StatsPopup.LayoutOpensWithCommands | codex-rs/tui/src/bottom_pane/stats_view.rs:228-247 | the first six lines are the whole Commands section: header, the four counters, blank |
| StatsPopup.LayoutProjections | codex-rs/tui/src/bottom_pane/stats_view.rs:225-333 | from label/value-only counters: the section titles are Commands, Files, Turns & Tokens, Timing in order; the label/value lines are the four counter runs in order; the file items are the top list; the turn lines are the last five records |
| StatsPopup.SnapshotShape | codex-rs/tui/src/bottom_pane/stats_view.rs:225-333 | a snapshot has `StatsLineCount` lines: 20, plus 1 + min(3, accessed paths) when any, plus 1 + min(5, turn records) when any. Its first six lines are the Commands section over the aggregator's command counters |
| StatsPopup.SnapshotClosesWithTiming | codex-rs/tui/src/bottom_pane/stats_view.rs:309-330 | a snapshot ends with the Timing header and the three duration lines at `now` |
| StatsPopup.SnapshotProjections | codex-rs/tui/src/bottom_pane/stats_view.rs:225-333 | a snapshot's titles are the four sections in order, its thirteen label/value lines show the aggregator queries they are named after, its file items are a top-3 list of the accessed map, and its turn lines are the last five records oldest first |
| StatsPopup.PushStats | codex-rs/tui/src/bottom_pane/stats_view.rs:230-246 | successive `stat_line` pushes: the result is the input lines followed by exactly those label/value lines |
| StatsPopup.PushFiles | codex-rs/tui/src/bottom_pane/stats_view.rs:263-273 | the file loop: the result is the input lines followed by one file item per top entry, in order |
| StatsPopup.PushTurns | codex-rs/tui/src/bottom_pane/stats_view.rs:297-305 | the turn loop: the result is the input lines followed by one turn line per visited record, in order |
| StatsPopup.PushCommandsSection | codex-rs/tui/src/bottom_pane/stats_view.rs:228-247 | the result is the input lines, then the "Commands" header, the four command counters (total, successful with rate, failed, exec time) and a blank line |
| StatsPopup.PushFilesSection | codex-rs/tui/src/bottom_pane/stats_view.rs:249-275 | returns a top-3 list of the accessed map. The result is the input lines, then the "Files" header, the modified and accessed counts, the "Top accessed" sub-header with one item per entry of that list when it is non-empty, and a blank line |
| StatsPopup.PushTurnsSection | codex-rs/tui/src/bottom_pane/stats_view.rs:277-307 | the result is the input lines, then the "Turns & Tokens" header, the four turn and token counters, the "Recent turns" sub-header with the last min(5, n) records oldest first when there are any, and a blank line |
| StatsPopup.PushTimingSection | codex-rs/tui/src/bottom_pane/stats_view.rs:309-330 | the result is the input lines, then the "Timing" header and the three duration lines at `now`: session duration, and model wait and tool time each with its percentage |
| StatsPopup.BuildStatsLines | codex-rs/tui/src/bottom_pane/stats_view.rs:225-333 | the lines are exactly the four sections in order (Commands, Files, Turns & Tokens, Timing), each as its push method builds it, with a top-3 list of the accessed map as the file items |
| StatsPopup.ContentInner | codex-rs/tui/src/bottom_pane/stats_view.rs:143-150 | one footer row off the bottom, then one row above and below and two columns either side; nothing left below 3 rows |
| StatsPopup.ListHeight | codex-rs/tui/src/bottom_pane/stats_view.rs:151-155 | at most the row cap and the line count; fits under the header and its gap (or is 0); and is the largest such count |
| StatsPopup.Window | codex-rs/tui/src/bottom_pane/stats_view.rs:166-172 | `skip(offset).take(rows)`: min(rows, len - offset) lines, the i-th being line offset + i |
| StatsPopup.ScrollOffset | codex-rs/tui/src/bottom_pane/stats_view.rs:159-165 | 0 when no row is shown; at most len - rows; with rows > 0 the selected line lies in the window |
| StatsPopup.MovedUp | codex-rs/tui/src/bottom_pane/stats_view.rs:73-81 | `move_up`: no change on an empty list; otherwise a valid selection, i moving to (i + len - 1) mod len, the window top at most len - rows, and the selection shown when rows > 0 |
| StatsPopup.MovedDown | codex-rs/tui/src/bottom_pane/stats_view.rs:83-91 | `move_down`: no change on an empty list; otherwise a valid selection, i moving to (i + 1) mod len, the window top at most len - rows, and the selection shown when rows > 0 |
| StatsPopup.UpDownCancel | codex-rs/tui/src/bottom_pane/stats_view.rs:73-91 | up then down, or down then up, returns to the same line |
| StatsPopup.DownMovesCycle | codex-rs/tui/src/bottom_pane/stats_view.rs:83-91 | n moves down from line i select line (i + n) mod len: the list is a cycle |
| StatsPopup.StatsView.constructor | codex-rs/tui/src/bottom_pane/stats_view.rs:43-59 | the lines are exactly the layout of the snapshot at `now` (`DescribesSnapshot`), the first line is selected with the window at the top, not complete, budget equal to the row cap |
| StatsPopup.StatsView.VisibleRowsForScroll | codex-rs/tui/src/bottom_pane/stats_view.rs:65-71 | at most the line count and the cached budget, equal to one of them, and 0 exactly when the list is empty or the budget is 0 |
| StatsPopup.StatsView.MoveUp | codex-rs/tui/src/bottom_pane/stats_view.rs:73-81 | the cursor becomes `MovedUp` of the old one with the scroll budget; the selection stays valid |
| StatsPopup.StatsView.MoveDown | codex-rs/tui/src/bottom_pane/stats_view.rs:83-91 | the cursor becomes `MovedDown` of the old one with the scroll budget; the selection stays valid |
| StatsPopup.StatsView.HandleKeyEvent | codex-rs/tui/src/bottom_pane/stats_view.rs:95-124 | Up (any modifiers) or bare `k` moves up; Down or bare `j` moves down; Esc or Enter completes the popup without moving. Any other key, including `k`/`j` with modifiers, changes nothing, and a complete popup stays complete |
| StatsPopup.StatsView.OnCtrlC | codex-rs/tui/src/bottom_pane/stats_view.rs:131-134 | marks the popup complete and reports `Handled` |
| StatsPopup.StatsView.Render | codex-rs/tui/src/bottom_pane/stats_view.rs:138-172 | never moves the committed cursor. On an empty area: nothing shown and the budget kept. Otherwise it caches `ListHeight` for the inner area (≤ lines, ≤ row cap), shows exactly that many lines from the scroll offset, and the selected line is among them |
| StatsPopup.StatsView.DesiredHeight | codex-rs/tui/src/bottom_pane/stats_view.rs:215-221 | rendering at this height shows min(row cap, lines) rows, and one row less shows fewer: it is the least height that shows the whole capped list. The height is never below header + 4 (gap, footer and padding), and is exactly that with no rows to show |

## Left out

- Drawing is not modelled: the `Buffer`, the `Block` style, the header widget's own drawing, the footer hint, and the per-line `Rect` placement in the draw loop. `Render` returns the lines it would draw.
- `ScrollState` (`scroll_state.rs`) is not part of this model. `MoveUpWrap`, `MoveDownWrap` and `EnsureVisible` are a reconstruction that meets the contracts the popup relies on: wrap-around moves and a minimal move that shows the selection. The real bodies may differ where those contracts are silent. The clause that a move with a non-empty list always leaves a selection below `len`, even from an out-of-range selection, belongs to this reconstruction only. The popup never relies on it, because `StatsView.Valid()` keeps the selection in range.
- `MAX_POPUP_ROWS` (`popup_consts.rs`) is not part of this model. Its value is the `maxPopupRows` parameter.
- The header's `desired_height` is not part of this model. It is the `headerHeight` function parameter.
- The clock is not read. `Instant::now()` and `elapsed()` become a `now` parameter, and elapsed time saturates at 0 as `Instant::elapsed` does.
- Floating point is not modelled: percentages are exact `real`s. `{:.1}` rounding and `as_secs_f64` are left out.
- `format_tokens_compact` (`status.rs`) is not part of this model. Token values are kept as numbers.
- Path display is not modelled: `file_name`/`to_string_lossy` are left out, and file items keep the full path.
- Integer widths are not modelled: u16 heights, u32 counts and turn numbers, i64 token sums and `Duration` arithmetic are unbounded. Their overflow is left out.
- The unused `command` text of a command record is not kept.
- Key decoding is reduced to a key code and a modifier set. The event's `kind` field is ignored, as the match ignores it.
- Session.SessionStats.TopAccessedFiles: the order among equal counts is left unspecified. Entries come from hash-map order and a stable sort, so the code fixes no order among ties (there is no secondary key such as the path).
- Session.CollectEntries: the hash-map iteration order is a nondeterministic choice of the next key.
- StatsPopup.StatsView.Render: `last_visible_rows` is a `Cell` written through `&self`. Here it is an ordinary field in the method's `modifies` clause.
- Paths are strings. Keys of the file maps compare as character sequences, while Rust's `PathBuf` compares by components, so `src//main.rs` and `src/./main.rs` are one key in the source (session_stats.rs:146, 151) and two keys here. Path normalisation is not modelled.
- StatsPopup.TimingStats: the three timing lines share one instant `now`. `build_stats_lines` reads the clock once for each line (stats_view.rs:313, 320, 328, through session_stats.rs:270, 275, 284), so in the source the session duration and the two percentages can be computed at slightly different instants.
- Session.CommandStat.IsSuccess, Session.TurnTokenUsage.Total and StatsPopup.StatsView.IsComplete (`is_complete`, stats_view.rs:127-129) carry no contract of their own, because each is one expression or a plain field read. `IsComplete`'s flag is set by `OnCtrlC` and `HandleKeyEvent`, whose contracts state it. Their meaning is stated by `CountSuccessful`/`CountFailed` and by `TokenSumsSplit`/`TotalTokens`.
- Session.FormatDuration carries no contract of its own. Its round trip is the lemma `FormatDurationReadsBack`, and its reference cases are `FormatDurationExamples`.
