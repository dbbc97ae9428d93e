# Chain watcher core, modelled in Dafny

The chain watcher is a desktop alarm for a game's faction "chain" timer. A poll loop
asks the game's API for the chain's end timestamp every few seconds. A timer loop
recomputes the seconds left once per second. It shows them as `T-: MM:SS` and drives a
single-voice music player. The alarm track plays at or below the alarm threshold. The
pre-alarm track plays at or below the pre-alarm threshold, but only if nothing else is
playing. Above both thresholds the player is stopped. An optional backup countdown is
seeded from the API's `timeout` field and counted down once per tick.

This project models one pass of each loop, the three player commands and the
start/stop buttons of `ChainWatcherApp` in `chainwatch.py`.

- `option.dfy` (module `Optional`): an `Option` type, used for a JSON field that may be missing.
- `clock.dfy` (module `Clock`): the pure parts. These are the clamp at zero, the zone
  classification, Python's `f"{n:02}"` padding and the two label texts. A reader for
  `MM:SS` is the reference partner of those texts: every text reads back as the number
  it was made from.
- `mixer.dfy` (module `Mixer`): the mixer's music channel as a class `MusicPlayer`. Its
  fields are `busy`, `track`, `looping` and `volume`. A ghost counter `starts` records how
  often playback was started from the top.
- `watcher.dfy` (module `Watcher`): the application object as a class `ChainWatcher`. Its
  fields are the ones the loops mutate. `Tick(now)` is one pass of the timer loop.
  `PollStep(result, now)` is one pass of the poll loop, with the HTTP answer given as a
  `PollResult` value. The wall clock `int(time.time())` is the parameter `now`.

The poll loop's local `api_failed` flag is the field `apiFailed`. `StartWatching` clears
it, because a freshly started poll loop begins with the flag clear.

The model follows the code as written, including where it departs from what one would expect of an
alarm or from its own comments (chainwatch.py:283, 323):

- The poll interval depends only on whether the previous attempt failed. `panic_mode` is
  computed but never read by the interval choice.
- With the backup timer on, an answer without `timeout` has already stored the new end
  time when the lookup raises. The attempt still counts as a failure, and `panic_mode`
  is left as it was.
- An alarm request reloads and restarts the alarm track on every tick of the alarm zone.
  In `Tick`, `player.starts` goes up by one each such tick. It is not idempotent.
- The default volume of an idle player is taken as 1.0. Every command that starts
  playback sets the volume first, so this value is never observed.

Client methods `CountdownScenario`, `FailureScenario`, `BackupScenario` and
`StopScenario` in `watcher.dfy` work through example sessions using only the contracts
above. In the first, a chain 125 seconds from its end shows `T-: 02:05` in the normal
zone. The pre-alarm starts once at 89 seconds left. The alarm takes over at 59 seconds
and restarts on each later tick. In the second, three failed polls keep the last good
end time and switch to the panic interval.

## Model

| member | source | states |
|---|---|---|
| `Clock.ClampZero` | chainwatch.py:336 | the result is at least the argument and is either 0 or the argument, i.e. `max(0, x)`; used for the remaining time (line 336) and the backup decrement (line 348) |
| `Clock.Classify` | chainwatch.py:355-363 | alarm exactly when remaining ≤ alarm threshold; pre-alarm exactly when alarm threshold < remaining ≤ pre-alarm threshold; normal exactly when remaining exceeds both; both boundaries inclusive and alarm wins when both hold |
| `Clock.ClassifyMonotone` | chainwatch.py:355-363 | a larger remaining time is never in a more urgent zone, for any thresholds |
| `Clock.MisorderedThresholds` | chainwatch.py:355-363 | when the pre-alarm threshold is not above the alarm threshold the pre-alarm zone never occurs |
| `Clock.CountdownEscalates` | chainwatch.py:336-363 | with a fixed end time, a later tick has no more remaining time and a zone at least as urgent |
| `Clock.Decimal` | chainwatch.py:343 | the decimal text of a number is non-empty, all digits, one digit long exactly for numbers below 10, and has no leading zero for a positive number |
| `Clock.PadTwo` | chainwatch.py:343 | `f"{n:02}"` is all digits, at least two long, exactly two long exactly when n < 100, and has no leading zero from 10 on |
| `Clock.DecimalRoundTrip` | chainwatch.py:343 | the decimal text reads back as the number |
| `Clock.PadTwoRoundTrip` | chainwatch.py:343 | zero padding loses nothing: the padded text reads back as the number |
| `Clock.ClockRoundTrip` | chainwatch.py:342-343 | the `MM:SS` text ends in exactly two second digits showing a value below 60, and reads back as the seconds it was made from |
| `Clock.ClockText` | chainwatch.py:342-343 | the `MM:SS` text has a colon before two final digits; it is exactly five long below 100 minutes and has no leading zero from 10 minutes on; with `ClockRoundTrip` (the value read back through `ReadClock`) this fixes the text completely |
| `Clock.TimerText` | chainwatch.py:339-343 | the time label is at least nine long and starts with `T-: `; `TimerTextRoundTrip` shows the rest is exactly `ClockText` of the remaining time |
| `Clock.BackupText` | chainwatch.py:346-352 | the diagnostics text always starts with `Backup Timer: ` and ends in `Disabled` when the timer is off; `BackupTextRoundTrip` shows the enabled text continues with exactly `ClockText` of the backup time |
| `Clock.TimerTextUniform` | chainwatch.py:339-343 | the special text `T-: 00:00` for zero equals the general format applied to 0 |
| `Clock.TimerTextRoundTrip` | chainwatch.py:339-343 | the time label starts with `T-: `, the rest is `ClockText` of the remaining seconds, and it reads back as them |
| `Clock.BackupTextRoundTrip` | chainwatch.py:349-350 | the enabled backup label starts with `Backup Timer: `, the rest is `ClockText` of the backup seconds, and it reads back as them |
| `Clock.TimerTextExamples` | chainwatch.py:339-343 | 0 shows `T-: 00:00`, 125 shows `T-: 02:05`, a spent backup timer shows `Backup Timer: 00:00` |
| `Mixer.MusicPlayer.constructor` | chainwatch.py:17 | a new channel is idle with nothing loaded and no playback started |
| `Mixer.MusicPlayer.Load` | chainwatch.py:372 | loading a track stops playback and changes nothing else |
| `Mixer.MusicPlayer.SetVolume` | chainwatch.py:373 | sets the volume and nothing else |
| `Mixer.MusicPlayer.Play` | chainwatch.py:374-377 | the channel is busy, looping as asked, one more playback started, track and volume kept |
| `Mixer.MusicPlayer.Stop` | chainwatch.py:390 | the channel is idle and nothing else changes |
| `Mixer.MusicPlayer.GetBusy` | chainwatch.py:380 | returns whether the channel is playing |
| `Watcher.PollSucceeds` | chainwatch.py:297-320 | an attempt finishes its `try` without an exception exactly when the answer has an `end`, and also a `timeout` whenever the backup timer is on (both directions stated, for the timer on and off) |
| `Watcher.ChainWatcher.constructor` | chainwatch.py:44-63 | configured settings; remaining, backup and end time 0; not running, not in panic mode; labels `T-: 00:00` and `Backup Timer: Disabled` (lines 124, 128); an idle player |
| `Watcher.ChainWatcher.PlayAlarm` | chainwatch.py:371-377 | whatever was playing, the player is busy with the chosen alarm track at the configured volume, looping as asked, restarted once more |
| `Watcher.ChainWatcher.PlayPreAlarm` | chainwatch.py:379-386 | a busy player is left entirely unchanged; an idle one starts the chosen pre-alarm track at the configured volume, looping as asked |
| `Watcher.ChainWatcher.StopPreAlarm` | chainwatch.py:388-390 | the player ends idle, with track, loop flag, volume and start count kept |
| `Watcher.ChainWatcher.RefreshDisplay` | chainwatch.py:336-352 | remaining is `max(0, end − now)`; the time label is its `T-: MM:SS` text; with the backup timer on, backup becomes `max(0, old − 1)` and its label shows it, otherwise backup is kept and the label reads `Backup Timer: Disabled`; end time, settings, running, panic mode and the poll flag are kept |
| `Watcher.ChainWatcher.Tick` | chainwatch.py:333-366 | everything `RefreshDisplay` states, then the returned zone is the classification of remaining, and the player gets the alarm, the guarded pre-alarm or a stop accordingly; end time, settings, running, panic mode and the poll flag are kept |
| `Watcher.ChainWatcher.PollStep` | chainwatch.py:282-330 | the interval is the panic interval exactly when the previous attempt failed; the failure flag is set exactly when the attempt does not succeed; any answer with `end` stores `end − 1`, a failure before it keeps the end time; the backup is seeded only from a present `timeout` with the timer on; a success sets panic mode to `end time − now ≤ alarm threshold`, a failure keeps it |
| `Watcher.ChainWatcher.StartWatching` | chainwatch.py:249-255 | reports that the loops start exactly when they were not running; afterwards running; a second call changes nothing; a new poll loop starts with its failure flag clear |
| `Watcher.ChainWatcher.StopWatching` | chainwatch.py:257-261 | not running, not in panic mode and the player idle; nothing else changes (the idle player assumes the settings save succeeds, see "## Left out") |

## Left out

- The Tkinter window is not modelled. This covers widget layout, background colours
  (red, yellow, neutral), the failure flash, keep-on-top, the API-key dialog, the file
  pickers and the "Backup Timer: Enabled" text of the checkbox callback. The zone returned
  by `Tick` stands for the background colour.
- The threads and the `while self.running` loops with their `time.sleep` calls are not
  modelled. Only single passes are, with the clock as the parameter `now`. The sleep
  interval is returned, not slept, and a negative interval entry, which makes `time.sleep`
  at chainwatch.py:330 raise outside any `try` and ends the poll thread, is not modelled.
  `StartWatching` reports whether the loops would start;
  it does not model two loops interleaving. It also does not model an old loop that is
  still asleep after a stop and a restart.
- The HTTP request, `raise_for_status` and JSON decoding are foreign calls. The answer is
  the `PollResult` input value. The access token and URL are not modelled.
- The sleep-inhibition calls (Windows kernel32) and the debug logging with timestamps are
  foreign I/O.
- Settings load/save and the download of the default sound files are file and network
  I/O. `stop_watching`'s `save_settings` call is omitted for the same reason.
  `DefaultSettings` holds the constructor's defaults. The settings file's own defaults
  differ: an alarm threshold of 90 instead of 60.
- Settings are modelled as plain integers, a real volume and strings, so a Tk variable
  whose entry holds empty or non-numeric text is not modelled. Its reads behave in three
  ways. The interval read at chainwatch.py:284 and the threshold reads at 355 and 358 sit
  outside any `try`, so they end their loop's thread. The alarm-threshold read at 320 sits
  inside the `try` of 297-327. There it turns every answer into a failed attempt, after the
  end time (304) and the backup seed (308) have been stored. `panic_mode` is then kept and
  the loop goes on at the panic interval. The reads in `save_settings` (chainwatch.py:394-397)
  make `stop_watching` raise; see the `StopWatching` line below.
- Watcher.ChainWatcher.StopWatching: `!player.busy` holds only when saving the settings
  succeeds. `stop_watching` calls `save_settings` (chainwatch.py:260) before stopping the
  music (261). `save_settings` raises on an empty or non-numeric interval or threshold
  entry (`IntVar.get()` at 394-397) or on an unwritable settings file (406). `running` and
  `panic_mode` are already false by then, so both loops end while the alarm keeps looping,
  and pressing Stop again raises again. The model always stops the player.
- Mixer.MusicPlayer.Load: loading never fails in the model. The mixer raises when it cannot
  open the file. That happens in normal use: the user refuses the download of the default
  sounds (chainwatch.py:103-120), or cancels the file picker, which leaves the choice as the
  literal "Search File" (chainwatch.py:237-246). `play_alarm` and `play_pre_alarm` run
  outside any `try` (chainwatch.py:357, 360, 372, 381), so the exception ends the timer
  loop's thread. Before the first poll the end time is 0, so the first tick is already in
  the alarm zone and the countdown stops at once. The alarm and pre-alarm clauses of
  `Watcher.ChainWatcher.Tick`, `PlayAlarm` and `PlayPreAlarm` hold only for tracks that load.
- Mixer.MusicPlayer.Play: a track played once (not looped) stops being busy when it ends,
  which depends on time. The model keeps it busy. The core itself only ever plays looped
  tracks.
- Mixer.MusicPlayer.SetVolume: the volume is an opaque real that is copied through.
  Any clamping of the volume by the mixer is not modelled.
- The default sound paths are written with `/`. The source joins them with the platform's
  path separator.
