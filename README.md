# Music player state machine

A model of the playback finite state machine of a small desktop music
player (`FSM.py`). The player has three playback states (`stop`, `play`,
`pause`), a static transition table from (state, action) to next state, and a
`MusicPlayerFSM` object that holds the current state and the index of the
current song in a fixed three-song playlist. Its action methods (`play`,
`pause`, `stop`, `next_song`, `back_song`) consult the table, update those two
fields in place and command the audio engine; a timer tick
(`check_song_completion`) moves on to the next song when the current one has
finished; a second timer (`update_slider`) shows the song length and the
playback position as "m:ss".

The model has six modules:

- `Options`: the `Option` type a table lookup returns.
- `TransitionTable`: the states, the actions and the table exactly as written,
  with its three missing entries.
- `AudioEngine`: the commands the player sends to the audio engine (load a
  file, start, pause, unpause, halt).
- `TimeDisplay`: the `divmod(…, 60)` split, the "m:ss" label text and a
  reader for it that inverts it.
- `PlayerSpec`: each action method as a function from the player's state
  before the call to its state after it, and the properties of single
  actions and of whole runs of button presses and timer ticks. The state is
  a `Snapshot`: playback state, song index, command log and diagnostics.
- `Player`: the class `MusicPlayerFsm`. Its fields `state` and
  `currentSong` are updated in place. The command log and the printed
  diagnostics are ghost fields. Every action method is proved to take
  `Model()` to the `PlayerSpec` function of `old(Model())` and to keep
  `Valid()`. `Valid()` says two things: the song index is in range, and the
  playback state agrees with the last command sent to the engine.

Behaviour of the code that the model keeps:

- The `play` row of the table has no `play` entry and the `stop` row has no
  `stop` entry. So play-while-playing and stop-while-stopped go through the
  rejection branch of `transition`. The state stays the same and
  "Cannot transition" is printed. `play()` still reloads and restarts the
  song, and `stop()` still halts the engine.
- `next_song` and `back_song` call `transition('play')`, not
  `transition('next')` or `transition('back')` (FSM.py:163 and 171). They
  always end in `play`. From `play`, though, they get there through the
  rejection branch and print a diagnostic. The same happens on every
  automatic advance by the completion tick. The table's `next` and `back`
  entries are never consulted.
- The index arithmetic uses Python's `%`. With a positive divisor it agrees
  with Dafny's Euclidean `%`, so `back_song` from index 0 goes to the last
  song. `get_pos() // 1000` and `pos // 60` are floored divisions by a
  positive number, and Dafny's `/` agrees with them too. A negative position
  (the engine can report -1) therefore shows as "-1:59", as in the program.

## Model

| member | source | states |
|---|---|---|
| TransitionTable.Lookup | FSM.py:10-14 | Next and Back lead to `play` from every state; an accepted Play leads to `play`, an accepted Stop to `stop`, Pause leads from `play` to `pause` and from `stop` back to `stop` |
| TransitionTable.MissingEntries | FSM.py:10-14 | the table has no entry for exactly three pairs: Stop in `stop`, Play in `play`, Pause in `pause` |
| PlayerSpec.TransitionStep | FSM.py:130-136 | `transition(a)` never touches the song index or the engine; the state changes only through an entry of the current row; at most one diagnostic is appended |
| PlayerSpec.TransitionFollowsTable | FSM.py:130-136 | `transition(a)` takes the row's entry when `a` is in the current row; otherwise the state is unchanged and a "cannot transition" diagnostic naming the state and action is recorded; the song index and the engine are untouched either way |
| Player.MusicPlayerFsm.Transition | FSM.py:130-136 | the method updates the state in place as `TransitionStep` says and leaves the song index and the command log alone |
| Player.MusicPlayerFsm.constructor | FSM.py:17-42 | a new player is stopped, on song 0 of the three song files, with nothing sent to the engine and nothing printed, and satisfies the invariant |
| PlayerSpec.PlayStep | FSM.py:138-147 | `play()` ends in `play` from every state and keeps the song index |
| PlayerSpec.PlayResumesWhenPaused | FSM.py:138-141 | `play()` from `pause` sends one Unpause and no Load, and ends in `play` with the index unchanged |
| PlayerSpec.PlayRestartsOtherwise | FSM.py:138-147 | `play()` from `stop` or `play` loads the current song and starts it from the beginning, ends in `play`, keeps the index, and prints a diagnostic exactly when it started in `play` |
| Player.MusicPlayerFsm.Play | FSM.py:138-147 | the method ends in `play`, keeps the song index, keeps the invariant and does what `PlayStep` says |
| PlayerSpec.PauseStep | FSM.py:149-152 | `pause()` keeps the song index and moves `play` to `pause`, leaving every other state as it is |
| PlayerSpec.PauseOnlyWhilePlaying | FSM.py:149-152 | `pause()` from `play` sends a Pause command and moves to `pause`; from any other state it changes nothing, not even the logs |
| Player.MusicPlayerFsm.Pause | FSM.py:149-152 | the method keeps the invariant, does what `PauseStep` says and changes nothing unless playing |
| PlayerSpec.StopStep | FSM.py:154-156 | `stop()` ends in `stop` from every state, keeps the song index, and its last command is Halt |
| PlayerSpec.StopAlwaysHalts | FSM.py:154-156 | `stop()` always ends in `stop` and always sends Halt, keeps the index, and prints a diagnostic exactly when it started in `stop` |
| PlayerSpec.StopIdempotent | FSM.py:154-156 | stopping twice gives the same state and index as stopping once |
| Player.MusicPlayerFsm.Stop | FSM.py:154-156 | the method ends in `stop`, keeps the song index, keeps the invariant and does what `StopStep` says |
| PlayerSpec.NextStep | FSM.py:158-164 | the index after `next_song()` is a valid index into the playlist |
| PlayerSpec.NextAdvances | FSM.py:158-164 | `next_song()` always ends in `play` on the following song, wrapping from the last to the first; it loads and starts that song; it prints a diagnostic exactly when it started in `play` |
| Player.MusicPlayerFsm.NextSong | FSM.py:158-164 | the method ends in `play`, keeps the invariant and does what `NextStep` says |
| PlayerSpec.BackStep | FSM.py:166-172 | the index after `back_song()` is a valid index into the playlist |
| PlayerSpec.BackRetreats | FSM.py:166-172 | `back_song()` always ends in `play` on the preceding song, wrapping from the first to the last; it loads and starts that song; it prints a diagnostic exactly when it started in `play` |
| Player.MusicPlayerFsm.BackSong | FSM.py:166-172 | the method ends in `play`, keeps the invariant and does what `BackStep` says |
| PlayerSpec.BackUndoesNext | FSM.py:158-172 | `back_song()` after `next_song()` returns to the original song, and so does `next_song()` after `back_song()` |
| PlayerSpec.CompletionTick | FSM.py:174-176 | the completion tick never changes the playback state, and changes the song only when playing with the engine idle |
| PlayerSpec.TickAdvancesOnlyWhenFinished | FSM.py:174-176 | when playing and the engine is idle, the tick stays in `play`, moves to the following song (wrapping to the first), loads and starts it, and prints a diagnostic; otherwise it changes nothing |
| Player.MusicPlayerFsm.CheckSongCompletion | FSM.py:174-176 | the method keeps the invariant and does what `CompletionTick` says |
| PlayerSpec.Apply | FSM.py:83-96 | whichever button is pressed or timer tick arrives, the song index stays a valid index |
| PlayerSpec.ApplyDiagnoses | FSM.py:130-176 | a button press or tick prints exactly one diagnostic when it meets a missing entry (Play or Next or Back or a firing tick while playing, Stop while stopped) and none otherwise |
| PlayerSpec.Run | FSM.py:158-176 | after any sequence of button presses and ticks, the song index is a valid index |
| PlayerSpec.RunKeepsAgreement | FSM.py:138-176 | over any sequence of presses and ticks, the state stays consistent with the engine: `pause` only after a Pause command, `play` only after a Start or an Unpause, `stop` only before any command or after a Halt |
| PlayerSpec.RunOnlyAppends | FSM.py:130-176 | over any sequence of presses and ticks, commands and diagnostics are only appended, never withdrawn |
| PlayerSpec.ThreeSongScenario | FSM.py:138-172 | play, pause, next, back, back from a new three-song player ends in `play` on the third song, having loaded the first, second, first and third songs in that order |
| TimeDisplay.Clock | FSM.py:222 | `divmod(seconds, 60)` gives minutes and seconds with `minutes*60 + seconds` equal to the input and the seconds part in 0..59, for negative inputs too |
| TimeDisplay.ClockUnique | FSM.py:222 | any split of a number of seconds into minutes and a part in 0..59 is the one `divmod` gives |
| TimeDisplay.Digits | FSM.py:220 | the decimal text of a natural number is made of digits only, is "0" for zero and has no leading zero otherwise |
| TimeDisplay.Pad2 | FSM.py:220 | the `02d` format of a number below 100 is exactly two digits |
| TimeDisplay.DigitsRoundTrip | FSM.py:220 | reading back the decimal text of a natural number gives the number |
| TimeDisplay.IntText | FSM.py:220 | the text of any integer is an optional minus sign, present exactly when the integer is negative, then digits with no leading zero (so never "07" or "-0"), and reads back as the integer |
| TimeDisplay.Pad2RoundTrip | FSM.py:220 | reading back a two-digit zero-padded number gives the number |
| TimeDisplay.ClockText | FSM.py:220-223 | the "m:ss" label is the minutes as a signed integer (a minus sign exactly when the seconds are negative, no leading zero), a colon and two digits of seconds below 60, and minutes times 60 plus those seconds is the number of seconds |
| TimeDisplay.ClockTextRoundTrip | FSM.py:220-223 | the "m:ss" label of any number of seconds reads back as that number |
| Player.SongLength | FSM.py:211-216 | the song length is 206 seconds for index 0, 170 for index 1, and 212 exactly for every other index |
| Player.MusicPlayerFsm.UpdateSlider | FSM.py:208-225 | the slider is refreshed exactly while playing; its length is 206, 170 or 212 seconds by song index; its position is the millisecond position floored to whole seconds; the labels are the "m:ss" texts of the position and the length, and read back as them |

## Left out

- The tkinter window: frames, buttons, labels, the state highlight, the song card and the DFA window (FSM.py:44-121, 123-128, 179-206, 227-239). These are presentation only. The buttons appear only as `PlayerSpec.Event` values.
- The pygame mixer calls. The commands the player sends are a ghost command log. `get_busy()` is the `busy` input of the completion tick, and `get_pos()` is the `posMs` input of the slider refresh. `pygame.mixer.init()` is not a command in the log.
- Load failures of the audio engine. The model assumes every load succeeds.
- The order of a state change or diagnostic relative to the engine commands of the same call. The command log and the diagnostics are separate sequences, and a state change is recorded in neither. So the model does not capture that `play()` transitions (and, from `play`, prints) before it loads (FSM.py:144-145), while `next_song`/`back_song` load and start before they transition (FSM.py:161-163, 169-171).
- The `root.after` rescheduling of both timers and `mainloop` (FSM.py:177, 225, 241-243). Each tick is one explicit method call.
- The calls the constructor makes to `update_slider` and `check_song_completion` (FSM.py:71, 120). At construction the state is `stop`, so neither changes anything.
- `os.chdir` and the file paths of the assets (FSM.py:6-7).
- The title, singer and album-image strings of the song records. Only the `file` field is kept, as `SongFiles`.
- The diagnostic is recorded as a value naming the state and the action, not as the printed text.
