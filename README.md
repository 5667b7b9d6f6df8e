# ImSpotify: a verified model of its sequential core

ImSpotify is a desktop client for a Spotify account. A render loop draws the
current playback. A background IO worker fetches account data into shared
state. A command-line mode resumes or pauses playback. This project models
the four small pieces of sequential logic behind that and proves what they
promise:

- **Playback presentation** (`src/app/ui.rs`), module `Ui`:
  - `format_millis` turns milliseconds into `M:SS`;
  - a track or an episode is summarised as name, artists and duration;
  - the shown position is the stored progress plus, while playing, the time
    since the last fetch;
  - the first frame posts a fixed bootstrap pair of requests.
- **The IO worker** (`src/spotify/io.rs`, state from `src/spotify/mod.rs`),
  modules `Io` and `Spotify`:
  - the channel of requests is drained in order;
  - each request is fetched from the remote client; on success the answer
    replaces one field of `SpotifyState`;
  - a failure is printed and skipped.
- **The window system** (`src/system/mod.rs`), module `Windowing`:
  - the window title is the text after the last `/`;
  - the event-loop closure keeps a small state machine: `first_run`,
    `last_frame` and the control flow, which becomes `Exit` on a close
    request or a frame that leaves `run == false`.
- **Command-line dispatch** (`src/app/mod.rs`), module `Application`:
  - `App::run` without a window logs in and greets the user;
  - it then reads `argv[1]` or fails with "Invalid argument";
  - `handle_command` maps `--resume` / `--pause` to one remote request, and
    any other command reaches `todo!()`.

`Wrappers` holds `Option`, `Result`, `anyhow`-style errors with context, and
panics. `Decimal` holds Rust's `{}` rendering of an unsigned integer and its
inverse.

The remote service is an oracle. `Spotify.Client` maps the index of a
request to a `Reply`, which holds what the service would answer to each kind
of request at that moment. Every answer may be an error. Wall-clock instants
are plain `nat` milliseconds passed in as parameters. The mpsc channel is a
class over a `seq`. The mutex-guarded state is an ordinary field.

Where the repository's files disagree with each other, the model follows the
code as follows:

- `src/spotify/io.rs` declares only `IoEvent::FetchUserInfo`. But
  `src/app/ui.rs:62` also sends `IoEvent::FetchCurrentPlayback`. The model
  has both variants. It gives `FetchCurrentPlayback` the same
  fetch-then-assign shape as `FetchUserInfo`, on the `playback` field, with
  the answer of `current_playback` (itself optional).
- `handle_event` writes `app.spotify.me`, but `App::spotify` is the bare
  client. The readers of that state, `draw_properties` and `draw_playback`,
  take `me` and `playback` from `app.spotify.state`
  (`src/app/ui.rs:104,117`), a `SpotifyState` (`src/spotify/mod.rs:18-25`).
  The model writes those two fields of `SpotifyState`.
- `App::run` hands `System::main_loop` the demo-window closure
  `|run, ui| ui.show_demo_window(run)` (`src/app/mod.rs:28`). Nothing installs
  `ui::main_loop` as the frame callback, and its five-argument signature
  (`src/app/ui.rs:19`) does not fit `FnMut(&Self, &mut bool, &mut Ui)`
  (`src/system/mod.rs:85`). The model takes `ui::main_loop` as the callback
  of every frame: `Ui.MainLoop` and `Ui.BootstrapPostedOnce` are stated on
  that reading.
- `src/spotify/io.rs:10` imports tokio's bounded `mpsc::Receiver`, but
  `fetch_init_state` calls `send(..).unwrap()` synchronously
  (`src/app/ui.rs:61-62`), which only an unbounded sender offers. The model
  reads the channel as unbounded: a send never waits, and fails only once
  the receiver is gone.
- The first frame posts profile and playback requests only
  (`src/app/ui.rs:59-63`). A playlist request is not sent.
- No modelled file writes `playback_last_fetch`. The model takes
  it as an input, as the panel does.

## Model

| member | source | states |
|---|---|---|
| `Wrappers.WithContext` | src/app/mod.rs:48-49 | `.context(msg)` puts `msg` in front of the whole old chain of messages and keeps the old root cause |
| `Wrappers.ResultContext` | src/app/mod.rs:52-53 | context leaves a success unchanged; an error keeps its chain behind `msg` and its root cause |
| `Decimal.ToDecimal` | src/app/ui.rs:175-177 | `{}` of a number is a non-empty digit string, one digit exactly below ten, with no leading zero except for 0 |
| `Decimal.ValueOfToDecimal` | src/app/ui.rs:175-177 | reading the rendered numeral back gives the number (round trip) |
| `Decimal.TwoDigitLength` | src/app/ui.rs:177 | a number from 10 to 99 renders as two characters |
| `Decimal.ToDecimalInjective` | src/app/ui.rs:183 | distinct numbers render differently |
| `Ui.SecondsDisplayTwoDigits` | src/app/ui.rs:174-178 | seconds below 60 are shown as exactly two digits denoting them, with a leading `0` exactly when below ten |
| `Ui.RolloverUnreachable` | src/app/ui.rs:171-184 | seconds are always below 60, so the `seconds == 60` branch is never taken and the output is `minutes:ss` |
| `Ui.FormatMillisParts` | src/app/ui.rs:170-185 | the output is `millis / 60000` in decimal, `:`, then `(millis % 60000) / 1000` as two digits |
| `Ui.FormatMillisRoundTrip` | src/app/ui.rs:170-185 | parsing the output as `M:SS` gives back the minutes and seconds of the input |
| `Ui.FormatMillisSameSecond` | src/app/ui.rs:171-172 | two inputs format alike if and only if they lie in the same whole second |
| `Ui.FormatMillisTruncates` | src/app/ui.rs:172 | sub-second milliseconds are dropped: `m` and `m - m % 1000` format alike |
| `Ui.FormatMillisExamples` | src/app/ui.rs:170-185 | 125000 gives "2:05", 60000 gives "1:00", 59999 gives "0:59" |
| `Ui.ArtistNames` | src/app/ui.rs:125-127 | the names of the artists, one per artist, in order |
| `Ui.Project` | src/app/ui.rs:120-135 | a track yields its name, its artists' names in order and its duration; an episode its name, `[show name]` and its duration |
| `Ui.Join` | src/app/ui.rs:156 | joining no names gives the empty line, joining one name gives that name |
| `Ui.JoinSnoc` | src/app/ui.rs:156 | joining one more name appends `", "` and that name, so n names carry n - 1 separators in order |
| `Ui.JoinTwo` | src/app/ui.rs:156 | two artists are shown as `A, B` |
| `Ui.DisplayedProgress` | src/app/ui.rs:140-153 | the `let mut progress` update computes the reference position `ExtrapolatedProgress` |
| `Ui.PausedShowsStored` | src/app/ui.rs:140-153 | while paused the stored progress (0 when absent) is shown exactly, whatever the clock and the last fetch |
| `Ui.PlayingAddsElapsed` | src/app/ui.rs:144-153 | while playing the shown position is the stored progress plus the time since the last fetch; with no fetch recorded it is the stored progress |
| `Ui.ProgressMonotone` | src/app/ui.rs:140-153 | the shown position never falls behind the stored one and never decreases as time passes |
| `Ui.ProgressNotClamped` | src/app/ui.rs:140-162 | there is no clamp: the shown position can exceed the item's duration |
| `Ui.ProgressExamples` | src/app/ui.rs:140-153 | 10000 ms stored and 2500 ms elapsed show 12500 ms while playing and 10000 ms while paused |
| `Ui.PlaybackPanelContents` | src/app/ui.rs:119-162 | the panel appears exactly when a playback with an item is stored; it shows the item's name, a track's artist names joined by `", "` (an episode's show name), and the time line `position / duration` in `M:SS`, whose position half parses back to its minutes and seconds |
| `Ui.FetchInitState` | src/app/ui.rs:59-63 | posts FetchUserInfo then FetchCurrentPlayback; panics without a sender or when the receiver is gone, having sent nothing |
| `Ui.MainLoop` | src/app/ui.rs:19-32 | posts the bootstrap pair only when `first_run` is set, and posts nothing when it panics; never drops the receiver; every frame that does not panic leaves `run == true` |
| `Ui.NothingPostedAfterFirstFrame` | src/app/ui.rs:20-23 | once `first_run` is cleared no later frame posts anything |
| `Ui.BootstrapPostedOnce` | src/app/ui.rs:20-23 | from a fresh system the bootstrap pair is posted exactly once if any frame is drawn, never otherwise |
| `Io.Channel.Send` | src/app/ui.rs:61-62 | a send appends to the queue, or fails and appends nothing once the receiver is gone |
| `Io.Channel.Recv` | src/spotify/io.rs:19 | `recv` yields the oldest queued event and removes it, or `None` once the queue is exhausted |
| `Io.Commit` | src/spotify/io.rs:32-36 | a failed fetch writes nothing; a successful one replaces only its own field (`me` or `playback`) with the answer |
| `Io.HandleEvent` | src/spotify/io.rs:27-39 | fetch first, then assign; the result is an error exactly when the fetch failed, and then with that error |
| `Io.MainLoop` | src/spotify/io.rs:18-25 | drains the whole queue in order, leaving the receiver in place; the state is the in-order fold of `Commit`, and one line is printed per failed event |
| `Io.ReportShowsOutermost` | src/spotify/io.rs:22 | the printed line shows only the outermost message of the error, as `{}` on an `anyhow::Error` does |
| `Io.DrainAppend` | src/spotify/io.rs:19-20 | handling `a ++ b` is handling `a`, then `b`: events are taken strictly in order |
| `Io.DrainLastWriteWins` | src/spotify/io.rs:19-35 | after draining, each field holds the answer of the last successful fetch of its kind, or its old value if there was none |
| `Io.DrainAllFailing` | src/spotify/io.rs:20-23 | when every fetch fails the state is unchanged and one error line is printed per event |
| `Io.FailureIsSkipped` | src/spotify/io.rs:20-23 | a failed event is reported and the rest of the queue is handled from the same state |
| `Spotify.Spotify.constructor` | src/spotify/mod.rs:21-34 | the shared state starts with `me` and `playback` both absent |
| `Windowing.RFind` | src/system/mod.rs:26 | `rfind` gives the index of the last `/`, or none exactly when there is no `/` |
| `Windowing.TrimTitleSuffix` | src/system/mod.rs:26-29 | the title is a prefix ending in `/` (or empty) followed by the trimmed title, which holds no `/` |
| `Windowing.TrimTitleUnchanged` | src/system/mod.rs:26-29 | the title is kept unchanged if and only if it holds no `/` |
| `Windowing.TrimTitleIdempotent` | src/system/mod.rs:26-29 | trimming twice is trimming once |
| `Windowing.TrimTitleTrailingSlash` | src/system/mod.rs:26-27 | a title ending in `/` trims to the empty string |
| `Windowing.System.Init` | src/system/mod.rs:25-82 | the window gets the trimmed title, `first_run` starts set and the loop is running |
| `Windowing.System.HandleEvent` | src/system/mod.rs:94-149 | one closure call: the UI callback sees `first_run`, `first_run` is cleared after a frame, `Exit` is set on `run == false` or a close request |
| `Windowing.StepExit` | src/system/mod.rs:117-143 | one step sets `Exit` exactly on a close request or a frame with `run == false`, and never clears it; a frame with `run == true` leaves the control flow as it was |
| `Windowing.RunExit` | src/system/mod.rs:94-149 | after any trace the loop has exited if and only if it already had or some event asked for it |
| `Windowing.RunFirstRun` | src/system/mod.rs:119-123 | `first_run` stays set exactly until the first frame is drawn |
| `Windowing.NoSightingsAfterFirstFrame` | src/system/mod.rs:123 | after `first_run` is cleared no frame sees it set |
| `Windowing.FirstRunSeenOnce` | src/system/mod.rs:117-123 | from construction the UI callback sees `first_run` set in exactly one frame if any frame is drawn, in none otherwise |
| `Application.HandleCommand` | src/app/mod.rs:45-59 | `--resume` / `--pause` make exactly that one request and wrap its error with "Unable to resume/pause playback"; any other command panics with no request; success exactly when the one request succeeded |
| `Application.App.constructor` | src/app/mod.rs:14-17 | an app holds the optional window and the client |
| `Application.App.Run` | src/app/mod.rs:24-43 | the logged-in client replaces `spotify`, and the run behaves as `RunSpec` |
| `Application.MissingArgument` | src/app/mod.rs:35-37 | with no `argv[1]` the run fails with "Invalid argument" after the greeting, having made no playback request |
| `Application.ProfileFailureAborts` | src/app/mod.rs:32-33 | a failing `me()` ends the run with that error, and a missing display name panics; both happen before the arguments are read, whatever they are |
| `Application.CliSucceedsOnlyAfterCommand` | src/app/mod.rs:24-58 | without a window the run succeeds if and only if login, greeting and a known command all succeed, and the one playback request succeeded |
| `Application.WindowedAndLoginFailure` | src/app/mod.rs:25-29 | a failed login stops the run first; with a window the run enters the event loop and makes no request itself |

## Left out

- Concurrency: the tokio mutexes, `blocking_lock`, the lock held across the
  `.await` in `handle_event`, and the channel's thread safety. Accesses are
  sequential, so the model cannot show a race.
- Channel blocking: `Io.Channel.Recv` returns `None` once the queue is empty.
  Real `recv` waits while a sender is still alive. The drain is modelled as
  if every send happened before it.
- The OAuth flow, TCP listener and browser in `src/spotify/auth.rs`. They
  are network I/O; the login outcome is a parameter of `Application.App.Run`.
- Rendering: glium/imgui set-up, font and HiDPI scaling, `dock_layout`,
  `draw_dock`, `draw_playlists`, `draw_tracks`, `draw_properties`, and the
  platform and render calls in `System::main_loop`. These are foreign
  libraries and floating point.
- The clipboard backend in `src/system/clipboard.rs`: a wrapper over an
  external crate.
- The progress bar fraction `progress as f32 / duration as f32`: floating
  point.
- `src/app/builder.rs`, `src/main.rs`, `src/lib.rs`: runtime wiring.
  `builder.rs` names fields that `App` does not have.
- The windowed branch of `App::run`: it only hands a demo-window closure to
  the event loop. The model records that the loop is entered.
- `Ui.Elapsed`: with no fetch recorded the source measures from
  `Instant::now()`. That gives a near-zero duration, modelled as exactly 0.
- `Ui.DisplayedProgress`: does not model `u128` overflow of `progress +=`,
  because integers here are unbounded and 2^128 ms cannot arise.
- `Ui.FetchInitState`: the second `send` cannot fail once the first
  succeeded, because nothing drops the receiver in between in a sequential
  model.
- `Windowing.System.HandleEvent`: does not compute imgui's frame delta time
  (`now - last_frame`). Only `last_frame` is recorded, because the delta
  only feeds rendering.
- `Windowing.Step`: winit's `Wait` and `WaitUntil` control flows are not
  modelled. The program never sets them; it starts in `Poll` and only ever
  sets `Exit`.
- Panic messages: they are modelled as strings, following Rust's standard
  wording, and their `Debug` payloads are abbreviated.
- `src/spotify/io.rs` defines only `FetchUserInfo`: there is no periodic
  playback poller, playlist request or shutdown path in the program.
- `Application.RunSpec`: the arguments are strings, so it cannot express
  the panic of `std::env::args()` (`src/app/mod.rs:35`) on an argument that
  is not valid Unicode.
- Durations are whole milliseconds, as `Duration::as_millis` gives them.
  Sub-millisecond precision is not modelled.
