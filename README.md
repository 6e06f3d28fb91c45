# vinyl-spotify-sync: room state machine, detection loop and playback policy

This project models the core of a background service that listens to a room,
decides whether music is playing, identifies the song, and keeps a remote
streaming player in step with it. Three parts of the program are modelled:

- **The room state manager** (`StateManagement`, `state_manager.dfy`). It holds
  the room's `PlayState` (`Idle`, `Playing`, `Stopped`, `Unknown`), the payload
  `PlayingState(songTitle, songArtist)`, and the time music was last detected.
  `StateManager` is a class whose setters replace those fields in place. The
  object invariant `WellFormed` says a payload is present exactly when the room is
  `Playing`. Every setter re-establishes it, whatever the previous state. The
  queries (silence for a minute, a different song while playing, the guarded
  payload accessor) are pure functions over the fields. The log is a ghost
  sequence of `Transition(from, to)` entries, so the rule that a repeated
  `Stopped` is never logged can be stated.
- **The detection loop** (`Detection`, `now_playing.dfy`). `NowPlaying` owns a
  `StateManager`. `Iterate` is one loop iteration with its exception handler, and
  `Run` runs the endless loop over any finite prefix of its iterations.
  Recording, music classification and song identification are collaborators.
  Their results, or the fact that one of them raised, come in as a `Tick`, along
  with the clock reading. Each method is tied to the pure `Step`/`RunFrom`
  functions over a `Room` value (state, timer, log), and the lemmas about runs
  are proved over those functions.
- **The playback-control policy** (`SpotifyPolicy`, `spotify_service.dfy`). The
  remote calls are replaced by inputs and outputs. Each operation takes what the
  service reported (search response, current playback snapshot, device list) and
  returns the `Command` it would send, if any.

Clock readings are integers in microseconds, the resolution of the timestamps the
program subtracts. "One minute" is `OneMinute = 60_000_000`.

Points where the code's behaviour is easy to misread, and which the model follows:

- A suppressed transition (`Stopped` to `Stopped` with an equal payload) only
  suppresses the log entry. The old state already equals the requested one, so
  every setter call leaves exactly `(new_state, data)` behind.
- The no-music branch compares the state with a `PlayState` member that the
  enumeration does not define. It therefore raises on every call, and the loop's
  handler catches it. A silent iteration changes nothing, and the silence query is
  never reached from the loop. No code path sets `Idle` or `Stopped`, so once the
  room is `Playing` it stays `Playing` (`PlayingIsPermanent`, `NeverIdleOrStopped`).
- When identification raises, the handler exits before the timer is stamped.
  When identification simply finds nothing, the timer is stamped.
- When the same title is identified while playing, nothing changes, even if the
  identifier reports a different artist. The stored artist is kept
  (`SameTitleKeepsPlaying`).

## Model

| member | source | states |
|---|---|---|
| StateManagement.StateManager.constructor | src/state_manager.py:27-37 | starts in `Unknown` with no payload, no detection time and an empty log; the invariant holds |
| StateManagement.StateManager.SetState | src/state_manager.py:39-49 | afterwards the state is exactly `(next, data)`; the log grows by one `from -> to` entry, or by nothing in the suppressed case |
| StateManagement.SuppressedTransitionLandsOnTarget | src/state_manager.py:42-43 | a suppressed `Stopped`-to-`Stopped` request with an equal payload emits no log entry, and the old state already equals the requested one |
| StateManagement.OtherTransitionsAreLogged | src/state_manager.py:45-49 | every other request, `Playing`-to-`Playing` and `Idle`-to-`Idle` included, emits exactly one entry naming the old and new state |
| StateManagement.StateManager.SetIdleState | src/state_manager.py:51-52 | the state becomes `(Idle, None)`, one entry is logged, and the invariant holds from any prior state |
| StateManagement.StateManager.SetPlayingState | src/state_manager.py:54-56 | the state becomes `(Playing, (title, artist))`, one entry is logged, and the invariant holds |
| StateManagement.StateManager.SetStoppedState | src/state_manager.py:58-59 | the state becomes `(Stopped, None)`; the log is unchanged iff it was already `(Stopped, None)`, otherwise one entry is added |
| StateManagement.StateManager.UpdateLastMusicDetectedTime | src/state_manager.py:61-62 | the timer holds the given clock reading; the state and log are untouched (frame) |
| StateManagement.SilentForAMinute | src/state_manager.py:64-71 | silent when nothing was ever detected; otherwise silent iff at least one minute has passed since the last detection, the boundary included |
| StateManagement.StateManager.NoMusicDetectedForMoreThanAMinute | src/state_manager.py:64-71 | the object's silence query at a clock reading: true with an unset timer, otherwise true iff the timer plus one minute is not later than the reading |
| StateManagement.SilenceCases | src/state_manager.py:64-71 | silent when nothing was ever detected, silent at exactly one minute, not silent below one minute |
| StateManagement.SilenceIsMonotone | src/state_manager.py:64-71 | once the room counts as silent, it stays silent as the clock advances |
| StateManagement.NotSilentWithinAMinute | src/state_manager.py:67-71 | after a detection at `t`, every reading in `[t, t + 1 min)` is not silent |
| StateManagement.StampThenQuery | src/state_manager.py:61-71 | stamping the timer at `t` and then querying within the next minute gives false, and leaves the room state and invariant intact |
| StateManagement.DifferentSongWhilePlaying | src/state_manager.py:73-80 | false when the room is not playing; while playing, true iff the stored title differs from the candidate |
| StateManagement.StateManager.MusicStillPlayingButDifferentSongIdentified | src/state_manager.py:73-80 | the object's song-change query: false unless playing, and while playing true iff the stored title differs |
| StateManagement.DifferentSongCases | src/state_manager.py:73-80 | false whenever the room is not playing; while playing, true iff the stored title differs from the candidate |
| StateManagement.PlayingData | src/state_manager.py:85-88 | returns the stored payload of a playing room; any other state is excluded by precondition and never reached |
| StateManagement.StateManager.GetPlayingState | src/state_manager.py:85-88 | the object's accessor: defined only when playing, and returns the stored payload |
| StateManagement.StateManager.GetState | src/state_manager.py:82-83 | a read-only view of the current state, which satisfies the invariant |
| Detection.ShouldSetPlaying | src/now_playing.py:72-76 | an identified song becomes the playing song iff the room is not playing or its stored title differs from the identified one |
| Detection.Step | src/now_playing.py:45-56 | one iteration preserves the payload-iff-playing invariant |
| Detection.RunFrom | src/now_playing.py:45-56 | any sequence of iterations preserves the invariant |
| Detection.UnidentifiedMusicKeepsState | src/now_playing.py:70-79 | music with no identified song leaves state and log unchanged, and stamps the timer |
| Detection.IdentifiedSongStartsPlaying | src/now_playing.py:70-90 | a song identified while not playing makes the state `Playing(title, artist)`, with one logged transition |
| Detection.SameTitleKeepsPlaying | src/now_playing.py:72-79 | while playing, re-identifying the stored title causes no transition, even with a different artist; only the timer changes |
| Detection.DifferentTitleReplacesSong | src/now_playing.py:72-79 | while playing, a different title replaces the payload and logs `Playing -> Playing` |
| Detection.CompletedIterationStamps | src/now_playing.py:70-79 | every iteration that completes stamps the timer; one that identified a song leaves the room playing that title |
| Detection.FailedIterationChangesNothing | src/now_playing.py:46-56 | an iteration that raises, which includes every no-music iteration, changes neither state, timer nor log |
| Detection.RunOnlyReachesPlaying | src/now_playing.py:45-56 | across any run the state kind either stays as it was or becomes `Playing` |
| Detection.PlayingIsPermanent | src/now_playing.py:70-97 | once playing, every later run leaves the room playing |
| Detection.NeverIdleOrStopped | src/now_playing.py:43-56 | from start-up the room is never `Idle` or `Stopped` |
| Detection.FailingRunChangesNothing | src/now_playing.py:46-56 | a run in which every iteration raises leaves the room exactly as it was |
| Detection.RunLogsOnlyPlaying | src/now_playing.py:70-90 | the log only grows, by at most one entry per iteration, and each new entry is a transition into `Playing` |
| Detection.TimerIsLastCompletedIteration | src/now_playing.py:70-79 | after a run, the timer holds the clock reading of the last iteration that completed |
| Detection.NotSilentSoonAfterMusic | src/now_playing.py:70-79 | within a minute of the last completed iteration, the silence predicate is false |
| Detection.RepeatedSongTransitionsOnce | src/now_playing.py:70-79 | the same song identified three times from start-up gives one `Unknown -> Playing` transition, on the first iteration |
| Detection.NowPlaying.constructor | src/now_playing.py:25-43 | a fresh state manager in the initial room state |
| Detection.NowPlaying.Run | src/now_playing.py:45-56 | every iteration of the prefix runs; the final room is `RunFrom` of the start; the i-th outcome is `Caught` exactly when that iteration raised |
| Detection.NowPlaying.Iterate | src/now_playing.py:46-56 | one iteration moves the owned state exactly as `Step`, and catches any exception raised |
| Detection.NowPlaying.HandleMusicDetected | src/now_playing.py:70-79 | the music branch moves the owned state as `Step` does for a music observation; raising identification stamps nothing |
| Detection.NowPlaying.SetPlayingState | src/now_playing.py:89-90 | forwards the identified title and artist to the state manager's playing setter |
| Detection.NowPlaying.HandleNoMusicDetected | src/now_playing.py:92-97 | always raises (missing `PlayState` member), before the silence query is evaluated |
| SpotifyPolicy.SearchQuery | src/service/spotify_service.py:26 | the query is `track:`, the title, ` artist:`, the artist, in that order |
| SpotifyPolicy.SearchTrackUri | src/service/spotify_service.py:25-42 | the search is sent the query for the given title and artist; the result is the first track's uri, and None iff the search raised or returned no tracks |
| SpotifyPolicy.PlaySong | src/service/spotify_service.py:55-69 | no command iff something is playing on a different device; otherwise a start on the requested device and uris, at the current position iff the loaded track is among the uris |
| SpotifyPolicy.PlayNotRefusedWhenFree | src/service/spotify_service.py:57-59 | nothing playing, or playing on the requested device, never leads to a refusal |
| SpotifyPolicy.PlayResumesLoadedTrack | src/service/spotify_service.py:63-65 | a requested track already loaded on the requested device is resumed at its progress, not restarted |
| SpotifyPolicy.PausePlaybackCommand | src/service/spotify_service.py:82-93 | a missing snapshot is an error; otherwise a pause of the requested device iff playback is active there, and no command otherwise |
| SpotifyPolicy.PlayAndPauseAgreeOnOwnership | src/service/spotify_service.py:55-93 | when play is refused, pause sends nothing; when pause sends a pause, play is not refused |
| SpotifyPolicy.GetDeviceId | src/service/spotify_service.py:74-80 | returns the id of the first device whose name matches; None iff no name matches |

## Left out

- Audio recording, resampling, WAV encoding, the music classifier and the song
  identifier are foreign I/O and numeric code. Their results come in as `Tick`
  values.
- All remote streaming-service calls are left out: client and authorisation
  set-up, search, start/pause playback, the device list and the current playback.
  So is `add_to_playlist`, which is a network side effect with no policy. The
  policy functions take the service's answers as inputs and return commands.
- The remote search is a function parameter of `SearchTrackUri`, applied to the
  query. The limit of one result it is also given is not modelled: the model takes
  whatever results come back and uses the first. A result without a `uri` key would
  raise inside the handler and return None; this is not modelled.
- Signal handlers, process exit, configuration loading and the logger are left
  out. Logging appears only as the ghost transition log of the state manager. The
  extra info/debug messages of the two queries are not modelled.
- The wall clock is an explicit integer parameter.
- The constructor of the loop object calls `set_clean_state`
  (src/now_playing.py:43, :104), which the state manager does not define. The
  resulting `AttributeError` is raised in the constructor, outside the loop's
  exception handler, so the program as written stops before the loop ever runs.
  `Detection.NowPlaying.constructor` assumes construction succeeds and keeps only
  that call's effect on state, which is none: the room starts in `Unknown`. Every
  lemma about runs "from start-up" (`NeverIdleOrStopped`,
  `RepeatedSongTransitionsOnce`) rests on that assumption.
- `Detection.NowPlaying.HandleNoMusicDetected`: the body behind the
  missing-member test is a placeholder message. It is never reached, so it is not
  modelled.
- Device ids are modelled as always present strings. The service can report a
  device without an id; that case is not modelled.
- `SpotifyPolicy.PausePlaybackCommand`: with no playback snapshot, the program
  raises while reading it. The model returns `Failure(NoCurrentPlayback)` instead.
- The spotify service is constructed by the loop but never called in this
  revision. No link between the room state and the playback commands is modelled.
- Debounce counting, the rolling audio buffer, the stop-near-end-of-track check,
  saving and restoring sessions, and album-preferring track resolution are left
  out. None of them has code in the modelled files.
- `Detection.NowPlaying.Run` models the unbounded loop over any finite prefix of
  its iterations. Termination of the process is outside the model.
