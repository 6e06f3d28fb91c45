/**
  The room's play state and its silence timer.

  The room state is the program's belief about what is physically sounding
  near the microphone; it is independent of the remote player. The values
  (PlayState, PlayingState, AppState) are immutable and are described by the
  pure functions below; the `StateManager` object holds the current value and
  the time music was last detected, and replaces them in place.

  Clock readings are integers in microseconds, the resolution of the
  timestamps the program compares.
*/
module StateManagement {
  import opened Wrappers

  datatype PlayState = Idle | Playing | Stopped | Unknown

  /** The song believed to be sounding in the room. */
  datatype PlayingState = PlayingState(songTitle: string, songArtist: string)

  datatype AppState = AppState(current: PlayState, data: Option<PlayingState>)

  /** One "state changed from ... to ..." log entry. */
  datatype Transition = Transition(from: PlayState, to: PlayState)

  /** One minute, in clock units (microseconds). */
  const OneMinute: int := 60_000_000

  /** The state a fresh StateManager starts in. */
  const InitialState: AppState := AppState(Unknown, None)

  /** The object invariant: a payload is present exactly when the room is playing. */
  predicate WellFormed(s: AppState)
  {
    s.data.Some? <==> s.current == Playing
  }

  /** The single case in which a requested transition is silently dropped. */
  predicate Suppressed(s: AppState, next: PlayState, data: Option<PlayingState>)
  {
    s.current == Stopped && next == Stopped && s.data == data
  }

  /** The log entries a requested transition emits. */
  function TransitionLog(s: AppState, next: PlayState, data: Option<PlayingState>): seq<Transition>
  {
    if Suppressed(s, next, data) then [] else [Transition(s.current, next)]
  }

  /** A dropped transition loses nothing: the old state already is the requested one. */
  lemma SuppressedTransitionLandsOnTarget(s: AppState, next: PlayState, data: Option<PlayingState>)
    requires Suppressed(s, next, data)
    ensures s == AppState(next, data)
    ensures TransitionLog(s, next, data) == []
  {
  }

  /** Every request other than Stopped-to-Stopped with an equal payload emits exactly one entry. */
  lemma OtherTransitionsAreLogged(s: AppState, next: PlayState, data: Option<PlayingState>)
    requires !(s.current == Stopped && next == Stopped && s.data == data)
    ensures TransitionLog(s, next, data) == [Transition(s.current, next)]
  {
  }

  /**
    True when no music has ever been detected, or when at least one minute
    (boundary included) has elapsed since it last was.
  */
  function SilentForAMinute(lastDetected: Option<int>, now: int): (silent: bool)
    ensures lastDetected.None? ==> silent
    ensures lastDetected.Some? ==> (silent <==> lastDetected.value + OneMinute <= now)
  {
    match lastDetected
    case None => true
    case Some(t) => now - t >= OneMinute
  }

  /** The silence predicate at its three kinds of input. */
  lemma SilenceCases(lastDetected: Option<int>, now: int)
    ensures lastDetected.None? ==> SilentForAMinute(lastDetected, now)
    ensures lastDetected.Some? && now == lastDetected.value + OneMinute ==> SilentForAMinute(lastDetected, now)
    ensures lastDetected.Some? && now < lastDetected.value + OneMinute ==> !SilentForAMinute(lastDetected, now)
  {
  }

  /** Within one minute after a detection at t, the room is not considered silent. */
  lemma NotSilentWithinAMinute(t: int, now: int)
    requires t <= now < t + OneMinute
    ensures !SilentForAMinute(Some(t), now)
  {
  }

  /** Once silent, the room stays silent as the clock advances (until music is detected again). */
  lemma SilenceIsMonotone(lastDetected: Option<int>, now: int, later: int)
    requires now <= later
    requires SilentForAMinute(lastDetected, now)
    ensures SilentForAMinute(lastDetected, later)
  {
  }

  /**
    True when the room is playing and a song other than the stored one was
    identified; false whenever the room is not playing.
  */
  function DifferentSongWhilePlaying(s: AppState, songTitle: string): (different: bool)
    requires WellFormed(s)
    ensures s.current != Playing ==> !different
    ensures s.current == Playing ==> (different <==> s.data.value.songTitle != songTitle)
  {
    s.current == Playing && PlayingData(s).songTitle != songTitle
  }

  lemma DifferentSongCases(s: AppState, songTitle: string)
    requires WellFormed(s)
    ensures s.current != Playing ==> !DifferentSongWhilePlaying(s, songTitle)
    ensures s.current == Playing ==> (DifferentSongWhilePlaying(s, songTitle) <==> s.data.value.songTitle != songTitle)
    ensures s.current == Playing && s.data.value.songTitle == songTitle ==> !DifferentSongWhilePlaying(s, songTitle)
  {
  }

  /** The payload of a playing room; reading it in any other state is a programming error. */
  function PlayingData(s: AppState): (p: PlayingState)
    requires s.current == Playing && WellFormed(s)
    ensures s.data == Some(p)
  {
    s.data.value
  }

  class StateManager {
    var state: AppState
    var lastMusicDetectedTime: Option<int>
    /** The transition log entries emitted so far. */
    ghost var log: seq<Transition>

    ghost predicate Valid()
      reads this
    {
      WellFormed(state)
    }

    constructor ()
      ensures Valid()
      ensures state == InitialState && lastMusicDetectedTime == None && log == []
    {
      state := InitialState;
      lastMusicDetectedTime := None;
      log := [];
    }

    /** Replaces the state, unless the request is a repeated Stopped with an equal payload. */
    method SetState(next: PlayState, data: Option<PlayingState>)
      modifies this`state, this`log
      ensures state == AppState(next, data)
      ensures log == old(log) + TransitionLog(old(state), next, data)
    {
      if Suppressed(state, next, data) {
        return;
      }
      log := log + [Transition(state.current, next)];
      state := AppState(next, data);
    }

    method SetIdleState()
      modifies this`state, this`log
      ensures Valid()
      ensures state == AppState(Idle, None)
      ensures log == old(log) + [Transition(old(state).current, Idle)]
    {
      SetState(Idle, None);
    }

    method SetPlayingState(songTitle: string, songArtist: string)
      modifies this`state, this`log
      ensures Valid()
      ensures state == AppState(Playing, Some(PlayingState(songTitle, songArtist)))
      ensures log == old(log) + [Transition(old(state).current, Playing)]
    {
      SetState(Playing, Some(PlayingState(songTitle, songArtist)));
    }

    method SetStoppedState()
      modifies this`state, this`log
      ensures Valid()
      ensures state == AppState(Stopped, None)
      ensures old(state) == AppState(Stopped, None) ==> log == old(log)
      ensures old(state) != AppState(Stopped, None) ==> log == old(log) + [Transition(old(state).current, Stopped)]
    {
      SetState(Stopped, None);
    }

    /** Stamps the silence timer with the clock reading `now`. */
    method UpdateLastMusicDetectedTime(now: int)
      modifies this`lastMusicDetectedTime
      ensures lastMusicDetectedTime == Some(now)
    {
      lastMusicDetectedTime := Some(now);
    }

    /** The silence query, read off the timer at clock reading `now`. */
    function NoMusicDetectedForMoreThanAMinute(now: int): (silent: bool)
      reads this
      ensures lastMusicDetectedTime.None? ==> silent
      ensures lastMusicDetectedTime.Some? ==> (silent <==> lastMusicDetectedTime.value + OneMinute <= now)
    {
      SilentForAMinute(lastMusicDetectedTime, now)
    }

    /** The song-change query on the current state. */
    function MusicStillPlayingButDifferentSongIdentified(songTitle: string): (different: bool)
      reads this
      requires Valid()
      ensures state.current != Playing ==> !different
      ensures state.current == Playing ==> (different <==> state.data.value.songTitle != songTitle)
    {
      DifferentSongWhilePlaying(state, songTitle)
    }

    /** The current state; as a function it can change nothing. */
    function GetState(): (s: AppState)
      reads this
      requires Valid()
      ensures s == state && WellFormed(s)
    {
      state
    }

    function GetPlayingState(): (p: PlayingState)
      reads this
      requires Valid() && state.current == Playing
      ensures state.data == Some(p)
    {
      PlayingData(state)
    }
  }

  /**
    A client of the object: after stamping the timer at t, the silence query
    is false for every reading in the following minute, and the room state
    and its invariant are untouched.
  */
  method StampThenQuery(sm: StateManager, t: int, now: int) returns (silent: bool)
    requires sm.Valid()
    requires t <= now < t + OneMinute
    modifies sm
    ensures sm.Valid() && sm.state == old(sm.state) && sm.log == old(sm.log)
    ensures !silent
  {
    sm.UpdateLastMusicDetectedTime(t);
    silent := sm.NoMusicDetectedForMoreThanAMinute(now);
    NotSilentWithinAMinute(t, now);
  }
}
