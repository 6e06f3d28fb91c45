/**
  The detection loop.

  Each iteration records a window of audio, asks a classifier whether it is
  music and, if so, asks an identifier which song it is; the room state is
  then updated from the answers. Recording, classification and
  identification are collaborators outside this model, so one iteration is
  described by a `Tick`: what those collaborators produced (or that one of
  them raised) and the clock reading at that moment.

  Any error raised inside an iteration is caught and the loop goes on with
  the next one. In this revision the silence branch always raises, because it
  compares the room state with an enumeration member that does not exist.
*/
module Detection {
  import opened Wrappers
  import opened StateManagement

  /** A song as the identifier reports it. */
  datatype SongInfo = SongInfo(title: string, artist: string)

  /** What identification of a music window produced. */
  datatype Identification = IdentifyRaised | NoMatch | Match(song: SongInfo)

  /** What recording and classification produced in one iteration. */
  datatype Observation = RecordingRaised | NoMusic | Music(identification: Identification)

  /** The error that a caught exception stands for. */
  datatype Fault = RecordingFailed | IdentificationFailed | MissingPlayStateMember

  /** How an iteration ended: normally, or with an exception the loop caught. */
  datatype Outcome = Completed | Caught(fault: Fault)

  /** The inputs of one iteration: the collaborators' results and the clock. */
  datatype Tick = Tick(observation: Observation, now: int)

  /** Everything an iteration can change: the room state, the silence timer and the log. */
  datatype Room = Room(state: AppState, lastDetected: Option<int>, log: seq<Transition>)

  const InitialRoom: Room := Room(InitialState, None, [])

  /** How an iteration with this observation ends; it does not depend on the room. */
  function OutcomeOf(observation: Observation): Outcome
  {
    match observation
    case RecordingRaised => Caught(RecordingFailed)
    case NoMusic => Caught(MissingPlayStateMember)
    case Music(IdentifyRaised) => Caught(IdentificationFailed)
    case Music(_) => Completed
  }

  /** The condition under which an identified song becomes the room's playing song. */
  function ShouldSetPlaying(s: AppState, song: SongInfo): (play: bool)
    requires WellFormed(s)
    ensures play <==> (s.current == Playing ==> s.data.value.songTitle != song.title)
  {
    s.current != Playing || DifferentSongWhilePlaying(s, song.title)
  }

  /** The room after a playing transition to `song`. */
  function SetPlaying(r: Room, song: SongInfo): Room
  {
    var data := Some(PlayingState(song.title, song.artist));
    Room(AppState(Playing, data), r.lastDetected, r.log + TransitionLog(r.state, Playing, data))
  }

  /** The room after one iteration. */
  function Step(r: Room, tick: Tick): (r': Room)
    requires WellFormed(r.state)
    ensures WellFormed(r'.state)
  {
    match tick.observation
    case Music(NoMatch) => r.(lastDetected := Some(tick.now))
    case Music(Match(song)) =>
      var r1 := if ShouldSetPlaying(r.state, song) then SetPlaying(r, song) else r;
      r1.(lastDetected := Some(tick.now))
    case _ => r
  }

  /** The room after the iterations `ticks`, in order, starting from `r`. */
  function RunFrom(r: Room, ticks: seq<Tick>): (r': Room)
    requires WellFormed(r.state)
    ensures WellFormed(r'.state)
    decreases |ticks|
  {
    if ticks == [] then r else Step(RunFrom(r, ticks[..|ticks| - 1]), ticks[|ticks| - 1])
  }

  // ---------------------------------------------------------------------
  // One iteration

  /** Music that cannot be identified leaves the room state alone but stamps the timer. */
  lemma UnidentifiedMusicKeepsState(r: Room, now: int)
    requires WellFormed(r.state)
    ensures Step(r, Tick(Music(NoMatch), now)) == r.(lastDetected := Some(now))
  {
  }

  /** A song identified while the room is not playing starts playing it. */
  lemma IdentifiedSongStartsPlaying(r: Room, song: SongInfo, now: int)
    requires WellFormed(r.state) && r.state.current != Playing
    ensures Step(r, Tick(Music(Match(song)), now)) ==
            Room(AppState(Playing, Some(PlayingState(song.title, song.artist))), Some(now),
                 r.log + [Transition(r.state.current, Playing)])
  {
  }

  /**
    The song already playing, identified again, causes no transition; the
    stored artist is kept even when the identifier reports a different one.
  */
  lemma SameTitleKeepsPlaying(r: Room, song: SongInfo, now: int)
    requires WellFormed(r.state) && r.state.current == Playing
    requires r.state.data.value.songTitle == song.title
    ensures Step(r, Tick(Music(Match(song)), now)) == r.(lastDetected := Some(now))
  {
  }

  /** A different title while playing replaces the payload and logs a Playing-to-Playing transition. */
  lemma DifferentTitleReplacesSong(r: Room, song: SongInfo, now: int)
    requires WellFormed(r.state) && r.state.current == Playing
    requires r.state.data.value.songTitle != song.title
    ensures Step(r, Tick(Music(Match(song)), now)) ==
            Room(AppState(Playing, Some(PlayingState(song.title, song.artist))), Some(now),
                 r.log + [Transition(Playing, Playing)])
  {
  }

  /** An iteration that completes always stamps the timer and leaves the room playing or as it was. */
  lemma CompletedIterationStamps(r: Room, tick: Tick)
    requires WellFormed(r.state)
    requires OutcomeOf(tick.observation) == Completed
    ensures Step(r, tick).lastDetected == Some(tick.now)
    ensures tick.observation.identification.Match? ==>
              Step(r, tick).state.current == Playing &&
              Step(r, tick).state.data.value.songTitle == tick.observation.identification.song.title
  {
  }

  /** An iteration that raises (including every silent one) changes nothing. */
  lemma FailedIterationChangesNothing(r: Room, tick: Tick)
    requires WellFormed(r.state)
    requires OutcomeOf(tick.observation).Caught?
    ensures Step(r, tick) == r
  {
  }

  // ---------------------------------------------------------------------
  // Runs of iterations

  /** Across any run, the room either keeps its state kind or ends up playing. */
  lemma {:induction false} RunOnlyReachesPlaying(r: Room, ticks: seq<Tick>)
    requires WellFormed(r.state)
    ensures RunFrom(r, ticks).state.current in {r.state.current, Playing}
    decreases |ticks|
  {
    if ticks != [] {
      RunOnlyReachesPlaying(r, ticks[..|ticks| - 1]);
    }
  }

  /** Once playing, the room stays playing: nothing in this revision leaves Playing. */
  lemma {:induction false} PlayingIsPermanent(r: Room, ticks: seq<Tick>)
    requires WellFormed(r.state) && r.state.current == Playing
    ensures RunFrom(r, ticks).state.current == Playing
  {
    RunOnlyReachesPlaying(r, ticks);
  }

  /** From start-up the room is never Idle or Stopped: only Unknown, then Playing. */
  lemma {:induction false} NeverIdleOrStopped(ticks: seq<Tick>)
    ensures RunFrom(InitialRoom, ticks).state.current !in {Idle, Stopped}
  {
    RunOnlyReachesPlaying(InitialRoom, ticks);
  }

  /** A run in which every iteration raises leaves the room exactly as it was. */
  lemma {:induction false} FailingRunChangesNothing(r: Room, ticks: seq<Tick>)
    requires WellFormed(r.state)
    requires forall i :: 0 <= i < |ticks| ==> OutcomeOf(ticks[i].observation).Caught?
    ensures RunFrom(r, ticks) == r
    decreases |ticks|
  {
    if ticks != [] {
      FailingRunChangesNothing(r, ticks[..|ticks| - 1]);
    }
  }

  /**
    The log only grows, by at most one entry per iteration, and every entry
    a run adds is a transition into Playing.
  */
  lemma {:induction false} RunLogsOnlyPlaying(r: Room, ticks: seq<Tick>)
    requires WellFormed(r.state)
    ensures |r.log| <= |RunFrom(r, ticks).log| <= |r.log| + |ticks|
    ensures RunFrom(r, ticks).log[..|r.log|] == r.log
    ensures forall k :: |r.log| <= k < |RunFrom(r, ticks).log| ==> RunFrom(r, ticks).log[k].to == Playing
    decreases |ticks|
  {
    if ticks != [] {
      RunLogsOnlyPlaying(r, ticks[..|ticks| - 1]);
    }
  }

  /** The timer holds the clock reading of the last iteration that completed. */
  lemma {:induction false} TimerIsLastCompletedIteration(r: Room, ticks: seq<Tick>, i: nat)
    requires WellFormed(r.state)
    requires i < |ticks| && OutcomeOf(ticks[i].observation) == Completed
    requires forall j :: i < j < |ticks| ==> OutcomeOf(ticks[j].observation).Caught?
    ensures RunFrom(r, ticks).lastDetected == Some(ticks[i].now)
    decreases |ticks|
  {
    if i < |ticks| - 1 {
      TimerIsLastCompletedIteration(r, ticks[..|ticks| - 1], i);
    }
  }

  /** Within a minute of the last completed iteration, the room is not silent. */
  lemma {:induction false} NotSilentSoonAfterMusic(r: Room, ticks: seq<Tick>, i: nat, now: int)
    requires WellFormed(r.state)
    requires i < |ticks| && OutcomeOf(ticks[i].observation) == Completed
    requires forall j :: i < j < |ticks| ==> OutcomeOf(ticks[j].observation).Caught?
    requires ticks[i].now <= now < ticks[i].now + OneMinute
    ensures !SilentForAMinute(RunFrom(r, ticks).lastDetected, now)
  {
    TimerIsLastCompletedIteration(r, ticks, i);
    NotSilentWithinAMinute(ticks[i].now, now);
  }

  /**
    The same song identified on three consecutive iterations from start-up
    causes a single transition, Unknown to Playing, on the first of them.
  */
  lemma RepeatedSongTransitionsOnce(song: SongInfo, t1: int, t2: int, t3: int)
    ensures RunFrom(InitialRoom, [Tick(Music(Match(song)), t1), Tick(Music(Match(song)), t2), Tick(Music(Match(song)), t3)]) ==
            Room(AppState(Playing, Some(PlayingState(song.title, song.artist))), Some(t3), [Transition(Unknown, Playing)])
  {
    var ticks := [Tick(Music(Match(song)), t1), Tick(Music(Match(song)), t2), Tick(Music(Match(song)), t3)];
    var playing := Room(AppState(Playing, Some(PlayingState(song.title, song.artist))), Some(t1), [Transition(Unknown, Playing)]);
    assert ticks[..1][..0] == [];
    assert RunFrom(InitialRoom, ticks[..1]) == playing;
    assert ticks[..2][..1] == ticks[..1];
    assert RunFrom(InitialRoom, ticks[..2]) == playing.(lastDetected := Some(t2));
    assert ticks[..3][..2] == ticks[..2];
    assert ticks[..3] == ticks;
  }

  // ---------------------------------------------------------------------
  // The loop object

  class NowPlaying {
    const stateManager: StateManager

    ghost predicate Valid()
      reads this, stateManager
    {
      stateManager.Valid()
    }

    /** What an iteration can change, read off the owned state manager. */
    ghost function Snapshot(): Room
      reads this, stateManager
    {
      Room(stateManager.state, stateManager.lastMusicDetectedTime, stateManager.log)
    }

    /** Start-up; the call that would reset the state manager names no existing operation and is left out. */
    constructor ()
      ensures Valid() && fresh(stateManager)
      ensures Snapshot() == InitialRoom
    {
      stateManager := new StateManager();
    }

    /**
      The endless loop, over the finite prefix `ticks` of its iterations:
      every iteration runs, a caught error never ends the loop.
    */
    method Run(ticks: seq<Tick>) returns (outcomes: seq<Outcome>)
      requires Valid()
      modifies stateManager
      ensures Valid()
      ensures Snapshot() == RunFrom(old(Snapshot()), ticks)
      ensures |outcomes| == |ticks|
      ensures forall i :: 0 <= i < |ticks| ==> outcomes[i] == OutcomeOf(ticks[i].observation)
    {
      outcomes := [];
      var i := 0;
      while i < |ticks|
        invariant 0 <= i <= |ticks|
        invariant Valid()
        invariant Snapshot() == RunFrom(old(Snapshot()), ticks[..i])
        invariant |outcomes| == i
        invariant forall k :: 0 <= k < i ==> outcomes[k] == OutcomeOf(ticks[k].observation)
      {
        var o := Iterate(ticks[i]);
        outcomes := outcomes + [o];
        assert ticks[..i + 1][..i] == ticks[..i];
        i := i + 1;
      }
      assert ticks[..|ticks|] == ticks;
    }

    /** One iteration of the loop, with its exception handler. */
    method Iterate(tick: Tick) returns (o: Outcome)
      requires Valid()
      modifies stateManager
      ensures Valid()
      ensures Snapshot() == Step(old(Snapshot()), tick)
      ensures o == OutcomeOf(tick.observation)
    {
      match tick.observation
      case RecordingRaised =>
        o := Caught(RecordingFailed);
      case NoMusic =>
        o := HandleNoMusicDetected();
      case Music(identification) =>
        o := HandleMusicDetected(identification, tick.now);
    }

    method HandleMusicDetected(identification: Identification, now: int) returns (o: Outcome)
      requires Valid()
      modifies stateManager
      ensures Valid()
      ensures Snapshot() == Step(old(Snapshot()), Tick(Music(identification), now))
      ensures o == OutcomeOf(Music(identification))
    {
      if identification == IdentifyRaised {
        return Caught(IdentificationFailed);
      }
      if identification.Match? {
        var song := identification.song;
        if stateManager.GetState().current != Playing
           || stateManager.MusicStillPlayingButDifferentSongIdentified(song.title)
        {
          SetPlayingState(song);
        }
      }
      stateManager.UpdateLastMusicDetectedTime(now);
      o := Completed;
    }

    method SetPlayingState(song: SongInfo)
      requires Valid()
      modifies stateManager
      ensures Valid()
      ensures Snapshot() == SetPlaying(old(Snapshot()), song)
    {
      stateManager.SetPlayingState(song.title, song.artist);
    }

    /**
      The silence branch. Its first test names a play state that does not
      exist, so it always raises before reaching the silence query.
    */
    method HandleNoMusicDetected() returns (o: Outcome)
      ensures o == Caught(MissingPlayStateMember)
    {
      o := Caught(MissingPlayStateMember);
    }
  }
}
