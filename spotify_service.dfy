/**
  The playback-control policy of the streaming-service wrapper.

  The remote service is not modelled: each operation receives what the
  service reported (a search response, the current playback snapshot, the
  device list) and returns the command it would send, if any, instead of
  sending it.
*/
module SpotifyPolicy {
  import opened Wrappers

  /** A playback device as the device list reports it. */
  datatype Device = Device(id: string, name: string)

  /** A track result or a loaded track; only its uri matters to the policy. */
  datatype Track = Track(uri: string)

  /** The current playback snapshot. */
  datatype Playback = Playback(isPlaying: bool, device: Device, item: Option<Track>, progressMs: nat)

  /** A remote command. A device id of None leaves the choice of device to the service. */
  datatype Command =
    | StartPlayback(deviceId: Option<string>, uris: seq<string>, positionMs: Option<nat>)
    | PausePlayback(deviceId: Option<string>)

  /** The search call either raised or returned its (possibly empty) track results. */
  datatype SearchResponse = SearchRaised | Tracks(items: seq<Track>)

  datatype PlaybackError = NoCurrentPlayback

  /** The search query for a title and an artist: the title after `track:`, then the artist after ` artist:`. */
  function SearchQuery(title: string, artist: string): (query: string)
    ensures |query| == 6 + |title| + 8 + |artist|
    ensures query[..6] == "track:" && query[6..6 + |title|] == title
    ensures query[6 + |title|..6 + |title| + 8] == " artist:" && query[6 + |title| + 8..] == artist
  {
    "track:" + title + " artist:" + artist
  }

  /**
    Searches with the query for `title` and `artist`, where `search` stands
    for the remote search call; the result is the uri of the first track
    found, or None when there is none or the search raised.
  */
  function SearchTrackUri(title: string, artist: string, search: string -> SearchResponse): (uri: Option<string>)
    ensures var response := search(SearchQuery(title, artist));
            (uri.None? <==> response.SearchRaised? || response.items == []) &&
            (uri.Some? ==> uri.value == response.items[0].uri)
  {
    match search(SearchQuery(title, artist))
    case SearchRaised => None
    case Tracks(items) => if items == [] then None else Some(items[0].uri)
  }

  /** Something is playing, on a device other than the requested one. */
  predicate InUseElsewhere(playback: Option<Playback>, deviceId: Option<string>)
  {
    playback.Some? && playback.value.isPlaying && Some(playback.value.device.id) != deviceId
  }

  /** The loaded track is one of the requested ones. */
  predicate AlreadyLoaded(playback: Option<Playback>, uris: seq<string>)
  {
    playback.Some? && playback.value.item.Some? && playback.value.item.value.uri in uris
  }

  /**
    The command that playing `uris` on `deviceId` sends: none when another
    device is in use; a resume at the current position when one of the
    requested tracks is already loaded; otherwise a fresh start.
  */
  function PlaySong(playback: Option<Playback>, uris: seq<string>, deviceId: Option<string>): (c: Option<Command>)
    ensures c.None? <==> InUseElsewhere(playback, deviceId)
    ensures c.Some? ==> c.value.StartPlayback? && c.value.deviceId == deviceId && c.value.uris == uris
    ensures c.Some? ==> (c.value.positionMs.Some? <==> AlreadyLoaded(playback, uris))
    ensures c.Some? && c.value.positionMs.Some? ==> c.value.positionMs.value == playback.value.progressMs
  {
    if InUseElsewhere(playback, deviceId) then None
    else if AlreadyLoaded(playback, uris) then Some(StartPlayback(deviceId, uris, Some(playback.value.progressMs)))
    else Some(StartPlayback(deviceId, uris, None))
  }

  /** Nothing playing, or playing on the requested device, is never refused. */
  lemma PlayNotRefusedWhenFree(playback: Option<Playback>, uris: seq<string>, deviceId: Option<string>)
    requires playback.None? || !playback.value.isPlaying || deviceId == Some(playback.value.device.id)
    ensures PlaySong(playback, uris, deviceId).Some?
  {
  }

  /** A track already playing on the requested device is resumed where it is, not restarted. */
  lemma PlayResumesLoadedTrack(p: Playback, uris: seq<string>)
    requires p.item.Some? && p.item.value.uri in uris
    ensures PlaySong(Some(p), uris, Some(p.device.id)) == Some(StartPlayback(Some(p.device.id), uris, Some(p.progressMs)))
  {
  }

  /**
    The command that pausing `deviceId` sends: a pause exactly when playback
    is active on that device. A missing snapshot is an error.
  */
  function PausePlaybackCommand(playback: Option<Playback>, deviceId: Option<string>): (r: Result<Option<Command>, PlaybackError>)
    ensures playback.None? <==> r == Failure(NoCurrentPlayback)
    ensures playback.Some? ==> r.Success?
    ensures playback.Some? ==> (r.value.Some? <==> playback.value.isPlaying && Some(playback.value.device.id) == deviceId)
    ensures r.Success? && r.value.Some? ==> r.value.value == PausePlayback(deviceId)
  {
    match playback
    case None => Failure(NoCurrentPlayback)
    case Some(p) =>
      if p.isPlaying && Some(p.device.id) == deviceId then Success(Some(PausePlayback(deviceId)))
      else Success(None)
  }

  /**
    Play and pause agree on whose device it is: when playing on a device is
    refused, pausing that device sends nothing, and when pausing it sends a
    pause, playing on it is not refused.
  */
  lemma PlayAndPauseAgreeOnOwnership(playback: Option<Playback>, uris: seq<string>, deviceId: Option<string>)
    ensures PlaySong(playback, uris, deviceId).None? ==> PausePlaybackCommand(playback, deviceId) == Success(None)
    ensures PausePlaybackCommand(playback, deviceId) == Success(Some(PausePlayback(deviceId))) ==> PlaySong(playback, uris, deviceId).Some?
  {
  }

  /** The id of the first device called `name`, or None when no device is. */
  method GetDeviceId(devices: seq<Device>, name: string) returns (id: Option<string>)
    ensures id.None? <==> forall i :: 0 <= i < |devices| ==> devices[i].name != name
    ensures id.Some? ==> exists i :: 0 <= i < |devices| && devices[i].name == name && devices[i].id == id.value
                                     && forall j :: 0 <= j < i ==> devices[j].name != name
  {
    for k := 0 to |devices|
      invariant forall j :: 0 <= j < k ==> devices[j].name != name
    {
      if devices[k].name == name {
        return Some(devices[k].id);
      }
    }
    return None;
  }
}
