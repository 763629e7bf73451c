/**
 * The first-generation `SpotifyiOS` player (`Sources/iOS/SpotifyiOS.swift`):
 * it keeps the last remote player state it was given, with its own start
 * instant and pause position, and reports to its delegate.
 */
module LegacySpotifyIOS {
  import opened Wrappers
  import opened Numbers
  import opened Tracks
  import opened Legacy
  import SpotifyIOSPlayers

  type RemotePlayerState = SpotifyIOSPlayers.RemotePlayerState

  /** `SPTAppRemotePlayerState.playbackState`: paused or playing. */
  function RemoteStateOf(s: RemotePlayerState): (r: MusicPlaybackState)
    ensures r == Paused <==> s.isPaused
    ensures r == Playing <==> !s.isPaused
  {
    if s.isPaused then Paused else Playing
  }

  /** The player's stored fields. */
  datatype RemoteFields = RemoteFields(
    playerState: Option<RemotePlayerState>,
    startTime: Option<real>,
    pausePosition: Option<real>)

  /** `playbackState`: the stored remote state's, stopped before any. */
  function PlaybackStateOf(f: RemoteFields): (r: MusicPlaybackState)
    ensures f.playerState.None? ==> r == Stopped
    ensures f.playerState.Some? ==> r == RemoteStateOf(f.playerState.value)
  {
    if f.playerState.None? then Stopped else RemoteStateOf(f.playerState.value)
  }

  /** `currentTrack`: the stored remote state's track. */
  function CurrentTrackOf(f: RemoteFields): (r: Option<Track>)
    ensures r.None? <==> f.playerState.None?
    ensures r.Some? ==> r.value.id == f.playerState.value.track.uri
  {
    if f.playerState.None? then None else Some(SpotifyIOSPlayers.TrackOf(f.playerState.value.track))
  }

  /** `playerPosition`: the pause position unless playing, else the time since the start instant. */
  function PositionOf(f: RemoteFields, now: real): (r: real)
    ensures !IsPlaying(PlaybackStateOf(f)) ==> r == f.pausePosition.GetOr(0.0)
    ensures IsPlaying(PlaybackStateOf(f)) && f.startTime.Some? ==> r == now - f.startTime.value
  {
    PlayerPosition(PauseAware, Fields(CurrentTrackOf(f), PlaybackStateOf(f), f.startTime, f.pausePosition), true, now)
  }

  /** The stored fields after a step and the callbacks it made. */
  datatype RemoteOutcome = RemoteOutcome(fields: RemoteFields, events: seq<DelegateEvent>)

  /** The URI of the stored state, if any. */
  function StoredUri(f: RemoteFields): Option<string>
  {
    if f.playerState.None? then None else Some(f.playerState.value.track.uri)
  }

  /** Whether the new state toggles pause on the same track. */
  predicate Toggles(f: RemoteFields, s: RemotePlayerState)
  {
    Some(s.track.uri) == StoredUri(f) && s.isPaused != f.playerState.value.isPaused
  }

  /**
   * `playerStateDidChange` as written. A new URI reports the track. On the
   * same track, a toggled pause stores a new start instant when the OLD
   * state is playing and a new pause position otherwise, reporting the
   * position when the stored value existed and moved by more than the
   * threshold. Otherwise a moved position is reported. The new state is
   * stored in every case.
   */
  function StepAsWritten(f: RemoteFields, s: RemotePlayerState, now: real): (o: RemoteOutcome)
    ensures o.fields.playerState == Some(s)
    ensures Some(s.track.uri) != StoredUri(f) ==>
      o.fields == f.(playerState := Some(s))
      && o.events == [CurrentTrackChanged(Some(SpotifyIOSPlayers.TrackOf(s.track)))]
    ensures Toggles(f, s) && IsPlaying(PlaybackStateOf(f)) ==>
      o.fields == f.(playerState := Some(s), startTime := Some(now - SpotifyIOSPlayers.Position(s)))
    ensures Toggles(f, s) && !IsPlaying(PlaybackStateOf(f)) ==>
      o.fields == f.(playerState := Some(s), pausePosition := Some(SpotifyIOSPlayers.Position(s)))
    ensures |o.events| <= 1
  {
    var stored := f.(playerState := Some(s));
    if Some(s.track.uri) != StoredUri(f) then
      RemoteOutcome(stored, [CurrentTrackChanged(Some(SpotifyIOSPlayers.TrackOf(s.track)))])
    else if s.isPaused != f.playerState.value.isPaused then
      if IsPlaying(PlaybackStateOf(f)) then
        var start := now - SpotifyIOSPlayers.Position(s);
        var g := f.(startTime := Some(start));
        var report := if Drifted(f.startTime, Some(start)) then [PlayerPositionMutated(PositionOf(g, now))] else [];
        RemoteOutcome(g.(playerState := Some(s)), report)
      else
        var pause := SpotifyIOSPlayers.Position(s);
        var g := f.(pausePosition := Some(pause));
        var report := if Drifted(f.pausePosition, Some(pause)) then [PlayerPositionMutated(PositionOf(g, now))] else [];
        RemoteOutcome(g.(playerState := Some(s)), report)
    else if s.playbackPosition != f.playerState.value.playbackPosition then
      RemoteOutcome(stored, [PlayerPositionMutated(SpotifyIOSPlayers.Position(s))])
    else RemoteOutcome(stored, [])
  }

  /**
   * As written, pausing a playing track at 30 seconds leaves the player
   * reporting position 0 (no pause position was ever stored), and resuming
   * it leaves the start instant where it was before the pause.
   */
  lemma StepAsWrittenLosesPausePosition(track: SpotifyIOSPlayers.RemoteTrack)
    ensures var playing := SpotifyIOSPlayers.RemotePlayerState(false, 0, track);
      var paused := SpotifyIOSPlayers.RemotePlayerState(true, 30000, track);
      var f := RemoteFields(Some(playing), Some(70.0), None);
      var o := StepAsWritten(f, paused, 100.0);
      SpotifyIOSPlayers.Position(paused) == 30.0 && PositionOf(o.fields, 100.0) == 0.0
    ensures var paused := SpotifyIOSPlayers.RemotePlayerState(true, 30000, track);
      var resumed := SpotifyIOSPlayers.RemotePlayerState(false, 30000, track);
      var f := RemoteFields(Some(paused), Some(40.0), Some(30.0));
      var o := StepAsWritten(f, resumed, 100.0);
      PositionOf(o.fields, 100.0) == 60.0
  {
    var playing := SpotifyIOSPlayers.RemotePlayerState(false, 0, track);
    var paused := SpotifyIOSPlayers.RemotePlayerState(true, 30000, track);
    var resumed := SpotifyIOSPlayers.RemotePlayerState(false, 30000, track);
    assert Toggles(RemoteFields(Some(playing), Some(70.0), None), paused);
    assert Toggles(RemoteFields(Some(paused), Some(40.0), Some(30.0)), resumed);
  }

  /**
   * `playerStateDidChange` with the toggle branch testing the NEW state: a
   * resume stores the start instant and a pause the pause position; a move
   * by more than the threshold is reported with the new position.
   */
  function Step(f: RemoteFields, s: RemotePlayerState, now: real): (o: RemoteOutcome)
    ensures o.fields.playerState == Some(s)
    ensures Some(s.track.uri) != StoredUri(f) ==>
      o.fields == f.(playerState := Some(s))
      && o.events == [CurrentTrackChanged(Some(SpotifyIOSPlayers.TrackOf(s.track)))]
    ensures Toggles(f, s) && !s.isPaused ==>
      o.fields == f.(playerState := Some(s), startTime := Some(now - SpotifyIOSPlayers.Position(s)))
    ensures Toggles(f, s) && s.isPaused ==>
      o.fields == f.(playerState := Some(s), pausePosition := Some(SpotifyIOSPlayers.Position(s)))
    ensures |o.events| <= 1
    ensures forall i | 0 <= i < |o.events| :: o.events[i].PlayerPositionMutated? ==>
      o.events[i].position == SpotifyIOSPlayers.Position(s)
  {
    var stored := f.(playerState := Some(s));
    if Some(s.track.uri) != StoredUri(f) then
      RemoteOutcome(stored, [CurrentTrackChanged(Some(SpotifyIOSPlayers.TrackOf(s.track)))])
    else if s.isPaused != f.playerState.value.isPaused then
      if !s.isPaused then
        var start := now - SpotifyIOSPlayers.Position(s);
        var report := if Drifted(f.startTime, Some(start)) then [PlayerPositionMutated(SpotifyIOSPlayers.Position(s))] else [];
        RemoteOutcome(stored.(startTime := Some(start)), report)
      else
        var pause := SpotifyIOSPlayers.Position(s);
        var report := if Drifted(f.pausePosition, Some(pause)) then [PlayerPositionMutated(pause)] else [];
        RemoteOutcome(stored.(pausePosition := Some(pause)), report)
    else if s.playbackPosition != f.playerState.value.playbackPosition then
      RemoteOutcome(stored, [PlayerPositionMutated(SpotifyIOSPlayers.Position(s))])
    else RemoteOutcome(stored, [])
  }

  /** After the corrected step toggles pause, the player reports exactly the remote position. */
  lemma StepToggleKeepsPosition(f: RemoteFields, s: RemotePlayerState, now: real)
    requires Toggles(f, s)
    ensures PositionOf(Step(f, s, now).fields, now) == SpotifyIOSPlayers.Position(s)
  {
    var g := Step(f, s, now).fields;
    assert PlaybackStateOf(g) == RemoteStateOf(s);
  }

  /** The two steps differ only in a toggle: elsewhere they agree. */
  lemma StepAgreesAsWrittenOffToggle(f: RemoteFields, s: RemotePlayerState, now: real)
    requires !Toggles(f, s)
    ensures Step(f, s, now) == StepAsWritten(f, s, now)
  {
  }

  /** What `playPause` asks the remote for. */
  datatype RemoteRequest = ResumeRequest | PauseRequest

  /** `playPause`: pause a playing player, resume any other. */
  function PlayPauseRequest(f: RemoteFields): (r: RemoteRequest)
    ensures r == PauseRequest <==> f.playerState.Some? && !f.playerState.value.isPaused
  {
    if IsPlaying(PlaybackStateOf(f)) then PauseRequest else ResumeRequest
  }

  /** `SPTAppRemotePlaybackOptionsRepeatMode` */
  datatype RepeatOption = OptionOff | OptionTrack | OptionContext

  /** `SPTAppRemotePlaybackOptionsRepeatMode.mode` */
  function RepeatModeOf(o: RepeatOption): (m: MusicRepeatMode)
    ensures (m == RepeatOff) == (o == OptionOff) && (m == RepeatAll) == (o == OptionContext)
  {
    match o
    case OptionOff => RepeatOff
    case OptionTrack => RepeatOne
    case OptionContext => RepeatAll
  }

  /** `SPTAppRemotePlaybackOptionsRepeatMode.init(_:)`, what the `repeatMode` setter sends. */
  function RepeatOptionOf(m: MusicRepeatMode): (o: RepeatOption)
    ensures RepeatModeOf(o) == m
  {
    match m
    case RepeatOff => OptionOff
    case RepeatOne => OptionTrack
    case RepeatAll => OptionContext
  }

  /** The two conversions are inverse to each other. */
  lemma RepeatRoundTrip(m: MusicRepeatMode, o: RepeatOption)
    ensures RepeatModeOf(RepeatOptionOf(m)) == m
    ensures RepeatOptionOf(RepeatModeOf(o)) == o
  {
  }

  /** The `shuffleMode` setter sends whether the mode is not off. */
  function ShuffleOf(m: MusicShuffleMode): (on: bool)
    ensures on <==> m != ShuffleOff
  {
    m != ShuffleOff
  }

  class SpotifyIOS {
    var playerState: Option<RemotePlayerState>
    var startTime: Option<real>
    var pausePosition: Option<real>
    var events: seq<DelegateEvent>
    /** `isAuthorized`: whether the app-remote connection is up. */
    var isConnected: bool

    function Fields(): RemoteFields
      reads this
    {
      RemoteFields(playerState, startTime, pausePosition)
    }

    /** `init`: nothing is known until the first player state arrives. */
    constructor (isConnected: bool)
      ensures Fields() == RemoteFields(None, None, None) && events == [] && this.isConnected == isConnected
    {
      playerState := None;
      startTime := None;
      pausePosition := None;
      events := [];
      this.isConnected := isConnected;
    }

    /** `playerStateDidChange`, as written: the toggle branch tests the stored state. */
    method PlayerStateDidChange(s: RemotePlayerState, now: real)
      modifies this
      ensures Fields() == StepAsWritten(old(Fields()), s, now).fields
      ensures events == old(events) + StepAsWritten(old(Fields()), s, now).events
      ensures isConnected == old(isConnected)
    {
      var o := StepAsWritten(Fields(), s, now);
      playerState := o.fields.playerState;
      startTime := o.fields.startTime;
      pausePosition := o.fields.pausePosition;
      events := events + o.events;
    }

    /**
     * The `playerPosition` setter: without a connection nothing; else the
     * start instant moves and a seek to the truncated millisecond position
     * is sent.
     */
    method SetPlayerPosition(p: real, now: real) returns (seek: Option<int>)
      modifies this`startTime
      ensures !isConnected ==> seek.None? && startTime == old(startTime)
      ensures isConnected ==> seek == Some(Truncate(p * 1000.0)) && startTime == Some(now - p)
    {
      if !isConnected {
        return None;
      }
      startTime := Some(now - p);
      seek := Some(Truncate(p * 1000.0));
    }
  }
}
