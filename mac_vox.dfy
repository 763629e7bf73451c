/** The classic `Vox` controller on macOS. */
module MacVox {
  import opened Wrappers
  import opened Playback
  import opened Tracks
  import opened PlayerNames
  import opened PlayerModes
  import opened Notices
  import opened Reconcile
  import opened Controllers
  import opened Selection

  /** What the handlers read of the application; `playerState` is an integer code. */
  datatype App = App(
    playerState: Option<int>,
    uniqueID: Option<string>,
    currentTime: Option<real>,
    track: Option<string>,
    album: Option<string>,
    artist: Option<string>,
    totalTime: Option<real>,
    trackUrl: Option<string>,
    repeatState: Option<int>)

  /** The class `name` as written: the case of another player. */
  const NameAsWritten: MusicPlayerName := Spotify

  /** The class `name` the controller evidently means. */
  const Name: MusicPlayerName := Vox

  /**
   * As written, pinning the manager to Vox never finds the running, playing
   * Vox controller, and pinning it to Spotify takes the Vox controller
   * when it comes first; with the corrected name both pins behave.
   */
  lemma NameAsWrittenMisleadsPreference(st: PlaybackState)
    ensures var asWritten := Candidate(NameAsWritten, st, true);
      ManagerSelect([asWritten], None, Some(Vox), MacOS) == NoPlayer
      && ManagerSelect([asWritten, Candidate(Spotify, st, true)], None, Some(Spotify), MacOS) == Pick(0)
    ensures var corrected := Candidate(Name, st, true);
      ManagerSelect([corrected], None, Some(Vox), MacOS) == Pick(0)
      && ManagerSelect([corrected, Candidate(Spotify, st, true)], None, Some(Spotify), MacOS) == Pick(1)
  {
    var asWritten := Candidate(NameAsWritten, st, true);
    assert NameIs(Spotify)([asWritten, Candidate(Spotify, st, true)][0]);
    var corrected := Candidate(Name, st, true);
    assert NameIs(Vox)([corrected][0]);
    assert NameIs(Spotify)([corrected, Candidate(Spotify, st, true)][1]);
  }

  /** `_currentTrack`: no track without a unique id; otherwise the track under that id. */
  function CurrentTrackOf(app: App): (r: Option<Track>)
    ensures IdOf(r) == app.uniqueID
    ensures r.Some? ==>
      r.value.title == app.track && r.value.album == app.album && r.value.artist == app.artist
      && r.value.duration == app.totalTime && r.value.url == app.trackUrl
  {
    match app.uniqueID
    case None => None
    case Some(id) => Some(Track(id, app.track, app.album, app.artist, app.totalTime, app.trackUrl))
  }

  /** `_playbackState`: playing at the current time for state code 1, stopped otherwise, paused included. */
  function StateOf(app: App, now: real): (r: PlaybackState)
    ensures r.Stopped? || r.Playing?
    ensures r.Playing? <==> app.playerState == Some(1) && app.currentTime.Some?
    ensures r.Playing? ==> Time(r, now) == app.currentTime.value
  {
    if app.playerState == Some(1) && app.currentTime.Some? then PlayingAt(app.currentTime.value, now) else Stopped
  }

  method Launch(isRunning: bool, app: App, now: real) returns (c: MusicPlayerController)
    ensures fresh(c) && c.name == NameAsWritten && c.isRunning == isRunning
    ensures isRunning ==>
      c.playbackState == StateOf(app, now) && c.currentTrack == CurrentTrackOf(app)
      && c.posted == [PlaybackStateDidChange, CurrentTrackDidChange]
    ensures !isRunning ==> c.playbackState == Stopped && c.currentTrack == None && c.posted == []
  {
    c := new MusicPlayerController(NameAsWritten, isRunning);
    if isRunning {
      c.AssignState(StateOf(app, now));
      c.AssignTrack(CurrentTrackOf(app));
    }
  }

  /** `updatePlayerState` (and `updatePlaybackTime`): the tolerant update, when running. */
  method UpdatePlayerState(c: MusicPlayerController, app: App, now: real)
    modifies c
    ensures !old(c.isRunning) ==> unchanged(c)
    ensures old(c.isRunning) ==>
      c.playbackState == Reconciled(old(c.playbackState), StateOf(app, now), PlaybackTimeMutateThreshold)
      && c.currentTrack == old(c.currentTrack) && c.isRunning
      && c.posted == old(c.posted)
         + if ShouldReplace(old(c.playbackState), StateOf(app, now), PlaybackTimeMutateThreshold) then [PlaybackStateDidChange] else []
  {
    if !c.isRunning {
      return;
    }
    c.SetPlaybackState(StateOf(app, now), PlaybackTimeMutateThreshold);
  }

  /**
   * `trackChangeNotification`: when running, a unique id other than the
   * current track's replaces track and state outright; the same id goes
   * through the tolerant update.
   */
  method TrackChangeNotification(c: MusicPlayerController, app: App, now: real)
    modifies c
    ensures !old(c.isRunning) ==> unchanged(c)
    ensures old(c.isRunning) && app.uniqueID != IdOf(old(c.currentTrack)) ==>
      c.currentTrack == CurrentTrackOf(app) && c.playbackState == StateOf(app, now)
      && c.posted == old(c.posted) + [CurrentTrackDidChange, PlaybackStateDidChange]
    ensures old(c.isRunning) && app.uniqueID == IdOf(old(c.currentTrack)) ==>
      c.currentTrack == old(c.currentTrack)
      && c.playbackState == Reconciled(old(c.playbackState), StateOf(app, now), PlaybackTimeMutateThreshold)
      && c.posted == old(c.posted)
         + if ShouldReplace(old(c.playbackState), StateOf(app, now), PlaybackTimeMutateThreshold) then [PlaybackStateDidChange] else []
    ensures c.isRunning == old(c.isRunning)
  {
    if !c.isRunning {
      return;
    }
    c.UpdateTrackAndState(CurrentTrackOf(app), StateOf(app, now));
  }

  /** The `playbackTime` setter: when running, move the stored state to `t`. */
  method SetPlaybackTime(c: MusicPlayerController, t: real, now: real)
    modifies c
    ensures !old(c.isRunning) ==> unchanged(c)
    ensures old(c.isRunning) ==>
      c.playbackState == WithTime(old(c.playbackState), t, now)
      && c.currentTrack == old(c.currentTrack) && c.isRunning
      && c.posted == old(c.posted) + [PlaybackStateDidChange]
  {
    if !c.isRunning {
      return;
    }
    c.AssignState(WithTime(c.playbackState, t, now));
  }

  /** The `repeatMode` getter: codes 0, 1, 2 are off, one, all; anything else, or none, is off. */
  function RepeatModeOf(repeatState: Option<int>): (m: RepeatMode)
    ensures m == One <==> repeatState == Some(1)
    ensures m == All <==> repeatState == Some(2)
    ensures m == Off <==> !(repeatState == Some(1) || repeatState == Some(2))
  {
    match repeatState
    case Some(0) => Off
    case Some(1) => One
    case Some(2) => All
    case _ => Off
  }

  /** The `repeatMode` setter's code: the mode's index in `[off, one, all]`. */
  function RepeatStateOf(m: RepeatMode): (code: int)
    ensures 0 <= code < |AllRepeatModes| && AllRepeatModes[code] == m
  {
    match m
    case Off => 0
    case One => 1
    case All => 2
  }

  /** Setting a repeat mode and reading it back gives that mode. */
  lemma RepeatRoundTrip(m: RepeatMode)
    ensures RepeatModeOf(Some(RepeatStateOf(m))) == m
  {
  }

  /** `availableShuffleMode`: shuffling is not offered. */
  const AvailableShuffleModes: seq<ShuffleMode> := [ShuffleOff]

  /** The `shuffleMode` getter: always off (its setter does nothing). */
  function ShuffleModeOf(app: App): (m: ShuffleMode)
    ensures m == ShuffleOff && m in AvailableShuffleModes
  {
    ShuffleOff
  }
}
