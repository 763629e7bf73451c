/** The classic `Spotify` controller on macOS. */
module MacSpotify {
  import opened Wrappers
  import opened Playback
  import opened Tracks
  import opened PlayerNames
  import opened PlayerModes
  import opened Notices
  import opened Reconcile
  import opened Controllers

  /** `SpotifyEPlS` */
  datatype PlayerState = EStopped | EPlaying | EPaused

  datatype AppTrack = AppTrack(id: Option<string>, name: Option<string>, album: Option<string>,
                               artist: Option<string>, duration: Option<int>)

  /** What the handlers read of the application. */
  datatype App = App(
    playerState: Option<PlayerState>,
    playerPosition: Option<real>,
    currentTrack: Option<AppTrack>,
    repeating: Option<bool>,
    shuffling: Option<bool>)

  /** The user info of a player-info notification. */
  datatype Info = Info(trackId: Option<string>, playbackPosition: Option<real>, playerState: Option<string>)

  /** `_currentTrack`: any current track, with an empty id when the application gives none. */
  function CurrentTrackOf(app: App): (r: Option<Track>)
    ensures r.Some? <==> app.currentTrack.Some?
    ensures r.Some? ==>
      r.value.id == app.currentTrack.value.id.GetOr("")
      && r.value.title == app.currentTrack.value.name && r.value.album == app.currentTrack.value.album
      && r.value.artist == app.currentTrack.value.artist && r.value.url == None
      && (app.currentTrack.value.duration.None? <==> r.value.duration.None?)
      && (r.value.duration.Some? ==> r.value.duration.value == app.currentTrack.value.duration.value as real)
  {
    match app.currentTrack
    case None => None
    case Some(t) =>
      Some(Track(t.id.GetOr(""), t.name, t.album, t.artist,
                 if t.duration.None? then None else Some(t.duration.value as real), None))
  }

  /** `_playbackState`: stopped without state or position, else the state at the position. */
  function StateOf(app: App, now: real): (r: PlaybackState)
    ensures r.Stopped? || r.Playing? || r.Paused?
    ensures r.Playing? <==> app.playerState == Some(EPlaying) && app.playerPosition.Some?
    ensures r.Paused? <==> app.playerState == Some(EPaused) && app.playerPosition.Some?
    ensures !r.Stopped? ==> Time(r, now) == app.playerPosition.value
  {
    match (app.playerState, app.playerPosition)
    case (Some(EPlaying), Some(p)) => PlayingAt(p, now)
    case (Some(EPaused), Some(p)) => Paused(p)
    case _ => Stopped
  }

  /** The state a notification carries: playing or paused at its position, anything else stopped. */
  function InfoState(n: Info, now: real): (r: PlaybackState)
    ensures r.Stopped? || r.Playing? || r.Paused?
    ensures r.Playing? <==> n.playerState == Some("Playing") && n.playbackPosition.Some?
    ensures r.Paused? <==> n.playerState == Some("Paused") && n.playbackPosition.Some?
    ensures !r.Stopped? ==> Time(r, now) == n.playbackPosition.value
  {
    match n.playbackPosition
    case None => Stopped
    case Some(p) =>
      if n.playerState == Some("Playing") then PlayingAt(p, now)
      else if n.playerState == Some("Paused") then Paused(p)
      else Stopped
  }

  method Launch(isRunning: bool, app: App, now: real) returns (c: MusicPlayerController)
    ensures fresh(c) && c.name == Spotify && c.isRunning == isRunning
    ensures isRunning ==>
      c.playbackState == StateOf(app, now) && c.currentTrack == CurrentTrackOf(app)
      && c.posted == [PlaybackStateDidChange, CurrentTrackDidChange]
    ensures !isRunning ==> c.playbackState == Stopped && c.currentTrack == None && c.posted == []
  {
    c := new MusicPlayerController(Spotify, isRunning);
    if isRunning {
      c.AssignState(StateOf(app, now));
      c.AssignTrack(CurrentTrackOf(app));
    }
  }

  /**
   * `playerInfoNotification`: when running, a different track id replaces
   * only the track (none when the notification has no id) and leaves the
   * state as it is; the same id assigns the notification's state
   * unconditionally.
   */
  method PlayerInfoNotification(c: MusicPlayerController, n: Info, app: App, now: real)
    modifies c
    ensures !old(c.isRunning) ==> unchanged(c)
    ensures old(c.isRunning) && n.trackId != IdOf(old(c.currentTrack)) ==>
      c.currentTrack == (if n.trackId.None? then None else CurrentTrackOf(app))
      && c.playbackState == old(c.playbackState) && c.isRunning
      && c.posted == old(c.posted) + [CurrentTrackDidChange]
    ensures old(c.isRunning) && n.trackId == IdOf(old(c.currentTrack)) ==>
      c.currentTrack == old(c.currentTrack) && c.playbackState == InfoState(n, now) && c.isRunning
      && c.posted == old(c.posted) + [PlaybackStateDidChange]
  {
    if !c.isRunning {
      return;
    }
    var state := InfoState(n, now);
    if n.trackId != IdOf(c.currentTrack) {
      c.AssignTrack(if n.trackId.None? then None else CurrentTrackOf(app));
      return;
    }
    c.AssignState(state);
  }

  /** `updatePlaybackTime`: the tolerant update with the default threshold, when running. */
  method UpdatePlaybackTime(c: MusicPlayerController, app: App, now: real)
    modifies c
    ensures !old(c.isRunning) ==> unchanged(c)
    ensures old(c.isRunning) ==>
      c.playbackState == Reconciled(old(c.playbackState), StateOf(app, now), PlaybackTimeMutateThreshold)
      && c.currentTrack == old(c.currentTrack) && c.isRunning
      && c.posted == old(c.posted)
         + if ShouldReplace(old(c.playbackState), StateOf(app, now), PlaybackTimeMutateThreshold) then [PlaybackStateDidChange] else []
  {
    if !c.isRunning {
      return;
    }
    c.SetPlaybackState(StateOf(app, now), PlaybackTimeMutateThreshold);
  }

  /** The `playbackTime` setter: when running, move the stored state to `t`. */
  method SetPlaybackTime(c: MusicPlayerController, t: real, now: real)
    modifies c
    ensures !old(c.isRunning) ==> unchanged(c)
    ensures old(c.isRunning) ==>
      c.playbackState == WithTime(old(c.playbackState), t, now)
      && c.currentTrack == old(c.currentTrack) && c.isRunning
      && c.posted == old(c.posted) + [PlaybackStateDidChange]
  {
    if !c.isRunning {
      return;
    }
    c.AssignState(WithTime(c.playbackState, t, now));
  }

  /** `availableRepeatMode`: Spotify has no single-track repeat. */
  const AvailableRepeatModes: seq<RepeatMode> := [Off, All]

  /** The `repeatMode` getter: all when repeating, else off. */
  function RepeatModeOf(app: App): (m: RepeatMode)
    ensures m == All <==> app.repeating == Some(true)
    ensures m != One
  {
    if app.repeating == Some(true) then All else Off
  }

  /** The `repeatMode` setter's value: repeat unless the mode is off. */
  function RepeatingOf(m: RepeatMode): (r: bool)
    ensures r <==> m != Off
  {
    m != Off
  }

  /** The `shuffleMode` getter: on exactly when shuffling. */
  function ShuffleModeOf(app: App): (m: ShuffleMode)
    ensures m == ShuffleOn <==> app.shuffling == Some(true)
  {
    if app.shuffling == Some(true) then ShuffleOn else ShuffleOff
  }

  /**
   * Setting repeat and reading it back round-trips for the available modes;
   * single-track repeat comes back as repeat-all. Shuffle always
   * round-trips.
   */
  lemma ModeSettersRoundTrip(app: App, m: RepeatMode, k: ShuffleMode)
    ensures m in AvailableRepeatModes ==> RepeatModeOf(app.(repeating := Some(RepeatingOf(m)))) == m
    ensures RepeatModeOf(app.(repeating := Some(RepeatingOf(One)))) == All
    ensures ShuffleModeOf(app.(shuffling := Some(IsEnabled(k)))) == k
  {
  }
}
