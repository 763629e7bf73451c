/** The classic `Swinsian` controller on macOS. */
module MacSwinsian {
  import opened Wrappers
  import opened Numbers
  import opened Playback
  import opened Tracks
  import opened PlayerNames
  import opened Notices
  import opened Reconcile
  import opened Controllers

  /** `SwinsianPlayerState` */
  datatype PlayerState = EStopped | EPlaying | EPaused

  datatype AppTrack = AppTrack(id: Option<string>, name: Option<string>, album: Option<string>,
                               artist: Option<string>, duration: Option<real>, path: Option<string>)

  /** What the handlers read of the application; the position is a whole number of seconds. */
  datatype App = App(playerState: Option<PlayerState>, playerPosition: Option<int>, currentTrack: Option<AppTrack>)

  /** The tolerance of the playing and paused notifications. */
  const NotificationTolerance: real := 1.0

  /** `_currentTrack`: any current track, with an empty id when the application gives none. */
  function CurrentTrackOf(app: App): (r: Option<Track>)
    ensures r.Some? <==> app.currentTrack.Some?
    ensures r.Some? ==>
      r.value.id == app.currentTrack.value.id.GetOr("")
      && r.value.title == app.currentTrack.value.name && r.value.album == app.currentTrack.value.album
      && r.value.artist == app.currentTrack.value.artist && r.value.duration == app.currentTrack.value.duration
      && r.value.url == app.currentTrack.value.path
  {
    match app.currentTrack
    case None => None
    case Some(t) => Some(Track(t.id.GetOr(""), t.name, t.album, t.artist, t.duration, t.path))
  }

  /** `_playbackState`: stopped without state or position, else the state at the whole-second position. */
  function StateOf(app: App, now: real): (r: PlaybackState)
    ensures r.Stopped? || r.Playing? || r.Paused?
    ensures r.Playing? <==> app.playerState == Some(EPlaying) && app.playerPosition.Some?
    ensures r.Paused? <==> app.playerState == Some(EPaused) && app.playerPosition.Some?
    ensures !r.Stopped? ==> Time(r, now) == app.playerPosition.value as real
  {
    match (app.playerState, app.playerPosition)
    case (Some(EPlaying), Some(p)) => PlayingAt(p as real, now)
    case (Some(EPaused), Some(p)) => Paused(p as real)
    case _ => Stopped
  }

  method Launch(isRunning: bool, app: App, now: real) returns (c: MusicPlayerController)
    ensures fresh(c) && c.name == Swinsian && c.isRunning == isRunning
    ensures isRunning ==>
      c.playbackState == StateOf(app, now) && c.currentTrack == CurrentTrackOf(app)
      && c.posted == [PlaybackStateDidChange, CurrentTrackDidChange]
    ensures !isRunning ==> c.playbackState == Stopped && c.currentTrack == None && c.posted == []
  {
    c := new MusicPlayerController(Swinsian, isRunning);
    if isRunning {
      c.AssignState(StateOf(app, now));
      c.AssignTrack(CurrentTrackOf(app));
    }
  }

  /** The "playing" notification: the tolerant update within 1 second, then the track is re-read. */
  method PlayingNotification(c: MusicPlayerController, app: App, now: real)
    modifies c
    ensures c.playbackState == Reconciled(old(c.playbackState), StateOf(app, now), NotificationTolerance)
    ensures c.currentTrack == CurrentTrackOf(app) && c.isRunning == old(c.isRunning)
    ensures c.posted == old(c.posted)
      + (if ShouldReplace(old(c.playbackState), StateOf(app, now), NotificationTolerance) then [PlaybackStateDidChange] else [])
      + [CurrentTrackDidChange]
  {
    c.SetPlaybackState(StateOf(app, now), NotificationTolerance);
    c.AssignTrack(CurrentTrackOf(app));
  }

  /** The "paused" notification: the tolerant update within 1 second; the track stays. */
  method PausedNotification(c: MusicPlayerController, app: App, now: real)
    modifies c
    ensures c.playbackState == Reconciled(old(c.playbackState), StateOf(app, now), NotificationTolerance)
    ensures c.currentTrack == old(c.currentTrack) && c.isRunning == old(c.isRunning)
    ensures c.posted == old(c.posted)
      + if ShouldReplace(old(c.playbackState), StateOf(app, now), NotificationTolerance) then [PlaybackStateDidChange] else []
  {
    c.SetPlaybackState(StateOf(app, now), NotificationTolerance);
  }

  /** The "stopped" notification: stopped, and no track. */
  method StoppedNotification(c: MusicPlayerController)
    modifies c
    ensures c.playbackState == Stopped && c.currentTrack == None && c.isRunning == old(c.isRunning)
    ensures c.posted == old(c.posted) + [PlaybackStateDidChange, CurrentTrackDidChange]
  {
    c.AssignState(Stopped);
    c.AssignTrack(None);
  }

  /**
   * The `playbackTime` setter: nothing when not running; otherwise the
   * application is sent the whole seconds of `t` (returned here) and the
   * stored state moves to `t` itself.
   */
  method SetPlaybackTime(c: MusicPlayerController, t: real, now: real) returns (sent: Option<int>)
    modifies c
    ensures !old(c.isRunning) ==> unchanged(c) && sent == None
    ensures old(c.isRunning) ==>
      sent == Some(Truncate(t))
      && c.playbackState == WithTime(old(c.playbackState), t, now)
      && c.currentTrack == old(c.currentTrack) && c.isRunning
      && c.posted == old(c.posted) + [PlaybackStateDidChange]
  {
    if !c.isRunning {
      return None;
    }
    sent := Some(Truncate(t));
    c.AssignState(WithTime(c.playbackState, t, now));
  }
}
