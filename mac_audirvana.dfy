/** The classic `Audirvana` controller on macOS. */
module MacAudirvana {
  import opened Wrappers
  import opened Decimal
  import opened Playback
  import opened Tracks
  import opened PlayerNames
  import opened Notices
  import opened Reconcile
  import opened Controllers

  /** `AudirvanaPlayerStatus` */
  datatype PlayerState = EStopped | EPlaying | EPaused

  /** What the handlers read of the application; the duration is a whole number of seconds. */
  datatype App = App(
    playerState: Option<PlayerState>,
    playerPosition: Option<real>,
    playingTrackTitle: Option<string>,
    playingTrackAlbum: Option<string>,
    playingTrackArtist: Option<string>,
    playingTrackDuration: Option<int>)

  /** `playingTrackDuration?.description ?? ""` */
  function DurationText(d: Option<int>): (s: string)
    ensures d.None? <==> s == ""
  {
    if d.None? then "" else IntToDecimal(d.value)
  }

  /** `_currentTrackID`: built from title, album and duration text; none without a title. */
  function CurrentTrackId(app: App): (r: Option<string>)
    ensures r.None? <==> app.playingTrackTitle.None?
    ensures r.Some? ==>
      r.value == "Audirvana-" + app.playingTrackTitle.value + "-" + app.playingTrackAlbum.GetOr("") + "-"
                 + DurationText(app.playingTrackDuration)
  {
    match app.playingTrackTitle
    case None => None
    case Some(title) => Some("Audirvana-" + title + "-" + app.playingTrackAlbum.GetOr("") + "-" + DurationText(app.playingTrackDuration))
  }

  /** Two tracks with the same title and album have the same id exactly when their durations agree. */
  lemma CurrentTrackIdSeparatesDurations(a: App, b: App)
    requires a.playingTrackTitle.Some? && a.playingTrackTitle == b.playingTrackTitle
    requires a.playingTrackAlbum.GetOr("") == b.playingTrackAlbum.GetOr("")
    ensures CurrentTrackId(a) == CurrentTrackId(b) <==> a.playingTrackDuration == b.playingTrackDuration
  {
    var prefix := "Audirvana-" + a.playingTrackTitle.value + "-" + a.playingTrackAlbum.GetOr("") + "-";
    var da, db := DurationText(a.playingTrackDuration), DurationText(b.playingTrackDuration);
    assert CurrentTrackId(a).value == prefix + da;
    assert CurrentTrackId(b).value == prefix + db;
    if prefix + da == prefix + db {
      assert da == (prefix + da)[|prefix|..];
      assert db == (prefix + db)[|prefix|..];
      if a.playingTrackDuration.Some? && b.playingTrackDuration.Some? {
        IntToDecimalInjective(a.playingTrackDuration.value, b.playingTrackDuration.value);
      }
    }
  }

  /** `_currentTrack`: none exactly when there is no id, otherwise the track under that id. */
  function CurrentTrackOf(app: App): (r: Option<Track>)
    ensures IdOf(r) == CurrentTrackId(app)
    ensures r.Some? ==>
      r.value.title == app.playingTrackTitle && r.value.album == app.playingTrackAlbum
      && r.value.artist == app.playingTrackArtist && r.value.url == None
      && (r.value.duration.Some? <==> app.playingTrackDuration.Some?)
      && (r.value.duration.Some? ==> r.value.duration.value == app.playingTrackDuration.value as real)
  {
    match CurrentTrackId(app)
    case None => None
    case Some(id) =>
      Some(Track(id, app.playingTrackTitle, app.playingTrackAlbum, app.playingTrackArtist,
                 if app.playingTrackDuration.None? then None else Some(app.playingTrackDuration.value as real), None))
  }

  /** `_playbackState`: stopped without state or position, else the state at the position. */
  function StateOf(app: App, now: real): (r: PlaybackState)
    ensures r.Stopped? || r.Playing? || r.Paused?
    ensures r.Playing? <==> app.playerState == Some(EPlaying) && app.playerPosition.Some?
    ensures r.Paused? <==> app.playerState == Some(EPaused) && app.playerPosition.Some?
    ensures !r.Stopped? ==> Time(r, now) == app.playerPosition.value
  {
    match (app.playerState, app.playerPosition)
    case (Some(EPlaying), Some(p)) => PlayingAt(p, now)
    case (Some(EPaused), Some(p)) => Paused(p)
    case _ => Stopped
  }

  /** The track a notification installs: the application's, with the notification's file path when it has one. */
  function NotifiedTrack(app: App, path: Option<string>): (r: Option<Track>)
    ensures IdOf(r) == CurrentTrackId(app)
    ensures r.Some? && path.Some? ==> r.value.url == path
    ensures r.Some? && path.None? ==> r == CurrentTrackOf(app)
  {
    match CurrentTrackOf(app)
    case None => None
    case Some(t) => if path.Some? then Some(t.(url := path)) else Some(t)
  }

  method Launch(isRunning: bool, app: App, now: real) returns (c: MusicPlayerController)
    ensures fresh(c) && c.name == Audirvana && c.isRunning == isRunning
    ensures isRunning ==>
      c.playbackState == StateOf(app, now) && c.currentTrack == CurrentTrackOf(app)
      && c.posted == [PlaybackStateDidChange, CurrentTrackDidChange]
    ensures !isRunning ==> c.playbackState == Stopped && c.currentTrack == None && c.posted == []
  {
    c := new MusicPlayerController(Audirvana, isRunning);
    if isRunning {
      c.AssignState(StateOf(app, now));
      c.AssignTrack(CurrentTrackOf(app));
    }
  }

  /**
   * `playerInfoNotification`: when running, an id other than the current
   * track's replaces track and state outright; the same id goes through the
   * tolerant update.
   */
  method PlayerInfoNotification(c: MusicPlayerController, path: Option<string>, app: App, now: real)
    modifies c
    ensures !old(c.isRunning) ==> unchanged(c)
    ensures old(c.isRunning) && CurrentTrackId(app) != IdOf(old(c.currentTrack)) ==>
      c.currentTrack == NotifiedTrack(app, path) && c.playbackState == StateOf(app, now)
      && c.posted == old(c.posted) + [CurrentTrackDidChange, PlaybackStateDidChange]
    ensures old(c.isRunning) && CurrentTrackId(app) == IdOf(old(c.currentTrack)) ==>
      c.currentTrack == old(c.currentTrack)
      && c.playbackState == Reconciled(old(c.playbackState), StateOf(app, now), PlaybackTimeMutateThreshold)
      && c.posted == old(c.posted)
         + if ShouldReplace(old(c.playbackState), StateOf(app, now), PlaybackTimeMutateThreshold) then [PlaybackStateDidChange] else []
    ensures c.isRunning == old(c.isRunning)
  {
    if !c.isRunning {
      return;
    }
    c.UpdateTrackAndState(NotifiedTrack(app, path), StateOf(app, now));
  }

  /** The timer's `updatePlaybackTime`: the tolerant update, when running. */
  method UpdatePlaybackTime(c: MusicPlayerController, app: App, now: real)
    modifies c
    ensures !old(c.isRunning) ==> unchanged(c)
    ensures old(c.isRunning) ==>
      c.playbackState == Reconciled(old(c.playbackState), StateOf(app, now), PlaybackTimeMutateThreshold)
      && c.currentTrack == old(c.currentTrack) && c.isRunning
      && c.posted == old(c.posted)
         + if ShouldReplace(old(c.playbackState), StateOf(app, now), PlaybackTimeMutateThreshold) then [PlaybackStateDidChange] else []
  {
    if !c.isRunning {
      return;
    }
    c.SetPlaybackState(StateOf(app, now), PlaybackTimeMutateThreshold);
  }

  /** The `playbackTime` setter: when running, move the stored state to `t`. */
  method SetPlaybackTime(c: MusicPlayerController, t: real, now: real)
    modifies c
    ensures !old(c.isRunning) ==> unchanged(c)
    ensures old(c.isRunning) ==>
      c.playbackState == WithTime(old(c.playbackState), t, now)
      && c.currentTrack == old(c.currentTrack) && c.isRunning
      && c.posted == old(c.posted) + [PlaybackStateDidChange]
  {
    if !c.isRunning {
      return;
    }
    c.AssignState(WithTime(c.playbackState, t, now));
  }
}
