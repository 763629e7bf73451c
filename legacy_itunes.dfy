/** The first-generation `iTunes` player (`Sources/iTunes.swift`). */
module LegacyITunes {
  import opened Wrappers
  import opened Tracks
  import opened Legacy

  /** `iTunesEPlS` */
  datatype PlayerState = EStopped | EPlaying | EPaused | EFastForwarding | ERewinding

  /** `iTunesEKnd`, reduced to what `_currentTrack` tests. */
  datatype MediaKind = Song | MusicVideo | OtherKind

  datatype AppTrack = AppTrack(persistentID: Option<string>, name: Option<string>, album: Option<string>,
                               artist: Option<string>, duration: Option<real>, mediaKind: Option<MediaKind>,
                               lyrics: Option<string>)

  /** What the handlers read of the application. */
  datatype App = App(
    playerState: Option<PlayerState>,
    playerPosition: Option<real>,
    currentTrack: Option<AppTrack>,
    currentStreamURL: Option<string>)

  /** The user info of a player-info notification; the persistent id is already formatted as hex text. */
  datatype Info = Info(persistentID: Option<string>, playerState: Option<string>, location: Option<string>)

  /** How this player's `playerPosition` getter is written. */
  const Rule: PositionRule := PauseAware

  /** `_currentTrack`: a song or music video that is not a stream; no URL of its own. */
  function CurrentTrackOf(app: App): (r: Option<Track>)
    ensures r.Some? <==>
      app.currentTrack.Some? && app.currentStreamURL.None?
      && (app.currentTrack.value.mediaKind == Some(Song) || app.currentTrack.value.mediaKind == Some(MusicVideo))
    ensures r.Some? ==> r.value.id == app.currentTrack.value.persistentID.GetOr("") && r.value.url == None
  {
    match app.currentTrack
    case None => None
    case Some(t) =>
      if (t.mediaKind == Some(Song) || t.mediaKind == Some(MusicVideo)) && app.currentStreamURL.None? then
        Some(Track(t.persistentID.GetOr(""), t.name, t.album, t.artist, t.duration, None))
      else None
  }

  /** `_playbackState`: no state is stopped, and rewinding is reported as playing. */
  function StateOf(app: App): (r: MusicPlaybackState)
    ensures app.playerState.None? ==> r == Stopped
    ensures app.playerState == Some(ERewinding) ==> r == Playing
    ensures r != Rewinding
  {
    match app.playerState
    case None => Stopped
    case Some(EStopped) => Stopped
    case Some(EPlaying) => Playing
    case Some(EPaused) => Paused
    case Some(EFastForwarding) => FastForwarding
    case Some(ERewinding) => Playing
  }

  /** `init?`: a running application is read once. */
  method Launch(isRunning: bool, app: App, now: real) returns (p: Tracker)
    ensures fresh(p) && p.events == []
    ensures isRunning ==> p.Snapshot() == Fields(CurrentTrackOf(app), StateOf(app), StartFrom(app.playerPosition, now), None)
    ensures !isRunning ==> p.Snapshot() == Fields(None, Stopped, None, None)
  {
    p := new Tracker(isRunning, CurrentTrackOf(app), StateOf(app), StartFrom(app.playerPosition, now));
  }

  /**
   * `playerInfoNotification`: when running, a persistent id other than the
   * tail of the current id replaces the track; else a changed state is
   * stored; else the drift check runs.
   */
  method PlayerInfoNotification(p: Tracker, isRunning: bool, n: Info, app: App, now: real)
    modifies p
    ensures !isRunning ==> p.Snapshot() == old(p.Snapshot()) && p.events == old(p.events)
    ensures isRunning ==>
      var o := Exclusive(Rule, old(p.Snapshot()), n.persistentID != IdTail(old(p.track)),
                         WithLocation(CurrentTrackOf(app), n.location), NotifiedState(n.playerState),
                         StartFrom(app.playerPosition, now), FromGetter, StartFrom(app.playerPosition, now), app.playerPosition, now);
      p.Snapshot() == o.fields && p.events == old(p.events) + o.events
  {
    p.Notify(Rule, isRunning, n.persistentID != IdTail(p.track), WithLocation(CurrentTrackOf(app), n.location),
             NotifiedState(n.playerState), StartFrom(app.playerPosition, now), FromGetter, StartFrom(app.playerPosition, now),
             app.playerPosition, now);
  }

  /** `updatePlayerState`: the drift check, when running. */
  method UpdatePlayerState(p: Tracker, isRunning: bool, app: App, now: real)
    modifies p
    ensures !isRunning ==> p.Snapshot() == old(p.Snapshot()) && p.events == old(p.events)
    ensures isRunning ==>
      p.Snapshot() == Drift(Rule, old(p.Snapshot()), StartFrom(app.playerPosition, now), app.playerPosition, now).fields
      && p.events == old(p.events) + Drift(Rule, old(p.Snapshot()), StartFrom(app.playerPosition, now), app.playerPosition, now).events
  {
    p.UpdatePosition(Rule, isRunning, StartFrom(app.playerPosition, now), app.playerPosition, now);
  }

  /** The `currentLyrics` getter: none unless running, else the current track's lyrics. */
  function CurrentLyrics(isRunning: bool, app: App): (r: Option<string>)
    ensures !isRunning || app.currentTrack.None? ==> r == None
    ensures isRunning && app.currentTrack.Some? ==> r == app.currentTrack.value.lyrics
  {
    if !isRunning || app.currentTrack.None? then None else app.currentTrack.value.lyrics
  }
}
