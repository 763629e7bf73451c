/**
 * The first-generation `Vox` player (`Sources/Vox.swift`). It is told of
 * track changes only; the state and position are polled through
 * `updatePlayerState`.
 */
module LegacyVox {
  import opened Wrappers
  import opened Tracks
  import opened Legacy
  import MacVox

  /** How this player's `playerPosition` getter is written. */
  const Rule: PositionRule := AnchorOnly

  /** The guard of every handler and accessor: `autoLaunch || isRunning`. */
  predicate Active(autoLaunch: bool, isRunning: bool)
  {
    autoLaunch || isRunning
  }

  /** The application's state code: 1 is playing, anything else paused. */
  function StateOf(code: Option<int>): (r: MusicPlaybackState)
    ensures r == Playing <==> code == Some(1)
    ensures r != Playing ==> r == Paused
  {
    if code == Some(1) then Playing else Paused
  }

  /** `VoxApplication.currentTrack`: always a track, with an empty id when the application gives none. */
  function TrackOf(app: MacVox.App): (r: Option<Track>)
    ensures r.Some?
    ensures r.value.id == app.uniqueID.GetOr("")
    ensures r.value.title == app.track && r.value.album == app.album && r.value.artist == app.artist
    ensures r.value.duration == app.totalTime && r.value.url == app.trackUrl
  {
    Some(Track(app.uniqueID.GetOr(""), app.track, app.album, app.artist, app.totalTime, app.trackUrl))
  }

  /** `init?`: a running application is read once. */
  method Launch(isRunning: bool, app: MacVox.App, now: real) returns (p: Tracker)
    ensures fresh(p) && p.events == []
    ensures isRunning ==>
      p.Snapshot() == Fields(TrackOf(app), StateOf(app.playerState), StartFrom(app.currentTime, now), None)
    ensures !isRunning ==> p.Snapshot() == Fields(None, Stopped, None, None)
  {
    p := new Tracker(isRunning, TrackOf(app), StateOf(app.playerState), StartFrom(app.currentTime, now));
  }

  /**
   * `trackChangeNotification`: when active, a unique id other than the
   * stored track's id installs the application's track; otherwise the
   * state is polled as `updatePlayerState` does.
   */
  method TrackChangeNotification(p: Tracker, autoLaunch: bool, isRunning: bool, app: MacVox.App, now: real)
    modifies p
    ensures !Active(autoLaunch, isRunning) ==> p.Snapshot() == old(p.Snapshot()) && p.events == old(p.events)
    ensures Active(autoLaunch, isRunning) ==>
      var o := Exclusive(Rule, old(p.Snapshot()), app.uniqueID != IdOf(old(p.track)), TrackOf(app),
                         StateOf(app.playerState), StartFrom(app.currentTime, now), FromGetter,
                         StartFrom(app.currentTime, now), app.currentTime, now);
      p.Snapshot() == o.fields && p.events == old(p.events) + o.events
  {
    p.Notify(Rule, Active(autoLaunch, isRunning), app.uniqueID != IdOf(p.track), TrackOf(app),
             StateOf(app.playerState), StartFrom(app.currentTime, now), FromGetter,
             StartFrom(app.currentTime, now), app.currentTime, now);
  }

  /** `updatePlayerState`: when active, store and report a changed state, else run the drift check. */
  method UpdatePlayerState(p: Tracker, autoLaunch: bool, isRunning: bool, app: MacVox.App, now: real)
    modifies p
    ensures !Active(autoLaunch, isRunning) ==> p.Snapshot() == old(p.Snapshot()) && p.events == old(p.events)
    ensures Active(autoLaunch, isRunning) ==>
      var o := Exclusive(Rule, old(p.Snapshot()), false, old(p.track), StateOf(app.playerState),
                         StartFrom(app.currentTime, now), FromGetter, StartFrom(app.currentTime, now),
                         app.currentTime, now);
      p.Snapshot() == o.fields && p.events == old(p.events) + o.events
  {
    p.Notify(Rule, Active(autoLaunch, isRunning), false, p.track, StateOf(app.playerState),
             StartFrom(app.currentTime, now), FromGetter, StartFrom(app.currentTime, now), app.currentTime, now);
  }

  /**
   * While the application gives no unique id, a player holding a track
   * (as every launch and track change of a running application leaves it)
   * reports a track change on each notification, and stores a track
   * whose id differs from the missing id again.
   */
  lemma MissingIdReportsEveryTime(f: Fields, app: MacVox.App, now: real)
    requires app.uniqueID.None? && f.track.Some?
    ensures var o := Exclusive(Rule, f, app.uniqueID != IdOf(f.track), TrackOf(app), StateOf(app.playerState),
                               StartFrom(app.currentTime, now), FromGetter, StartFrom(app.currentTime, now),
                               app.currentTime, now);
      o.events == [CurrentTrackChanged(TrackOf(app))] && app.uniqueID != IdOf(o.fields.track)
  {
  }

  /** The `playbackState` getter: stopped when inactive. */
  function PlaybackStateOf(p: Tracker, active: bool): (r: MusicPlaybackState)
    reads p
    ensures !active ==> r == Stopped
    ensures active ==> r == p.state
  {
    if active then p.state else Stopped
  }

  /** The `currentTrack` getter: none when inactive. */
  function CurrentTrackOf(p: Tracker, active: bool): (r: Option<Track>)
    reads p
    ensures !active ==> r.None?
    ensures active ==> r == p.track
  {
    if active then p.track else None
  }

  /** The `repeatMode` getter: code 1 repeats one, code 2 all, anything else (or inactive) off. */
  function RepeatModeOf(active: bool, code: Option<int>): (m: MusicRepeatMode)
    ensures !active ==> m == RepeatOff
    ensures active ==> (m == RepeatOne <==> code == Some(1)) && (m == RepeatAll <==> code == Some(2))
  {
    if !active then RepeatOff
    else if code == Some(1) then RepeatOne
    else if code == Some(2) then RepeatAll
    else RepeatOff
  }

  /** The code the `repeatMode` setter writes. */
  function RepeatCodeOf(m: MusicRepeatMode): (code: int)
    ensures 0 <= code <= 2
  {
    match m
    case RepeatOff => 0
    case RepeatOne => 1
    case RepeatAll => 2
  }

  /** Setting the repeat mode of an active player and reading it back gives the mode set. */
  lemma RepeatRoundTrip(m: MusicRepeatMode)
    ensures RepeatModeOf(true, Some(RepeatCodeOf(m))) == m
  {
  }
}
