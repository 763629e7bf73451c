/**
 * The first-generation `Spotify` player (`Sources/Spotify.swift`). It may be
 * told to act while the application is not running (`autoLaunch`), and its
 * position getter ignores pauses.
 */
module LegacySpotify {
  import opened Wrappers
  import opened Tracks
  import opened Legacy
  import MacSpotify

  /** How this player's `playerPosition` getter is written. */
  const Rule: PositionRule := AnchorOnly

  /** The guard of every handler and accessor: `autoLaunch || isRunning`. */
  predicate Active(autoLaunch: bool, isRunning: bool)
  {
    autoLaunch || isRunning
  }

  /** `SpotifyEPlS.state`, stopped when the application reports no state. */
  function StateOf(s: Option<MacSpotify.PlayerState>): (r: MusicPlaybackState)
    ensures r == Playing <==> s == Some(MacSpotify.EPlaying)
    ensures r == Paused <==> s == Some(MacSpotify.EPaused)
    ensures r == Stopped <==> s != Some(MacSpotify.EPlaying) && s != Some(MacSpotify.EPaused)
  {
    if s == Some(MacSpotify.EPlaying) then Playing
    else if s == Some(MacSpotify.EPaused) then Paused
    else Stopped
  }

  /** `init?`: a running application is read once. */
  method Launch(isRunning: bool, app: MacSpotify.App, now: real) returns (p: Tracker)
    ensures fresh(p) && p.events == []
    ensures isRunning ==>
      p.Snapshot() == Fields(MacSpotify.CurrentTrackOf(app), StateOf(app.playerState), StartFrom(app.playerPosition, now), None)
    ensures !isRunning ==> p.Snapshot() == Fields(None, Stopped, None, None)
  {
    p := new Tracker(isRunning, MacSpotify.CurrentTrackOf(app), StateOf(app.playerState), StartFrom(app.playerPosition, now));
  }

  /**
   * `playerInfoNotification`: when active, the application's track with an
   * id other than the stored one replaces it; else a changed state is
   * stored; else the drift check runs. The stored track wraps a live
   * scripting reference, so its id is read anew at the comparison:
   * `storedId` is that reading, present exactly when a track is stored.
   */
  method PlayerInfoNotification(p: Tracker, autoLaunch: bool, isRunning: bool, app: MacSpotify.App,
                                storedId: Option<string>, now: real)
    requires storedId.Some? <==> p.track.Some?
    modifies p
    ensures !Active(autoLaunch, isRunning) ==> p.Snapshot() == old(p.Snapshot()) && p.events == old(p.events)
    ensures Active(autoLaunch, isRunning) ==>
      var o := Exclusive(Rule, old(p.Snapshot()), IdOf(MacSpotify.CurrentTrackOf(app)) != storedId,
                         MacSpotify.CurrentTrackOf(app), StateOf(app.playerState), StartFrom(app.playerPosition, now),
                         FromGetter, StartFrom(app.playerPosition, now), app.playerPosition, now);
      p.Snapshot() == o.fields && p.events == old(p.events) + o.events
  {
    var track := MacSpotify.CurrentTrackOf(app);
    p.Notify(Rule, Active(autoLaunch, isRunning), IdOf(track) != storedId, track, StateOf(app.playerState),
             StartFrom(app.playerPosition, now), FromGetter, StartFrom(app.playerPosition, now), app.playerPosition, now);
  }

  /** `updatePlayerState`: the drift check, when active. */
  method UpdatePlayerState(p: Tracker, autoLaunch: bool, isRunning: bool, app: MacSpotify.App, now: real)
    modifies p
    ensures !Active(autoLaunch, isRunning) ==> p.Snapshot() == old(p.Snapshot()) && p.events == old(p.events)
    ensures Active(autoLaunch, isRunning) ==>
      var o := Drift(Rule, old(p.Snapshot()), StartFrom(app.playerPosition, now), app.playerPosition, now);
      p.Snapshot() == o.fields && p.events == old(p.events) + o.events
  {
    p.UpdatePosition(Rule, Active(autoLaunch, isRunning), StartFrom(app.playerPosition, now), app.playerPosition, now);
  }

  /**
   * On a pause, this player stores as pause position the time since the
   * new start instant, so a paused player whose application reports a
   * position keeps reporting that position.
   */
  lemma PauseStoresApplicationPosition(f: Fields, position: real, now: real)
    ensures var g := StateChange(Rule, f, Paused, StartFrom(Some(position), now), FromGetter, now);
      g.pausePosition == Some(position)
  {
  }

  /** The `repeatMode` getter: repeat all while the application repeats, off otherwise or when inactive. */
  function RepeatModeOf(active: bool, repeating: Option<bool>): (m: MusicRepeatMode)
    ensures m != RepeatOne
    ensures m == RepeatAll <==> active && repeating == Some(true)
  {
    if active && repeating == Some(true) then RepeatAll else RepeatOff
  }

  /** The `repeatMode` setter writes whether the mode is not off. */
  function RepeatingOf(m: MusicRepeatMode): bool
  {
    m != RepeatOff
  }

  /** Setting a repeat mode and reading it back gives off for off and repeat all otherwise. */
  lemma RepeatRoundTrip(m: MusicRepeatMode)
    ensures RepeatModeOf(true, Some(RepeatingOf(m))) == (if m == RepeatOff then RepeatOff else RepeatAll)
  {
  }

  /** The `shuffleMode` getter: groupings while the application shuffles, off otherwise or when inactive. */
  function ShuffleModeOf(active: bool, shuffling: Option<bool>): (m: MusicShuffleMode)
    ensures m == ShuffleOff || m == Groupings
    ensures m == Groupings <==> active && shuffling == Some(true)
  {
    if active && shuffling == Some(true) then Groupings else ShuffleOff
  }

  /** The `shuffleMode` setter writes whether the mode is not off. */
  function ShufflingOf(m: MusicShuffleMode): bool
  {
    m != ShuffleOff
  }

  /** Setting a shuffle mode and reading it back gives off for off and groupings otherwise. */
  lemma ShuffleRoundTrip(m: MusicShuffleMode)
    ensures ShuffleModeOf(true, Some(ShufflingOf(m))) == (if m == ShuffleOff then ShuffleOff else Groupings)
  {
  }
}
