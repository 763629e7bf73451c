/**
 * The first-generation `Spotify` player on current macOS
 * (`Sources/Mac/Spotify.swift`). It takes the track id, state and position
 * from the notification itself.
 */
module LegacyMacSpotify {
  import opened Wrappers
  import opened Tracks
  import opened Legacy
  import MacSpotify
  import LegacySpotify

  /** How this player's `playerPosition` getter is written. */
  const Rule: PositionRule := PauseAwareWhenRunning

  /** `init?`: a running application is read once. */
  method Launch(isRunning: bool, app: MacSpotify.App, now: real) returns (p: Tracker)
    ensures fresh(p) && p.events == []
    ensures isRunning ==>
      p.Snapshot() == Fields(MacSpotify.CurrentTrackOf(app), LegacySpotify.StateOf(app.playerState),
                             StartFrom(app.playerPosition, now), None)
    ensures !isRunning ==> p.Snapshot() == Fields(None, Stopped, None, None)
  {
    p := new Tracker(isRunning, MacSpotify.CurrentTrackOf(app), LegacySpotify.StateOf(app.playerState),
                     StartFrom(app.playerPosition, now));
  }

  /** The track a notification installs: none for a notification without an id, else the application's. */
  function NotifiedTrack(n: MacSpotify.Info, app: MacSpotify.App): (r: Option<Track>)
    ensures n.trackId.None? ==> r.None?
    ensures n.trackId.Some? ==> r == MacSpotify.CurrentTrackOf(app)
  {
    if n.trackId.None? then None else MacSpotify.CurrentTrackOf(app)
  }

  /**
   * `playerInfoNotification`: when running, a track id other than the
   * stored one installs the notified track; else a changed state is stored
   * with the notified position as pause position; else the drift check
   * runs.
   */
  method PlayerInfoNotification(p: Tracker, isRunning: bool, n: MacSpotify.Info, app: MacSpotify.App, now: real)
    modifies p
    ensures !isRunning ==> p.Snapshot() == old(p.Snapshot()) && p.events == old(p.events)
    ensures isRunning ==>
      var o := Exclusive(Rule, old(p.Snapshot()), n.trackId != IdOf(old(p.track)), NotifiedTrack(n, app),
                         NotifiedState(n.playerState), StartFrom(n.playbackPosition, now),
                         FromValue(n.playbackPosition), StartFrom(app.playerPosition, now), app.playerPosition, now);
      p.Snapshot() == o.fields && p.events == old(p.events) + o.events
  {
    p.Notify(Rule, isRunning, n.trackId != IdOf(p.track), NotifiedTrack(n, app), NotifiedState(n.playerState),
             StartFrom(n.playbackPosition, now), FromValue(n.playbackPosition), StartFrom(app.playerPosition, now),
             app.playerPosition, now);
  }

  /**
   * Once a notification without a track id has cleared the track, the
   * next one without an id does not report a track change again.
   */
  lemma IdlessNotificationSettles(f: Fields, n: MacSpotify.Info, m: MacSpotify.Info, app: MacSpotify.App,
                                  appStart: Option<real>, appPosition: Option<real>, now: real)
    requires n.trackId.None? && m.trackId.None?
    ensures var o := Exclusive(Rule, f, n.trackId != IdOf(f.track), NotifiedTrack(n, app),
                               NotifiedState(n.playerState), StartFrom(n.playbackPosition, now),
                               FromValue(n.playbackPosition), appStart, appPosition, now);
      var o' := Exclusive(Rule, o.fields, m.trackId != IdOf(o.fields.track), NotifiedTrack(m, app),
                          NotifiedState(m.playerState), StartFrom(m.playbackPosition, now),
                          FromValue(m.playbackPosition), appStart, appPosition, now);
      o.fields.track.None? && (o'.events == [] || !o'.events[0].CurrentTrackChanged?)
  {
    var o := Exclusive(Rule, f, n.trackId != IdOf(f.track), NotifiedTrack(n, app),
                       NotifiedState(n.playerState), StartFrom(n.playbackPosition, now),
                       FromValue(n.playbackPosition), appStart, appPosition, now);
    ExclusiveAtMostOneCallback(Rule, o.fields, false, NotifiedTrack(m, app),
                               NotifiedState(m.playerState), StartFrom(m.playbackPosition, now),
                               FromValue(m.playbackPosition), appStart, appPosition, now);
  }

  /** `updatePlayerState`: the drift check, when running. */
  method UpdatePlayerState(p: Tracker, isRunning: bool, app: MacSpotify.App, now: real)
    modifies p
    ensures !isRunning ==> p.Snapshot() == old(p.Snapshot()) && p.events == old(p.events)
    ensures isRunning ==>
      var o := Drift(Rule, old(p.Snapshot()), StartFrom(app.playerPosition, now), app.playerPosition, now);
      p.Snapshot() == o.fields && p.events == old(p.events) + o.events
  {
    p.UpdatePosition(Rule, isRunning, StartFrom(app.playerPosition, now), app.playerPosition, now);
  }

  /** The `repeatMode` getter: repeat all while the application repeats, with no running guard. */
  function RepeatModeOf(repeating: Option<bool>): (m: MusicRepeatMode)
    ensures m == RepeatAll <==> repeating == Some(true)
    ensures m != RepeatOne
  {
    LegacySpotify.RepeatModeOf(true, repeating)
  }

  /** The `shuffleMode` getter: groupings while the application shuffles, with no running guard. */
  function ShuffleModeOf(shuffling: Option<bool>): (m: MusicShuffleMode)
    ensures m == Groupings <==> shuffling == Some(true)
    ensures m == ShuffleOff || m == Groupings
  {
    LegacySpotify.ShuffleModeOf(true, shuffling)
  }
}
