/**
 * The first-generation `Audirvana` player on current macOS
 * (`Sources/Mac/Audirvana.swift`). Its notification handler runs all three
 * steps in turn instead of stopping at the first that applies.
 */
module LegacyMacAudirvana {
  import opened Wrappers
  import opened Tracks
  import opened Legacy
  import MacAudirvana
  import LegacyAudirvana

  /** How this player's `playerPosition` getter is written. */
  const Rule: PositionRule := PauseAwareWhenRunning

  /** `init?`: a running application is read once. */
  method Launch(isRunning: bool, app: MacAudirvana.App, now: real) returns (p: Tracker)
    ensures fresh(p) && p.events == []
    ensures isRunning ==>
      p.Snapshot() == Fields(MacAudirvana.CurrentTrackOf(app), LegacyAudirvana.StateOf(app.playerState),
                             StartFrom(app.playerPosition, now), None)
    ensures !isRunning ==> p.Snapshot() == Fields(None, Stopped, None, None)
  {
    p := new Tracker(isRunning, MacAudirvana.CurrentTrackOf(app), LegacyAudirvana.StateOf(app.playerState),
                     StartFrom(app.playerPosition, now));
  }

  /**
   * The handler's three steps in turn: a changed track replaces track and
   * start instant (the state is left alone); then a state other than the
   * stored one is stored; then the drift check runs. The callbacks of all
   * three are made, in that order.
   */
  function Sequential(f: Fields, trackChanged: bool, track: Option<Track>, state: MusicPlaybackState,
                      start: Option<real>, appStart: Option<real>, appPosition: Option<real>, now: real): (o: Outcome)
    ensures o.fields.state == state
    ensures o.fields.track == (if trackChanged then track else f.track)
    ensures |o.events| <= 3
    ensures trackChanged <==> |o.events| > 0 && o.events[0] == CurrentTrackChanged(track)
  {
    var f1 := if trackChanged then f.(track := track, startTime := start) else f;
    var e1 := if trackChanged then [CurrentTrackChanged(track)] else [];
    var f2 := if state != f1.state then StateChange(Rule, f1, state, start, FromGetter, now) else f1;
    var e2 := if state != f1.state then [PlaybackStateChanged(state)] else [];
    var d := Drift(Rule, f2, appStart, appPosition, now);
    assert d.events == [] || d.events[0].PlayerPositionMutated?;
    assert e2 == [] || e2[0].PlaybackStateChanged?;
    Outcome(d.fields, e1 + e2 + d.events)
  }

  /**
   * Where the exclusive handlers agree with this one: a notification that
   * changes neither track nor state is the drift check alone, and a state
   * change without a track change stores the same fields, the drift check
   * then running on top of it.
   */
  lemma SequentialAgreesWithExclusive(f: Fields, track: Option<Track>, state: MusicPlaybackState, start: Option<real>,
                                      appStart: Option<real>, appPosition: Option<real>, now: real)
    ensures state == f.state ==>
      Sequential(f, false, track, state, start, appStart, appPosition, now)
      == Exclusive(Rule, f, false, track, state, start, FromGetter, appStart, appPosition, now)
    ensures state != f.state ==>
      var e := Exclusive(Rule, f, false, track, state, start, FromGetter, appStart, appPosition, now);
      var d := Drift(Rule, e.fields, appStart, appPosition, now);
      Sequential(f, false, track, state, start, appStart, appPosition, now) == Outcome(d.fields, e.events + d.events)
  {
  }

  /**
   * Unlike the exclusive handlers, a notification of a new track in a new
   * state reports both: the track first, then the state.
   */
  lemma NewTrackInNewStateReportsBoth(f: Fields, track: Option<Track>, state: MusicPlaybackState, start: Option<real>,
                                      appStart: Option<real>, appPosition: Option<real>, now: real)
    requires state != f.state
    ensures var o := Sequential(f, true, track, state, start, appStart, appPosition, now);
      |o.events| >= 2 && o.events[0] == CurrentTrackChanged(track) && o.events[1] == PlaybackStateChanged(state)
  {
    var d := Drift(Rule, StateChange(Rule, f.(track := track, startTime := start), state, start, FromGetter, now),
                   appStart, appPosition, now);
    assert Sequential(f, true, track, state, start, appStart, appPosition, now).events
        == [CurrentTrackChanged(track)] + [PlaybackStateChanged(state)] + d.events;
  }

  /**
   * `playerInfoNotification`: when running, the three steps of
   * `Sequential`, with the application's track (under the notified URL),
   * start instant and position, and the notified state.
   */
  method PlayerInfoNotification(p: Tracker, isRunning: bool, playerStatus: Option<string>, location: Option<string>,
                                app: MacAudirvana.App, now: real)
    modifies p
    ensures !isRunning ==> p.Snapshot() == old(p.Snapshot()) && p.events == old(p.events)
    ensures isRunning ==>
      var o := Sequential(old(p.Snapshot()), MacAudirvana.CurrentTrackId(app) != IdOf(old(p.track)),
                          WithLocation(MacAudirvana.CurrentTrackOf(app), location), NotifiedState(playerStatus),
                          StartFrom(app.playerPosition, now), StartFrom(app.playerPosition, now), app.playerPosition, now);
      p.Snapshot() == o.fields && p.events == old(p.events) + o.events
  {
    if !isRunning {
      return;
    }
    var start := StartFrom(app.playerPosition, now);
    var state := NotifiedState(playerStatus);
    if MacAudirvana.CurrentTrackId(app) != IdOf(p.track) {
      p.ReplaceTrack(WithLocation(MacAudirvana.CurrentTrackOf(app), location), start);
    }
    if state != p.state {
      p.ChangeState(Rule, state, start, FromGetter, now);
    }
    p.UpdatePosition(Rule, true, start, app.playerPosition, now);
  }

  /** `updatePlayerState`: the drift check, when running. */
  method UpdatePlayerState(p: Tracker, isRunning: bool, app: MacAudirvana.App, now: real)
    modifies p
    ensures !isRunning ==> p.Snapshot() == old(p.Snapshot()) && p.events == old(p.events)
    ensures isRunning ==>
      var o := Drift(Rule, old(p.Snapshot()), StartFrom(app.playerPosition, now), app.playerPosition, now);
      p.Snapshot() == o.fields && p.events == old(p.events) + o.events
  {
    p.UpdatePosition(Rule, isRunning, StartFrom(app.playerPosition, now), app.playerPosition, now);
  }
}
