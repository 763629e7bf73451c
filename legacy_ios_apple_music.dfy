/**
 * The first-generation `AppleMusic` player on iOS
 * (`Sources/iOS/AppleMusic.swift`). The media library's authorization
 * status and the system player's state, playback time and now-playing item
 * are inputs; the player re-reads them whenever authorization flips.
 */
module LegacyAppleMusicIOS {
  import opened Wrappers
  import opened Tracks
  import opened Legacy
  import AppleMusicIOSPlayers

  /** What the player reads of the system music player. */
  datatype SystemPlayer = SystemPlayer(
    playbackState: AppleMusicIOSPlayers.MPPlaybackState,
    currentPlaybackTime: real,
    nowPlayingItem: Option<AppleMusicIOSPlayers.MediaItem>)

  /** `_playbackState`: an interruption is a pause and seeking is fast-forwarding or rewinding. */
  function StateOf(s: AppleMusicIOSPlayers.MPPlaybackState): (r: MusicPlaybackState)
    ensures r == Paused <==> s == AppleMusicIOSPlayers.MPPaused || s == AppleMusicIOSPlayers.MPInterrupted
    ensures r == Playing <==> s == AppleMusicIOSPlayers.MPPlaying
    ensures r == FastForwarding <==> s == AppleMusicIOSPlayers.MPSeekingForward
    ensures r == Rewinding <==> s == AppleMusicIOSPlayers.MPSeekingBackward
  {
    match s
    case MPPlaying => Playing
    case MPPaused => Paused
    case MPInterrupted => Paused
    case MPSeekingForward => FastForwarding
    case MPSeekingBackward => Rewinding
    case _ => Stopped
  }

  /** The id of the now-playing item, if any. */
  function ItemId(sys: SystemPlayer): Option<string>
  {
    if sys.nowPlayingItem.None? then None else Some(sys.nowPlayingItem.value.idString)
  }

  /** `updateCurrentTrack`, once authorized: an item id other than the stored track's installs the system track. */
  function TrackStep(f: Fields, sys: SystemPlayer, status: bool): (o: Outcome)
    ensures IdOf(f.track) != ItemId(sys) ==>
      o.fields == f.(track := AppleMusicIOSPlayers.ItemTrack(sys.nowPlayingItem, status))
      && o.events == [CurrentTrackChanged(o.fields.track)]
    ensures IdOf(f.track) == ItemId(sys) ==> o == Outcome(f, [])
  {
    if IdOf(f.track) != ItemId(sys) then
      var g := f.(track := AppleMusicIOSPlayers.ItemTrack(sys.nowPlayingItem, status));
      Outcome(g, [CurrentTrackChanged(g.track)])
    else Outcome(f, [])
  }

  /** `updatePlaybackState`, once authorized: a different system state replaces the stored one. */
  function StateStep(f: Fields, sys: SystemPlayer): (o: Outcome)
    ensures o.fields == f.(state := StateOf(sys.playbackState))
    ensures o.events == (if StateOf(sys.playbackState) != f.state then [PlaybackStateChanged(StateOf(sys.playbackState))] else [])
  {
    if StateOf(sys.playbackState) != f.state then
      Outcome(f.(state := StateOf(sys.playbackState)), [PlaybackStateChanged(StateOf(sys.playbackState))])
    else Outcome(f, [])
  }

  /**
   * `updatePlayerPosition`, once authorized: the drift check against the
   * system player's playback time and the start instant it implies.
   */
  function PositionStep(f: Fields, sys: SystemPlayer, now: real): (o: Outcome)
    ensures o == Drift(PauseAware, f, StartFrom(Some(sys.currentPlaybackTime), now), Some(sys.currentPlaybackTime), now)
  {
    Drift(PauseAware, f, Some(now - sys.currentPlaybackTime), Some(sys.currentPlaybackTime), now)
  }

  /** Track, state and position steps in turn, with their callbacks in that order. */
  function Refresh(f: Fields, sys: SystemPlayer, status: bool, now: real): (o: Outcome)
    ensures o.fields.state == StateOf(sys.playbackState)
    ensures status ==> IdOf(o.fields.track) == ItemId(sys)
  {
    var t := TrackStep(f, sys, status);
    var s := StateStep(t.fields, sys);
    var p := PositionStep(s.fields, sys, now);
    Outcome(p.fields, t.events + s.events + p.events)
  }

  /** A second refresh on the same readings finds nothing to change or report. */
  lemma RefreshSettles(f: Fields, sys: SystemPlayer, now: real)
    ensures var o := Refresh(f, sys, true, now);
      Refresh(o.fields, sys, true, now) == Outcome(o.fields, [])
  {
    var t := TrackStep(f, sys, true);
    var s := StateStep(t.fields, sys);
    var o := Refresh(f, sys, true, now);
    DriftSettles(PauseAware, s.fields, Some(now - sys.currentPlaybackTime), Some(sys.currentPlaybackTime), now);
    assert TrackStep(o.fields, sys, true) == Outcome(o.fields, []);
    assert StateStep(o.fields, sys) == Outcome(o.fields, []);
  }

  class AppleMusic {
    /** The stored track, state, start instant, pause position and delegate callbacks. */
    const tracker: Tracker
    /** `isAuthorized`, as last checked. */
    var isAuthorized: bool

    /** `init?`: the authorization status at start; nothing is read yet. */
    constructor (status: bool)
      ensures fresh(tracker) && tracker.Snapshot() == Fields(None, Stopped, None, None) && tracker.events == []
      ensures isAuthorized == status
    {
      tracker := new Tracker(false, None, Stopped, None);
      isAuthorized := status;
    }

    /** Apply a step's outcome to the tracker. */
    method Apply(o: Outcome)
      modifies tracker
      ensures tracker.Snapshot() == o.fields && tracker.events == old(tracker.events) + o.events
    {
      tracker.track := o.fields.track;
      tracker.state := o.fields.state;
      tracker.startTime := o.fields.startTime;
      tracker.pausePosition := o.fields.pausePosition;
      tracker.events := tracker.events + o.events;
    }

    /**
     * `checkAuthorization`: store the current status, and when it changed
     * to authorized re-read track, state and position (the nested checks
     * then find no change). The result is the current status.
     */
    method CheckAuthorization(status: bool, sys: SystemPlayer, now: real) returns (ok: bool)
      modifies this`isAuthorized, tracker
      ensures ok == status && isAuthorized == status
      ensures old(isAuthorized) != status && status ==>
        tracker.Snapshot() == Refresh(old(tracker.Snapshot()), sys, status, now).fields
        && tracker.events == old(tracker.events) + Refresh(old(tracker.Snapshot()), sys, status, now).events
      ensures !(old(isAuthorized) != status && status) ==>
        tracker.Snapshot() == old(tracker.Snapshot()) && tracker.events == old(tracker.events)
    {
      var needsUpdate := isAuthorized != status;
      isAuthorized := status;
      if needsUpdate && status {
        Apply(Refresh(tracker.Snapshot(), sys, status, now));
      }
      ok := isAuthorized;
    }

    /** `updatePlayerState`: check authorization, then, when authorized, the position step. */
    method UpdatePlayerState(status: bool, sys: SystemPlayer, now: real)
      modifies this`isAuthorized, tracker
      ensures isAuthorized == status
      ensures !status ==> tracker.Snapshot() == old(tracker.Snapshot()) && tracker.events == old(tracker.events)
      ensures status ==>
        var c := if old(isAuthorized) then Outcome(old(tracker.Snapshot()), [])
                 else Refresh(old(tracker.Snapshot()), sys, status, now);
        var p := PositionStep(c.fields, sys, now);
        tracker.Snapshot() == p.fields && tracker.events == old(tracker.events) + c.events + p.events
    {
      var ok := CheckAuthorization(status, sys, now);
      if !ok {
        return;
      }
      Apply(PositionStep(tracker.Snapshot(), sys, now));
    }

    /** `updateFullPlayerState`: check authorization, then, when authorized, a full refresh. */
    method UpdateFullPlayerState(status: bool, sys: SystemPlayer, now: real)
      modifies this`isAuthorized, tracker
      ensures isAuthorized == status
      ensures !status ==> tracker.Snapshot() == old(tracker.Snapshot()) && tracker.events == old(tracker.events)
      ensures status ==>
        var c := if old(isAuthorized) then Outcome(old(tracker.Snapshot()), [])
                 else Refresh(old(tracker.Snapshot()), sys, status, now);
        var r := Refresh(c.fields, sys, status, now);
        tracker.Snapshot() == r.fields && tracker.events == old(tracker.events) + c.events + r.events
    {
      var ok := CheckAuthorization(status, sys, now);
      if !ok {
        return;
      }
      Apply(Refresh(tracker.Snapshot(), sys, status, now));
    }

    /** The playback-state notification: `updatePlaybackState`, then `updatePlayerPosition`. */
    method PlaybackStateDidChange(status: bool, sys: SystemPlayer, now: real)
      modifies this`isAuthorized, tracker
      ensures isAuthorized == status
      ensures !status ==> tracker.Snapshot() == old(tracker.Snapshot()) && tracker.events == old(tracker.events)
      ensures status ==>
        var c := if old(isAuthorized) then Outcome(old(tracker.Snapshot()), [])
                 else Refresh(old(tracker.Snapshot()), sys, status, now);
        var s := StateStep(c.fields, sys);
        var p := PositionStep(s.fields, sys, now);
        tracker.Snapshot() == p.fields && tracker.events == old(tracker.events) + c.events + s.events + p.events
    {
      var ok := CheckAuthorization(status, sys, now);
      if !ok {
        return;
      }
      Apply(StateStep(tracker.Snapshot(), sys));
      Apply(PositionStep(tracker.Snapshot(), sys, now));
    }

    /**
     * The `playerPosition` setter: nothing without authorization; else the
     * system player is asked to move to `p` and the start instant moves.
     */
    method SetPlayerPosition(p: real, now: real) returns (write: Option<real>)
      modifies tracker`startTime
      ensures !isAuthorized ==> write.None? && tracker.startTime == old(tracker.startTime)
      ensures isAuthorized ==> write == Some(p) && tracker.startTime == Some(now - p)
    {
      if !isAuthorized {
        return None;
      }
      tracker.startTime := Some(now - p);
      write := Some(p);
    }
  }
}
