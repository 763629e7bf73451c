/**
 * `MusicPlayers.SystemMedia` (and its twin `MusicPlayers.SystemNowPlaying`,
 * which differs in its `init?` guard, failing when the registration
 * function is missing rather than when MediaRemote is not loaded, and in the
 * dispatch queue it registers on): the player that follows the system-wide
 * now-playing information of macOS. Both guards are outside the model.
 */
module SystemMediaPlayers {
  import opened Wrappers
  import opened Playback
  import opened Tracks
  import opened Notices
  import opened Reconcile
  import opened MediaRemote
  import opened Players

  /** The private `SystemPlaybackState` enumeration. */
  datatype SystemPlaybackState = Terminated | SystemPlaying | SystemPaused | SystemStopped

  /** The raw value the system uses for each state. */
  function RawValue(s: SystemPlaybackState): (r: int)
    ensures 0 <= r <= 3
    ensures r == 0 <==> s == Terminated
  {
    match s
    case Terminated => 0
    case SystemPlaying => 1
    case SystemPaused => 2
    case SystemStopped => 3
  }

  /** `SystemPlaybackState(rawValue:)` */
  function FromRawValue(raw: int): (r: Option<SystemPlaybackState>)
    ensures r.Some? <==> 0 <= raw <= 3
    ensures r.Some? ==> RawValue(r.value) == raw
  {
    if raw == 0 then Some(Terminated)
    else if raw == 1 then Some(SystemPlaying)
    else if raw == 2 then Some(SystemPaused)
    else if raw == 3 then Some(SystemStopped)
    else None
  }

  lemma RawValueRoundTrip(s: SystemPlaybackState)
    ensures FromRawValue(RawValue(s)) == Some(s)
  {
  }

  /**
   * The state the info callback derives: playing from the info's start
   * instant when the system plays, paused at the elapsed time when it is
   * paused, and stopped otherwise or when that value is missing.
   */
  function NewState(system: Option<SystemPlaybackState>, info: NowPlayingInfo, now: real): (r: PlaybackState)
    ensures r.Stopped? || r.Playing? || r.Paused?
    ensures r.Playing? <==> system == Some(SystemPlaying) && StartTime(info, now).Some?
    ensures r.Playing? ==> r.start == StartTime(info, now).value
    ensures r.Paused? <==> system == Some(SystemPaused) && info.elapsedTime.Some?
    ensures r.Paused? ==> r.time == info.elapsedTime.value
  {
    match system
    case Some(SystemPlaying) =>
      (match StartTime(info, now) case Some(s) => Playing(s) case None => Stopped)
    case Some(SystemPaused) =>
      (match info.elapsedTime case Some(e) => Paused(e) case None => Stopped)
    case _ => Stopped
  }

  /** Only a playing or paused system state is worth a refresh. */
  predicate WarrantsRefresh(s: Option<SystemPlaybackState>): (r: bool)
    ensures r <==> s.Some? && 1 <= RawValue(s.value) <= 2
  {
    s == Some(SystemPlaying) || s == Some(SystemPaused)
  }

  /** The user info of a playback-state notification, when there is one. */
  datatype UserInfo = NoUserInfo | UserInfo(playbackState: Option<int>)

  class SystemMedia {
    const core: PlayerCore
    var systemPlaybackState: Option<SystemPlaybackState>

    /** A new player: no name, no track, stopped, system state not yet known. */
    constructor ()
      ensures fresh(core) && core.name == None && core.currentTrack == None && core.playbackState == Stopped
      ensures core.posted == [] && systemPlaybackState == None
    {
      core := new PlayerCore(None, None, Stopped);
      systemPlaybackState := None;
    }

    /**
     * `updatePlayerState` with the dictionary MediaRemote hands to its
     * callback: no dictionary stops and clears the track; otherwise the state
     * is assigned unless approximately equal, and the track unless its
     * identifier is the same.
     */
    method UpdatePlayerState(info: Option<NowPlayingInfo>, now: real)
      modifies core
      ensures info.None? ==>
        core.playbackState == Stopped && core.currentTrack == None
        && core.posted == old(core.posted) + [PlaybackStateDidChange, CurrentTrackDidChange]
      ensures info.Some? ==>
        var s := NewState(systemPlaybackState, info.value, now);
        var t := TrackOf(info.value);
        var stateChanges := !ApproximateEqual(old(core.playbackState), s, DefaultTolerance);
        var trackChanges := IdOf(t) != IdOf(old(core.currentTrack));
        core.playbackState == (if stateChanges then s else old(core.playbackState))
        && core.currentTrack == (if trackChanges then t else old(core.currentTrack))
        && core.posted == old(core.posted) + (if stateChanges then [PlaybackStateDidChange] else [])
                          + (if trackChanges then [CurrentTrackDidChange] else [])
    {
      if info.None? {
        core.AssignState(Stopped);
        core.AssignTrack(None);
        return;
      }
      var newState := NewState(systemPlaybackState, info.value, now);
      if !ApproximateEqual(core.playbackState, newState, DefaultTolerance) {
        core.AssignState(newState);
      }
      var newTrack := TrackOf(info.value);
      if IdOf(newTrack) != IdOf(core.currentTrack) {
        core.AssignTrack(newTrack);
      }
    }

    /** The answer to the initial is-playing query. */
    method IsPlayingCallback(isPlaying: bool, info: Option<NowPlayingInfo>, now: real)
      modifies this, core
      ensures systemPlaybackState == Some(if isPlaying then SystemPlaying else SystemPaused)
      ensures info.None? ==>
        core.playbackState == Stopped && core.currentTrack == None
        && core.posted == old(core.posted) + [PlaybackStateDidChange, CurrentTrackDidChange]
      ensures info.Some? ==>
        var t := TrackOf(info.value);
        core.playbackState == Reconciled(old(core.playbackState), NewState(systemPlaybackState, info.value, now), DefaultTolerance)
        && core.currentTrack == (if IdOf(t) != IdOf(old(core.currentTrack)) then t else old(core.currentTrack))
        && core.posted == old(core.posted)
           + (if ShouldReplace(old(core.playbackState), NewState(systemPlaybackState, info.value, now), DefaultTolerance)
              then [PlaybackStateDidChange] else [])
           + (if IdOf(t) != IdOf(old(core.currentTrack)) then [CurrentTrackDidChange] else [])
    {
      systemPlaybackState := Some(if isPlaying then SystemPlaying else SystemPaused);
      UpdatePlayerState(info, now);
    }

    /**
     * The playback-state notification: raw state 1 or 2 refreshes from the
     * info; any other or missing state, or no user info, stops and clears
     * the track.
     */
    method ApplicationPlaybackStateDidChange(userInfo: UserInfo, info: Option<NowPlayingInfo>, now: real)
      modifies this, core
      ensures userInfo.NoUserInfo? ==> systemPlaybackState == old(systemPlaybackState)
      ensures userInfo.UserInfo? ==>
        systemPlaybackState == match userInfo.playbackState case Some(raw) => FromRawValue(raw) case None => None
      ensures userInfo.NoUserInfo? || !WarrantsRefresh(systemPlaybackState) ==>
        core.playbackState == Stopped && core.currentTrack == None
        && core.posted == old(core.posted) + [PlaybackStateDidChange, CurrentTrackDidChange]
      ensures userInfo.UserInfo? && info.None? && WarrantsRefresh(systemPlaybackState) ==>
        core.playbackState == Stopped && core.currentTrack == None
        && core.posted == old(core.posted) + [PlaybackStateDidChange, CurrentTrackDidChange]
      ensures userInfo.UserInfo? && info.Some? && WarrantsRefresh(systemPlaybackState) ==>
        var t := TrackOf(info.value);
        core.playbackState == Reconciled(old(core.playbackState), NewState(systemPlaybackState, info.value, now), DefaultTolerance)
        && core.currentTrack == (if IdOf(t) != IdOf(old(core.currentTrack)) then t else old(core.currentTrack))
        && core.posted == old(core.posted)
           + (if ShouldReplace(old(core.playbackState), NewState(systemPlaybackState, info.value, now), DefaultTolerance)
              then [PlaybackStateDidChange] else [])
           + (if IdOf(t) != IdOf(old(core.currentTrack)) then [CurrentTrackDidChange] else [])
    {
      if userInfo.NoUserInfo? {
        core.AssignState(Stopped);
        core.AssignTrack(None);
        return;
      }
      systemPlaybackState := match userInfo.playbackState case Some(raw) => FromRawValue(raw) case None => None;
      if WarrantsRefresh(systemPlaybackState) {
        UpdatePlayerState(info, now);
      } else {
        core.AssignState(Stopped);
        core.AssignTrack(None);
      }
    }

    /** The `playbackTime` setter: the system is told the new position and the state moves to it. */
    method SetPlaybackTime(t: real, now: real)
      modifies core
      ensures core.playbackState == WithTime(old(core.playbackState), t, now)
      ensures core.currentTrack == old(core.currentTrack)
      ensures core.posted == old(core.posted) + [PlaybackStateDidChange]
    {
      core.AssignState(WithTime(core.playbackState, t, now));
    }
  }
}
