/**
 * `MusicPlayers.SpotifyiOS`: the Spotify player on iOS, fed with player
 * states by the Spotify app-remote connection.
 */
module SpotifyIOSPlayers {
  import opened Wrappers
  import opened Numbers
  import opened Playback
  import opened Tracks
  import opened PlayerNames
  import opened Notices
  import opened Reconcile
  import opened Players

  /** A remote track; `duration` is in milliseconds. */
  datatype RemoteTrack = RemoteTrack(uri: string, name: string, album: string, artist: string, duration: int)

  /** A remote player state; `playbackPosition` is in milliseconds. */
  datatype RemotePlayerState = RemotePlayerState(isPaused: bool, playbackPosition: int, track: RemoteTrack)

  /** `SPTAppRemoteTrack.track`: the URI is the track id. */
  function TrackOf(t: RemoteTrack): (r: Track)
    ensures r.id == t.uri
    ensures r.title == Some(t.name) && r.album == Some(t.album) && r.artist == Some(t.artist)
    ensures r.duration == Some(t.duration as real / 1000.0) && r.url == None
  {
    Track(t.uri, Some(t.name), Some(t.album), Some(t.artist), Some(t.duration as real / 1000.0), None)
  }

  /** `position`, in seconds. */
  function Position(s: RemotePlayerState): (r: real)
    ensures r * 1000.0 == s.playbackPosition as real
  {
    s.playbackPosition as real / 1000.0
  }

  /** `startTime`: the instant playback would have started to be at `position` now. */
  function StartTime(s: RemotePlayerState, now: real): (r: real)
    ensures now - r == Position(s)
  {
    now - Position(s)
  }

  /** `playbackState`: paused at the position, or playing from the start instant. */
  function RemoteState(s: RemotePlayerState, now: real): (r: PlaybackState)
    ensures s.isPaused ==> r == Paused(Position(s))
    ensures !s.isPaused ==> r == Playing(StartTime(s, now))
    ensures Time(r, now) == Position(s)
  {
    if s.isPaused then Paused(Position(s)) else Playing(StartTime(s, now))
  }

  class SpotifyIOS {
    const core: PlayerCore
    /** `appRemote.isConnected` */
    var isConnected: bool

    constructor (isConnected: bool)
      ensures fresh(core) && core.name == Some(Spotify) && core.currentTrack == None && core.playbackState == Stopped
      ensures core.posted == [] && this.isConnected == isConnected
    {
      core := new PlayerCore(Some(Spotify), None, Stopped);
      this.isConnected := isConnected;
    }

    /** `playerStateDidChange`: a new URI replaces track and state, else a state update within tolerance 1. */
    method PlayerStateDidChange(s: RemotePlayerState, now: real)
      modifies core
      ensures IdOf(old(core.currentTrack)) != Some(s.track.uri) ==>
        core.currentTrack == Some(TrackOf(s.track)) && core.playbackState == RemoteState(s, now)
        && core.posted == old(core.posted) + [CurrentTrackDidChange, PlaybackStateDidChange]
      ensures IdOf(old(core.currentTrack)) == Some(s.track.uri) ==>
        core.currentTrack == old(core.currentTrack)
        && core.playbackState == Reconciled(old(core.playbackState), RemoteState(s, now), 1.0)
        && core.posted == old(core.posted)
           + if ShouldReplace(old(core.playbackState), RemoteState(s, now), 1.0) then [PlaybackStateDidChange] else []
    {
      core.UpdateTrackAndState(Some(TrackOf(s.track)), RemoteState(s, now), 1.0);
    }

    /**
     * The `playbackTime` setter: nothing without a connection; otherwise the
     * state moves to `t` and the remote is asked to seek to the whole
     * milliseconds of `t` (returned here).
     */
    method SetPlaybackTime(t: real, now: real) returns (seek: Option<int>)
      modifies core
      ensures !isConnected ==>
        seek == None && core.playbackState == old(core.playbackState) && core.posted == old(core.posted)
      ensures isConnected ==>
        seek == Some(Truncate(t * 1000.0))
        && core.playbackState == WithTime(old(core.playbackState), t, now)
        && core.posted == old(core.posted) + [PlaybackStateDidChange]
      ensures core.currentTrack == old(core.currentTrack)
    {
      if !isConnected {
        return None;
      }
      core.AssignState(WithTime(core.playbackState, t, now));
      seek := Some(Truncate(t * 1000.0));
    }
  }
}
