/**
 * `MusicPlayers.MPRIS`: a player on the Linux media-player bus. The bus
 * queries are inputs: the playback status, the position (already in
 * seconds) and the metadata strings.
 */
module MprisPlayers {
  import opened Wrappers
  import opened Playback
  import opened Tracks
  import opened PlayerNames
  import opened Notices
  import opened Reconcile
  import opened Players

  datatype PlaybackStatus = StatusPlaying | StatusPaused | StatusStopped | StatusUnknown

  /** The metadata properties read for a track; `length` is in microseconds. */
  datatype Metadata = Metadata(
    trackId: Option<string>,
    length: Option<real>,
    title: Option<string>,
    album: Option<string>,
    artist: Option<string>,
    url: Option<string>)

  /** `state`: playing or paused at the reported position; stopped for any other status. */
  function MprisState(status: PlaybackStatus, position: real, now: real): (r: PlaybackState)
    ensures IsPlaying(r) <==> status == StatusPlaying
    ensures r.Paused? <==> status == StatusPaused
    ensures r.Stopped? <==> status == StatusStopped || status == StatusUnknown
    ensures !r.Stopped? ==> Time(r, now) == position
  {
    match status
    case StatusPlaying => PlayingAt(position, now)
    case StatusPaused => Paused(position)
    case StatusStopped => Stopped
    case StatusUnknown => Stopped
  }

  /** `track`: always a track; a missing track id gives the empty id, a missing length a zero duration. */
  function TrackOf(m: Metadata): (r: Track)
    ensures m.trackId.None? ==> r.id == ""
    ensures m.trackId.Some? ==> r.id == m.trackId.value
    ensures r.duration == Some(m.length.GetOr(0.0) / 1000000.0)
    ensures r.title == m.title && r.album == m.album && r.artist == m.artist && r.url == m.url
  {
    Track(m.trackId.GetOr(""), m.title, m.album, m.artist, Some(m.length.GetOr(0.0) / 1000000.0), m.url)
  }

  class MPRIS {
    const core: PlayerCore

    /** The player starts named `mpris`, then reads its state once. */
    constructor (status: PlaybackStatus, position: real, m: Metadata, now: real)
      ensures fresh(core) && core.name == Some(Mpris)
      ensures core.currentTrack == Some(TrackOf(m)) && core.playbackState == MprisState(status, position, now)
    {
      core := new PlayerCore(Some(Mpris), None, Stopped);
      new;
      UpdatePlayerState(status, position, m, now);
    }

    /** `updatePlayerState`, the handler of every bus signal. */
    method UpdatePlayerState(status: PlaybackStatus, position: real, m: Metadata, now: real)
      modifies core
      ensures IdOf(old(core.currentTrack)) != Some(TrackOf(m).id) ==>
        core.currentTrack == Some(TrackOf(m)) && core.playbackState == MprisState(status, position, now)
        && core.posted == old(core.posted) + [CurrentTrackDidChange, PlaybackStateDidChange]
      ensures IdOf(old(core.currentTrack)) == Some(TrackOf(m).id) ==>
        core.currentTrack == old(core.currentTrack)
        && core.playbackState == Reconciled(old(core.playbackState), MprisState(status, position, now), DefaultTolerance)
        && core.posted == old(core.posted)
           + if ShouldReplace(old(core.playbackState), MprisState(status, position, now), DefaultTolerance) then [PlaybackStateDidChange] else []
    {
      core.UpdateTrackAndState(Some(TrackOf(m)), MprisState(status, position, now), DefaultTolerance);
    }
  }
}
