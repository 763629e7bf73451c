/**
 * `MusicPlayers.AppleMusic` on iOS: the system music player. The media
 * library's authorization status is an input flag, the player's state and
 * now-playing item are inputs, and what the adapter asks of the system
 * player is logged in `requests`.
 */
module AppleMusicIOSPlayers {
  import opened Wrappers
  import opened Playback
  import opened Tracks
  import opened PlayerNames
  import opened Notices
  import opened Reconcile
  import opened Players

  /** `MPMusicPlaybackState`, with a case for values this version does not know. */
  datatype MPPlaybackState = MPStopped | MPPlaying | MPPaused | MPInterrupted | MPSeekingForward | MPSeekingBackward | MPUnknown

  /** `_playbackState`: each system state at the player's current playback time. */
  function SystemState(s: MPPlaybackState, currentPlaybackTime: real, now: real): (r: PlaybackState)
    ensures r.Stopped? <==> s == MPStopped || s == MPUnknown
    ensures r.Playing? <==> s == MPPlaying
    ensures r.Paused? <==> s == MPPaused || s == MPInterrupted
    ensures r.FastForwarding? <==> s == MPSeekingForward
    ensures r.Rewinding? <==> s == MPSeekingBackward
    ensures !r.Stopped? ==> Time(r, now) == currentPlaybackTime
  {
    match s
    case MPStopped => Stopped
    case MPPlaying => PlayingAt(currentPlaybackTime, now)
    case MPPaused => Paused(currentPlaybackTime)
    case MPInterrupted => Paused(currentPlaybackTime)
    case MPSeekingForward => FastForwarding(currentPlaybackTime)
    case MPSeekingBackward => Rewinding(currentPlaybackTime)
    case MPUnknown => Stopped
  }

  /** A now-playing item; `idString` is the formatted persistent identifier. */
  datatype MediaItem = MediaItem(idString: string, title: Option<string>, albumTitle: Option<string>, artist: Option<string>, playbackDuration: real)

  /** `musicTrack`: no track without authorization, otherwise the item's fields under its id. */
  function MusicTrack(item: MediaItem, authorized: bool): (r: Option<Track>)
    ensures r.None? <==> !authorized
    ensures r.Some? ==>
      r.value.id == item.idString && r.value.title == item.title
      && r.value.album == item.albumTitle && r.value.artist == item.artist
      && r.value.duration == Some(item.playbackDuration) && r.value.url == None
  {
    if authorized then Some(Track(item.idString, item.title, item.albumTitle, item.artist, Some(item.playbackDuration), None))
    else None
  }

  /** `track?.musicTrack` */
  function ItemTrack(item: Option<MediaItem>, authorized: bool): (r: Option<Track>)
    ensures authorized ==> IdOf(r) == (if item.Some? then Some(item.value.idString) else None)
    ensures item.None? ==> r == None
  {
    if item.None? then None else MusicTrack(item.value, authorized)
  }

  /** What the adapter asks of the system music player. */
  datatype Request = Play | PauseRequest | SkipToNext | SkipToPrevious | Seek(time: real)

  /** `playPause`: pause a playing player, play any other. */
  function PlayPauseRequest(s: PlaybackState): (r: Request)
    ensures r == PauseRequest <==> IsPlaying(s)
    ensures r == Play <==> !IsPlaying(s)
  {
    if IsPlaying(s) then PauseRequest else Play
  }

  class AppleMusic {
    const core: PlayerCore
    /** `MPMediaLibrary.authorizationStatus() == .authorized` */
    var authorized: bool
    var requests: seq<Request>

    /** The player starts named `appleMusic` with no track, then reads the system player once. */
    constructor (authorized: bool, s: MPPlaybackState, time: real, item: Option<MediaItem>, now: real)
      ensures fresh(core) && core.name == Some(AppleMusic) && this.authorized == authorized && requests == []
      ensures !authorized ==> core.currentTrack == None && core.playbackState == Stopped && core.posted == []
      ensures authorized && item.Some? ==>
        core.currentTrack == ItemTrack(item, true) && core.playbackState == SystemState(s, time, now)
      ensures authorized && item.None? ==>
        core.currentTrack == None && core.playbackState == Reconciled(Stopped, SystemState(s, time, now), DefaultTolerance)
    {
      core := new PlayerCore(Some(AppleMusic), None, Stopped);
      this.authorized := authorized;
      requests := [];
      new;
      UpdatePlayerState(s, time, item, now);
    }

    /** `updatePlayerState`: nothing without authorization, else the shared refresh rule. */
    method UpdatePlayerState(s: MPPlaybackState, time: real, item: Option<MediaItem>, now: real)
      modifies core
      ensures !authorized ==> unchanged(core)
      ensures authorized && IdOf(old(core.currentTrack)) != IdOf(ItemTrack(item, true)) ==>
        core.currentTrack == ItemTrack(item, true) && core.playbackState == SystemState(s, time, now)
        && core.posted == old(core.posted) + [CurrentTrackDidChange, PlaybackStateDidChange]
      ensures authorized && IdOf(old(core.currentTrack)) == IdOf(ItemTrack(item, true)) ==>
        core.currentTrack == old(core.currentTrack)
        && core.playbackState == Reconciled(old(core.playbackState), SystemState(s, time, now), DefaultTolerance)
        && core.posted == old(core.posted)
           + if ShouldReplace(old(core.playbackState), SystemState(s, time, now), DefaultTolerance) then [PlaybackStateDidChange] else []
    {
      if !authorized {
        return;
      }
      core.UpdateTrackAndState(ItemTrack(item, authorized), SystemState(s, time, now), DefaultTolerance);
    }

    method Resume()
      modifies this`requests
      ensures requests == old(requests) + if authorized then [Play] else []
    {
      if !authorized {
        return;
      }
      requests := requests + [Play];
    }

    method Pause()
      modifies this`requests
      ensures requests == old(requests) + if authorized then [PauseRequest] else []
    {
      if !authorized {
        return;
      }
      requests := requests + [PauseRequest];
    }

    method PlayPause()
      modifies this`requests
      ensures requests == old(requests) + if authorized then [PlayPauseRequest(core.playbackState)] else []
    {
      if !authorized {
        return;
      }
      requests := requests + [PlayPauseRequest(core.playbackState)];
    }

    method SkipToNextItem()
      modifies this`requests
      ensures requests == old(requests) + if authorized then [SkipToNext] else []
    {
      if !authorized {
        return;
      }
      requests := requests + [SkipToNext];
    }

    method SkipToPreviousItem()
      modifies this`requests
      ensures requests == old(requests) + if authorized then [SkipToPrevious] else []
    {
      if !authorized {
        return;
      }
      requests := requests + [SkipToPrevious];
    }

    /** The `playbackTime` setter: seek the system player and move the stored state to `t`. */
    method SetPlaybackTime(t: real, now: real)
      modifies this`requests, core
      ensures requests == old(requests) + if authorized then [Seek(t)] else []
      ensures !authorized ==> unchanged(core)
      ensures authorized ==>
        core.playbackState == WithTime(old(core.playbackState), t, now)
        && core.currentTrack == old(core.currentTrack)
        && core.posted == old(core.posted) + [PlaybackStateDidChange]
    {
      if !authorized {
        return;
      }
      requests := requests + [Seek(t)];
      core.AssignState(WithTime(core.playbackState, t, now));
    }
  }
}
