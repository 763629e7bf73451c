/** `MusicPlayers.Virtual`: a player that holds its state itself and obeys its commands directly. */
module VirtualPlayers {
  import opened Wrappers
  import opened Playback
  import opened Tracks
  import opened Notices
  import opened Players

  /** The state after `resume` at `now`: a paused position starts playing from there. */
  function Resumed(s: PlaybackState, now: real): (r: PlaybackState)
    ensures s.Paused? ==> r.Playing? && Time(r, now) == s.time
    ensures !s.Paused? ==> r == s
  {
    if s.Paused? then PlayingAt(s.time, now) else s
  }

  /** The state after `pause` at `now`: a moving position is frozen where it is. */
  function PausedAt(s: PlaybackState, now: real): (r: PlaybackState)
    ensures IsPlaying(s) ==> r == Paused(Time(s, now))
    ensures !IsPlaying(s) ==> r == s
  {
    if IsPlaying(s) then Paused(Time(s, now)) else s
  }

  /** `resume` then `pause` at the same instant restores the paused state. */
  lemma ResumeThenPause(t: real, now: real)
    ensures PausedAt(Resumed(Paused(t), now), now) == Paused(t)
  {
  }

  /** `pause` then `resume` at the same instant gives back a playing state unchanged. */
  lemma PauseThenResume(start: real, now: real)
    ensures Resumed(PausedAt(Playing(start), now), now) == Playing(start)
  {
  }

  /** Neither command changes the position at the instant it is given. */
  lemma CommandsKeepPosition(s: PlaybackState, now: real)
    ensures Time(Resumed(s, now), now) == Time(s, now)
    ensures Time(PausedAt(s, now), now) == Time(s, now)
  {
  }

  class Virtual {
    const core: PlayerCore

    /** `init(track:state:)` */
    constructor (track: Option<Track>, state: PlaybackState)
      ensures fresh(core) && core.name == None
      ensures core.currentTrack == track && core.playbackState == state && core.posted == []
    {
      core := new PlayerCore(None, track, state);
    }

    /** `init()` with the default arguments: no track, stopped. */
    constructor Default()
      ensures fresh(core) && core.name == None
      ensures core.currentTrack == None && core.playbackState == Stopped && core.posted == []
    {
      core := new PlayerCore(None, None, Stopped);
    }

    method Resume(now: real)
      modifies core
      ensures core.playbackState == Resumed(old(core.playbackState), now)
      ensures core.currentTrack == old(core.currentTrack)
      ensures core.posted == old(core.posted) + if old(core.playbackState).Paused? then [PlaybackStateDidChange] else []
    {
      if core.playbackState.Paused? {
        core.AssignState(PlayingAt(core.playbackState.time, now));
      }
    }

    method Pause(now: real)
      modifies core
      ensures core.playbackState == PausedAt(old(core.playbackState), now)
      ensures core.currentTrack == old(core.currentTrack)
      ensures core.posted == old(core.posted) + if IsPlaying(old(core.playbackState)) then [PlaybackStateDidChange] else []
    {
      if IsPlaying(core.playbackState) {
        core.AssignState(Paused(Time(core.playbackState, now)));
      }
    }

    /** The private `stop`: clear the track, then stop. */
    method Stop()
      modifies core
      ensures core.currentTrack == None && core.playbackState == Stopped
      ensures core.posted == old(core.posted) + [CurrentTrackDidChange, PlaybackStateDidChange]
    {
      core.AssignTrack(None);
      core.AssignState(Stopped);
    }

    method SkipToNextItem()
      modifies core
      ensures core.currentTrack == None && core.playbackState == Stopped
      ensures core.posted == old(core.posted) + [CurrentTrackDidChange, PlaybackStateDidChange]
    {
      Stop();
    }

    method SkipToPreviousItem()
      modifies core
      ensures core.currentTrack == None && core.playbackState == Stopped
      ensures core.posted == old(core.posted) + [CurrentTrackDidChange, PlaybackStateDidChange]
    {
      Stop();
    }

    /** The `playbackTime` setter; the getter is `core.PlaybackTime`. */
    method SetPlaybackTime(t: real, now: real)
      modifies core
      ensures core.playbackState == WithTime(old(core.playbackState), t, now)
      ensures core.currentTrack == old(core.currentTrack)
      ensures core.posted == old(core.posted) + [PlaybackStateDidChange]
    {
      core.AssignState(WithTime(core.playbackState, t, now));
    }

    method UpdatePlayerState()
      ensures core.currentTrack == old(core.currentTrack) && core.playbackState == old(core.playbackState)
      ensures core.posted == old(core.posted)
    {
    }
  }
}
