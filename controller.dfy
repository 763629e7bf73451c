/**
 * `MusicPlayerController`, the base class of the classic controllers: the
 * observable track, playback state and running flag of one player
 * application, and the tolerant update of the playback state.
 *
 * Every assignment to `isRunning`, `currentTrack` or `playbackState` posts
 * one notification with the controller as sender; `posted` is the log of
 * those notifications.
 */
module Controllers {
  import opened Wrappers
  import opened Numbers
  import opened Playback
  import opened Tracks
  import opened PlayerNames
  import opened Notices
  import opened Reconcile

  /** `playbackTimeMutateThreshold`, the default tolerance of `setPlaybackState`. */
  const PlaybackTimeMutateThreshold: real := 1.5

  class MusicPlayerController {
    /** The controller class's `name`. */
    const name: MusicPlayerName
    var isRunning: bool
    var currentTrack: Option<Track>
    var playbackState: PlaybackState
    /** Notifications posted with this controller as sender, oldest first. */
    var posted: seq<Notice>

    /** A controller for a found application, running or not; no track, stopped. */
    constructor (name: MusicPlayerName, isRunning: bool)
      ensures this.name == name && this.isRunning == isRunning
      ensures currentTrack == None && playbackState == Stopped && posted == []
    {
      this.name := name;
      this.isRunning := isRunning;
      currentTrack := None;
      playbackState := Stopped;
      posted := [];
    }

    /** The launch and terminate observers assign `isRunning`. */
    method SetRunning(running: bool)
      modifies this
      ensures isRunning == running && posted == old(posted) + [RunningStateDidChange]
      ensures currentTrack == old(currentTrack) && playbackState == old(playbackState)
    {
      isRunning := running;
      posted := posted + [RunningStateDidChange];
    }

    /** `currentTrack = t`: one notification, whether or not the value changed. */
    method AssignTrack(t: Option<Track>)
      modifies this
      ensures currentTrack == t && posted == old(posted) + [CurrentTrackDidChange]
      ensures isRunning == old(isRunning) && playbackState == old(playbackState)
    {
      currentTrack := t;
      posted := posted + [CurrentTrackDidChange];
    }

    /** `playbackState = s`: one notification, whether or not the value changed. */
    method AssignState(s: PlaybackState)
      modifies this
      ensures playbackState == s && posted == old(posted) + [PlaybackStateDidChange]
      ensures isRunning == old(isRunning) && currentTrack == old(currentTrack)
    {
      playbackState := s;
      posted := posted + [PlaybackStateDidChange];
    }

    /** `setPlaybackState(_:tolerate:)`: assign only when the new state is not within tolerance. */
    method SetPlaybackState(state: PlaybackState, tolerate: real)
      modifies this
      ensures playbackState == Reconciled(old(playbackState), state, tolerate)
      ensures posted == old(posted) + (if ShouldReplace(old(playbackState), state, tolerate) then [PlaybackStateDidChange] else [])
      ensures isRunning == old(isRunning) && currentTrack == old(currentTrack)
    {
      match (playbackState, state) {
        case (Stopped, Stopped) =>
        case (Playing(d1), Playing(d2)) =>
          if Abs(d1 - d2) > tolerate { AssignState(state); }
        case (Paused(d1), Paused(d2)) =>
          if Abs(d1 - d2) > tolerate { AssignState(state); }
        case (FastForwarding(d1), FastForwarding(d2)) =>
          if Abs(d1 - d2) > tolerate { AssignState(state); }
        case (Rewinding(d1), Rewinding(d2)) =>
          if Abs(d1 - d2) > tolerate { AssignState(state); }
        case _ =>
          AssignState(state);
      }
    }

    /**
     * The refresh rule of the Vox and Audirvana controllers: a track with
     * another identifier replaces track and state outright; with the same
     * identifier the state goes through `setPlaybackState`.
     */
    method UpdateTrackAndState(track: Option<Track>, state: PlaybackState)
      modifies this
      ensures IdOf(old(currentTrack)) != IdOf(track) ==>
        currentTrack == track && playbackState == state
        && posted == old(posted) + [CurrentTrackDidChange, PlaybackStateDidChange]
      ensures IdOf(old(currentTrack)) == IdOf(track) ==>
        currentTrack == old(currentTrack)
        && playbackState == Reconciled(old(playbackState), state, PlaybackTimeMutateThreshold)
        && posted == old(posted)
           + if ShouldReplace(old(playbackState), state, PlaybackTimeMutateThreshold) then [PlaybackStateDidChange] else []
      ensures isRunning == old(isRunning)
    {
      if IdOf(currentTrack) != IdOf(track) {
        AssignTrack(track);
        AssignState(state);
      } else {
        SetPlaybackState(state, PlaybackTimeMutateThreshold);
      }
    }

    /** The base class's commands do nothing. */
    method Resume()
      ensures isRunning == old(isRunning) && currentTrack == old(currentTrack)
      ensures playbackState == old(playbackState) && posted == old(posted)
    {
    }

    method Pause()
      ensures isRunning == old(isRunning) && currentTrack == old(currentTrack)
      ensures playbackState == old(playbackState) && posted == old(posted)
    {
    }

    method PlayPause()
      ensures isRunning == old(isRunning) && currentTrack == old(currentTrack)
      ensures playbackState == old(playbackState) && posted == old(posted)
    {
    }

    method SkipToNextItem()
      ensures isRunning == old(isRunning) && currentTrack == old(currentTrack)
      ensures playbackState == old(playbackState) && posted == old(posted)
    {
    }

    method SkipToPreviousItem()
      ensures isRunning == old(isRunning) && currentTrack == old(currentTrack)
      ensures playbackState == old(playbackState) && posted == old(posted)
    {
    }
  }
}
