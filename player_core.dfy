/**
 * The observable state every player of the `MusicPlayers` family exposes
 * through `MusicPlayerProtocol`: an optional name, the current track and the
 * playback state. Each assignment to `currentTrack` or `playbackState`
 * emits one change event (the `@Published` will-change signal, or the
 * change notification in the notification-based generation); `posted` logs
 * them.
 */
module Players {
  import opened Wrappers
  import opened Playback
  import opened Tracks
  import opened PlayerNames
  import opened Notices
  import opened Selection
  import opened Reconcile

  class PlayerCore {
    const name: Option<MusicPlayerName>
    var currentTrack: Option<Track>
    var playbackState: PlaybackState
    var posted: seq<Notice>

    constructor (name: Option<MusicPlayerName>, track: Option<Track>, state: PlaybackState)
      ensures this.name == name && currentTrack == track && playbackState == state && posted == []
    {
      this.name := name;
      currentTrack := track;
      playbackState := state;
      posted := [];
    }

    /**
     * `playbackTime`: the position the playback state gives at `now`. This
     * is the getter of every modelled player except MPRIS, whose getter asks
     * the bus for the position anew on each call.
     */
    function PlaybackTime(now: real): (r: real)
      reads this
      ensures playbackState.Stopped? ==> r == 0.0
      ensures playbackState.Playing? ==> PlayingAt(r, now) == playbackState
      ensures !playbackState.Stopped? && !playbackState.Playing? ==> r == playbackState.time
    {
      Time(playbackState, now)
    }

    method AssignTrack(t: Option<Track>)
      modifies this
      ensures currentTrack == t && playbackState == old(playbackState)
      ensures posted == old(posted) + [CurrentTrackDidChange]
    {
      currentTrack := t;
      posted := posted + [CurrentTrackDidChange];
    }

    method AssignState(s: PlaybackState)
      modifies this
      ensures playbackState == s && currentTrack == old(currentTrack)
      ensures posted == old(posted) + [PlaybackStateDidChange]
    {
      playbackState := s;
      posted := posted + [PlaybackStateDidChange];
    }

    /**
     * The refresh rule the adapters share: a track with another identifier
     * replaces both track and state; with the same identifier only the state
     * is updated, and only when it is not within `tolerate` of the stored one.
     */
    method UpdateTrackAndState(track: Option<Track>, state: PlaybackState, tolerate: real)
      modifies this
      ensures IdOf(old(currentTrack)) != IdOf(track) ==>
        currentTrack == track && playbackState == state
        && posted == old(posted) + [CurrentTrackDidChange, PlaybackStateDidChange]
      ensures IdOf(old(currentTrack)) == IdOf(track) ==>
        currentTrack == old(currentTrack) && playbackState == Reconciled(old(playbackState), state, tolerate)
        && posted == old(posted) + if ShouldReplace(old(playbackState), state, tolerate) then [PlaybackStateDidChange] else []
    {
      if IdOf(currentTrack) != IdOf(track) {
        AssignTrack(track);
        AssignState(state);
      } else if ShouldReplace(playbackState, state, tolerate) {
        AssignState(state);
      }
    }
  }

  /** The commands of `MusicPlayerProtocol`, and the `playbackTime` setter. */
  datatype Command =
    | Resume
    | Pause
    | PlayPause
    | SkipToNextItem
    | SkipToPreviousItem
    | UpdatePlayerState
    | SetPlaybackTime(time: real)

  /** A command handed to a player. */
  datatype Delivery = Delivery(recipient: PlayerCore, command: Command)

  /** `player?.command()`: the command reaches the player unchanged, or nobody when there is none. */
  function Forward(target: PlayerCore?, c: Command): (r: Option<Delivery>)
    ensures r.None? <==> target == null
    ensures r.Some? ==> r.value.recipient == target && r.value.command == c
  {
    if target == null then None else Some(Delivery(target, c))
  }

  /** `player?.name` */
  function ForwardedName(p: PlayerCore?): (r: Option<MusicPlayerName>)
    reads p
    ensures p == null ==> r == None
    ensures p != null ==> r == p.name
  {
    if p == null then None else p.name
  }

  /** `player?.currentTrack` */
  function ForwardedTrack(p: PlayerCore?): (r: Option<Track>)
    reads p
    ensures p == null ==> r == None
    ensures p != null ==> r == p.currentTrack
  {
    if p == null then None else p.currentTrack
  }

  /** `player?.playbackState ?? .stopped` */
  function ForwardedState(p: PlayerCore?): (r: PlaybackState)
    reads p
    ensures p == null ==> r == Stopped
    ensures p != null ==> r == p.playbackState
  {
    if p == null then Stopped else p.playbackState
  }

  /** `player?.playbackTime ?? 0` */
  function ForwardedTime(p: PlayerCore?, now: real): (r: real)
    reads p
    ensures p == null ==> r == 0.0
    ensures p != null ==> r == p.PlaybackTime(now)
  {
    if p == null then 0.0 else p.PlaybackTime(now)
  }

  /** A forwarded state and time agree with each other exactly as a player's own do. */
  lemma ForwardedTimeIsStateTime(p: PlayerCore?, now: real)
    ensures ForwardedTime(p, now) == Time(ForwardedState(p), now)
  {
  }

  function StatesOf(ps: seq<PlayerCore>): (r: seq<PlaybackState>)
    reads ps
    ensures |r| == |ps|
    ensures forall i :: 0 <= i < |ps| ==> r[i] == ps[i].playbackState
  {
    if |ps| == 0 then [] else [ps[0].playbackState] + StatesOf(ps[1..])
  }

  function StateOf(p: PlayerCore?): (r: Option<PlaybackState>)
    reads p
    ensures r.None? <==> p == null
    ensures p != null ==> r == Some(p.playbackState)
  {
    if p == null then None else Some(p.playbackState)
  }
}
