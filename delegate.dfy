/**
 * `MusicPlayers.Delegate`: a player that exposes another, optional player.
 * Every accessor and command goes to `currentPlayer`; with none, the name
 * and track are absent, the state is stopped, the time is 0 and commands
 * reach nobody.
 */
module Delegates {
  import opened Wrappers
  import opened Playback
  import opened Tracks
  import opened PlayerNames
  import opened Players

  class Delegate {
    var currentPlayer: PlayerCore?
    /** The delegate's own will-change signals, one per assignment of `currentPlayer`. */
    var changes: nat

    constructor ()
      ensures currentPlayer == null && changes == 0
    {
      currentPlayer := null;
      changes := 0;
    }

    /** The `@Published` `currentPlayer` setter. */
    method SetCurrentPlayer(p: PlayerCore?)
      modifies this
      ensures currentPlayer == p && changes == old(changes) + 1
    {
      currentPlayer := p;
      changes := changes + 1;
    }

    /** `name`: the current player's name, absent without one. */
    function Name(): (r: Option<MusicPlayerName>)
      reads this, currentPlayer
      ensures currentPlayer == null ==> r == None
      ensures currentPlayer != null ==> r == currentPlayer.name
    {
      ForwardedName(currentPlayer)
    }

    /** `currentTrack`: the current player's track, absent without one. */
    function CurrentTrack(): (r: Option<Track>)
      reads this, currentPlayer
      ensures currentPlayer == null ==> r == None
      ensures currentPlayer != null ==> r == currentPlayer.currentTrack
    {
      ForwardedTrack(currentPlayer)
    }

    /** `playbackState`: the current player's state, stopped without one. */
    function State(): (r: PlaybackState)
      reads this, currentPlayer
      ensures currentPlayer == null ==> r == Stopped
      ensures currentPlayer != null ==> r == currentPlayer.playbackState
    {
      ForwardedState(currentPlayer)
    }

    /** The `playbackTime` getter: the current player's position, 0 without one. */
    function PlaybackTime(now: real): (r: real)
      reads this, currentPlayer
      ensures currentPlayer == null ==> r == 0.0
      ensures currentPlayer != null ==> r == Time(currentPlayer.playbackState, now)
    {
      ForwardedTime(currentPlayer, now)
    }

    /**
     * `resume`, `pause`, `playPause`, the skips, `updatePlayerState` and the
     * `playbackTime` setter: the command reaches the current player
     * unchanged, or nobody without one.
     */
    function Send(c: Command): (r: Option<Delivery>)
      reads this
      ensures currentPlayer == null ==> r == None
      ensures currentPlayer != null ==> r == Some(Delivery(currentPlayer, c))
    {
      Forward(currentPlayer, c)
    }
  }
}
