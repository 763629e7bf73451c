/**
 * `MusicPlayers.NowPlaying` of the notification-based generation: a fixed
 * list of players, the selected one, and the notifications it posts as
 * sender. Its accessors and commands go to the selected player.
 */
module NowPlayingPlayers {
  import opened Wrappers
  import opened Playback
  import opened Tracks
  import opened PlayerNames
  import opened Notices
  import opened Selection
  import opened Players

  class NowPlayingPlayer {
    const players: seq<PlayerCore>
    var player: PlayerCore?
    var posted: seq<Notice>

    ghost predicate Valid()
      reads this
    {
      player == null || player in players
    }

    /** The player `selectNewPlayer` would choose in the current state. */
    function Selected(): (r: PlayerCore?)
      reads this, players, player
      requires Valid()
      ensures r == null || r in players
    {
      Designated<PlayerCore?>(NowPlayingPlayerSelectAsWritten(StatesOf(players), StateOf(player)), player, null, players)
    }

    constructor (players: seq<PlayerCore>)
      ensures this.players == players && Valid()
      ensures player == Designated<PlayerCore?>(NowPlayingPlayerSelectAsWritten(StatesOf(players), None), null, null, players)
      ensures posted == if player != null then SelectionChangeNotices else []
    {
      this.players := players;
      player := null;
      posted := [];
      new;
      SelectNewPlayer();
    }

    /**
     * `selectNewPlayer`, with its third tier as written (the first stopped
     * player): `player` is reassigned, with its three notifications, only on
     * identity change.
     */
    method SelectNewPlayer()
      requires Valid()
      modifies this
      ensures Valid()
      ensures player == old(Selected())
      ensures posted == old(posted) + if player != old(player) then SelectionChangeNotices else []
    {
      var c := NowPlayingPlayerSelectAsWritten(StatesOf(players), StateOf(player));
      var newPlayer := Designated<PlayerCore?>(c, player, null, players);
      if newPlayer != player {
        player := newPlayer;
        posted := posted + SelectionChangeNotices;
      }
    }

    /**
     * Delivery of notification `n` posted by `sender`: a state change of a
     * managed player reselects and is then reposted if it comes from the
     * selected player; a track change is reposted if it comes from the
     * selected player.
     */
    method Receive(n: Notice, sender: PlayerCore)
      requires Valid()
      modifies this
      ensures Valid()
      ensures n == PlaybackStateDidChange && sender in players ==>
        player == old(Selected())
        && posted == old(posted) + (if player != old(player) then SelectionChangeNotices else [])
                     + if player == sender then [n] else []
      ensures n == CurrentTrackDidChange ==>
        player == old(player) && posted == old(posted) + if player == sender then [n] else []
      ensures n != CurrentTrackDidChange && !(n == PlaybackStateDidChange && sender in players) ==>
        player == old(player) && posted == old(posted)
    {
      if n == PlaybackStateDidChange && sender in players {
        SelectNewPlayer();
        if player == sender {
          posted := posted + [n];
        }
      } else if n == CurrentTrackDidChange {
        if player == sender {
          posted := posted + [n];
        }
      }
    }

    /** `name`: the aggregator's own name, which no scriptable player has. */
    function Name(): (r: MusicPlayerName)
      ensures r == NowPlaying && r !in ScriptingPlayerNames
    {
      NowPlaying
    }

    /** `currentTrack`: the selected player's track, absent without one. */
    function CurrentTrack(): (r: Option<Track>)
      reads this, player
      ensures player == null ==> r == None
      ensures player != null ==> r == player.currentTrack
    {
      ForwardedTrack(player)
    }

    /** `playbackState`: the selected player's state, stopped without one. */
    function State(): (r: PlaybackState)
      reads this, player
      ensures player == null ==> r == Stopped
      ensures player != null ==> r == player.playbackState
    {
      ForwardedState(player)
    }

    /** The `playbackTime` getter: the selected player's position, 0 without one. */
    function PlaybackTime(now: real): (r: real)
      reads this, player
      ensures player == null ==> r == 0.0
      ensures player != null ==> r == Time(player.playbackState, now)
    {
      ForwardedTime(player, now)
    }

    /**
     * The five commands and the `playbackTime` setter: they reach the
     * selected player unchanged, or nobody. This aggregator declares no
     * `updatePlayerState`, so that command reaches nobody.
     */
    function Send(c: Command): (r: Option<Delivery>)
      reads this
      ensures player == null || c.UpdatePlayerState? ==> r == None
      ensures player != null && !c.UpdatePlayerState? ==> r == Some(Delivery(player, c))
    {
      if c.UpdatePlayerState? then None else Forward(player, c)
    }
  }
}
