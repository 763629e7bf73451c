/**
 * `MusicPlayers.NowPlaying`, the delegate that designates a player itself:
 * it owns a fixed list of players and, at creation and whenever its own
 * will-change signal fires, designates the playing one, else a paused one.
 * That signal fires when the designated player is reassigned or signals a
 * change of its own, so another owned player starting to play goes
 * unnoticed. Assigning the designated player from outside is a
 * precondition failure. The two source files that
 * declare this class hold the same code.
 */
module NowPlayingAggregate {
  import opened Wrappers
  import opened Playback
  import opened Selection
  import opened Players
  import opened Delegates

  class NowPlaying {
    const players: seq<PlayerCore>
    /** The inherited delegate; its `currentPlayer` is the designated player. */
    const base: Delegate

    ghost predicate Valid()
      reads this, base
    {
      base.currentPlayer == null || base.currentPlayer in players
    }

    /** The player `selectNewPlayer` would designate in the current state. */
    function Selected(): (r: PlayerCore?)
      reads this, base, players, base.currentPlayer
      requires Valid()
      ensures r == null || r in players
    {
      Designated<PlayerCore?>(NowPlayingSelect(StatesOf(players), StateOf(base.currentPlayer)), base.currentPlayer, null, players)
    }

    constructor (players: seq<PlayerCore>)
      ensures this.players == players && fresh(base) && Valid()
      ensures base.currentPlayer == Designated<PlayerCore?>(NowPlayingSelect(StatesOf(players), None), null, null, players)
    {
      this.players := players;
      base := new Delegate();
      new;
      SelectNewPlayer();
    }

    /**
     * `selectNewPlayer`, run at creation and on the will-change signal: the
     * designated player is reassigned only when the choice is another object.
     */
    method SelectNewPlayer()
      requires Valid()
      modifies base
      ensures Valid()
      ensures base.currentPlayer == old(Selected())
      ensures base.changes == old(base.changes) + if base.currentPlayer != old(base.currentPlayer) then 1 else 0
    {
      var c := NowPlayingSelect(StatesOf(players), StateOf(base.currentPlayer));
      var newPlayer := Designated<PlayerCore?>(c, base.currentPlayer, null, players);
      if newPlayer != base.currentPlayer {
        base.SetCurrentPlayer(newPlayer);
      }
    }

    /** The overridden `designatedPlayer` setter: always a precondition failure, nothing assigned. */
    method SetDesignatedPlayer(p: PlayerCore?) returns (preconditionFailed: bool)
      ensures preconditionFailed
      ensures base.currentPlayer == old(base.currentPlayer) && base.changes == old(base.changes)
    {
      preconditionFailed := true;
    }
  }
}
