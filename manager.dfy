/**
 * `MusicPlayerControllerManager`: a fixed list of controllers, the one
 * currently selected, an optional pinned player name, and the notifications
 * it posts with itself as sender.
 */
module ControllerManager {
  import opened Wrappers
  import opened Playback
  import opened PlayerNames
  import opened Notices
  import opened Controllers
  import opened Selection

  /** What the selection reads of one controller. */
  function SnapshotOf(p: MusicPlayerController): Candidate
    reads p
  {
    Candidate(p.name, p.playbackState, p.isRunning)
  }

  function Snapshots(ps: seq<MusicPlayerController>): (r: seq<Candidate>)
    reads ps
    ensures |r| == |ps|
    ensures forall i :: 0 <= i < |ps| ==> r[i] == SnapshotOf(ps[i])
  {
    if |ps| == 0 then [] else [SnapshotOf(ps[0])] + Snapshots(ps[1..])
  }

  function CurrentSnapshot(p: MusicPlayerController?): (r: Option<Candidate>)
    reads p
    ensures r.None? <==> p == null
  {
    if p == null then None else Some(SnapshotOf(p))
  }

  /** How many times `x` occurs in `s`. */
  function Count(s: seq<Notice>, x: Notice): nat
  {
    if |s| == 0 then 0 else (if s[0] == x then 1 else 0) + Count(s[1..], x)
  }

  /**
   * The relays the initializer installs, as the notification name each one
   * listens to; a relay reposts the notification, with the manager as
   * sender, when it comes from the selected controller.
   */
  const RelaySubscriptionsAsWritten: seq<Notice> := [PlaybackStateDidChange, PlaybackStateDidChange]

  /** The relays as intended: one for the state, one for the track. */
  const RelaySubscriptions: seq<Notice> := [PlaybackStateDidChange, CurrentTrackDidChange]

  /** What the relays `subs` repost for notification `n`: one copy per relay listening to it. */
  function Reposts(subs: seq<Notice>, n: Notice, fromSelected: bool): (r: seq<Notice>)
    ensures forall i :: 0 <= i < |r| ==> r[i] == n
    ensures |r| == if fromSelected then Count(subs, n) else 0
  {
    if |subs| == 0 then []
    else (if fromSelected && subs[0] == n then [n] else []) + Reposts(subs[1..], n, fromSelected)
  }

  /** As written, the selected controller's track changes are never reposted and its state changes twice. */
  lemma RelayAsWrittenMisroutes()
    ensures Reposts(RelaySubscriptionsAsWritten, CurrentTrackDidChange, true) == []
    ensures Reposts(RelaySubscriptionsAsWritten, PlaybackStateDidChange, true)
      == [PlaybackStateDidChange, PlaybackStateDidChange]
  {
    var t := Reposts(RelaySubscriptionsAsWritten, CurrentTrackDidChange, true);
    assert Count(RelaySubscriptionsAsWritten, CurrentTrackDidChange) == 0;
    var s := Reposts(RelaySubscriptionsAsWritten, PlaybackStateDidChange, true);
    assert Count(RelaySubscriptionsAsWritten, PlaybackStateDidChange) == 2;
  }

  /** As intended, each track or state change of the selected controller is reposted exactly once, others never. */
  lemma RelayRepostsOnce(n: Notice)
    ensures n == CurrentTrackDidChange || n == PlaybackStateDidChange ==> Reposts(RelaySubscriptions, n, true) == [n]
    ensures n == RunningStateDidChange || n == CurrentPlayerDidChange ==> Reposts(RelaySubscriptions, n, true) == []
    ensures Reposts(RelaySubscriptions, n, false) == []
  {
    assert RelaySubscriptions[1..][1..] == [];
    var r := Reposts(RelaySubscriptions, n, true);
    if n == CurrentTrackDidChange || n == PlaybackStateDidChange {
      assert Count(RelaySubscriptions, n) == 1;
    } else {
      assert Count(RelaySubscriptions, n) == 0;
    }
  }

  class MusicPlayerControllerManager {
    const players: seq<MusicPlayerController>
    const platform: Platform
    var player: MusicPlayerController?
    var preferredPlayerName: Option<MusicPlayerName>
    /** Notifications posted with the manager as sender, oldest first. */
    var posted: seq<Notice>

    /** The selection is always absent or one of the managed controllers. */
    ghost predicate Valid()
      reads this
    {
      player == null || player in players
    }

    /** The controller `selectNewPlayer` would choose in the current state. */
    function Selected(): (r: MusicPlayerController?)
      reads this, players, player
      requires Valid()
      ensures r == null || r in players
    {
      Designated<MusicPlayerController?>(ManagerSelect(Snapshots(players), CurrentSnapshot(player), preferredPlayerName, platform), player, null, players)
    }

    constructor (players: seq<MusicPlayerController>, platform: Platform)
      ensures this.players == players && this.platform == platform && preferredPlayerName == None
      ensures Valid()
      ensures player == Designated<MusicPlayerController?>(ManagerSelect(Snapshots(players), None, None, platform), null, null, players)
      ensures posted == if player != null then SelectionChangeNotices else []
    {
      this.players := players;
      this.platform := platform;
      player := null;
      preferredPlayerName := None;
      posted := [];
      new;
      SelectNewPlayer();
    }

    /** `selectNewPlayer`: reassign `player`, with its notifications, only when the choice is another object. */
    method SelectNewPlayer()
      requires Valid()
      modifies this
      ensures Valid()
      ensures player == old(Selected())
      ensures posted == old(posted) + if player != old(player) then SelectionChangeNotices else []
      ensures preferredPlayerName == old(preferredPlayerName)
    {
      var c := ManagerSelect(Snapshots(players), CurrentSnapshot(player), preferredPlayerName, platform);
      var newPlayer := Designated<MusicPlayerController?>(c, player, null, players);
      if newPlayer != player {
        player := newPlayer;
        posted := posted + SelectionChangeNotices;
      }
    }

    /** The `preferredPlayerName` setter: the same value does not reselect, another value does. */
    method SetPreferredPlayerName(name: Option<MusicPlayerName>)
      requires Valid()
      modifies this
      ensures Valid() && preferredPlayerName == name
      ensures name == old(preferredPlayerName) ==> player == old(player) && posted == old(posted)
      ensures name != old(preferredPlayerName) ==>
        player == Designated<MusicPlayerController?>(ManagerSelect(old(Snapshots(players)), old(CurrentSnapshot(player)), name, platform), old(player), null, players)
        && posted == old(posted) + if player != old(player) then SelectionChangeNotices else []
    {
      var oldValue := preferredPlayerName;
      preferredPlayerName := name;
      if oldValue != name {
        SelectNewPlayer();
      }
    }

    /**
     * Delivery of notification `n` posted by `sender`: the relays as
     * installed repost it when the sender is the selected controller (so a
     * state change twice and a track change never), and a state change of a
     * managed controller then reselects.
     */
    method Receive(n: Notice, sender: MusicPlayerController)
      requires Valid()
      modifies this
      ensures Valid() && preferredPlayerName == old(preferredPlayerName)
      ensures n == PlaybackStateDidChange && sender in players ==>
        player == old(Selected())
        && posted == old(posted) + Reposts(RelaySubscriptionsAsWritten, n, sender == old(player))
                     + if player != old(player) then SelectionChangeNotices else []
      ensures !(n == PlaybackStateDidChange && sender in players) ==>
        player == old(player) && posted == old(posted) + Reposts(RelaySubscriptionsAsWritten, n, sender == old(player))
    {
      posted := posted + Reposts(RelaySubscriptionsAsWritten, n, sender == player);
      if n == PlaybackStateDidChange && sender in players {
        SelectNewPlayer();
      }
    }
  }
}
