/**
 * The player-selection policies, as pure functions over snapshots of the
 * candidates. A selection names the current player (`KeepCurrent`), the
 * candidate at some position (`Pick`), or no player.
 */
module Selection {
  import opened Wrappers
  import opened Playback
  import opened PlayerNames
  import opened Seqs

  datatype Choice = KeepCurrent | Pick(index: nat) | NoPlayer

  /** The selection picks the first candidate satisfying `p`, or none when none does. */
  predicate PicksFirst<T>(s: seq<T>, p: T -> bool, c: Choice)
  {
    (c.Pick? && IsFirst(s, p, c.index)) || (c.NoPlayer? && NoneSatisfy(s, p))
  }

  /** `players.first(where: p)` as a selection. */
  function FirstChoice<T>(s: seq<T>, p: T -> bool): (c: Choice)
    ensures PicksFirst(s, p, c)
  {
    match FirstWhere(s, p)
    case Some(i) => Pick(i)
    case None => NoPlayer
  }

  /** The object a selection designates: the current one, the picked one, or `none`. */
  function Designated<T>(c: Choice, current: T, none: T, s: seq<T>): (r: T)
    requires c.Pick? ==> c.index < |s|
    ensures c.KeepCurrent? ==> r == current
    ensures c.Pick? ==> r == s[c.index]
    ensures c.NoPlayer? ==> r == none
  {
    match c
    case KeepCurrent => current
    case Pick(i) => s[i]
    case NoPlayer => none
  }

  /** The snapshot the selected player is left with: the current one, the picked one, or none. */
  function Resolve<T>(c: Choice, current: Option<T>, s: seq<T>): Option<T>
    requires c.Pick? ==> c.index < |s|
  {
    match c
    case KeepCurrent => current
    case Pick(i) => Some(s[i])
    case NoPlayer => None
  }

  // ---------------------------------------------------------------------
  // MusicPlayerControllerManager

  datatype Platform = MacOS | IOS

  /** What the manager's selection reads of a controller. */
  datatype Candidate = Candidate(name: MusicPlayerName, state: PlaybackState, isRunning: bool)

  function NameIs(n: MusicPlayerName): Candidate -> bool
  {
    (c: Candidate) => c.name == n
  }

  predicate CandidatePlaying(c: Candidate) { IsPlaying(c.state) }

  predicate CandidateRunning(c: Candidate) { c.isRunning }

  /**
   * `MusicPlayerControllerManager.selectNewPlayer`: the preferred name pins the
   * selection; else a playing current player stays; else the first playing
   * player; else on macOS a running current player stays or the first
   * running player is taken, and on iOS the current player stays or the
   * first Apple Music player is taken.
   */
  function ManagerSelect(cs: seq<Candidate>, current: Option<Candidate>, preferred: Option<MusicPlayerName>,
                         platform: Platform): (c: Choice)
    ensures c.Pick? ==> c.index < |cs|
    ensures preferred.Some? ==> PicksFirst(cs, NameIs(preferred.value), c)
    ensures preferred.None? && current.Some? && IsPlaying(current.value.state) ==> c == KeepCurrent
    ensures preferred.None? && !(current.Some? && IsPlaying(current.value.state)) && !NoneSatisfy(cs, CandidatePlaying) ==>
      c.Pick? && IsFirst(cs, CandidatePlaying, c.index)
    ensures preferred.None? && !(current.Some? && IsPlaying(current.value.state)) && NoneSatisfy(cs, CandidatePlaying) ==>
      match platform
      case MacOS =>
        if current.Some? && current.value.isRunning then c == KeepCurrent else PicksFirst(cs, CandidateRunning, c)
      case IOS =>
        if current.Some? then c == KeepCurrent else PicksFirst(cs, NameIs(AppleMusic), c)
  {
    if preferred.Some? then FirstChoice(cs, NameIs(preferred.value))
    else if current.Some? && IsPlaying(current.value.state) then KeepCurrent
    else
      match FirstWhere(cs, CandidatePlaying)
      case Some(i) => Pick(i)
      case None =>
        match platform
        case MacOS =>
          if current.Some? && current.value.isRunning then KeepCurrent else FirstChoice(cs, CandidateRunning)
        case IOS =>
          if current.Some? then KeepCurrent else FirstChoice(cs, NameIs(AppleMusic))
  }

  /**
   * Selection is stable: running it again, with the player it selected as the
   * current one and nothing else changed, keeps that player.
   */
  lemma ManagerSelectStable(cs: seq<Candidate>, current: Option<Candidate>, preferred: Option<MusicPlayerName>,
                            platform: Platform)
    ensures var next := Resolve(ManagerSelect(cs, current, preferred, platform), current, cs);
      Resolve(ManagerSelect(cs, next, preferred, platform), next, cs) == next
  {
    var c1 := ManagerSelect(cs, current, preferred, platform);
    var next := Resolve(c1, current, cs);
    var c2 := ManagerSelect(cs, next, preferred, platform);
    if preferred.Some? {
      if c1.Pick? {
        FirstWhereUnique(cs, NameIs(preferred.value), c1.index);
        FirstWhereUnique(cs, NameIs(preferred.value), c2.index);
      }
    }
  }

  /** A pinned preference ignores playback entirely: only the names decide. */
  lemma ManagerPreferenceIgnoresPlayback(cs: seq<Candidate>, ds: seq<Candidate>, current: Option<Candidate>,
                                         other: Option<Candidate>, n: MusicPlayerName, platform: Platform)
    requires |cs| == |ds|
    requires forall i :: 0 <= i < |cs| ==> cs[i].name == ds[i].name
    ensures ManagerSelect(cs, current, Some(n), platform) == ManagerSelect(ds, other, Some(n), platform)
  {
    var c := ManagerSelect(cs, current, Some(n), platform);
    var d := ManagerSelect(ds, other, Some(n), platform);
    if c.Pick? {
      assert NameIs(n)(ds[c.index]);
    }
    if d.Pick? {
      assert NameIs(n)(cs[d.index]);
    }
  }

  // ---------------------------------------------------------------------
  // NowPlaying (Players/NowPlaying.swift, MusicPlayers.NowPlaying.swift) and
  // NowPlayingPlayer: the candidates are the players' playback states.

  predicate StatePlaying(s: PlaybackState) { IsPlaying(s) }

  predicate StateNotStopped(s: PlaybackState) { s != Stopped }

  predicate StateStopped(s: PlaybackState) { s == Stopped }

  /**
   * `NowPlaying.selectNewPlayer`: a playing designated player stays; else the
   * first playing player; else the first player that is not stopped; else none.
   */
  function NowPlayingSelect(states: seq<PlaybackState>, current: Option<PlaybackState>): (c: Choice)
    ensures c.Pick? ==> c.index < |states|
    ensures current.Some? && IsPlaying(current.value) ==> c == KeepCurrent
    ensures !(current.Some? && IsPlaying(current.value)) ==> c != KeepCurrent
    ensures !(current.Some? && IsPlaying(current.value)) && !NoneSatisfy(states, StatePlaying) ==>
      c.Pick? && IsFirst(states, StatePlaying, c.index)
    ensures !(current.Some? && IsPlaying(current.value)) && NoneSatisfy(states, StatePlaying) ==>
      PicksFirst(states, StateNotStopped, c)
    ensures c.NoPlayer? <==> !(current.Some? && IsPlaying(current.value)) && NoneSatisfy(states, StateNotStopped)
  {
    if current.Some? && IsPlaying(current.value) then KeepCurrent
    else
      match FirstWhere(states, StatePlaying)
      case Some(i) => Pick(i)
      case None => FirstChoice(states, StateNotStopped)
  }

  /** The same stability as the manager's: selecting again keeps the selected player. */
  lemma NowPlayingSelectStable(states: seq<PlaybackState>, current: Option<PlaybackState>)
    ensures var next := Resolve(NowPlayingSelect(states, current), current, states);
      Resolve(NowPlayingSelect(states, next), next, states) == next
  {
    var c1 := NowPlayingSelect(states, current);
    var next := Resolve(c1, current, states);
    if c1.Pick? && !IsPlaying(states[c1.index]) {
      FirstWhereUnique(states, StateNotStopped, c1.index);
    }
  }

  /**
   * `NowPlayingPlayer.selectNewPlayer` as written: its third tier takes the
   * first player whose state equals `.stopped`.
   */
  function NowPlayingPlayerSelectAsWritten(states: seq<PlaybackState>, current: Option<PlaybackState>): (c: Choice)
    ensures c.Pick? ==> c.index < |states|
    ensures current.Some? && IsPlaying(current.value) ==> c == KeepCurrent
    ensures !(current.Some? && IsPlaying(current.value)) ==> c != KeepCurrent
    ensures !(current.Some? && IsPlaying(current.value)) && !NoneSatisfy(states, StatePlaying) ==>
      c.Pick? && IsFirst(states, StatePlaying, c.index)
    ensures !(current.Some? && IsPlaying(current.value)) && NoneSatisfy(states, StatePlaying) ==>
      PicksFirst(states, StateStopped, c)
  {
    if current.Some? && IsPlaying(current.value) then KeepCurrent
    else
      match FirstWhere(states, StatePlaying)
      case Some(i) => Pick(i)
      case None => FirstChoice(states, StateStopped)
  }

  /**
   * As written, a paused player next to a stopped one is passed over for the
   * stopped one, and a paused player alone is not selected at all; the
   * sibling policy takes the paused player in both cases.
   */
  lemma NowPlayingPlayerSelectPassesOverPaused()
    ensures NowPlayingPlayerSelectAsWritten([Paused(42.0), Stopped], None) == Pick(1)
    ensures NowPlayingPlayerSelectAsWritten([Paused(42.0)], None) == NoPlayer
    ensures NowPlayingSelect([Paused(42.0), Stopped], None) == Pick(0)
    ensures NowPlayingSelect([Paused(42.0)], None) == Pick(0)
  {
    assert StateStopped([Paused(42.0), Stopped][1]);
    assert StateNotStopped([Paused(42.0)][0]);
  }

  /** The corrected policy never selects a stopped player while another player is not stopped. */
  lemma NowPlayingSelectPrefersLivePlayers(states: seq<PlaybackState>, current: Option<PlaybackState>)
    requires !NoneSatisfy(states, StateNotStopped)
    ensures var c := NowPlayingSelect(states, current);
      c.KeepCurrent? || (c.Pick? && states[c.index] != Stopped)
  {
  }
}
