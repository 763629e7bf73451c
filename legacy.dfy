/**
 * The first generation of the library (the Swift files directly under `Sources`): players report
 * to a delegate instead of publishing state. Each keeps the current track,
 * a playback state without a position, the instant playback started and
 * the position it was paused at, and tells its delegate when the track
 * changes, the state changes, or the position drifts by more than a
 * threshold.
 */
module Legacy {
  import opened Wrappers
  import opened Numbers
  import opened Tracks
  import Playback

  datatype MusicPlaybackState = Stopped | Playing | Paused | FastForwarding | Rewinding

  /** `MusicPlaybackState.isPlaying` */
  function IsPlaying(s: MusicPlaybackState): (r: bool)
    ensures r <==> s == Playing || s == FastForwarding || s == Rewinding
  {
    match s
    case Playing => true
    case FastForwarding => true
    case Rewinding => true
    case Paused => false
    case Stopped => false
  }

  /** The case of a current-generation state, without its time. */
  function CaseOf(s: Playback.PlaybackState): MusicPlaybackState
  {
    match s
    case Stopped => Stopped
    case Playing(_) => Playing
    case Paused(_) => Paused
    case FastForwarding(_) => FastForwarding
    case Rewinding(_) => Rewinding
  }

  /** Both generations agree on which cases are playing. */
  lemma IsPlayingAgrees(s: Playback.PlaybackState)
    ensures IsPlaying(CaseOf(s)) == Playback.IsPlaying(s)
  {
  }

  datatype MusicRepeatMode = RepeatOff | RepeatOne | RepeatAll

  datatype MusicShuffleMode = ShuffleOff | Songs | Albums | Groupings

  /** The supported players of the first generation. */
  datatype MusicPlayerName = ITunes | Spotify | Vox | Audirvana

  /** The raw value of each name. */
  function RawValue(n: MusicPlayerName): string
  {
    match n
    case ITunes => "iTunes"
    case Spotify => "Spotify"
    case Vox => "Vox"
    case Audirvana => "Audirvana Plus"
  }

  /** `bundleID` */
  function BundleID(n: MusicPlayerName): string
  {
    match n
    case ITunes => "com.apple.iTunes"
    case Spotify => "com.spotify.client"
    case Vox => "com.coppertino.Vox"
    case Audirvana => "com.audirvana.Audirvana-Plus"
  }

  /** `MusicPlayerName.all` */
  const All: seq<MusicPlayerName> := [ITunes, Spotify, Vox, Audirvana]

  /** Raw values and bundle identifiers each tell the players apart. */
  lemma NamesDistinct(a: MusicPlayerName, b: MusicPlayerName)
    ensures RawValue(a) == RawValue(b) <==> a == b
    ensures BundleID(a) == BundleID(b) <==> a == b
  {
    if a != b {
      match (a, b)
      case (ITunes, _) => assert RawValue(a)[0] != RawValue(b)[0] || |RawValue(a)| != |RawValue(b)|;
      case (Spotify, _) => assert RawValue(a)[0] != RawValue(b)[0] || |RawValue(a)| != |RawValue(b)|;
      case (Vox, _) => assert RawValue(a)[0] != RawValue(b)[0] || |RawValue(a)| != |RawValue(b)|;
      case (Audirvana, _) => assert RawValue(a)[0] != RawValue(b)[0] || |RawValue(a)| != |RawValue(b)|;
    }
  }

  /** `all` lists every name exactly once. */
  lemma AllListsEachOnce(n: MusicPlayerName)
    ensures n in All
    ensures forall i, j :: 0 <= i < j < |All| ==> All[i] != All[j]
  {
  }

  /** `positionMutateThreshold`: a position moving by more than a second is reported. */
  const PositionMutateThreshold: real := 1.0

  /** The callbacks of `MusicPlayerDelegate`. */
  datatype DelegateEvent =
    | CurrentTrackChanged(track: Option<Track>)
    | PlaybackStateChanged(state: MusicPlaybackState)
    | PlayerPositionMutated(position: real)

  /** The four stored fields of a player. */
  datatype Fields = Fields(
    track: Option<Track>,
    state: MusicPlaybackState,
    startTime: Option<real>,
    pausePosition: Option<real>)

  /**
   * The three ways the `playerPosition` getters are written: the pause
   * position when not playing, else the time since the start instant
   * (`PauseAware`); the same, but 0 when playing while the application is
   * not running (`PauseAwareWhenRunning`); or the time since the start
   * instant in every state, 0 when inactive (`AnchorOnly`).
   */
  datatype PositionRule = PauseAware | PauseAwareWhenRunning | AnchorOnly

  /** The time since the start instant, or 0 without one. */
  function SinceStart(start: Option<real>, now: real): real
  {
    if start.None? then 0.0 else now - start.value
  }

  /**
   * `playerPosition`, as the rule writes it. What the getters agree on: a
   * stopped-or-paused player of the first two rules reports its pause
   * position (0 without one), an active playing player reports the time
   * since playback started under every rule, and an inactive player whose
   * getter checks activity first reports 0.
   */
  function PlayerPosition(rule: PositionRule, f: Fields, active: bool, now: real): (r: real)
    ensures rule != AnchorOnly && !IsPlaying(f.state) ==> r == f.pausePosition.GetOr(0.0)
    ensures active && IsPlaying(f.state) && f.startTime.Some? ==> r == now - f.startTime.value
    ensures !active && rule != PauseAware && (rule == AnchorOnly || IsPlaying(f.state)) ==> r == 0.0
  {
    match rule
    case PauseAware =>
      if !IsPlaying(f.state) then f.pausePosition.GetOr(0.0) else SinceStart(f.startTime, now)
    case PauseAwareWhenRunning =>
      if !IsPlaying(f.state) then f.pausePosition.GetOr(0.0) else if !active then 0.0 else SinceStart(f.startTime, now)
    case AnchorOnly =>
      if !active then 0.0 else SinceStart(f.startTime, now)
  }

  /**
   * `_startTime` of every application: the instant playback would have
   * started to be at the reported position now, when one is reported.
   */
  function StartFrom(position: Option<real>, now: real): (r: Option<real>)
    ensures r.None? <==> position.None?
    ensures r.Some? ==> SinceStart(r, now) == position.value
  {
    if position.None? then None else Some(now - position.value)
  }

  /** The state a player-info notification names: "Playing", "Paused", and anything else is stopped. */
  function NotifiedState(s: Option<string>): (r: MusicPlaybackState)
    ensures r == Playing <==> s == Some("Playing")
    ensures r == Paused <==> s == Some("Paused")
    ensures r == Stopped <==> !(s == Some("Playing") || s == Some("Paused"))
  {
    if s == Some("Playing") then Playing else if s == Some("Paused") then Paused else Stopped
  }

  /** The track a notification installs: the application's, with the location the notification carries, if any. */
  function WithLocation(t: Option<Track>, location: Option<string>): (r: Option<Track>)
    ensures IdOf(r) == IdOf(t)
    ensures r.Some? && location.Some? ==> r.value.url == location
    ensures location.None? ==> r == t
  {
    if t.Some? && location.Some? then Some(t.value.(url := location)) else t
  }

  /** The `playerPosition` setter moves the start instant so that playback is at `p` now. */
  function Seek(f: Fields, p: real, now: real): (g: Fields)
    ensures g.track == f.track && g.state == f.state && g.pausePosition == f.pausePosition
    ensures SinceStart(g.startTime, now) == p
  {
    f.(startTime := Some(now - p))
  }

  /** A stored value and the application's current one differ by more than the threshold. */
  predicate Drifted(stored: Option<real>, current: Option<real>): (r: bool)
    ensures r ==> stored.Some? && current.Some? && stored != current
  {
    stored.Some? && current.Some? && Abs(current.value - stored.value) > PositionMutateThreshold
  }

  /** The fields after a step and the callbacks the step made, in order. */
  datatype Outcome = Outcome(fields: Fields, events: seq<DelegateEvent>)

  /**
   * `updatePlayerPosition`: while playing, adopt the application's start
   * instant if it moved by more than the threshold; otherwise adopt its
   * position as the pause position, and seek there, if that moved by more
   * than the threshold. Either way the new position is reported once.
   */
  function Drift(rule: PositionRule, f: Fields, appStart: Option<real>, appPosition: Option<real>, now: real): (o: Outcome)
    ensures o.fields.track == f.track && o.fields.state == f.state
    ensures IsPlaying(f.state) ==>
      o.fields.pausePosition == f.pausePosition
      && o.fields.startTime == (if Drifted(f.startTime, appStart) then appStart else f.startTime)
      && (o.events != [] <==> Drifted(f.startTime, appStart))
    ensures !IsPlaying(f.state) ==>
      (o.events != [] <==> Drifted(f.pausePosition, appPosition))
      && (Drifted(f.pausePosition, appPosition) ==>
            o.fields.pausePosition == appPosition && o.fields.startTime == Some(now - appPosition.value))
      && (!Drifted(f.pausePosition, appPosition) ==> o.fields == f)
    ensures o.events == [] || o.events == [PlayerPositionMutated(PlayerPosition(rule, o.fields, true, now))]
  {
    if IsPlaying(f.state) then
      if Drifted(f.startTime, appStart) then
        var g := f.(startTime := appStart);
        Outcome(g, [PlayerPositionMutated(PlayerPosition(rule, g, true, now))])
      else Outcome(f, [])
    else if Drifted(f.pausePosition, appPosition) then
      var g := Seek(f.(pausePosition := appPosition), appPosition.value, now);
      Outcome(g, [PlayerPositionMutated(PlayerPosition(rule, g, true, now))])
    else Outcome(f, [])
  }

  /**
   * A drift report carries the application's position: the time since its
   * start instant while playing, and the position itself while paused,
   * whichever getter the player uses.
   */
  lemma DriftReportsApplicationPosition(rule: PositionRule, f: Fields, appStart: Option<real>,
                                        appPosition: Option<real>, now: real)
    ensures var o := Drift(rule, f, appStart, appPosition, now);
      o.events != [] ==>
        o.events[0].position == (if IsPlaying(f.state) then now - appStart.value else appPosition.value)
  {
  }

  /**
   * The drift check settles: run again on the same readings, it changes
   * nothing and reports nothing.
   */
  lemma DriftSettles(rule: PositionRule, f: Fields, appStart: Option<real>, appPosition: Option<real>, now: real)
    ensures var o := Drift(rule, f, appStart, appPosition, now);
      Drift(rule, o.fields, appStart, appPosition, now) == Outcome(o.fields, [])
  {
  }

  /** Where a state change takes the pause position from. */
  datatype PauseSource = FromGetter | FromValue(value: Option<real>)

  /**
   * A state change: the new state and start instant, and the pause position
   * from the getter (read after the other two are stored) or from the given
   * value.
   */
  function StateChange(rule: PositionRule, f: Fields, state: MusicPlaybackState, start: Option<real>,
                       pause: PauseSource, now: real): (g: Fields)
    ensures g.track == f.track && g.state == state && g.startTime == start
    ensures pause.FromValue? ==> g.pausePosition == pause.value
  {
    var h := f.(state := state, startTime := start);
    match pause
    case FromGetter => h.(pausePosition := Some(PlayerPosition(rule, h, true, now)))
    case FromValue(p) => h.(pausePosition := p)
  }

  /**
   * Reading the pause position from the getter after storing a state that
   * is not playing, and with a getter that honours pauses, keeps the old
   * pause position (0 without one) instead of the position playback was
   * paused at.
   */
  lemma StateChangeFromGetterKeepsOldPause(rule: PositionRule, f: Fields, state: MusicPlaybackState,
                                           start: Option<real>, now: real)
    requires rule != AnchorOnly && !IsPlaying(state)
    ensures StateChange(rule, f, state, start, FromGetter, now).pausePosition == Some(f.pausePosition.GetOr(0.0))
  {
  }

  /**
   * The exclusive notification handler: a changed track replaces track,
   * state and start instant and is reported; else a changed state is stored
   * and reported; else the drift check runs.
   */
  function Exclusive(rule: PositionRule, f: Fields, trackChanged: bool, track: Option<Track>,
                     state: MusicPlaybackState, start: Option<real>, pause: PauseSource,
                     appStart: Option<real>, appPosition: Option<real>, now: real): (o: Outcome)
    ensures trackChanged ==>
      o == Outcome(Fields(track, state, start, f.pausePosition), [CurrentTrackChanged(track)])
    ensures !trackChanged && state != f.state ==>
      o == Outcome(StateChange(rule, f, state, start, pause, now), [PlaybackStateChanged(state)])
    ensures !trackChanged && state == f.state ==> o == Drift(rule, f, appStart, appPosition, now)
  {
    if trackChanged then Outcome(Fields(track, state, start, f.pausePosition), [CurrentTrackChanged(track)])
    else if state != f.state then Outcome(StateChange(rule, f, state, start, pause, now), [PlaybackStateChanged(state)])
    else Drift(rule, f, appStart, appPosition, now)
  }

  /** The exclusive handler makes at most one callback, and the callback names the branch taken. */
  lemma ExclusiveAtMostOneCallback(rule: PositionRule, f: Fields, trackChanged: bool, track: Option<Track>,
                                   state: MusicPlaybackState, start: Option<real>, pause: PauseSource,
                                   appStart: Option<real>, appPosition: Option<real>, now: real)
    ensures var o := Exclusive(rule, f, trackChanged, track, state, start, pause, appStart, appPosition, now);
      |o.events| <= 1
      && (|o.events| == 1 && o.events[0].CurrentTrackChanged? <==> trackChanged)
      && (|o.events| == 1 && o.events[0].PlaybackStateChanged? <==> !trackChanged && state != f.state)
  {
    var o := Exclusive(rule, f, trackChanged, track, state, start, pause, appStart, appPosition, now);
    if !trackChanged && state == f.state {
      assert o.events == [] || o.events[0].PlayerPositionMutated?;
    }
  }

  /** The state a player keeps in its private fields, with the log of its delegate callbacks. */
  class Tracker {
    var track: Option<Track>
    var state: MusicPlaybackState
    var startTime: Option<real>
    var pausePosition: Option<real>
    var events: seq<DelegateEvent>

    function Snapshot(): Fields
      reads this
    {
      Fields(track, state, startTime, pausePosition)
    }

    /** `init?`: only a running application is read; no callback is made. */
    constructor (isRunning: bool, track: Option<Track>, state: MusicPlaybackState, start: Option<real>)
      ensures isRunning ==> Snapshot() == Fields(track, state, start, None)
      ensures !isRunning ==> Snapshot() == Fields(None, Stopped, None, None)
      ensures events == []
    {
      if isRunning {
        this.track := track;
        this.state := state;
        startTime := start;
      } else {
        this.track := None;
        this.state := Stopped;
        startTime := None;
      }
      pausePosition := None;
      events := [];
    }

    /** `playerPosition` */
    function Position(rule: PositionRule, active: bool, now: real): real
      reads this
    {
      PlayerPosition(rule, Snapshot(), active, now)
    }

    /** The `playerPosition` setter: nothing when inactive, else move the start instant. */
    method SetPosition(p: real, active: bool, now: real)
      modifies this
      ensures active ==> Snapshot() == Seek(old(Snapshot()), p, now)
      ensures !active ==> Snapshot() == old(Snapshot())
      ensures events == old(events)
    {
      if !active {
        return;
      }
      startTime := Some(now - p);
    }

    /** `updatePlayerPosition` */
    method UpdatePosition(rule: PositionRule, active: bool, appStart: Option<real>, appPosition: Option<real>, now: real)
      modifies this
      ensures !active ==> Snapshot() == old(Snapshot()) && events == old(events)
      ensures active ==>
        Snapshot() == Drift(rule, old(Snapshot()), appStart, appPosition, now).fields
        && events == old(events) + Drift(rule, old(Snapshot()), appStart, appPosition, now).events
    {
      if !active {
        return;
      }
      if IsPlaying(state) {
        if Drifted(startTime, appStart) {
          startTime := appStart;
          events := events + [PlayerPositionMutated(Position(rule, true, now))];
        }
      } else {
        if Drifted(pausePosition, appPosition) {
          pausePosition := appPosition;
          SetPosition(appPosition.value, active, now);
          events := events + [PlayerPositionMutated(Position(rule, true, now))];
        }
      }
    }

    /** The track-change branch: track, state and start instant, then the callback. */
    method ChangeTrack(t: Option<Track>, s: MusicPlaybackState, start: Option<real>)
      modifies this
      ensures Snapshot() == Fields(t, s, start, old(pausePosition))
      ensures events == old(events) + [CurrentTrackChanged(t)]
    {
      track := t;
      state := s;
      startTime := start;
      events := events + [CurrentTrackChanged(t)];
    }

    /** The track branch of a handler that leaves the state alone: track and start instant, then the callback. */
    method ReplaceTrack(t: Option<Track>, start: Option<real>)
      modifies this
      ensures Snapshot() == old(Snapshot()).(track := t, startTime := start)
      ensures events == old(events) + [CurrentTrackChanged(t)]
    {
      track := t;
      startTime := start;
      events := events + [CurrentTrackChanged(t)];
    }

    /** The state-change branch: state, start instant and pause position, then the callback. */
    method ChangeState(rule: PositionRule, s: MusicPlaybackState, start: Option<real>, pause: PauseSource, now: real)
      modifies this
      ensures Snapshot() == StateChange(rule, old(Snapshot()), s, start, pause, now)
      ensures events == old(events) + [PlaybackStateChanged(s)]
    {
      state := s;
      startTime := start;
      match pause {
        case FromGetter => pausePosition := Some(Position(rule, true, now));
        case FromValue(p) => pausePosition := p;
      }
      events := events + [PlaybackStateChanged(s)];
    }

    /** An exclusive notification handler, when the player is active. */
    method Notify(rule: PositionRule, active: bool, trackChanged: bool, t: Option<Track>, s: MusicPlaybackState,
                  start: Option<real>, pause: PauseSource, appStart: Option<real>, appPosition: Option<real>, now: real)
      modifies this
      ensures !active ==> Snapshot() == old(Snapshot()) && events == old(events)
      ensures active ==>
        var o := Exclusive(rule, old(Snapshot()), trackChanged, t, s, start, pause, appStart, appPosition, now);
        Snapshot() == o.fields && events == old(events) + o.events
    {
      if !active {
        return;
      }
      ghost var o := Exclusive(rule, Snapshot(), trackChanged, t, s, start, pause, appStart, appPosition, now);
      if trackChanged {
        ChangeTrack(t, s, start);
      } else if s != state {
        ChangeState(rule, s, start, pause, now);
      } else {
        UpdatePosition(rule, active, appStart, appPosition, now);
      }
    }
  }
}
