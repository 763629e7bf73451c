/**
 * The first-generation `iTunes` player on current macOS
 * (`Sources/Mac/iTunes.swift`), which talks to the Music application. It
 * reads the same scripting properties as the classic controller.
 */
module LegacyMacITunes {
  import opened Wrappers
  import opened Tracks
  import opened Legacy
  import MacITunes

  /** How this player's `playerPosition` getter is written. */
  const Rule: PositionRule := PauseAware

  /** `_playbackState`: no state is stopped, and rewinding is reported as playing. */
  function StateOf(s: Option<MacITunes.PlayerState>): (r: MusicPlaybackState)
    ensures s.None? ==> r == Stopped
    ensures r == Playing <==> s == Some(MacITunes.EPlaying) || s == Some(MacITunes.ERewinding)
    ensures r != Rewinding
  {
    if s == Some(MacITunes.EPlaying) || s == Some(MacITunes.ERewinding) then Playing
    else if s == Some(MacITunes.EPaused) then Paused
    else if s == Some(MacITunes.EFastForwarding) then FastForwarding
    else Stopped
  }

  /** `init?`: a running application is read once. */
  method Launch(isRunning: bool, app: MacITunes.App, now: real) returns (p: Tracker)
    ensures fresh(p) && p.events == []
    ensures isRunning ==>
      p.Snapshot() == Fields(MacITunes.CurrentTrackOf(app), StateOf(app.playerState), StartFrom(app.playerPosition, now), None)
    ensures !isRunning ==> p.Snapshot() == Fields(None, Stopped, None, None)
  {
    p := new Tracker(isRunning, MacITunes.CurrentTrackOf(app), StateOf(app.playerState), StartFrom(app.playerPosition, now));
  }

  /**
   * `playerInfoNotification`: when running, a persistent id other than the
   * tail of the current id installs the application's track; else a changed
   * state is stored; else the drift check runs.
   */
  method PlayerInfoNotification(p: Tracker, isRunning: bool, id: Option<string>, playerState: Option<string>,
                                app: MacITunes.App, now: real)
    modifies p
    ensures !isRunning ==> p.Snapshot() == old(p.Snapshot()) && p.events == old(p.events)
    ensures isRunning ==>
      var o := Exclusive(Rule, old(p.Snapshot()), id != IdTail(old(p.track)), MacITunes.CurrentTrackOf(app),
                         NotifiedState(playerState), StartFrom(app.playerPosition, now), FromGetter,
                         StartFrom(app.playerPosition, now), app.playerPosition, now);
      p.Snapshot() == o.fields && p.events == old(p.events) + o.events
  {
    p.Notify(Rule, isRunning, id != IdTail(p.track), MacITunes.CurrentTrackOf(app),
             NotifiedState(playerState), StartFrom(app.playerPosition, now), FromGetter,
             StartFrom(app.playerPosition, now), app.playerPosition, now);
  }

  /** `updatePlayerState`: the drift check, when running. */
  method UpdatePlayerState(p: Tracker, isRunning: bool, app: MacITunes.App, now: real)
    modifies p
    ensures !isRunning ==> p.Snapshot() == old(p.Snapshot()) && p.events == old(p.events)
    ensures isRunning ==>
      var o := Drift(Rule, old(p.Snapshot()), StartFrom(app.playerPosition, now), app.playerPosition, now);
      p.Snapshot() == o.fields && p.events == old(p.events) + o.events
  {
    p.UpdatePosition(Rule, isRunning, StartFrom(app.playerPosition, now), app.playerPosition, now);
  }

  /** The `repeatMode` getter: the application's repeat setting, off when it has none. */
  function RepeatModeOf(r: Option<MacITunes.SongRepeat>): (m: MusicRepeatMode)
    ensures r.None? ==> m == RepeatOff
  {
    if r == Some(MacITunes.ERptOne) then RepeatOne
    else if r == Some(MacITunes.ERptAll) then RepeatAll
    else RepeatOff
  }

  /** The `repeatMode` setter writes `MusicERpt(mode)`. */
  function SongRepeatOf(m: MusicRepeatMode): (r: MacITunes.SongRepeat)
    ensures RepeatModeOf(Some(r)) == m
  {
    match m
    case RepeatOff => MacITunes.ERptOff
    case RepeatOne => MacITunes.ERptOne
    case RepeatAll => MacITunes.ERptAll
  }

  /** The repeat setting and the repeat mode are in one-to-one correspondence. */
  lemma RepeatRoundTrip(m: MusicRepeatMode, r: MacITunes.SongRepeat)
    ensures RepeatModeOf(Some(SongRepeatOf(m))) == m
    ensures SongRepeatOf(RepeatModeOf(Some(r))) == r
  {
  }

  /** `MusicEShM` */
  datatype ShuffleKind = EShSongs | EShAlbums | EShGroupings

  /** The `shuffleMode` getter: off unless shuffling is enabled, then the application's kind, off without one. */
  function ShuffleModeOf(enabled: Option<bool>, kind: Option<ShuffleKind>): (m: MusicShuffleMode)
    ensures enabled != Some(true) || kind.None? <==> m == ShuffleOff
  {
    if enabled != Some(true) then ShuffleOff
    else match kind
      case None => ShuffleOff
      case Some(EShSongs) => Songs
      case Some(EShAlbums) => Albums
      case Some(EShGroupings) => Groupings
  }

  /** The two properties the `shuffleMode` setter writes; the kind is left alone when shuffling is turned off. */
  datatype ShuffleWrite = ShuffleWrite(enabled: bool, kind: Option<ShuffleKind>)

  /** The `shuffleMode` setter. */
  function ShuffleWriteOf(m: MusicShuffleMode): (w: ShuffleWrite)
    ensures w.enabled <==> m != ShuffleOff
    ensures w.kind.None? <==> m == ShuffleOff
  {
    match m
    case ShuffleOff => ShuffleWrite(false, None)
    case Songs => ShuffleWrite(true, Some(EShSongs))
    case Albums => ShuffleWrite(true, Some(EShAlbums))
    case Groupings => ShuffleWrite(true, Some(EShGroupings))
  }

  /** Reading the shuffle mode back after setting it gives the mode set, whatever kind the application had. */
  lemma ShuffleRoundTrip(m: MusicShuffleMode, previous: Option<ShuffleKind>)
    ensures var w := ShuffleWriteOf(m);
      ShuffleModeOf(Some(w.enabled), if w.kind.Some? then w.kind else previous) == m
  {
  }
}
