/**
 * The classic `iTunes` controller (the Music application on macOS). The
 * application's scripting properties are a snapshot passed in; the
 * handlers update the inherited controller state.
 */
module MacITunes {
  import opened Wrappers
  import opened Playback
  import opened Tracks
  import opened PlayerNames
  import opened PlayerModes
  import opened Notices
  import opened Reconcile
  import opened Controllers

  /** `MusicEPlS`, the application's player state. */
  datatype PlayerState = EStopped | EPlaying | EPaused | EFastForwarding | ERewinding

  /** `MusicEKnd`, reduced to what `_currentTrack` tests: song, music video, raw value 0, or anything else. */
  datatype MediaKind = Song | MusicVideo | RawZero | OtherKind

  datatype AppTrack = AppTrack(
    persistentID: Option<string>,
    name: Option<string>,
    album: Option<string>,
    artist: Option<string>,
    duration: Option<real>,
    mediaKind: Option<MediaKind>,
    location: Option<string>)

  /** `MusicERpt` */
  datatype SongRepeat = ERptOff | ERptOne | ERptAll

  /** What the handlers read of the application. */
  datatype App = App(
    playerState: Option<PlayerState>,
    playerPosition: Option<real>,
    currentTrack: Option<AppTrack>,
    currentStreamURL: Option<string>,
    songRepeat: Option<SongRepeat>,
    shuffleEnabled: Option<bool>)

  /** Whether `_currentTrack` accepts a track of this kind. */
  predicate PlayableKind(k: Option<MediaKind>)
  {
    k == Some(Song) || k == Some(MusicVideo) || k == Some(RawZero)
  }

  /** `_currentTrack`: a song or music video that is not a stream, under its persistent id. */
  function CurrentTrackOf(app: App): (r: Option<Track>)
    ensures r.Some? <==> app.currentTrack.Some? && PlayableKind(app.currentTrack.value.mediaKind) && app.currentStreamURL.None?
    ensures r.Some? ==>
      r.value.id == app.currentTrack.value.persistentID.GetOr("")
      && r.value.title == app.currentTrack.value.name && r.value.album == app.currentTrack.value.album
      && r.value.artist == app.currentTrack.value.artist && r.value.duration == app.currentTrack.value.duration
      && r.value.url == app.currentTrack.value.location
  {
    match app.currentTrack
    case None => None
    case Some(t) =>
      if PlayableKind(t.mediaKind) && app.currentStreamURL.None? then
        Some(Track(t.persistentID.GetOr(""), t.name, t.album, t.artist, t.duration, t.location))
      else None
  }

  /** `_playbackState`: stopped without state or position; rewinding is reported as playing. */
  function StateOf(app: App, now: real): (r: PlaybackState)
    ensures app.playerState.None? || app.playerPosition.None? ==> r == Stopped
    ensures !r.Stopped? ==> Time(r, now) == app.playerPosition.value
    ensures r.Playing? <==>
      app.playerPosition.Some? && (app.playerState == Some(EPlaying) || app.playerState == Some(ERewinding))
    ensures !r.Rewinding?
  {
    match (app.playerState, app.playerPosition)
    case (Some(s), Some(p)) =>
      (match s
       case EStopped => Stopped
       case EPlaying => PlayingAt(p, now)
       case EPaused => Paused(p)
       case EFastForwarding => FastForwarding(p)
       case ERewinding => PlayingAt(p, now))
    case _ => Stopped
  }

  /**
   * The controller's `init?`: a found application, read once when it is
   * running.
   */
  method Launch(isRunning: bool, app: App, now: real) returns (c: MusicPlayerController)
    ensures fresh(c) && c.name == ITunes && c.isRunning == isRunning
    ensures isRunning ==>
      c.playbackState == StateOf(app, now) && c.currentTrack == CurrentTrackOf(app)
      && c.posted == [PlaybackStateDidChange, CurrentTrackDidChange]
    ensures !isRunning ==> c.playbackState == Stopped && c.currentTrack == None && c.posted == []
  {
    c := new MusicPlayerController(ITunes, isRunning);
    if isRunning {
      c.AssignState(StateOf(app, now));
      c.AssignTrack(CurrentTrackOf(app));
    }
  }

  /**
   * `playerInfoNotification`: when running, re-read the track if the
   * notification's id (the hex persistent id, an input here) is not the
   * tail of the current id, then assign the state: stopped for a "Stopped"
   * notification, else the application's, without tolerance.
   */
  method PlayerInfoNotification(c: MusicPlayerController, id: Option<string>, playerState: Option<string>,
                                app: App, now: real)
    modifies c
    ensures !old(c.isRunning) ==> unchanged(c)
    ensures old(c.isRunning) ==>
      c.isRunning
      && c.currentTrack == (if id != IdTail(old(c.currentTrack)) then CurrentTrackOf(app) else old(c.currentTrack))
      && c.playbackState == (if playerState == Some("Stopped") then Stopped else StateOf(app, now))
      && c.posted == old(c.posted) + (if id != IdTail(old(c.currentTrack)) then [CurrentTrackDidChange] else [])
                     + [PlaybackStateDidChange]
  {
    if !c.isRunning {
      return;
    }
    if id != IdTail(c.currentTrack) {
      c.AssignTrack(CurrentTrackOf(app));
    }
    if playerState == Some("Stopped") {
      c.AssignState(Stopped);
    } else {
      c.AssignState(StateOf(app, now));
    }
  }

  /** The periodic `updatePlaybackTime`: the tolerant update with the default threshold, when running. */
  method UpdatePlaybackTime(c: MusicPlayerController, app: App, now: real)
    modifies c
    ensures !old(c.isRunning) ==> unchanged(c)
    ensures old(c.isRunning) ==>
      c.playbackState == Reconciled(old(c.playbackState), StateOf(app, now), PlaybackTimeMutateThreshold)
      && c.currentTrack == old(c.currentTrack) && c.isRunning
      && c.posted == old(c.posted)
         + if ShouldReplace(old(c.playbackState), StateOf(app, now), PlaybackTimeMutateThreshold) then [PlaybackStateDidChange] else []
  {
    if !c.isRunning {
      return;
    }
    c.SetPlaybackState(StateOf(app, now), PlaybackTimeMutateThreshold);
  }

  /** The `playbackTime` setter: when running, move the stored state to `t`. */
  method SetPlaybackTime(c: MusicPlayerController, t: real, now: real)
    modifies c
    ensures !old(c.isRunning) ==> unchanged(c)
    ensures old(c.isRunning) ==>
      c.playbackState == WithTime(old(c.playbackState), t, now)
      && c.currentTrack == old(c.currentTrack) && c.isRunning
      && c.posted == old(c.posted) + [PlaybackStateDidChange]
  {
    if !c.isRunning {
      return;
    }
    c.AssignState(WithTime(c.playbackState, t, now));
  }

  /** `MusicERpt.mode`: the mode the setter would write back as this very setting. */
  function ModeOf(r: SongRepeat): (m: RepeatMode)
    ensures SongRepeatOf(m) == r
  {
    match r
    case ERptOff => Off
    case ERptOne => One
    case ERptAll => All
  }

  /** `MusicERpt.init(_:)` */
  function SongRepeatOf(m: RepeatMode): (r: SongRepeat)
    ensures (r == ERptOff) == (m == Off) && (r == ERptAll) == (m == All)
  {
    match m
    case Off => ERptOff
    case One => ERptOne
    case All => ERptAll
  }

  /** The two repeat conversions are inverse bijections. */
  lemma RepeatRoundTrip(m: RepeatMode, r: SongRepeat)
    ensures ModeOf(SongRepeatOf(m)) == m
    ensures SongRepeatOf(ModeOf(r)) == r
  {
  }

  /** The `repeatMode` getter: off when the application reports none. */
  function RepeatModeOf(app: App): (m: RepeatMode)
    ensures app.songRepeat.None? ==> m == Off
    ensures app.songRepeat.Some? ==> SongRepeatOf(m) == app.songRepeat.value
  {
    match app.songRepeat
    case None => Off
    case Some(r) => ModeOf(r)
  }

  /** The `shuffleMode` getter: on exactly when shuffling is reported enabled. */
  function ShuffleModeOf(app: App): (m: ShuffleMode)
    ensures m == ShuffleOn <==> app.shuffleEnabled == Some(true)
  {
    if app.shuffleEnabled == Some(true) then ShuffleOn else ShuffleOff
  }

  /** Setting either mode writes what the matching getter reads back as that mode. */
  lemma ModeSettersRoundTrip(app: App, m: RepeatMode, k: ShuffleMode)
    ensures RepeatModeOf(app.(songRepeat := Some(SongRepeatOf(m)))) == m
    ensures ShuffleModeOf(app.(shuffleEnabled := Some(IsEnabled(k)))) == k
  {
  }
}
