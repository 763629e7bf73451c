# MusicPlayer: a verified model of the "now playing" core

MusicPlayer is the library through which LyricsX follows what a music player is playing. It reports the current track, the playback state and the playback position of iTunes/Music, Spotify, Vox, Audirvana and Swinsian on macOS, of MPRIS players on Linux, of the system media session, and of the Music and Spotify apps on iOS. It also elects one of several running players as the one "now playing".

This project models that core in Dafny and proves what its code promises. The core comes in three generations, and the model keeps all three apart.

- **Protocol players** (`Sources/MusicPlayer/Players`, `Sources/MusicPlayer/iOS`, the MPRIS and system-media adapters). Each player is an object that publishes `name`, `currentTrack` and `playbackState`. The modules are `Players` (the common state, `PlayerCore`), `VirtualPlayers`, `Delegates`, `NowPlayingAggregate`, `MprisPlayers`, `SystemMediaPlayers`, `MediaRemote`, `SpotifyIOSPlayers` and `AppleMusicIOSPlayers`.
  - Every assignment to an observed property is one entry in an event log (`posted`).
  - The playback state is a tagged value (`Playback.PlaybackState`). Its playing cases carry the instant playback started; its other cases carry a position.
  - The tolerant update `setPlaybackState(_:tolerate:)` is `Reconcile.ShouldReplace` and `Reconcile.Reconciled`.
- **Classic controllers** (`Sources/MusicPlayer/MusicPlayerController.swift`, `Sources/MusicPlayer/Mac`). A `Controllers.MusicPlayerController` object holds a running flag, a track and a state, and the notification log they post.
  - The Mac adapters add no state of their own. Their handlers are methods over a controller plus a snapshot of what the scripting bridge reports, as a datatype (`MacITunes`, `MacSpotify`, `MacVox`, `MacAudirvana`, `MacSwinsian`).
  - `ControllerManager` selects among controllers and relays their notifications. `NowPlayingPlayers` does the same for the notification-based aggregate.
  - The selection policies are pure functions in `Selection`.
- **The first generation** (`Sources/*.swift`, `Sources/Mac`, `Sources/iOS`). Each player keeps a track, a state without a position, a start instant and a pause position, and calls back a delegate.
  - The callbacks are a log in `Legacy.Tracker`.
  - The notification handler and the drift check are functions (`Legacy.Exclusive`, `Legacy.Drift`), and the tracker's methods are proved to perform them.
  - The three ways the players write their position getter are one parameter, `Legacy.PositionRule`.

Support modules:
- `Wrappers`: `Option`.
- `Numbers`: `Abs`, and `Truncate`, which is Swift's `Int(_:)` on a real.
- `Decimal`: `Int.description`.
- `Tracks`: the track record and its id helpers.
- `PlayerModes` and `PlayerNames`: the enumerations.
- `Seqs`: the sequence helpers.
- `Notices`: the notification names.

Time is a real number of seconds. The clock reading `now` is an input wherever the code reads `Date()`: `Date(timeIntervalSinceNow: -t)` is `now - t`. Everything a player application reports (scripting properties, notification user info, MPRIS metadata, media-remote dictionaries, remote player states) is also an input, as a datatype.

The model follows the code as written. Where the code evidently does not do what its authors meant, "## Findings" pairs the as-written member with a corrected one. Every object of the model runs on the as-written member: the manager, the notification-based aggregator, the Vox controller and the first-generation iOS Spotify player. The corrected member is stated beside it, with its intended property proved.

Where the specification of the library and its code disagree, the model follows the code:
- The specification has one scheduler polling every source, and a reconciler returning a publish-or-suppress decision. The code gives each adapter its own timer, and updates the stored state in place. The model has the in-place update, with the decision exposed as `Reconcile.ShouldReplace`.
- The specification compares elapsed times at `now`. The code compares start instants for the playing cases and positions for the others. For two playing states read at the same `now` both give the same answer: `Reconcile.ReconciledWithinTolerance` states the code's form.
- The specification has one configurable tolerance. The code fixes the tolerance per call site:
  - 1.5 seconds in the classic controllers (`Sources/MusicPlayer/MusicPlayerController.swift:106`);
  - 1.0 in the Swinsian controller and the iOS Spotify player.

  Each constant appears where its adapter is modelled.

## Model

| member | source | states |
|---|---|---|
| Wrappers.Option.GetOr | Sources/MusicPlayer/NowPlayingPlayer.swift:113 | `x ?? d` yields the wrapped value when there is one and the default otherwise |
| Numbers.Abs | Sources/MusicPlayer/MusicPlayerController.swift:110 | `magnitude` is non-negative and equals the value or its negation |
| Numbers.Truncate | Sources/MusicPlayer/Mac/Swinsian.swift:75 | Swift `Int(x)` rounds toward zero: the result lies within one of `x`, on the zero side, for both signs |
| Decimal.DigitChar | Sources/MusicPlayer/macOS/MediaRemote.swift:63 | each digit is written as the character whose code is `'0'` plus the digit |
| Decimal.NatToDecimal | Sources/MusicPlayer/macOS/MediaRemote.swift:63 | the decimal text of a natural number is non-empty, all digits, and has no leading zero except for "0" |
| Decimal.IntToDecimal | Sources/MusicPlayer/macOS/MediaRemote.swift:65 | `Int.description` is non-empty and starts with '-' exactly for negative numbers |
| Decimal.NatToDecimalRoundTrip | Sources/MusicPlayer/macOS/MediaRemote.swift:63 | reading the decimal text back gives the number it was written from (by induction) |
| Decimal.IntToDecimalRoundTrip | Sources/MusicPlayer/macOS/MediaRemote.swift:65 | the text of any integer, sign included, reads back as that integer |
| Decimal.IntToDecimalInjective | Sources/MusicPlayer/macOS/MediaRemote.swift:65 | distinct integers have distinct decimal texts, so ids built from them stay apart |
| Tracks.IdOf | Sources/MusicPlayer/Mac/Spotify.swift:137 | `track?.id` is nil exactly when there is no track, and otherwise the track's id |
| Tracks.DropFirst8 | Sources/MusicPlayer/Mac/iTunes.swift:76 | `dropFirst(8)` removes the first eight characters, leaving nothing of a shorter string |
| Tracks.IdTail | Sources/MusicPlayer/Mac/iTunes.swift:76 | the compared id is nil exactly without a track, and otherwise the id without its first eight characters |
| Playback.PlayingAt | Sources/MusicPlayer/PlaybackState.swift:30-32 | `playing(time:)` is a playing state whose start lies `time` seconds before now |
| Playback.IsPlaying | Sources/MusicPlayer/PlaybackState.swift:34-41 | `isPlaying` holds for every case except paused and stopped |
| Playback.Time | Sources/MusicPlayer/PlaybackState.swift:43-52 | the `time` getter reads 0 when stopped, a playing state is rebuilt by `playing(time:)` from its time at that instant, and every other case reads the position it carries |
| Playback.TimeAdvances | Sources/MusicPlayer/PlaybackState.swift:43-52 | a playing state's time grows with the clock, every other state's time is fixed |
| Playback.PlayingAtRoundTrip | Sources/MusicPlayer/PlaybackState.swift:30-52 | `playing(time: t)` reads back `t` when made and `t + d` after `d` seconds, and is playing |
| Playback.WithTime | Sources/MusicPlayer/PlaybackState.swift:53-61 | the time setter keeps the case and `isPlaying`, leaves stopped alone, and otherwise reads back the value set |
| Playback.WithTimeIdentities | Sources/MusicPlayer/PlaybackState.swift:43-61 | setting the time it already has changes nothing, and of two settings the last wins |
| Playback.ApproximateEqualProperties | Sources/MusicPlayer/Players/SystemMedia.swift:67 | approximate equality is reflexive for a non-negative tolerance, symmetric, and only relates states of the same case |
| Playback.ApproximateEqual | Sources/MusicPlayer/MusicPlayerController.swift:114-121 | approximately equal states are of the same case, and two stopped states always are |
| Playback.ApproximateEqualAtAnyInstant | Sources/MusicPlayer/MusicPlayerController.swift:114-121 | two states of one case other than stopped are approximately equal exactly when their times, read at any one instant, are within the tolerance |
| PlayerModes.IsEnabled | Sources/MusicPlayer/PlayerMode.swift:31 | `isEnabled` holds exactly for `.on` |
| PlayerModes.DefaultAvailableRepeatMode | Sources/MusicPlayer/PlayerMode.swift:43-45 | the default available repeat modes are off, one and all, in that order |
| PlayerModes.DefaultAvailableShuffleMode | Sources/MusicPlayer/PlayerMode.swift:47-49 | the default available shuffle modes are two different modes |
| PlayerModes.AllCasesExactlyOnce | Sources/MusicPlayer/PlayerMode.swift:21-32 | `allCases` lists every repeat and shuffle mode, each once |
| PlayerNames.LXNameOf | Sources/MusicPlayer/PlayerName.swift:58-67 | `lxName` is defined exactly for the scriptable players, is never an unknown name, and maps iTunes to Apple Music |
| PlayerNames.FromLXName | Sources/MusicPlayer/PlayerName.swift:47-56 | `init?(lxName:)` fails exactly for an unknown name and otherwise gives a scriptable player |
| PlayerNames.LXNameRoundTrip | Sources/MusicPlayer/PlayerName.swift:47-67 | the two mappings are inverse to each other, in both directions |
| PlayerNames.ScriptingPlayerNamesDistinct | Sources/MusicPlayer/PlayerName.swift:69 | `scriptingPlayerNames` holds five different names and neither Now Playing, Apple Music nor MPRIS |
| Seqs.FirstWhere | Sources/MusicPlayer/MusicPlayerControllerManager.swift:109 | `first(where:)` finds the first element satisfying the predicate, or reports that none does |
| Seqs.FirstWhereUnique | Sources/MusicPlayer/MusicPlayerControllerManager.swift:109 | any first satisfying position is the one found |
| Reconcile.ShouldReplace | Sources/MusicPlayer/MusicPlayerController.swift:108-122 | `setPlaybackState` replaces the state exactly when the incoming state is not approximately equal to the current one |
| Reconcile.Reconciled | Sources/MusicPlayer/MusicPlayerController.swift:108-122 | the result is the old or the incoming state; a different case always wins; two stopped states keep the old one |
| Reconcile.ReconciledWithinTolerance | Sources/MusicPlayer/MusicPlayerController.swift:109-121 | case by case: playing compares start instants, the other cases compare positions, against the tolerance; different cases always replace |
| Reconcile.ReconciledIdempotent | Sources/MusicPlayer/MusicPlayerController.swift:108-122 | a second identical `setPlaybackState` leaves the same state, and with a non-negative tolerance posts nothing |
| Controllers.MusicPlayerController.constructor | Sources/MusicPlayer/MusicPlayerController.swift:47-85 | a found application gives a controller with its running flag, no track, stopped, nothing posted |
| Controllers.MusicPlayerController.SetRunning | Sources/MusicPlayer/MusicPlayerController.swift:39-43 | assigning `isRunning` posts one running-state notification and changes nothing else |
| Controllers.MusicPlayerController.AssignTrack | Sources/MusicPlayer/MusicPlayerController.swift:75-79 | assigning `currentTrack` posts one track notification and changes nothing else |
| Controllers.MusicPlayerController.AssignState | Sources/MusicPlayer/MusicPlayerController.swift:81-85 | assigning `playbackState` posts one state notification and changes nothing else |
| Controllers.MusicPlayerController.SetPlaybackState | Sources/MusicPlayer/MusicPlayerController.swift:106-122 | the new state is the reconciled state, and one notification is posted exactly when the state was replaced |
| Controllers.MusicPlayerController.UpdateTrackAndState | Sources/MusicPlayer/Mac/Vox.swift:61-67 | a different track id replaces track and state and posts both; the same id only reconciles the state |
| Controllers.MusicPlayerController.Resume | Sources/MusicPlayer/MusicPlayerController.swift:92 | the base class's `resume` changes nothing |
| Controllers.MusicPlayerController.Pause | Sources/MusicPlayer/MusicPlayerController.swift:93 | the base class's `pause` changes nothing |
| Controllers.MusicPlayerController.PlayPause | Sources/MusicPlayer/MusicPlayerController.swift:94 | the base class's `playPause` changes nothing |
| Controllers.MusicPlayerController.SkipToNextItem | Sources/MusicPlayer/MusicPlayerController.swift:96 | the base class's `skipToNextItem` changes nothing |
| Controllers.MusicPlayerController.SkipToPreviousItem | Sources/MusicPlayer/MusicPlayerController.swift:97 | the base class's `skipToPreviousItem` changes nothing |
| MacVox.NameAsWrittenMisleadsPreference | Sources/MusicPlayer/Mac/Vox.swift:29-31 | with the name as written, a preference for Vox finds no player and a preference for Spotify can take the Vox controller; with the corrected name both preferences pick the right player |
| MacVox.CurrentTrackOf | Sources/MusicPlayer/Mac/Vox.swift:138-151 | no track without a unique id; otherwise a track under exactly that id, carrying the application's title, album, artist, duration and URL |
| MacVox.StateOf | Sources/MusicPlayer/Mac/Vox.swift:160-166 | playing at the application's current time exactly for state code 1 with a known time; stopped otherwise, a paused Vox included |
| MacVox.Launch | Sources/MusicPlayer/Mac/Vox.swift:37-42 | the controller is created under the name as written, `.spotify`; a running Vox starts with its state and track (posting both), a stopped one starts empty |
| MacVox.UpdatePlayerState | Sources/MusicPlayer/Mac/Vox.swift:54-57 | when running, the state is reconciled with the application's and a notification is posted only on replacement; when not running nothing changes |
| MacVox.TrackChangeNotification | Sources/MusicPlayer/Mac/Vox.swift:59-68 | when running, a new unique id replaces track and state, and the same id only reconciles the state; when not running nothing changes |
| MacVox.SetPlaybackTime | Sources/MusicPlayer/Mac/Vox.swift:79-83 | when running, the stored state moves to the new time, keeping its case; when not running nothing changes |
| MacVox.RepeatModeOf | Sources/MusicPlayer/Mac/Vox.swift:113-121 | codes 1 and 2 read as one and all, every other code (or none) as off |
| MacVox.RepeatStateOf | Sources/MusicPlayer/Mac/Vox.swift:122-125 | the written code is the mode's index in `[off, one, all]` |
| MacVox.RepeatRoundTrip | Sources/MusicPlayer/Mac/Vox.swift:113-125 | writing a repeat mode and reading it back gives that mode |
| MacVox.ShuffleModeOf | Sources/MusicPlayer/Mac/Vox.swift:109-133 | shuffle always reads off, the only mode offered |
| MacITunes.CurrentTrackOf | Sources/MusicPlayer/Mac/iTunes.swift:141-162 | a track exactly for a song, music video or raw-kind-0 item while no stream plays, under its persistent id (empty when missing) with its name, album, artist, duration and location |
| MacITunes.StateOf | Sources/MusicPlayer/Mac/iTunes.swift:164-175 | stopped without a state or a position; otherwise each case carries the position, and rewinding is reported as playing |
| MacITunes.Launch | Sources/MusicPlayer/Mac/iTunes.swift:51-56 | a running application starts with its state and track (posting both); a stopped one starts empty |
| MacITunes.PlayerInfoNotification | Sources/MusicPlayer/Mac/iTunes.swift:69-84 | when running, the track is re-read exactly when the notified id differs from the tail of the current id, and the state is set to stopped for a "Stopped" notification or else to the application's, always posting; when not running nothing changes |
| MacITunes.UpdatePlaybackTime | Sources/MusicPlayer/Mac/iTunes.swift:58-61 | when running, the state is reconciled with the application's, posting only on replacement; otherwise nothing changes |
| MacITunes.SetPlaybackTime | Sources/MusicPlayer/Mac/iTunes.swift:90-94 | when running, the stored state moves to the new time, keeping its case; otherwise nothing changes |
| MacITunes.RepeatRoundTrip | Sources/MusicPlayer/Mac/iTunes.swift:178-195 | `MusicERpt.mode` and `MusicERpt.init` are inverse bijections |
| MacITunes.ModeOf | Sources/MusicPlayer/Mac/iTunes.swift:180-186 | the mode read from a repeat setting is the one whose setting writes that very setting back |
| MacITunes.SongRepeatOf | Sources/MusicPlayer/Mac/iTunes.swift:188-194 | off and all write the settings off and all, in both directions, so one writes one |
| MacITunes.RepeatModeOf | Sources/MusicPlayer/Mac/iTunes.swift:121-123 | the repeat mode is off when the application reports none and otherwise the reported mode |
| MacITunes.ShuffleModeOf | Sources/MusicPlayer/Mac/iTunes.swift:130-132 | shuffle reads on exactly when the application reports it enabled |
| MacITunes.ModeSettersRoundTrip | Sources/MusicPlayer/Mac/iTunes.swift:120-136 | what either mode setter writes reads back as the mode set |
| MacSpotify.CurrentTrackOf | Sources/MusicPlayer/Mac/Spotify.swift:134-145 | a track exactly when the application has one, under its id (empty when missing), with its name, album, artist and integer duration and no URL |
| MacSpotify.StateOf | Sources/MusicPlayer/Mac/Spotify.swift:147-156 | playing or paused at the application's position for those states with a known position; stopped otherwise |
| MacSpotify.InfoState | Sources/MusicPlayer/Mac/Spotify.swift:58-67 | the notified state is playing or paused at the notified position for "Playing" or "Paused" with a position; stopped otherwise |
| MacSpotify.Launch | Sources/MusicPlayer/Mac/Spotify.swift:37-42 | a running application starts with its state and track (posting both); a stopped one starts empty |
| MacSpotify.PlayerInfoNotification | Sources/MusicPlayer/Mac/Spotify.swift:55-73 | when running, a different track id replaces only the track (none for a missing id) and keeps the state; the same id assigns the notified state; when not running nothing changes |
| MacSpotify.UpdatePlaybackTime | Sources/MusicPlayer/Mac/Spotify.swift:50-53 | when running, the state is reconciled with the application's, posting only on replacement; otherwise nothing changes |
| MacSpotify.SetPlaybackTime | Sources/MusicPlayer/Mac/Spotify.swift:79-83 | when running, the stored state moves to the new time, keeping its case; otherwise nothing changes |
| MacSpotify.RepeatModeOf | Sources/MusicPlayer/Mac/Spotify.swift:114-116 | repeat reads all exactly when the application repeats, and never one |
| MacSpotify.RepeatingOf | Sources/MusicPlayer/Mac/Spotify.swift:117-119 | the repeat setter writes `true` exactly for a mode other than off |
| MacSpotify.ShuffleModeOf | Sources/MusicPlayer/Mac/Spotify.swift:123-125 | shuffle reads on exactly when the application shuffles |
| MacSpotify.ModeSettersRoundTrip | Sources/MusicPlayer/Mac/Spotify.swift:109-129 | setting an available repeat mode reads back the same mode, repeat-one reads back as repeat-all, and shuffle always round-trips |
| MacAudirvana.DurationText | Sources/MusicPlayer/Mac/Audirvana.swift:127 | the duration text is empty exactly when there is no duration |
| MacAudirvana.CurrentTrackId | Sources/MusicPlayer/Mac/Audirvana.swift:124-129 | no id without a title; otherwise "Audirvana-", title, "-", album (or empty), "-" and the duration text |
| MacAudirvana.CurrentTrackIdSeparatesDurations | Sources/MusicPlayer/Mac/Audirvana.swift:124-129 | two tracks with the same title and album get the same id exactly when their durations agree |
| MacAudirvana.CurrentTrackOf | Sources/MusicPlayer/Mac/Audirvana.swift:131-141 | the track exists exactly when the id does, under that id, with the title, album, artist and duration and no URL |
| MacAudirvana.StateOf | Sources/MusicPlayer/Mac/Audirvana.swift:143-152 | playing or paused at the application's position for those states with a known position; stopped otherwise |
| MacAudirvana.NotifiedTrack | Sources/MusicPlayer/Mac/Audirvana.swift:79-82 | the installed track keeps the id and takes the notification's file path when there is one |
| MacAudirvana.Launch | Sources/MusicPlayer/Mac/Audirvana.swift:51-58 | a running application starts with its state and track (posting both); a stopped one starts empty |
| MacAudirvana.PlayerInfoNotification | Sources/MusicPlayer/Mac/Audirvana.swift:75-88 | when running, a different id replaces track (with the notified path) and state, posting both; the same id only reconciles the state; when not running nothing changes |
| MacAudirvana.UpdatePlaybackTime | Sources/MusicPlayer/Mac/Audirvana.swift:60-63 | when running, the state is reconciled with the application's, posting only on replacement; otherwise nothing changes |
| MacAudirvana.SetPlaybackTime | Sources/MusicPlayer/Mac/Audirvana.swift:94-98 | when running, the stored state moves to the new time, keeping its case; otherwise nothing changes |
| MacSwinsian.CurrentTrackOf | Sources/MusicPlayer/Mac/Swinsian.swift:103-115 | a track exactly when the application has one, under its id (empty when missing), with its name, album, artist, duration and file path |
| MacSwinsian.StateOf | Sources/MusicPlayer/Mac/Swinsian.swift:117-126 | playing or paused at the whole-second position for those states with a known position; stopped otherwise |
| MacSwinsian.Launch | Sources/MusicPlayer/Mac/Swinsian.swift:46-51 | a running application starts with its state and track (posting both); a stopped one starts empty |
| MacSwinsian.PlayingNotification | Sources/MusicPlayer/Mac/Swinsian.swift:53-57 | the state is reconciled within one second, posting only on replacement, and then the track is re-read and posted |
| MacSwinsian.PausedNotification | Sources/MusicPlayer/Mac/Swinsian.swift:58-61 | the state is reconciled within one second, posting only on replacement; the track stays |
| MacSwinsian.StoppedNotification | Sources/MusicPlayer/Mac/Swinsian.swift:62-66 | the state becomes stopped and the track none, posting both |
| MacSwinsian.SetPlaybackTime | Sources/MusicPlayer/Mac/Swinsian.swift:73-77 | when running, the application is sent the whole seconds of the time, truncated toward zero, and the stored state moves to the exact time; otherwise nothing changes and nothing is sent |
| Selection.FirstChoice | Sources/MusicPlayer/MusicPlayerControllerManager.swift:105 | `players.first(where:)` as a selection picks the first satisfying candidate, or no player when none satisfies |
| Selection.ManagerSelect | Sources/MusicPlayer/MusicPlayerControllerManager.swift:92-111 | a preferred name picks the first player of that name (or none); otherwise a playing current player stays; otherwise the first playing player; otherwise on macOS a running current player stays or the first running one is taken, and on iOS the current player stays or the first Apple Music player is taken |
| Selection.ManagerSelectStable | Sources/MusicPlayer/MusicPlayerControllerManager.swift:92-116 | selecting again, with the selected player as the current one and nothing else changed, keeps that player |
| Selection.ManagerPreferenceIgnoresPlayback | Sources/MusicPlayer/MusicPlayerControllerManager.swift:94-95 | with a preferred name only the names decide: playback states, running flags and the current player do not matter |
| Selection.NowPlayingSelect | Sources/MusicPlayer/Players/NowPlaying.swift:35-43 | a playing designated player stays; otherwise the first playing player; otherwise the first player that is not stopped; no player exactly when none is playing or paused |
| Selection.NowPlayingSelectStable | Sources/MusicPlayer/Players/NowPlaying.swift:35-47 | selecting again with the selected player as the designated one keeps it |
| Selection.NowPlayingPlayerSelectAsWritten | Sources/MusicPlayer/NowPlayingPlayer.swift:86-94 | a playing current player is kept; otherwise the current player is not kept, and the first playing player is picked when there is one; otherwise, as written, the first player whose state is stopped is picked, or none |
| Selection.NowPlayingPlayerSelectPassesOverPaused | Sources/MusicPlayer/NowPlayingPlayer.swift:92 | as written, a paused player beside a stopped one loses to the stopped one and a lone paused player is not selected, where the sibling policy picks the paused player |
| Selection.NowPlayingSelectPrefersLivePlayers | Sources/MusicPlayer/Players/NowPlaying.swift:41 | while some player is not stopped, the corrected policy never picks a stopped player |
| ControllerManager.Snapshots | Sources/MusicPlayer/MusicPlayerControllerManager.swift:96-105 | one snapshot per controller, in order, of the name, state and running flag the selection reads |
| ControllerManager.CurrentSnapshot | Sources/MusicPlayer/MusicPlayerControllerManager.swift:96 | the current player's snapshot is absent exactly when no player is selected |
| Selection.Designated | Sources/MusicPlayer/MusicPlayerControllerManager.swift:93-111 | keeping designates the current object, a pick designates that list element, and no player designates none; the manager and both aggregators select through it |
| ControllerManager.Reposts | Sources/MusicPlayer/MusicPlayerControllerManager.swift:60-69 | the relays repost a notification once per relay listening to it, and only when it comes from the selected controller |
| ControllerManager.RelayAsWrittenMisroutes | Sources/MusicPlayer/MusicPlayerControllerManager.swift:60-69 | as written, the selected controller's track changes are never reposted and its state changes are reposted twice |
| ControllerManager.RelayRepostsOnce | Sources/MusicPlayer/MusicPlayerControllerManager.swift:60-69 | with one relay for the state and one for the track, each state or track change of the selected controller is reposted exactly once, and nothing else is reposted |
| ControllerManager.MusicPlayerControllerManager.Selected | Sources/MusicPlayer/MusicPlayerControllerManager.swift:92-111 | the controller the selection designates is none or one of the managed controllers |
| ControllerManager.MusicPlayerControllerManager.constructor | Sources/MusicPlayer/MusicPlayerControllerManager.swift:51-53 | the manager keeps the given controllers, has no preference, selects once, and posts the three selection notifications only if a controller was selected |
| ControllerManager.MusicPlayerControllerManager.SelectNewPlayer | Sources/MusicPlayer/MusicPlayerControllerManager.swift:92-116 | the selected controller becomes the one the policy designates, and the three notifications are posted exactly when it is another object |
| ControllerManager.MusicPlayerControllerManager.SetPreferredPlayerName | Sources/MusicPlayer/MusicPlayerControllerManager.swift:42-47 | the preference is stored; the same value changes nothing else, another value reselects under the new preference |
| ControllerManager.MusicPlayerControllerManager.Receive | Sources/MusicPlayer/MusicPlayerControllerManager.swift:54-69 | the relays as installed repost a notification of the selected controller once per relay listening to it, so a state change twice and a track change never; a state change of a managed controller then reselects |
| NowPlayingAggregate.NowPlaying.Selected | Sources/MusicPlayer/Players/NowPlaying.swift:35-43 | the player the selection designates is none or one of the owned players |
| NowPlayingAggregate.NowPlaying.constructor | Sources/MusicPlayer/Players/NowPlaying.swift:24-27 | the aggregator owns the given players and designates what the policy picks with no designated player |
| NowPlayingAggregate.NowPlaying.SelectNewPlayer | Sources/MusicPlayer/Players/NowPlaying.swift:35-47 | the designated player becomes the one the policy picks, and the delegate signals a change exactly when it is another object |
| NowPlayingAggregate.NowPlaying.SetDesignatedPlayer | Sources/MusicPlayer/Players/NowPlaying.swift:15-18 | assigning the designated player from outside always fails its precondition and leaves the designation unchanged |
| NowPlayingPlayers.NowPlayingPlayer.Selected | Sources/MusicPlayer/NowPlayingPlayer.swift:86-94 | the player the as-written selection designates is none or one of the owned players |
| NowPlayingPlayers.NowPlayingPlayer.constructor | Sources/MusicPlayer/NowPlayingPlayer.swift:46-48 | the aggregator owns the given players, selects once with the as-written policy, and posts the three selection notifications only if a player was selected |
| NowPlayingPlayers.NowPlayingPlayer.SelectNewPlayer | Sources/MusicPlayer/NowPlayingPlayer.swift:86-98 | the selected player becomes the one the as-written policy designates (its third tier takes the first stopped player), and the three notifications are posted exactly when it is another object |
| NowPlayingPlayers.NowPlayingPlayer.Receive | Sources/MusicPlayer/NowPlayingPlayer.swift:49-62 | a state change of an owned player reselects and is reposted when its sender is then selected; a track change is reposted when its sender is selected; nothing else is reposted |
| NowPlayingPlayers.NowPlayingPlayer.Name | Sources/MusicPlayer/NowPlayingPlayer.swift:104-106 | the aggregator is named `.nowPlaying`, a name no scriptable player has |
| NowPlayingPlayers.NowPlayingPlayer.CurrentTrack | Sources/MusicPlayer/NowPlayingPlayer.swift:108-110 | the selected player's track, and none without a selected player |
| NowPlayingPlayers.NowPlayingPlayer.State | Sources/MusicPlayer/NowPlayingPlayer.swift:112-114 | the selected player's state, and stopped without a selected player |
| NowPlayingPlayers.NowPlayingPlayer.PlaybackTime | Sources/MusicPlayer/NowPlayingPlayer.swift:116-117 | the selected player's modelled getter, the time of its state at that instant (see `MprisPlayers` under "## Left out"), and 0 without a selected player |
| NowPlayingPlayers.NowPlayingPlayer.Send | Sources/MusicPlayer/NowPlayingPlayer.swift:118-139 | the time setting and the five commands `resume`, `pause`, `playPause`, `skipToNextItem` and `skipToPreviousItem` reach the selected player unchanged, and nobody without one; `updatePlayerState`, which this aggregator does not declare, reaches nobody |
| Delegates.Delegate.constructor | Sources/MusicPlayer/Players/Delegate.swift:16-27 | a new delegate has no current player and has signalled no change |
| Delegates.Delegate.SetCurrentPlayer | Sources/MusicPlayer/Players/Delegate.swift:16 | assigning `currentPlayer` stores it and signals one change |
| Delegates.Delegate.Name | Sources/MusicPlayer/Players/Delegate.swift:33-35 | the current player's name, and none without a current player |
| Delegates.Delegate.CurrentTrack | Sources/MusicPlayer/Players/Delegate.swift:37-39 | the current player's track, and none without a current player |
| Delegates.Delegate.State | Sources/MusicPlayer/Players/Delegate.swift:41-43 | the current player's state, and stopped without a current player |
| Delegates.Delegate.PlaybackTime | Sources/MusicPlayer/Players/Delegate.swift:45-46 | the current player's modelled getter, the time of its state at that instant (see `MprisPlayers` under "## Left out"), and 0 without a current player |
| Delegates.Delegate.Send | Sources/MusicPlayer/Players/Delegate.swift:47-85 | a command or time setting reaches the current player unchanged, and nobody without one |
| Players.PlayerCore.constructor | Sources/MusicPlayer/MusicPlayer.swift:11-16 | a player starts with the given optional name, track and state, and has emitted nothing |
| Players.PlayerCore.AssignTrack | Sources/MusicPlayer/Players/MPRIS.swift:167 | assigning the published `currentTrack` emits one track change and keeps the state |
| Players.PlayerCore.AssignState | Sources/MusicPlayer/Players/MPRIS.swift:168 | assigning the published `playbackState` emits one state change and keeps the track |
| Players.PlayerCore.UpdateTrackAndState | Sources/MusicPlayer/Players/MPRIS.swift:163-172 | a different track id replaces track and state, emitting both; the same id replaces only a state that is not within the tolerance, emitting only then |
| Players.Forward | Sources/MusicPlayer/Players/Delegate.swift:62-84 | `player?.command()` reaches the player with the command unchanged, or nobody when there is no player |
| Players.ForwardedName | Sources/MusicPlayer/Players/Delegate.swift:33-35 | the forwarded name is the player's, or absent without a player |
| Players.ForwardedTrack | Sources/MusicPlayer/Players/Delegate.swift:37-39 | the forwarded track is the player's, or absent without a player |
| Players.ForwardedState | Sources/MusicPlayer/Players/Delegate.swift:41-43 | the forwarded state is the player's, or stopped without a player |
| Players.ForwardedTime | Sources/MusicPlayer/Players/Delegate.swift:45-48 | the forwarded time is the player's, or 0 without a player |
| Players.ForwardedTimeIsStateTime | Sources/MusicPlayer/Players/Delegate.swift:41-48 | with the modelled getter (see `MprisPlayers` under "## Left out"), the forwarded time is always the time of the forwarded state, with or without a player |
| Players.PlayerCore.PlaybackTime | Sources/MusicPlayer/Players/SystemMedia.swift:114-117 | the getter reads the stored state: 0 when stopped, the elapsed time since the start when playing, and the carried time when paused or seeking |
| Players.StatesOf | Sources/MusicPlayer/Players/NowPlaying.swift:39-41 | one playback state per player, in order |
| Players.StateOf | Sources/MusicPlayer/Players/NowPlaying.swift:37 | the designated player's state is absent exactly when no player is designated |
| MprisPlayers.MprisState | Sources/MusicPlayer/Players/MPRIS.swift:174-187 | playing or paused at the reported position for those statuses; stopped for the stopped status and any other |
| MprisPlayers.TrackOf | Sources/MusicPlayer/Players/MPRIS.swift:189-200 | always a track: the track id (empty when missing), the length in microseconds turned to seconds (0 when missing), and the title, album, artist and URL |
| MprisPlayers.MPRIS.constructor | Sources/MusicPlayer/Players/MPRIS.swift:22-96 | the player is named `mpris` and, after its first refresh, holds the bus's track and state |
| MprisPlayers.MPRIS.UpdatePlayerState | Sources/MusicPlayer/Players/MPRIS.swift:163-172 | a different track id replaces track and state, emitting both; the same id replaces only a state that is not approximately equal, emitting only then |
| SystemMediaPlayers.FromRawValue | Sources/MusicPlayer/Players/SystemMedia.swift:84 | `SystemPlaybackState(rawValue:)` succeeds exactly for raw values 0 to 3, giving the case with that raw value |
| SystemMediaPlayers.RawValue | Sources/MusicPlayer/Players/SystemMedia.swift:153-158 | the raw values lie between 0 and 3, and 0 is terminated |
| SystemMediaPlayers.RawValueRoundTrip | Sources/MusicPlayer/Players/SystemMedia.swift:84 | every case is read back from its raw value |
| SystemMediaPlayers.NewState | Sources/MusicPlayer/Players/SystemMedia.swift:58-66 | playing from the info's start instant when the system plays, paused at the elapsed time when it is paused, stopped otherwise or when that value is missing |
| SystemMediaPlayers.WarrantsRefresh | Sources/MusicPlayer/Players/SystemMedia.swift:85 | exactly the known states with raw value 1 or 2, playing and paused, lead to a refresh |
| SystemMediaPlayers.SystemMedia.constructor | Sources/MusicPlayer/Players/SystemMedia.swift:24-29 | a new player has no name, no track, is stopped, and does not yet know the system state |
| SystemMediaPlayers.SystemMedia.UpdatePlayerState | Sources/MusicPlayer/Players/SystemMedia.swift:51-75 | no dictionary stops and clears the track; otherwise the state is assigned unless approximately equal and the track unless its id is the same, each emitting once when assigned |
| SystemMediaPlayers.SystemMedia.IsPlayingCallback | Sources/MusicPlayer/Players/SystemMedia.swift:41-44 | the system state becomes playing or paused as answered, and the player is then refreshed from the info: without info it stops and clears the track, emitting both changes; with info the state is reconciled and the track replaced on a new id, each emitting exactly when it changes |
| SystemMediaPlayers.SystemMedia.ApplicationPlaybackStateDidChange | Sources/MusicPlayer/Players/SystemMedia.swift:77-91 | no user info stops and clears the track; otherwise the raw state is stored, and playing or paused refreshes from the info while anything else stops and clears the track; a refresh emits a state change exactly when the state is replaced and a track change exactly on a new id |
| SystemMediaPlayers.SystemMedia.SetPlaybackTime | Sources/MusicPlayer/Players/SystemMedia.swift:118-121 | the state moves to the new time, keeping its case, and emits once |
| MediaRemote.Id | Sources/MusicPlayer/macOS/MediaRemote.swift:61-69 | the decimal text of the unique identifier; without one, with a title, "NowPlaying-" title, album and whole-second duration; otherwise none |
| MediaRemote.DescriptiveId | Sources/MusicPlayer/macOS/MediaRemote.swift:65 | the descriptive id begins with "NowPlaying-", the title and a dash, and without a duration it ends in "-0" |
| MediaRemote.IdRecoversUniqueIdentifier | Sources/MusicPlayer/macOS/MediaRemote.swift:62-63 | an id made from the unique identifier reads back as that number |
| MediaRemote.IdKindsDisjoint | Sources/MusicPlayer/macOS/MediaRemote.swift:61-69 | a numeric id never equals a descriptive id |
| MediaRemote.IdInjectiveOnUniqueIdentifiers | Sources/MusicPlayer/macOS/MediaRemote.swift:62-63 | two numeric ids are equal exactly when the unique identifiers are |
| MediaRemote.StartTime | Sources/MusicPlayer/macOS/MediaRemote.swift:71-83 | the reported start instant; otherwise the measuring instant (the timestamp, or now) minus the elapsed time; none exactly when neither is reported |
| MediaRemote.TrackOf | Sources/MusicPlayer/macOS/MediaRemote.swift:92-97 | no track exactly when there is no id; otherwise a track under that id with the title, album, artist and duration |
| SpotifyIOSPlayers.TrackOf | Sources/MusicPlayer/Players/SpotifyiOS.swift:163-170 | the URI is the track id, the name, album and artist are carried over, and the duration in milliseconds becomes seconds |
| SpotifyIOSPlayers.Position | Sources/MusicPlayer/Players/SpotifyiOS.swift:178-180 | the position in seconds is the milliseconds reported divided by 1000 |
| SpotifyIOSPlayers.StartTime | Sources/MusicPlayer/Players/SpotifyiOS.swift:182-184 | the start instant lies `position` seconds before now |
| SpotifyIOSPlayers.RemoteState | Sources/MusicPlayer/Players/SpotifyiOS.swift:174-176 | paused at the position when paused, otherwise playing from the start instant; either way the state reads the position now |
| SpotifyIOSPlayers.SpotifyIOS.constructor | Sources/MusicPlayer/Players/SpotifyiOS.swift:22-36 | the player is named Spotify, has no track, is stopped, and records whether the remote is connected |
| SpotifyIOSPlayers.SpotifyIOS.PlayerStateDidChange | Sources/MusicPlayer/Players/SpotifyiOS.swift:105-114 | a new URI replaces track and state, emitting both; the same URI replaces only a state not within 1 second, emitting only then |
| SpotifyIOSPlayers.SpotifyIOS.SetPlaybackTime | Sources/MusicPlayer/Players/SpotifyiOS.swift:128-133 | without a connection nothing changes and nothing is sent; with one the state moves to the new time and a seek to its whole milliseconds is sent |
| AppleMusicIOSPlayers.SystemState | Sources/MusicPlayer/Players/iOS/AppleMusic.swift:177-187 | stopped for stopped and unknown states; playing, paused (also when interrupted), fast-forwarding or rewinding otherwise, each at the current playback time |
| AppleMusicIOSPlayers.MusicTrack | Sources/MusicPlayer/Players/iOS/AppleMusic.swift:159-172 | no track without authorization; otherwise the item's id string, title, album, artist and duration |
| AppleMusicIOSPlayers.ItemTrack | Sources/MusicPlayer/Players/iOS/AppleMusic.swift:119-120 | no item gives no track, and when authorized the track's id is the item's id string |
| AppleMusicIOSPlayers.PlayPauseRequest | Sources/MusicPlayer/Players/iOS/AppleMusic.swift:96-103 | `playPause` pauses exactly a playing player and plays any other |
| AppleMusicIOSPlayers.AppleMusic.constructor | Sources/MusicPlayer/Players/iOS/AppleMusic.swift:18-31 | the player is named Apple Music and reads the system player once: nothing without authorization, otherwise the item's track and the system state |
| AppleMusicIOSPlayers.AppleMusic.UpdatePlayerState | Sources/MusicPlayer/Players/iOS/AppleMusic.swift:115-125 | without authorization nothing changes; otherwise a different id replaces track and state, emitting both, and the same id replaces only a state not approximately equal, emitting only then |
| AppleMusicIOSPlayers.AppleMusic.Resume | Sources/MusicPlayer/Players/iOS/AppleMusic.swift:86-89 | when authorized the system player is asked to play, otherwise nothing is asked |
| AppleMusicIOSPlayers.AppleMusic.Pause | Sources/MusicPlayer/Players/iOS/AppleMusic.swift:91-94 | when authorized the system player is asked to pause, otherwise nothing is asked |
| AppleMusicIOSPlayers.AppleMusic.PlayPause | Sources/MusicPlayer/Players/iOS/AppleMusic.swift:96-103 | when authorized the system player is asked to pause if playing and to play otherwise |
| AppleMusicIOSPlayers.AppleMusic.SkipToNextItem | Sources/MusicPlayer/Players/iOS/AppleMusic.swift:105-108 | when authorized the system player is asked to skip forward, otherwise nothing is asked |
| AppleMusicIOSPlayers.AppleMusic.SkipToPreviousItem | Sources/MusicPlayer/Players/iOS/AppleMusic.swift:110-113 | when authorized the system player is asked to skip back, otherwise nothing is asked |
| AppleMusicIOSPlayers.AppleMusic.SetPlaybackTime | Sources/MusicPlayer/Players/iOS/AppleMusic.swift:71-75 | when authorized the system player is asked to seek and the state moves to the new time; otherwise nothing changes |
| VirtualPlayers.Resumed | Sources/MusicPlayer/Players/Virtual.swift:55-59 | `resume` turns a paused state into playing from the paused position and leaves every other state alone |
| VirtualPlayers.PausedAt | Sources/MusicPlayer/Players/Virtual.swift:61-65 | `pause` freezes a moving state at its current position and leaves every other state alone |
| VirtualPlayers.ResumeThenPause | Sources/MusicPlayer/Players/Virtual.swift:55-65 | resuming and then pausing at the same instant restores the paused state |
| VirtualPlayers.PauseThenResume | Sources/MusicPlayer/Players/Virtual.swift:55-65 | pausing and then resuming at the same instant gives back the playing state unchanged |
| VirtualPlayers.CommandsKeepPosition | Sources/MusicPlayer/Players/Virtual.swift:55-65 | neither command moves the position at the instant it is given |
| VirtualPlayers.Virtual.constructor | Sources/MusicPlayer/Players/Virtual.swift:20-44 | the player has no name and holds the given track and state |
| VirtualPlayers.Virtual.Default | Sources/MusicPlayer/Players/Virtual.swift:20-23 | with the default arguments the player has no track and is stopped |
| VirtualPlayers.Virtual.Resume | Sources/MusicPlayer/Players/Virtual.swift:55-59 | the state becomes the resumed state, emitting once exactly when it was paused |
| VirtualPlayers.Virtual.Pause | Sources/MusicPlayer/Players/Virtual.swift:61-65 | the state becomes the paused state, emitting once exactly when it was moving |
| VirtualPlayers.Virtual.Stop | Sources/MusicPlayer/Players/Virtual.swift:25-28 | the track is cleared and the state stopped, in that order |
| VirtualPlayers.Virtual.SkipToNextItem | Sources/MusicPlayer/Players/Virtual.swift:67-69 | skipping forward stops the player and clears its track |
| VirtualPlayers.Virtual.SkipToPreviousItem | Sources/MusicPlayer/Players/Virtual.swift:71-73 | skipping back stops the player and clears its track |
| VirtualPlayers.Virtual.SetPlaybackTime | Sources/MusicPlayer/Players/Virtual.swift:46-53 | the state moves to the new time, keeping its case |
| VirtualPlayers.Virtual.UpdatePlayerState | Sources/MusicPlayer/Players/Virtual.swift:75 | refreshing changes nothing |
| Legacy.IsPlaying | Sources/MusicPlayer.swift:115-125 | playing, fast-forwarding and rewinding count as playing; paused and stopped do not |
| Legacy.IsPlayingAgrees | Sources/MusicPlayer.swift:115-125 | the first generation and the current one agree on which states are playing |
| Legacy.NamesDistinct | Sources/MusicPlayer.swift:45-59 | two names have the same raw value, or the same bundle identifier, only when they are the same name |
| Legacy.AllListsEachOnce | Sources/MusicPlayer.swift:70 | `all` holds every player name, with no name twice |
| Legacy.PlayerPosition | Sources/iTunes.swift:123-128 | a player that is not playing reports its pause position, 0 without one; an active playing player reports the time since playback started; an inactive player whose getter checks activity reports 0 |
| Legacy.StartFrom | Sources/iTunes.swift:178-183 | there is a start instant exactly when the application reports a position, and the time since it equals that position |
| Legacy.NotifiedState | Sources/iTunes.swift:59-64 | "Playing" gives playing, "Paused" gives paused, and any other value, or none, gives stopped |
| Legacy.WithLocation | Sources/iTunes.swift:68-71 | the notified location replaces the track's URL when there is both a track and a location; the id never changes |
| Legacy.Seek | Sources/iTunes.swift:129-134 | after the setter the position since the start instant is the value set, and nothing else changes |
| Legacy.Drift | Sources/iTunes.swift:88-106 | while playing, a start instant further than one second from the application's is replaced and reported; otherwise a pause position further than one second from the application's is replaced, seeked to and reported; track and state never change, and at most one report, carrying the new position, is made |
| Legacy.Drifted | Sources/iTunes.swift:91-100 | a drift needs both a stored and a current value, and they differ |
| Legacy.DriftReportsApplicationPosition | Sources/iTunes.swift:88-106 | a drift report carries the application's own position |
| Legacy.DriftSettles | Sources/iTunes.swift:88-106 | repeating the drift check on the same readings changes nothing and reports nothing |
| Legacy.StateChange | Sources/iTunes.swift:78-84 | a state change stores the new state and start instant, and the given pause position when one is given |
| Legacy.StateChangeFromGetterKeepsOldPause | Sources/iTunes.swift:78-84 | reading the pause position from the getter after a change to a non-playing state keeps the previous pause position instead of the position playback stopped at |
| Legacy.Exclusive | Sources/iTunes.swift:54-86 | a new track replaces track, state and start instant and reports the track; else a new state is stored and reported; else the drift check runs |
| Legacy.ExclusiveAtMostOneCallback | Sources/iTunes.swift:54-86 | a notification makes at most one callback, and a track callback happens exactly when the track changed, a state callback exactly when only the state changed |
| Legacy.Tracker.constructor | Sources/iTunes.swift:36-48 | a running application's track, state and start instant are read; otherwise the player starts stopped and empty; no callback is made |
| Legacy.Tracker.SetPosition | Sources/iTunes.swift:129-134 | when the application is running the start instant moves so that playback is at the value set; otherwise nothing changes |
| Legacy.Tracker.UpdatePosition | Sources/iTunes.swift:88-106 | when running, the fields and callbacks are those of the drift check; otherwise nothing changes |
| Legacy.Tracker.ChangeTrack | Sources/iTunes.swift:67-77 | track, state and start instant are replaced and the track is reported |
| Legacy.Tracker.ReplaceTrack | Sources/Mac/Audirvana.swift:73-83 | track and start instant are replaced, the state is kept, and the track is reported |
| Legacy.Tracker.ChangeState | Sources/iTunes.swift:78-84 | the fields become those of the state change and the state is reported |
| Legacy.Tracker.Notify | Sources/iTunes.swift:54-86 | when running, the fields and callbacks are those of the exclusive handler; otherwise nothing changes |
| LegacyITunes.CurrentTrackOf | Sources/iTunes.swift:163-176 | there is a track exactly when the application has a song or music video that is not a stream; its id is the persistent id, empty without one, and it has no URL |
| LegacyITunes.StateOf | Sources/iTunes.swift:185-193 | no state reads as stopped, rewinding reads as playing, and the result is never rewinding |
| LegacyITunes.Launch | Sources/iTunes.swift:36-48 | a running application's track, state and start instant are read once; otherwise the player starts stopped and empty |
| LegacyITunes.PlayerInfoNotification | Sources/iTunes.swift:54-86 | when running, a persistent id other than the tail of the current id installs the application's track with the notified location; else a changed state is stored with the pause position from the getter; else the drift check runs |
| LegacyITunes.UpdatePlayerState | Sources/iTunes.swift:137-139 | when running, the drift check against the application's position; otherwise nothing |
| LegacyITunes.CurrentLyrics | Sources/iTunes.swift:148-152 | no lyrics unless the application runs and has a current track, then that track's lyrics |
| LegacyMacITunes.StateOf | Sources/Mac/iTunes.swift:240-248 | no state reads as stopped, playing and rewinding read as playing, and the result is never rewinding |
| LegacyMacITunes.Launch | Sources/Mac/iTunes.swift:36-48 | a running application's track, state and start instant are read once; otherwise the player starts stopped and empty |
| LegacyMacITunes.PlayerInfoNotification | Sources/Mac/iTunes.swift:54-83 | when running, a persistent id other than the tail of the current id installs the application's track; else a changed state is stored; else the drift check runs |
| LegacyMacITunes.UpdatePlayerState | Sources/Mac/iTunes.swift:85-136 | when running, the drift check against the application's position; otherwise nothing |
| LegacyMacITunes.RepeatModeOf | Sources/Mac/iTunes.swift:165-168 | no repeat setting reads as off |
| LegacyMacITunes.SongRepeatOf | Sources/Mac/iTunes.swift:261-267 | the repeat setting written reads back as the mode set |
| LegacyMacITunes.RepeatRoundTrip | Sources/Mac/iTunes.swift:251-267 | repeat settings and repeat modes convert into each other and back without loss |
| LegacyMacITunes.ShuffleModeOf | Sources/Mac/iTunes.swift:176-186 | the mode is off exactly when shuffling is not enabled or the application names no kind |
| LegacyMacITunes.ShuffleWriteOf | Sources/Mac/iTunes.swift:187-202 | shuffling is enabled exactly for a mode other than off, and a kind is written exactly then |
| LegacyMacITunes.ShuffleRoundTrip | Sources/Mac/iTunes.swift:175-202 | reading the shuffle mode back after setting it gives the mode set, whatever kind the application had before |
| LegacySpotify.StateOf | Sources/Spotify.swift:183-192 | playing and paused map to themselves, and every other state, or none, is stopped |
| LegacySpotify.Launch | Sources/Spotify.swift:45-57 | a running application's track, state and start instant are read once; otherwise the player starts stopped and empty |
| LegacySpotify.PlayerInfoNotification | Sources/Spotify.swift:59-78 | when launching automatically or running, the application's track replaces the stored one when its id differs from the stored track's id as read at that moment; else a changed state is stored with the pause position from the getter; else the drift check runs; otherwise nothing changes |
| LegacySpotify.UpdatePlayerState | Sources/Spotify.swift:80-98 | when launching automatically or running, the drift check against the application's position; otherwise nothing |
| LegacySpotify.PauseStoresApplicationPosition | Sources/Spotify.swift:70-76 | because this getter ignores pauses, a pause stores the application's position as the pause position |
| LegacySpotify.RepeatModeOf | Sources/Spotify.swift:111-115 | never repeat one; repeat all exactly when active and the application repeats |
| LegacySpotify.RepeatRoundTrip | Sources/Spotify.swift:111-121 | setting a repeat mode and reading it back gives off for off and repeat all for any other mode |
| LegacySpotify.ShuffleModeOf | Sources/Spotify.swift:123-127 | only off or groupings; groupings exactly when active and the application shuffles |
| LegacySpotify.ShuffleRoundTrip | Sources/Spotify.swift:123-133 | setting a shuffle mode and reading it back gives off for off and groupings for any other mode |
| LegacyMacSpotify.Launch | Sources/Mac/Spotify.swift:36-48 | a running application's track, state and start instant are read once; otherwise the player starts stopped and empty |
| LegacyMacSpotify.NotifiedTrack | Sources/Mac/Spotify.swift:66 | a notification without a track id installs no track, one with an id the application's track |
| LegacyMacSpotify.PlayerInfoNotification | Sources/Mac/Spotify.swift:54-81 | when running, a notified track id other than the stored one installs the notified track; else a changed state is stored with the notified position as pause position and start instant; else the drift check runs |
| LegacyMacSpotify.IdlessNotificationSettles | Sources/Mac/Spotify.swift:65-72 | after a notification without a track id clears the track, a second one without an id does not report a track change |
| LegacyMacSpotify.UpdatePlayerState | Sources/Mac/Spotify.swift:83-135 | when running, the drift check against the application's position; otherwise nothing |
| LegacyMacSpotify.RepeatModeOf | Sources/Mac/Spotify.swift:164-167 | never repeat one; repeat all exactly when the application repeats |
| LegacyMacSpotify.ShuffleModeOf | Sources/Mac/Spotify.swift:173-176 | only off or groupings; groupings exactly when the application shuffles |
| LegacyVox.StateOf | Sources/Vox.swift:73 | code 1 is playing and every other code, or none, is paused |
| LegacyVox.TrackOf | Sources/Vox.swift:190-201 | the application always yields a track: its unique id (empty without one), title, album, artist, total time and URL |
| LegacyVox.Launch | Sources/Vox.swift:38-50 | a running application's track, state and start instant are read once; otherwise the player starts stopped and empty |
| LegacyVox.TrackChangeNotification | Sources/Vox.swift:58-69 | when launching automatically or running, a unique id other than the stored track's installs the application's track; else the state poll runs |
| LegacyVox.UpdatePlayerState | Sources/Vox.swift:71-97 | when launching automatically or running, a changed state is stored with the pause position from the getter and reported; else the drift check runs; otherwise nothing changes |
| LegacyVox.MissingIdReportsEveryTime | Sources/Vox.swift:58-67 | while the application gives no unique id, every notification reports a track change again, since the stored empty id never equals a missing one |
| LegacyVox.PlaybackStateOf | Sources/Vox.swift:106-109 | an inactive player reads as stopped, an active one gives its stored state |
| LegacyVox.CurrentTrackOf | Sources/Vox.swift:145-148 | an inactive player has no track, an active one gives its stored track |
| LegacyVox.RepeatModeOf | Sources/Vox.swift:111-119 | off when inactive; otherwise code 1 is repeat one, code 2 repeat all, and anything else off |
| LegacyVox.RepeatCodeOf | Sources/Vox.swift:120-133 | the code written is 0, 1 or 2 |
| LegacyVox.RepeatRoundTrip | Sources/Vox.swift:111-133 | setting the repeat mode of an active player and reading it back gives the mode set |
| LegacyAudirvana.StateOf | Sources/Audirvana.swift:144-150 | playing and paused map to themselves, and a stopped state, or none, is stopped |
| LegacyAudirvana.Present | Sources/Audirvana.swift:125 | the present values keep their order: a leading present value comes first, and when every value is present all of them are kept |
| LegacyAudirvana.Join | Sources/Audirvana.swift:125 | a single part joins to itself |
| LegacyAudirvana.JoinStartsWithFirst | Sources/Audirvana.swift:125 | the joined text begins with the first part |
| LegacyAudirvana.TitleOf | Sources/Audirvana.swift:130 | the track title is present exactly when the application answers with a title |
| LegacyAudirvana.DurationPart | Sources/Audirvana.swift:125 | the duration contributes to the id exactly when the application reports one, as its integer's decimal text |
| LegacyAudirvana.TrackId | Sources/Audirvana.swift:123-126 | there is an id exactly when the application answers the title query, even with no title |
| LegacyAudirvana.TrackIdStartsWithTitle | Sources/Audirvana.swift:123-126 | the id begins with the title, when there is one |
| LegacyAudirvana.TrackIdWithAllFields | Sources/Audirvana.swift:123-126 | with every field present, the id is title, album, artist and duration in decimal, separated by colons |
| LegacyAudirvana.TrackIdConfusesAlbumAndArtist | Sources/Audirvana.swift:123-126 | because missing fields are skipped, a track with only an album and one with only an artist of the same name get the same id |
| LegacyAudirvana.AnsweredAbsentTitleStillTracks | Sources/Audirvana.swift:123-135 | an application that answers with no title still has a track, whose id joins album, artist and duration and which has no title |
| LegacyAudirvana.CurrentTrackOf | Sources/Audirvana.swift:127-135 | the track's id is the application's id, so there is a track exactly when the title query is answered; it carries the title if any, album, artist and the duration as seconds, and no URL |
| LegacyAudirvana.Launch | Sources/Audirvana.swift:15-29 | a running application's track, state and start instant are read once; otherwise the player starts stopped and empty |
| LegacyAudirvana.PlayerInfoNotification | Sources/Audirvana.swift:35-63 | when running, an id other than the stored track's installs the application's track with the notified URL; else a changed state is stored with the pause position from the getter; else the drift check runs |
| LegacyAudirvana.UpdatePlayerState | Sources/Audirvana.swift:65-83 | when running, the drift check against the application's position; otherwise nothing |
| LegacyMacAudirvana.Launch | Sources/Mac/Audirvana.swift:36-48 | a running application's track, state and start instant are read once; otherwise the player starts stopped and empty |
| LegacyMacAudirvana.Sequential | Sources/Mac/Audirvana.swift:73-91 | the state ends as the notified one, the track is replaced exactly when it changed, at most three callbacks are made, and the first is a track report exactly when the track changed |
| LegacyMacAudirvana.SequentialAgreesWithExclusive | Sources/Mac/Audirvana.swift:73-91 | without a track change, the sequential handler is the exclusive one, followed by a drift check when the state changed |
| LegacyMacAudirvana.NewTrackInNewStateReportsBoth | Sources/Mac/Audirvana.swift:73-91 | a new track in a new state is reported as a track change followed by a state change |
| LegacyMacAudirvana.PlayerInfoNotification | Sources/Mac/Audirvana.swift:64-92 | when running, the fields and callbacks are those of the sequential handler on the application's track, with the notified URL, and the notified state; otherwise nothing changes |
| LegacyMacAudirvana.UpdatePlayerState | Sources/Mac/Audirvana.swift:94-112 | when running, the drift check against the application's position; otherwise nothing |
| LegacyAppleMusicIOS.StateOf | Sources/iOS/AppleMusic.swift:157-166 | paused and interrupted are paused, playing is playing, seeking forward is fast-forwarding, seeking backward is rewinding, and each of these holds in both directions |
| LegacyAppleMusicIOS.TrackStep | Sources/iOS/AppleMusic.swift:109-115 | a now-playing item whose id differs from the stored track's installs the system track and reports it; otherwise nothing changes |
| LegacyAppleMusicIOS.StateStep | Sources/iOS/AppleMusic.swift:117-123 | the stored state becomes the system player's, and it is reported exactly when it differed |
| LegacyAppleMusicIOS.PositionStep | Sources/iOS/AppleMusic.swift:125-143 | the drift check against the system player's playback time and the start instant it implies |
| LegacyAppleMusicIOS.Refresh | Sources/iOS/AppleMusic.swift:102-107 | after a full refresh the stored state is the system player's, and once authorized the stored track has the now-playing item's id |
| LegacyAppleMusicIOS.RefreshSettles | Sources/iOS/AppleMusic.swift:102-143 | a second refresh on the same readings changes nothing and reports nothing |
| LegacyAppleMusicIOS.AppleMusic.constructor | Sources/iOS/AppleMusic.swift:33-75 | the player starts stopped, without track, start instant or pause position, with the authorization status read at start |
| LegacyAppleMusicIOS.AppleMusic.Apply | Sources/iOS/AppleMusic.swift:109-143 | the stored fields become the step's and its callbacks are appended to the log |
| LegacyAppleMusicIOS.AppleMusic.CheckAuthorization | Sources/iOS/AppleMusic.swift:83-93 | the status is stored and returned; a change to authorized runs a full refresh, and anything else changes nothing else |
| LegacyAppleMusicIOS.AppleMusic.UpdatePlayerState | Sources/iOS/AppleMusic.swift:97-100 | after the authorization check, an authorized player runs the position step; an unauthorized one changes nothing |
| LegacyAppleMusicIOS.AppleMusic.UpdateFullPlayerState | Sources/iOS/AppleMusic.swift:102-107 | after the authorization check, an authorized player runs a full refresh; an unauthorized one changes nothing |
| LegacyAppleMusicIOS.AppleMusic.PlaybackStateDidChange | Sources/iOS/AppleMusic.swift:60-63 | after the authorization check, an authorized player runs the state step and then the position step; an unauthorized one changes nothing |
| LegacyAppleMusicIOS.AppleMusic.SetPlayerPosition | Sources/iOS/AppleMusic.swift:45-49 | without authorization nothing is written; otherwise the system player is told the new time and the start instant moves so that playback is there now |
| LegacySpotifyIOS.RemoteStateOf | Sources/iOS/SpotifyiOS.swift:197-199 | a paused remote state is paused and any other is playing |
| LegacySpotifyIOS.PlaybackStateOf | Sources/iOS/SpotifyiOS.swift:109-111 | stopped before any remote state arrives, else the stored remote state's |
| LegacySpotifyIOS.CurrentTrackOf | Sources/iOS/SpotifyiOS.swift:105-107 | a track exactly when a remote state is stored, identified by the remote track's URI |
| LegacySpotifyIOS.PositionOf | Sources/iOS/SpotifyiOS.swift:113-118 | the pause position (0 without one) unless playing, else the time since the start instant |
| LegacySpotifyIOS.StepAsWritten | Sources/iOS/SpotifyiOS.swift:62-89 | the new remote state is always stored; a new URI reports the track; a toggled pause stores a new start instant when the stored state is playing and a new pause position otherwise; at most one callback is made |
| LegacySpotifyIOS.StepAsWrittenLosesPausePosition | Sources/iOS/SpotifyiOS.swift:65-84 | pausing a track playing since instant 70 at 30 seconds leaves the player reporting 0 at instant 100, and resuming a track paused at 30 seconds leaves it reporting 60 |
| LegacySpotifyIOS.Step | Sources/iOS/SpotifyiOS.swift:62-89 | as written, except that a resume stores the start instant and a pause stores the pause position; every position report carries the remote position |
| LegacySpotifyIOS.StepToggleKeepsPosition | Sources/iOS/SpotifyiOS.swift:65-84 | after a corrected toggle the player reports exactly the remote position |
| LegacySpotifyIOS.StepAgreesAsWrittenOffToggle | Sources/iOS/SpotifyiOS.swift:62-89 | wherever the pause does not toggle, the corrected step is the step as written |
| LegacySpotifyIOS.PlayPauseRequest | Sources/iOS/SpotifyiOS.swift:143-149 | a pause is asked for exactly when a remote state is stored and it is not paused, a resume otherwise |
| LegacySpotifyIOS.RepeatOptionOf | Sources/iOS/SpotifyiOS.swift:220-226 | the option sent reads back as the mode set |
| LegacySpotifyIOS.RepeatModeOf | Sources/iOS/SpotifyiOS.swift:210-218 | off and context read as off and all, in both directions, so track reads as one |
| LegacySpotifyIOS.RepeatRoundTrip | Sources/iOS/SpotifyiOS.swift:210-226 | repeat options and repeat modes convert into each other and back without loss |
| LegacySpotifyIOS.ShuffleOf | Sources/iOS/SpotifyiOS.swift:177-180 | shuffling is asked for exactly when the mode is not off |
| LegacySpotifyIOS.SpotifyIOS.constructor | Sources/iOS/SpotifyiOS.swift:28-44 | nothing is stored and nothing reported until the first remote state arrives |
| LegacySpotifyIOS.SpotifyIOS.PlayerStateDidChange | Sources/iOS/SpotifyiOS.swift:62-89 | the stored fields and callbacks are those of the step as written, whose toggle branch tests the stored state; the connection is untouched |
| LegacySpotifyIOS.SpotifyIOS.SetPlayerPosition | Sources/iOS/SpotifyiOS.swift:119-124 | without a connection nothing; else the start instant moves so that playback is at the value set, and a seek to the truncated millisecond position is sent |

## Left out

- Timers, the throttle of the polling timer, dispatch queues and notification-center registration: a handler is modelled as the step it runs when it fires.
- Vendor commands (play, pause, next, previous, activate) and property writes (position, repeat, shuffle, lyrics) send nothing out. Where a write matters, the model returns the value that would be sent, or it states the update the library makes to its own fields.
- Reading the application: `SBObject.get()`, URL parsing and the bridge casts are assumed to succeed. Every reading is an input.
- Hex formatting of persistent ids is left out. Ids are inputs that are already formatted, and the model keeps the id arithmetic the code does on them (dropping the first 8 characters).
- Artwork and images.
- The Linux GLib main loop and the D-Bus transport: the position MPRIS reports is an input.
- MprisPlayers: the `playbackTime` getter asks the bus for the position on every call (Sources/MusicPlayer/Players/MPRIS.swift:134-137); the model's getter, `Players.PlayerCore.PlaybackTime`, reads the time of the stored state instead, which agrees with the bus only as of the last refresh, because the bus is not modelled.
- Media-library authorization on iOS and the Spotify app-remote connection: both are boolean inputs. The corresponding delegate callbacks are an event log.
- `reportAudirvanaTrackChange` and `setEventTypesReported` are vendor calls.
- Combine publishers and `objectWillChange` are modelled as the `posted` log of each player.
- The definition of `approximateEqual(to:tolerate:)` and of `withTime(_:)` is not among the modelled source files. `Playback.ApproximateEqual` is inferred from the way `setPlaybackState(_:tolerate:)` uses it. `Playback.WithTime` is the time setter.
- The default tolerance of `approximateEqual(to:tolerate:)` is not among the modelled files either. The protocol players use it without an argument, and the model assumes 1.5 seconds (`Playback.DefaultTolerance`), the controllers' constant.
- SpotifyIOSPlayers: the repeat and shuffle accessors are compiled out with `#if false`, so they are not modelled.
- AppleMusicIOSPlayers: the repeat and shuffle accessors are commented out, so they are not modelled.
- LegacySpotifyIOS: the repeat and shuffle getters always answer off (they are marked as to do), and the player's name is `.appleMusic` as written. Neither affects the state, so neither is modelled.
- LegacySpotifyIOS.StepAsWritten: the third branch compares the two states' start instants, which the code computes from the clock at slightly different moments. The model compares them at one `now`, that is, it compares the positions.
- LegacyVox: the shuffle mode is always off, and its setter does nothing, so it is not modelled.
- LegacyAppleMusicIOS.StateOf: the system's playback states beyond the six the code switches over are mapped to stopped.
- LegacySpotify.PlayerInfoNotification: the stored track wraps a live scripting reference. Its id is read again at the comparison, and that reading is an input (`storedId`). Its other fields (title, album, artist, duration) are also read live in the code, but the model stores them as a snapshot taken when the track was installed.
- Failing initialisers (`init?` returning nil when an application is not installed, MediaRemote is not loaded or its registration function is missing, or the MPRIS manager cannot be created) are not modelled. Every constructor models the successful initialisation.
- NowPlayingAggregate: the class overrides and assigns an inherited `designatedPlayer` (Sources/MusicPlayer/Players/NowPlaying.swift:15-18 and 37-45). The modelled base class, Sources/MusicPlayer/Players/Delegate.swift:15, declares only `currentPlayer`, so the model takes `designatedPlayer` to be `Delegates.Delegate.currentPlayer`.
- Numbers.Truncate: Swift's `Int(_:)` on a `Double` traps on NaN, on the infinities and on values outside `Int`'s range. Times are unbounded reals here, so the conversion is total and the trap is not modelled.
- NowPlayingPlayers.NowPlayingPlayer.Send: the source extension declares no `updatePlayerState`, although the protocol requires one. The model has that command reach nobody.
- The Objective-C and C bridges (`BridgeHeader`, `MediaRemotePrivate`, `LXMusicPlayer`) are foreign code and are not part of this model.

## Findings

| source | as written | input that shows it | evidently intended | confidence | as-written member | corrected member |
|---|---|---|---|---|---|---|
| Sources/MusicPlayer/Mac/Vox.swift:29-31 | the Vox controller's class name is `.spotify` | a preference for Vox with only Vox running selects nobody, and a preference for Spotify selects Vox | the name is `.vox` | not executed | MacVox.NameAsWritten, MacVox.NameAsWrittenMisleadsPreference, MacVox.Launch | MacVox.Name, MacVox.NameAsWrittenMisleadsPreference |
| Sources/MusicPlayer/NowPlayingPlayer.swift:92 | the running-player filter keeps players whose state `== .stopped` | `[Paused(42), Stopped]` selects the stopped player at index 1; `[Paused(42)]` selects nobody | `!= .stopped`, as in Sources/MusicPlayer/Players/NowPlaying.swift:41 | not executed | Selection.NowPlayingPlayerSelectAsWritten, Selection.NowPlayingPlayerSelectPassesOverPaused, NowPlayingPlayers.NowPlayingPlayer.SelectNewPlayer | Selection.NowPlayingSelect, Selection.NowPlayingSelectPrefersLivePlayers |
| Sources/MusicPlayer/MusicPlayerControllerManager.swift:60-69 | the second relay subscribes to the playback-state notification again | a track change of the selected player is never reposted, and a state change is reposted twice | the second relay listens for the current-track notification | not executed | ControllerManager.RelaySubscriptionsAsWritten, ControllerManager.RelayAsWrittenMisroutes, ControllerManager.MusicPlayerControllerManager.Receive | ControllerManager.RelaySubscriptions, ControllerManager.RelayRepostsOnce |
| Sources/iOS/SpotifyiOS.swift:66 | on a pause toggle, `playbackState.isPlaying` tests the stored old state | stored state playing since instant 70, then a paused state at 30000 ms at instant 100: the position reads 0, not 30; resuming from a pause at 30 s stored at instant 40 reads 60 | test the new state: a resume stores the start instant and a pause stores the pause position | not executed | LegacySpotifyIOS.StepAsWritten, LegacySpotifyIOS.StepAsWrittenLosesPausePosition, LegacySpotifyIOS.SpotifyIOS.PlayerStateDidChange | LegacySpotifyIOS.Step, LegacySpotifyIOS.StepToggleKeepsPosition |
