/** The first-generation `Audirvana` player (`Sources/Audirvana.swift`). */
module LegacyAudirvana {
  import opened Wrappers
  import opened Decimal
  import opened Tracks
  import opened Legacy
  import MacAudirvana

  /** How this player's `playerPosition` getter is written. */
  const Rule: PositionRule := PauseAwareWhenRunning

  /**
   * What the handlers read of the application. The title property has type
   * `String??`: the outer level says whether the application answered, the
   * inner whether the answer is a title. The other optional strings are
   * read through `?? nil` and are stored flattened.
   */
  datatype App = App(
    playerState: Option<MacAudirvana.PlayerState>,
    playerPosition: Option<real>,
    playingTrackTitle: Option<Option<string>>,
    playingTrackAlbum: Option<string>,
    playingTrackArtist: Option<string>,
    playingTrackDuration: Option<int>)

  /** The title the track record gets: `playingTrackTitle ?? nil`. */
  function TitleOf(app: App): (r: Option<string>)
    ensures r.Some? <==> app.playingTrackTitle.Some? && app.playingTrackTitle.value.Some?
    ensures r.Some? ==> app.playingTrackTitle == Some(r)
  {
    if app.playingTrackTitle.None? then None else app.playingTrackTitle.value
  }

  /** `_playbackState`: stopped when the application reports no state. */
  function StateOf(s: Option<MacAudirvana.PlayerState>): (r: MusicPlaybackState)
    ensures r == Playing <==> s == Some(MacAudirvana.EPlaying)
    ensures r == Paused <==> s == Some(MacAudirvana.EPaused)
    ensures r == Stopped <==> s != Some(MacAudirvana.EPlaying) && s != Some(MacAudirvana.EPaused)
  {
    if s == Some(MacAudirvana.EPlaying) then Playing
    else if s == Some(MacAudirvana.EPaused) then Paused
    else Stopped
  }

  /** The values that are present, in order (`flatMap { $0 }` over optionals). */
  function Present(xs: seq<Option<string>>): (r: seq<string>)
    ensures |r| <= |xs|
    ensures |xs| > 0 && xs[0].Some? ==> |r| > 0 && r[0] == xs[0].value
    ensures (forall i | 0 <= i < |xs| :: xs[i].Some?) ==> |r| == |xs| && forall i | 0 <= i < |xs| :: r[i] == xs[i].value
  {
    if |xs| == 0 then []
    else if xs[0].Some? then [xs[0].value] + Present(xs[1..])
    else Present(xs[1..])
  }

  /** `joined(separator:)` */
  function Join(parts: seq<string>, sep: string): (r: string)
    ensures |parts| == 1 ==> r == parts[0]
  {
    if |parts| == 0 then []
    else if |parts| == 1 then parts[0]
    else parts[0] + sep + Join(parts[1..], sep)
  }

  /** The first part begins the joined text. */
  lemma {:induction false} JoinStartsWithFirst(parts: seq<string>, sep: string)
    requires |parts| > 0
    ensures parts[0] <= Join(parts, sep)
  {
    if |parts| > 1 {
      assert Join(parts, sep) == parts[0] + (sep + Join(parts[1..], sep));
    }
  }

  /** The duration text the id uses, when there is a duration. */
  function DurationPart(d: Option<int>): (r: Option<string>)
    ensures r.Some? <==> d.Some?
    ensures d.Some? ==> r.value == IntToDecimal(d.value)
  {
    if d.None? then None else Some(IntToDecimal(d.value))
  }

  /**
   * `_id`: the present ones of title, album, artist and duration text,
   * joined by colons. The guard unwraps only the outer level of the title,
   * so the id is none only when the application does not answer; an
   * answered absent title is skipped like any other missing field.
   */
  function TrackId(app: App): (r: Option<string>)
    ensures r.None? <==> app.playingTrackTitle.None?
  {
    match app.playingTrackTitle
    case None => None
    case Some(title) =>
      Some(Join(Present([title, app.playingTrackAlbum, app.playingTrackArtist, DurationPart(app.playingTrackDuration)]), ":"))
  }

  /** With a title, the id begins with it. */
  lemma TrackIdStartsWithTitle(app: App)
    requires TitleOf(app).Some?
    ensures TitleOf(app).value <= TrackId(app).value
  {
    var parts := Present([TitleOf(app), app.playingTrackAlbum, app.playingTrackArtist, DurationPart(app.playingTrackDuration)]);
    JoinStartsWithFirst(parts, ":");
  }

  /** With every field present, the id is title, album, artist and duration separated by colons. */
  lemma TrackIdWithAllFields(app: App)
    requires TitleOf(app).Some? && app.playingTrackAlbum.Some? && app.playingTrackArtist.Some?
    requires app.playingTrackDuration.Some?
    ensures TrackId(app).value == TitleOf(app).value + ":" + app.playingTrackAlbum.value + ":"
                                  + app.playingTrackArtist.value + ":" + IntToDecimal(app.playingTrackDuration.value)
  {
    var xs := [TitleOf(app), app.playingTrackAlbum, app.playingTrackArtist,
               Some(IntToDecimal(app.playingTrackDuration.value))];
    assert forall i | 0 <= i < |xs| :: xs[i].Some?;
    var t, al, ar, d := TitleOf(app).value, app.playingTrackAlbum.value, app.playingTrackArtist.value,
                        IntToDecimal(app.playingTrackDuration.value);
    var parts := Present(xs);
    assert parts == [t, al, ar, d];
    assert parts[1..] == [al, ar, d] && parts[1..][1..] == [ar, d] && parts[1..][1..][1..] == [d];
    assert Join([ar, d], ":") == ar + ":" + d;
    assert Join([al, ar, d], ":") == al + ":" + (ar + ":" + d);
    assert Join(parts, ":") == t + ":" + (al + ":" + (ar + ":" + d));
  }

  /**
   * Missing fields are skipped rather than left empty, so the id cannot
   * tell an album from an artist: a track with only an album and one with
   * only an artist of the same name share an id.
   */
  lemma TrackIdConfusesAlbumAndArtist(title: string, name: string, state: Option<MacAudirvana.PlayerState>,
                                      position: Option<real>)
    ensures var a := App(state, position, Some(Some(title)), Some(name), None, None);
      var b := App(state, position, Some(Some(title)), None, Some(name), None);
      a != b && TrackId(a) == TrackId(b) == Some(title + ":" + name)
  {
    var a := App(state, position, Some(Some(title)), Some(name), None, None);
    var b := App(state, position, Some(Some(title)), None, Some(name), None);
    var xa: seq<Option<string>> := [Some(title), Some(name), None, None];
    var xb: seq<Option<string>> := [Some(title), None, Some(name), None];
    assert xa[1..][1..][1..][1..] == [] && xb[1..][1..][1..][1..] == [];
    assert Present(xa[1..][1..]) == [] && Present(xb[1..][1..][1..]) == [];
    assert Present(xa) == [title, name];
    assert Present(xb[1..][1..]) == [name];
    assert Present(xb[1..]) == [name];
    assert Present(xb) == [title, name];
    assert Join([title, name], ":") == title + ":" + Join([name], ":");
  }

  /**
   * An application that answers the title query with no title still has a
   * current track: its id joins the remaining fields, and it has no title.
   */
  lemma AnsweredAbsentTitleStillTracks(state: Option<MacAudirvana.PlayerState>, position: Option<real>,
                                       album: string, artist: string, duration: int)
    ensures var app := App(state, position, Some(None), Some(album), Some(artist), Some(duration));
      TrackId(app) == Some(album + ":" + artist + ":" + IntToDecimal(duration))
      && CurrentTrackOf(app).Some? && CurrentTrackOf(app).value.title == None
  {
    var app := App(state, position, Some(None), Some(album), Some(artist), Some(duration));
    var d := IntToDecimal(duration);
    var xs: seq<Option<string>> := [None, Some(album), Some(artist), Some(d)];
    assert [app.playingTrackTitle.value, app.playingTrackAlbum, app.playingTrackArtist,
            DurationPart(app.playingTrackDuration)] == xs;
    assert xs[1..][1..][1..][1..] == [];
    assert Present(xs[1..][1..][1..]) == [d];
    assert Present(xs[1..][1..]) == [artist, d];
    assert Present(xs) == [album, artist, d];
    assert TrackId(app) == Some(Join([album, artist, d], ":"));
    assert [album, artist, d][1..] == [artist, d] && [artist, d][1..] == [d];
    assert Join([artist, d], ":") == artist + ":" + d;
    assert Join([album, artist, d], ":") == album + ":" + (artist + ":" + d);
    assert album + ":" + (artist + ":" + d) == album + ":" + artist + ":" + d;
  }

  /** `_currentTrack`: none without an id, otherwise the track under that id, without a URL. */
  function CurrentTrackOf(app: App): (r: Option<Track>)
    ensures IdOf(r) == TrackId(app)
    ensures r.Some? ==>
      r.value.title == TitleOf(app) && r.value.album == app.playingTrackAlbum
      && r.value.artist == app.playingTrackArtist && r.value.url == None
      && (r.value.duration.Some? <==> app.playingTrackDuration.Some?)
      && (r.value.duration.Some? ==> r.value.duration.value == app.playingTrackDuration.value as real)
  {
    match TrackId(app)
    case None => None
    case Some(id) =>
      Some(Track(id, TitleOf(app), app.playingTrackAlbum, app.playingTrackArtist,
                 if app.playingTrackDuration.None? then None else Some(app.playingTrackDuration.value as real), None))
  }

  /** `init?`: a running application is read once. */
  method Launch(isRunning: bool, app: App, now: real) returns (p: Tracker)
    ensures fresh(p) && p.events == []
    ensures isRunning ==>
      p.Snapshot() == Fields(CurrentTrackOf(app), StateOf(app.playerState), StartFrom(app.playerPosition, now), None)
    ensures !isRunning ==> p.Snapshot() == Fields(None, Stopped, None, None)
  {
    p := new Tracker(isRunning, CurrentTrackOf(app), StateOf(app.playerState), StartFrom(app.playerPosition, now));
  }

  /**
   * `playerInfoNotification`: when running, an id other than the stored
   * track's installs the application's track with the notified URL; else a
   * changed state is stored; else the drift check runs.
   */
  method PlayerInfoNotification(p: Tracker, isRunning: bool, playerStatus: Option<string>, location: Option<string>,
                                app: App, now: real)
    modifies p
    ensures !isRunning ==> p.Snapshot() == old(p.Snapshot()) && p.events == old(p.events)
    ensures isRunning ==>
      var o := Exclusive(Rule, old(p.Snapshot()), TrackId(app) != IdOf(old(p.track)),
                         WithLocation(CurrentTrackOf(app), location), NotifiedState(playerStatus),
                         StartFrom(app.playerPosition, now), FromGetter, StartFrom(app.playerPosition, now),
                         app.playerPosition, now);
      p.Snapshot() == o.fields && p.events == old(p.events) + o.events
  {
    p.Notify(Rule, isRunning, TrackId(app) != IdOf(p.track), WithLocation(CurrentTrackOf(app), location),
             NotifiedState(playerStatus), StartFrom(app.playerPosition, now), FromGetter,
             StartFrom(app.playerPosition, now), app.playerPosition, now);
  }

  /** `updatePlayerState`: the drift check, when running. */
  method UpdatePlayerState(p: Tracker, isRunning: bool, app: App, now: real)
    modifies p
    ensures !isRunning ==> p.Snapshot() == old(p.Snapshot()) && p.events == old(p.events)
    ensures isRunning ==>
      var o := Drift(Rule, old(p.Snapshot()), StartFrom(app.playerPosition, now), app.playerPosition, now);
      p.Snapshot() == o.fields && p.events == old(p.events) + o.events
  {
    p.UpdatePosition(Rule, isRunning, StartFrom(app.playerPosition, now), app.playerPosition, now);
  }
}
