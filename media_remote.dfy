/**
 * `MRNowPlayingInfo`: the typed reading of the MediaRemote now-playing
 * dictionary. Each field is the result of the typed lookup of its key
 * (`nil` when the key is missing or holds a value of another type);
 * artwork is not modelled.
 */
module MediaRemote {
  import opened Wrappers
  import opened Numbers
  import opened Decimal
  import opened Tracks

  datatype NowPlayingInfo = NowPlayingInfo(
    timestamp: Option<real>,
    elapsedTime: Option<real>,
    startTime: Option<real>,
    uniqueIdentifier: Option<int>,
    title: Option<string>,
    album: Option<string>,
    artist: Option<string>,
    duration: Option<real>)

  /** The identifier made from title, album and the whole seconds of the duration. */
  function DescriptiveId(title: string, album: Option<string>, duration: Option<real>): (r: string)
    ensures "NowPlaying-" + title + "-" <= r
    ensures duration.None? ==> r == "NowPlaying-" + title + "-" + album.GetOr("") + "-0"
  {
    "NowPlaying-" + title + "-" + album.GetOr("") + "-"
    + IntToDecimal(match duration case Some(d) => Truncate(d) case None => 0)
  }

  /**
   * `id`: the decimal text of the unique identifier; else, with a title,
   * the descriptive identifier; else none.
   */
  function Id(info: NowPlayingInfo): (r: Option<string>)
    ensures r.None? <==> info.uniqueIdentifier.None? && info.title.None?
    ensures info.uniqueIdentifier.Some? ==> r == Some(IntToDecimal(info.uniqueIdentifier.value))
    ensures info.uniqueIdentifier.None? && info.title.Some? ==>
      r == Some(DescriptiveId(info.title.value, info.album, info.duration))
  {
    match info.uniqueIdentifier
    case Some(u) => Some(IntToDecimal(u))
    case None =>
      match info.title
      case Some(t) => Some(DescriptiveId(t, info.album, info.duration))
      case None => None
  }

  /** An identifier from the unique identifier reads back as that number. */
  lemma IdRecoversUniqueIdentifier(info: NowPlayingInfo)
    requires info.uniqueIdentifier.Some?
    ensures var s := Id(info).value;
      |s| > 0
      && (s[0] == '-' ==> forall k :: 1 <= k < |s| ==> IsDigit(s[k]))
      && (s[0] != '-' ==> forall k :: 0 <= k < |s| ==> IsDigit(s[k]))
      && DecimalToInt(s) == info.uniqueIdentifier.value
  {
    IntToDecimalRoundTrip(info.uniqueIdentifier.value);
  }

  /** A numeric identifier and a descriptive identifier never coincide. */
  lemma IdKindsDisjoint(a: NowPlayingInfo, b: NowPlayingInfo)
    requires a.uniqueIdentifier.Some?
    requires b.uniqueIdentifier.None? && b.title.Some?
    ensures Id(a) != Id(b)
  {
    var s := IntToDecimal(a.uniqueIdentifier.value);
    var t := DescriptiveId(b.title.value, b.album, b.duration);
    if a.uniqueIdentifier.value >= 0 {
      assert IsDigit(s[0]);
    }
    assert t[0] == 'N';
  }

  /** Different unique identifiers give different identifiers. */
  lemma IdInjectiveOnUniqueIdentifiers(a: NowPlayingInfo, b: NowPlayingInfo)
    requires a.uniqueIdentifier.Some? && b.uniqueIdentifier.Some?
    ensures Id(a) == Id(b) <==> a.uniqueIdentifier == b.uniqueIdentifier
  {
    IntToDecimalInjective(a.uniqueIdentifier.value, b.uniqueIdentifier.value);
  }

  /**
   * `startTime`: the reported start instant; else the instant the elapsed
   * time was measured (the timestamp, or `now`) minus the elapsed time;
   * else none.
   */
  function StartTime(info: NowPlayingInfo, now: real): (r: Option<real>)
    ensures r.None? <==> info.startTime.None? && info.elapsedTime.None?
    ensures info.startTime.Some? ==> r == info.startTime
    ensures info.startTime.None? && info.elapsedTime.Some? ==>
      r.Some? && r.value + info.elapsedTime.value == info.timestamp.GetOr(now)
  {
    match info.startTime
    case Some(s) => Some(s)
    case None =>
      match info.elapsedTime
      case None => None
      case Some(e) =>
        match info.timestamp
        case Some(ts) => Some(ts - e)
        case None => Some(now - e)
  }

  /** `track`: none exactly when there is no identifier; else that identifier and the descriptive fields. */
  function TrackOf(info: NowPlayingInfo): (r: Option<Track>)
    ensures r.None? <==> Id(info).None?
    ensures r.Some? ==> r.value == Track(Id(info).value, info.title, info.album, info.artist, info.duration, None)
    ensures IdOf(r) == Id(info)
  {
    match Id(info)
    case None => None
    case Some(id) => Some(Track(id, info.title, info.album, info.artist, info.duration, None))
  }
}
