/**
 * `MusicPlayerName` and its correspondence with the names of the
 * scripting layer. The enumeration is compiled per platform (macOS:
 * iTunes, Spotify, Vox, Audirvana, Swinsian; iOS: Apple Music, Spotify);
 * the model holds the union so that either platform can be described, plus
 * the `mpris` name the MPRIS player uses.
 */
module PlayerNames {
  import opened Wrappers

  datatype MusicPlayerName =
    | NowPlaying
    | ITunes
    | Spotify
    | Vox
    | Audirvana
    | Swinsian
    | AppleMusic
    | Mpris

  /**
   * `LXScriptingMusicPlayer.Name`: an open string enumeration with five
   * known constants; `OtherLXName` is any other value of it.
   */
  datatype LXName =
    | LXAppleMusic
    | LXSpotify
    | LXVox
    | LXAudirvana
    | LXSwinsian
    | OtherLXName

  /** `MusicPlayerName.scriptingPlayerNames`. */
  const ScriptingPlayerNames: seq<MusicPlayerName> := [ITunes, Spotify, Vox, Audirvana, Swinsian]

  /** `lxName`: defined exactly for the scriptable players. */
  function LXNameOf(n: MusicPlayerName): (r: Option<LXName>)
    ensures r.Some? <==> n in ScriptingPlayerNames
    ensures r.Some? ==> r.value != OtherLXName
    ensures n == ITunes ==> r == Some(LXAppleMusic)
  {
    match n
    case ITunes => Some(LXAppleMusic)
    case Spotify => Some(LXSpotify)
    case Vox => Some(LXVox)
    case Audirvana => Some(LXAudirvana)
    case Swinsian => Some(LXSwinsian)
    case _ => None
  }

  /** `init?(lxName:)`: the known constants map back; any other name gives nil. */
  function FromLXName(l: LXName): (r: Option<MusicPlayerName>)
    ensures r.None? <==> l == OtherLXName
    ensures r.Some? ==> r.value in ScriptingPlayerNames
  {
    match l
    case LXAppleMusic => Some(ITunes)
    case LXSpotify => Some(Spotify)
    case LXVox => Some(Vox)
    case LXAudirvana => Some(Audirvana)
    case LXSwinsian => Some(Swinsian)
    case OtherLXName => None
  }

  /** The two mappings are inverse to each other on the scriptable names. */
  lemma LXNameRoundTrip(n: MusicPlayerName, l: LXName)
    ensures n in ScriptingPlayerNames ==> FromLXName(LXNameOf(n).value) == Some(n)
    ensures FromLXName(l) == Some(n) <==> LXNameOf(n) == Some(l)
  {
  }

  /** The scriptable names are five different names. */
  lemma ScriptingPlayerNamesDistinct()
    ensures |ScriptingPlayerNames| == 5
    ensures forall i, j :: 0 <= i < j < |ScriptingPlayerNames| ==> ScriptingPlayerNames[i] != ScriptingPlayerNames[j]
    ensures NowPlaying !in ScriptingPlayerNames && AppleMusic !in ScriptingPlayerNames && Mpris !in ScriptingPlayerNames
  {
  }
}
