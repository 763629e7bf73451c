/** The `MusicTrack` record: an identifier plus optional descriptive fields. */
module Tracks {
  import opened Wrappers

  /** Artwork and the vendor's original object are not modelled; a URL is its text. */
  datatype Track = Track(
    id: string,
    title: Option<string>,
    album: Option<string>,
    artist: Option<string>,
    duration: Option<real>,
    url: Option<string>)

  /** `track?.id`: the identifier, with `nil` for no track. */
  function IdOf(t: Option<Track>): (r: Option<string>)
    ensures r.None? <==> t.None?
    ensures t.Some? ==> r == Some(t.value.id)
  {
    match t
    case None => None
    case Some(tr) => Some(tr.id)
  }

  /** `s.dropFirst(8)` */
  function DropFirst8(s: string): (r: string)
    ensures |s| >= 8 ==> r == s[8..]
    ensures |s| < 8 ==> r == []
  {
    if |s| < 8 then [] else s[8..]
  }

  /**
   * The part of a track's id that the Music application's notifications
   * carry: its persistent id without the first 8 characters.
   */
  function IdTail(t: Option<Track>): (r: Option<string>)
    ensures r.None? <==> t.None?
    ensures t.Some? ==> r == Some(DropFirst8(t.value.id))
  {
    if t.None? then None else Some(DropFirst8(t.value.id))
  }
}
