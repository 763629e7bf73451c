/**
 * The change notifications of the library. Every assignment to an observed
 * property of a player, or to the selection of an aggregator, posts one of
 * these with the owner as sender; the model keeps them as a log per sender.
 */
module Notices {
  datatype Notice =
    | RunningStateDidChange
    | CurrentTrackDidChange
    | PlaybackStateDidChange
    | CurrentPlayerDidChange

  /** What assigning an aggregator's selected player posts, in order. */
  const SelectionChangeNotices: seq<Notice> := [CurrentPlayerDidChange, CurrentTrackDidChange, PlaybackStateDidChange]
}
