/**
 * The tolerant update of a playback state that `setPlaybackState` performs
 * and the adapters repeat: an incoming state replaces the stored one unless
 * both are the same case and their instants or positions are within the
 * tolerance.
 */
module Reconcile {
  import opened Numbers
  import opened Playback

  /**
   * The decision `setPlaybackState` takes: both stopped keeps the state;
   * the same case replaces it only when the start instants (playing) or the
   * positions (the other cases) differ by more than `tolerate`; different
   * cases always replace it.
   */
  function ShouldReplace(current: PlaybackState, incoming: PlaybackState, tolerate: real): (r: bool)
    ensures r <==> !ApproximateEqual(current, incoming, tolerate)
  {
    match (current, incoming)
    case (Stopped, Stopped) => false
    case (Playing(d1), Playing(d2)) => Abs(d1 - d2) > tolerate
    case (Paused(d1), Paused(d2)) => Abs(d1 - d2) > tolerate
    case (FastForwarding(d1), FastForwarding(d2)) => Abs(d1 - d2) > tolerate
    case (Rewinding(d1), Rewinding(d2)) => Abs(d1 - d2) > tolerate
    case _ => true
  }

  /** The playback state after `setPlaybackState(incoming, tolerate:)`. */
  function Reconciled(current: PlaybackState, incoming: PlaybackState, tolerate: real): (r: PlaybackState)
    ensures r == current || r == incoming
    ensures !SameCase(current, incoming) ==> r == incoming
    ensures current.Stopped? && incoming.Stopped? ==> r == current
  {
    if ShouldReplace(current, incoming, tolerate) then incoming else current
  }

  /** The tolerance rule case by case: a difference within the tolerance is ignored. */
  lemma ReconciledWithinTolerance(current: PlaybackState, incoming: PlaybackState, tolerate: real)
    ensures current.Playing? && incoming.Playing? ==>
      (ShouldReplace(current, incoming, tolerate) <==> Abs(current.start - incoming.start) > tolerate)
    ensures SameCase(current, incoming) && !current.Stopped? && !current.Playing? ==>
      (ShouldReplace(current, incoming, tolerate) <==> Abs(current.time - incoming.time) > tolerate)
    ensures !SameCase(current, incoming) ==> ShouldReplace(current, incoming, tolerate)
  {
  }

  /**
   * Calling `setPlaybackState(s, tolerate:)` twice leaves the state the single
   * call left; with a non-negative tolerance the second call posts nothing.
   */
  lemma ReconciledIdempotent(current: PlaybackState, incoming: PlaybackState, tolerate: real)
    ensures Reconciled(Reconciled(current, incoming, tolerate), incoming, tolerate) == Reconciled(current, incoming, tolerate)
    ensures tolerate >= 0.0 ==> !ShouldReplace(Reconciled(current, incoming, tolerate), incoming, tolerate)
  {
    ApproximateEqualProperties(incoming, incoming, tolerate);
  }
}
