/**
 * The playback state of the current generation of the library: a tagged
 * value whose "playing" case carries the instant playback started, so that
 * the elapsed time is derived from the clock instead of being stored.
 * Instants and intervals are seconds on a common time line; `now` is the
 * clock reading, always passed in.
 */
module Playback {
  import opened Numbers

  datatype PlaybackState =
    | Stopped
    | Playing(start: real)
    | Paused(time: real)
    | FastForwarding(time: real)
    | Rewinding(time: real)

  /** `PlaybackState.playing(time:)`: playing, with `time` seconds elapsed at `now`. */
  function PlayingAt(time: real, now: real): (s: PlaybackState)
    ensures s.Playing? && now - s.start == time
  {
    Playing(now - time)
  }

  /** `isPlaying`: whether the position advances (or moves) on its own. */
  function IsPlaying(s: PlaybackState): (r: bool)
    ensures r <==> !(s.Stopped? || s.Paused?)
  {
    match s
    case Playing(_) => true
    case FastForwarding(_) => true
    case Rewinding(_) => true
    case Paused(_) => false
    case Stopped => false
  }

  /**
   * The getter of `time`: the playback position at `now`. Stopped is at 0,
   * a playing state is rebuilt by `playing(time:)` from its time, and every
   * other case reports the position it carries.
   */
  function Time(s: PlaybackState, now: real): (r: real)
    ensures s.Stopped? ==> r == 0.0
    ensures s.Playing? ==> PlayingAt(r, now) == s
    ensures !s.Stopped? && !s.Playing? ==> r == s.time
  {
    match s
    case Stopped => 0.0
    case Playing(start) => now - start
    case Paused(t) => t
    case FastForwarding(t) => t
    case Rewinding(t) => t
  }

  /**
   * The setter of `time` (also used as `withTime`): it keeps the case and
   * `isPlaying`, leaves stopped alone, and otherwise reads back the value set.
   */
  function WithTime(s: PlaybackState, t: real, now: real): (r: PlaybackState)
    ensures SameCase(r, s)
    ensures IsPlaying(r) == IsPlaying(s)
    ensures s.Stopped? ==> r == Stopped
    ensures !s.Stopped? ==> Time(r, now) == t
  {
    match s
    case Stopped => Stopped
    case Playing(_) => PlayingAt(t, now)
    case Paused(_) => Paused(t)
    case FastForwarding(_) => FastForwarding(t)
    case Rewinding(_) => Rewinding(t)
  }

  /** Both values are the same case of the enumeration. */
  predicate SameCase(a: PlaybackState, b: PlaybackState)
  {
    (a.Stopped? && b.Stopped?) || (a.Playing? && b.Playing?) || (a.Paused? && b.Paused?)
    || (a.FastForwarding? && b.FastForwarding?) || (a.Rewinding? && b.Rewinding?)
  }

  /**
   * `approximateEqual(to:tolerate:)`: the same case, and the carried
   * instants or positions differ by at most `tolerate` seconds.
   */
  predicate ApproximateEqual(a: PlaybackState, b: PlaybackState, tolerate: real): (r: bool)
    ensures r ==> SameCase(a, b)
    ensures a.Stopped? && b.Stopped? ==> r
  {
    match (a, b)
    case (Stopped, Stopped) => true
    case (Playing(s1), Playing(s2)) => Abs(s1 - s2) <= tolerate
    case (Paused(t1), Paused(t2)) => Abs(t1 - t2) <= tolerate
    case (FastForwarding(t1), FastForwarding(t2)) => Abs(t1 - t2) <= tolerate
    case (Rewinding(t1), Rewinding(t2)) => Abs(t1 - t2) <= tolerate
    case _ => false
  }

  /** The default tolerance of `approximateEqual(to:)`. */
  const DefaultTolerance: real := 1.5

  /** A playing state's position advances with the clock; every other state's is fixed. */
  lemma TimeAdvances(s: PlaybackState, now: real, d: real)
    ensures s.Playing? ==> Time(s, now + d) == Time(s, now) + d
    ensures !s.Playing? ==> Time(s, now + d) == Time(s, now)
  {
  }

  /** `playing(time: t)` reads back `t` at the instant it was made, and `t + d` after `d` seconds. */
  lemma PlayingAtRoundTrip(t: real, now: real, d: real)
    ensures Time(PlayingAt(t, now), now) == t
    ensures Time(PlayingAt(t, now), now + d) == t + d
    ensures IsPlaying(PlayingAt(t, now))
  {
  }

  /** Setting the time to the time it already has changes nothing; the last setting wins. */
  lemma WithTimeIdentities(s: PlaybackState, t1: real, t2: real, now: real)
    ensures WithTime(s, Time(s, now), now) == s
    ensures WithTime(WithTime(s, t1, now), t2, now) == WithTime(s, t2, now)
  {
  }

  /**
   * Two states of the same case other than stopped are approximately equal
   * exactly when their times, read at any one instant, are within the
   * tolerance.
   */
  lemma ApproximateEqualAtAnyInstant(a: PlaybackState, b: PlaybackState, tolerate: real, now: real)
    requires SameCase(a, b) && !a.Stopped?
    ensures ApproximateEqual(a, b, tolerate) <==> Abs(Time(a, now) - Time(b, now)) <= tolerate
  {
    if a.Playing? {
      assert Time(a, now) - Time(b, now) == b.start - a.start;
      assert Abs(a.start - b.start) == Abs(b.start - a.start);
    }
  }

  /** Approximate equality is reflexive (for a non-negative tolerance) and symmetric, and implies the same case. */
  lemma ApproximateEqualProperties(a: PlaybackState, b: PlaybackState, tolerate: real)
    ensures tolerate >= 0.0 ==> ApproximateEqual(a, a, tolerate)
    ensures ApproximateEqual(a, b, tolerate) == ApproximateEqual(b, a, tolerate)
    ensures ApproximateEqual(a, b, tolerate) ==> SameCase(a, b)
  {
  }
}
