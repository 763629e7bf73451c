/** Repeat and shuffle modes of the current generation of the library. */
module PlayerModes {
  datatype RepeatMode = Off | One | All
  datatype ShuffleMode = ShuffleOff | ShuffleOn

  /** `ShuffleMode.isEnabled` */
  function IsEnabled(m: ShuffleMode): (r: bool)
    ensures r <==> m == ShuffleOn
  {
    match m
    case ShuffleOn => true
    case ShuffleOff => false
  }

  /** `RepeatMode.allCases`, in declaration order. */
  const AllRepeatModes: seq<RepeatMode> := [Off, One, All]

  /** `ShuffleMode.allCases`, in declaration order. */
  const AllShuffleModes: seq<ShuffleMode> := [ShuffleOff, ShuffleOn]

  /** The default `availableRepeatMode` of a player. */
  function DefaultAvailableRepeatMode(): (r: seq<RepeatMode>)
    ensures |r| == 3 && r[0] == Off && r[1] == One && r[2] == All
  {
    AllRepeatModes
  }

  /** The default `availableShuffleMode` of a player. */
  function DefaultAvailableShuffleMode(): (r: seq<ShuffleMode>)
    ensures |r| == 2 && r[0] != r[1]
  {
    AllShuffleModes
  }

  /** Whether every value of a sequence is different from the others. */
  predicate NoDuplicates<T(==)>(s: seq<T>)
  {
    forall i, j :: 0 <= i < j < |s| ==> s[i] != s[j]
  }

  /** `allCases` lists every mode, each exactly once. */
  lemma AllCasesExactlyOnce(m: RepeatMode, k: ShuffleMode)
    ensures m in AllRepeatModes && k in AllShuffleModes
    ensures NoDuplicates(AllRepeatModes) && NoDuplicates(AllShuffleModes)
  {
  }
}
