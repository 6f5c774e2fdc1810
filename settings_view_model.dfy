/** `SettingsViewModel.getSilenceTimeoutIndex` and the constants it reads from `SettingsDataStore`. */
module SettingsViewModel {
  import opened Wrappers

  /** Selectable silence timeouts, in seconds. */
  const SILENCE_TIMEOUT_OPTIONS: seq<int> := [5, 10, 30]
  /** Used when no value has been stored. */
  const DEFAULT_SILENCE_TIMEOUT: int := 10

  /** `List.indexOf`: the first index holding `v`, or -1. */
  function IndexOf(xs: seq<int>, v: int): (i: int)
    ensures -1 <= i < |xs|
    ensures i == -1 <==> v !in xs
    ensures 0 <= i ==> xs[i] == v && forall j :: 0 <= j < i ==> xs[j] != v
  {
    if xs == [] then -1
    else if xs[0] == v then 0
    else
      var k := IndexOf(xs[1..], v);
      if k == -1 then -1 else k + 1
  }

  /** `coerceAtLeast` */
  function CoerceAtLeast(x: int, minimum: int): (r: int)
    ensures r >= minimum && (x >= minimum ==> r == x)
  {
    if x < minimum then minimum else x
  }

  /**
   * `getSilenceTimeoutIndex`: the position of the stored timeout (or of the
   * default when none is stored) among the options, 0 when it is not one of them.
   */
  function GetSilenceTimeoutIndex(stored: Option<int>): (r: int)
    ensures 0 <= r < |SILENCE_TIMEOUT_OPTIONS|
    ensures stored.GetOr(DEFAULT_SILENCE_TIMEOUT) in SILENCE_TIMEOUT_OPTIONS ==>
              SILENCE_TIMEOUT_OPTIONS[r] == stored.GetOr(DEFAULT_SILENCE_TIMEOUT)
    ensures stored.GetOr(DEFAULT_SILENCE_TIMEOUT) !in SILENCE_TIMEOUT_OPTIONS ==> r == 0
  {
    CoerceAtLeast(IndexOf(SILENCE_TIMEOUT_OPTIONS, stored.GetOr(DEFAULT_SILENCE_TIMEOUT)), 0)
  }

  /** With nothing stored the default, 10 seconds, is selected: index 1. */
  lemma MissingValueSelectsDefault()
    ensures GetSilenceTimeoutIndex(None) == 1
  {
    assert SILENCE_TIMEOUT_OPTIONS[1] == DEFAULT_SILENCE_TIMEOUT;
  }
}
