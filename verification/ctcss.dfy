/**
 * CTCSS tone selection (apps/demodulators/WBFM.py, lines 182-192): an
 * exact-value lookup in an externally supplied tone table, followed by the
 * `if (~index): index = 0` step.
 */
module Ctcss {
  import opened Wrappers

  /** list.index raises ValueError when the tone is absent. */
  datatype ToneError = ToneNotInTable

  /** list.index: the first position holding `tone`, or None where Python raises. */
  function IndexOf(table: seq<real>, tone: real): (r: Option<nat>)
    ensures r.None? <==> tone !in table
    ensures r.Some? ==> r.value < |table| && table[r.value] == tone
    ensures r.Some? ==> forall j | 0 <= j < r.value :: table[j] != tone
  {
    if |table| == 0 then None
    else if table[0] == tone then Some(0)
    else match IndexOf(table[1..], tone)
      case None => None
      case Some(i) => Some(i + 1)
  }

  /** Python's `~` on integers: -i - 1. */
  function BitNot(i: int): (r: int)
    ensures r == 0 <==> i == -1
    ensures i >= 0 ==> r < 0
  {
    -i - 1
  }

  /**
   * Lines 188-191: look the tone up; then, since `~index` is non-zero for
   * every index the lookup can return, reset the index to 0 and take the
   * table's first entry. Yields (ctcss_index, ctcss_tone).
   */
  function SelectTone(table: seq<real>, tone: real): (r: Result<(nat, real), ToneError>)
    ensures r.Failure? <==> tone !in table
    ensures r.Success? ==> r.value == (0, table[0])
  {
    match IndexOf(table, tone)
    case None => Failure(ToneNotInTable)
    case Some(i) =>
      var index := if BitNot(i) != 0 then 0 else i;
      Success((index, table[index]))
  }

  /** The stored tone is always a member of the table. */
  lemma SelectedToneInTable(table: seq<real>, tone: real)
    requires SelectTone(table, tone).Success?
    ensures SelectTone(table, tone).value.1 in table
    ensures SelectTone(table, tone).value.0 < |table|
  {
  }

  /** The requested tone is returned exactly when it is the table's first entry. */
  lemma SelectToneReturnsRequestIff(table: seq<real>, tone: real)
    requires tone in table
    ensures SelectTone(table, tone).value.1 == tone <==> table[0] == tone
  {
  }

  /** A present tone other than the first is answered with the first: 71.9 Hz requested, 67.0 Hz stored. */
  lemma SelectToneSubstitutesFirst()
    ensures SelectTone([67.0, 71.9], 71.9) == Success((0, 67.0))
    ensures IndexOf([67.0, 71.9], 71.9) == Some(1)
  {
    assert [67.0, 71.9][1..] == [71.9];
  }
}
