/** The frequency getters of source/frequency_getters.py: the pitch a shifter aims for,
    given the pitch it detected. */
module FrequencyGetters {
  import opened Common
  import opened Services

  /** `frequency_selection[snap_nearest_index(value, frequency_selection)]`: the entry
      nearest `value`, the first of the nearest on ties. */
  function NearestEntry(value: real, selection: seq<real>): (r: real)
    requires |selection| > 0
    ensures r in selection
    ensures forall o :: o in selection ==> Abs(value - r) <= Abs(value - o)
    ensures exists k :: 0 <= k < |selection| && selection[k] == r &&
              forall j :: 0 <= j < k ==> Abs(value - selection[j]) > Abs(value - r)
  {
    var k := NearestIndex(value, selection);
    assert forall o :: o in selection ==> Abs(value - selection[k]) <= Abs(value - o);
    selection[k]
  }

  datatype FrequencyGetter =
    | FixedFrequencyGetter(targetFrequency: real)
    | NearestFrequencyGetter(frequencySelection: seq<real>)
  {
    /** `get_target_frequency(current_frequency)`: the fixed target whatever the input,
        or the table entry nearest the input; an empty table raises at `options[0]`.
        A zero input gets no special treatment. */
    function TargetFrequency(currentFrequency: real): (r: Result<real>)
      ensures FixedFrequencyGetter? ==> r == Ok(targetFrequency)
      ensures NearestFrequencyGetter? && frequencySelection == [] ==> r == Err(IndexOutOfRange)
      ensures NearestFrequencyGetter? && frequencySelection != [] ==> r == Ok(NearestEntry(currentFrequency, frequencySelection))
    {
      match this
      case FixedFrequencyGetter(target) => Ok(target)
      case NearestFrequencyGetter(selection) =>
        if selection == [] then Err(IndexOutOfRange) else Ok(NearestEntry(currentFrequency, selection))
    }
  }

  /** A pitch that is itself a table entry is its own target. */
  lemma NearestOfEntryIsItself(selection: seq<real>, v: real)
    requires v in selection
    ensures NearestFrequencyGetter(selection).TargetFrequency(v) == Ok(v)
  {
    var r := NearestEntry(v, selection);
    assert Abs(v - r) <= Abs(v - v);
  }
}
