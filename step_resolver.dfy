/** Forecast step resolver: how many steps of the shared forecast index lie
    between the start of the horizon and the user's timestamp. */
module StepResolver {
  import opened Wrappers
  import opened ParkingTypes

  /** Zero-based position of the first entry of `index` equal to `t`
      (the `[0][0]` element of `np.where(index == t)`), if there is one. */
  function FirstMatch(index: seq<Timestamp>, t: Timestamp): (r: Option<nat>)
    ensures r.Some? ==> r.value < |index| && index[r.value] == t
    ensures r.Some? ==> forall j :: 0 <= j < r.value ==> index[j] != t
    ensures r.None? <==> t !in index
  {
    if |index| == 0 then None
    else if index[0] == t then Some(0)
    else
      assert index == [index[0]] + index[1..];
      match FirstMatch(index[1..], t)
      case None => None
      case Some(p) => Some(p + 1)
  }

  /** `get_forecast_steps`: the 1-based position of the user's timestamp in the
      forecast index. A missing match (or a forecast index that was never
      loaded) raises an IndexError, which is caught, so the result is None. */
  function ForecastSteps(index: Option<seq<Timestamp>>, t: Timestamp): (steps: Option<nat>)
    ensures steps.Some? ==> index.Some? && 1 <= steps.value <= |index.value|
    ensures steps.Some? ==> index.value[steps.value - 1] == t
    ensures steps.Some? ==> forall j :: 0 <= j < steps.value - 1 ==> index.value[j] != t
    ensures steps.None? <==> index.None? || t !in index.value
  {
    if index.None? then None
    else match FirstMatch(index.value, t)
      case None => None
      case Some(p) => Some(p + 1)
  }
}
