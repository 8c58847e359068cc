/** The batch forecast over every parking lot: resolve the step count once,
    forecast each lot with its own scaler and regressor, keep the stored
    series, cut the forecast out of the extended series and convert the whole
    dictionary to availability. */
module BatchForecast {
  import opened Wrappers
  import opened ParkingTypes
  import opened StepResolver
  import opened LotForecaster
  import opened Availability

  /** The shared forecast index: the index of lot 1's test frame. A missing
      lot 1 raises a KeyError while loading, which is caught, so the index is
      never set. */
  function ForecastIndex(data: map<LotId, LotData>): (index: Option<seq<Timestamp>>)
    ensures index.Some? <==> IndexLot in data
    ensures index.Some? ==> index.value == Times(data[IndexLot].test)
  {
    if IndexLot in data then Some(Times(data[IndexLot].test)) else None
  }

  /** `iloc[-n:]` for 1 <= n: the last `n` points of a series. */
  function Tail(s: seq<Point>, n: nat): (t: seq<Point>)
    requires 1 <= n <= |s|
    ensures |t| == n
    ensures forall i :: 0 <= i < n ==> t[i] == s[|s| - n + i]
  {
    s[|s| - n..]
  }

  /** Lot `k` gets through the loop body: its scaler and regressor are in
      their dictionaries and its single-lot forecast is not None. */
  predicate LotSucceeds(art: Artifacts, k: LotId, steps: nat, index: seq<Timestamp>)
    requires k in art.data
    ensures steps >= 1 ==>
              (LotSucceeds(art, k, steps, index) <==>
                 k in art.scalers && k in art.models && |art.data[k].train| >= MaxLag && steps <= |index|)
  {
    && k in art.scalers
    && k in art.models
    && SingleLotForecast(steps, art.data[k].train, index, art.scalers[k], art.models[k]).Some?
  }

  /** The occupancy bundle stored for lot `k`: its stored columns and the
      last `steps` values of its extended series. */
  function LotBundle(art: Artifacts, k: LotId, steps: nat, index: seq<Timestamp>): (b: Bundle)
    requires k in art.data && steps >= 1 && LotSucceeds(art, k, steps, index)
    ensures b.train == OccupancyColumn(art.data[k].train)
    ensures b.test == OccupancyColumn(art.data[k].test)
    ensures |b.forecast| == steps
  {
    var extended := SingleLotForecast(steps, art.data[k].train, index, art.scalers[k], art.models[k]).value;
    Bundle(OccupancyColumn(art.data[k].train), OccupancyColumn(art.data[k].test),
           Tail(OccupancyColumn(extended), steps))
  }

  /** The occupancy dictionary the loop builds, or None when some lot makes
      the loop raise. With no step count every lot fails, so only an empty
      data dictionary yields a (empty) result. */
  function OccupancyForecast(art: Artifacts, user: Timestamp): (r: Option<map<LotId, Bundle>>)
    ensures r.Some? ==> r.value.Keys == art.data.Keys
  {
    var index := ForecastIndex(art.data);
    var steps := ForecastSteps(index, user);
    if steps.None? then
      if art.data == map[] then Some(map[]) else None
    else if forall k :: k in art.data ==> LotSucceeds(art, k, steps.value, index.value) then
      Some(map k | k in art.data :: LotBundle(art, k, steps.value, index.value))
    else
      None
  }

  /** What `forcast_all_parkLots` returns: the occupancy result converted to
      availability, lot by lot. */
  function AvailabilityForecast(art: Artifacts, user: Timestamp): (r: Option<map<LotId, Bundle>>)
    ensures r.Some? <==> OccupancyForecast(art, user).Some?
    ensures r.Some? ==> r.value.Keys == art.data.Keys
    ensures r.Some? ==> forall k :: k in r.value ==>
              r.value[k] == BundleAvailability(OccupancyForecast(art, user).value[k])
  {
    match OccupancyForecast(art, user)
    case None => None
    case Some(m) => Some(AvailabilityMap(m))
  }

  /** A lot that fails, or any lot at all when there is no step count, sends
      the whole batch to None. */
  lemma LotFailureFailsBatch(art: Artifacts, user: Timestamp, k: LotId)
    requires k in art.data
    requires var steps := ForecastSteps(ForecastIndex(art.data), user);
             steps.None? || !LotSucceeds(art, k, steps.value, ForecastIndex(art.data).value)
    ensures OccupancyForecast(art, user) == None
  {
  }

  /** When every lot succeeds, the dictionary holding each lot's bundle is the
      batch result. */
  lemma AllLotsSucceed(art: Artifacts, user: Timestamp, forecasts: map<LotId, Bundle>)
    requires ForecastSteps(ForecastIndex(art.data), user).Some?
    requires forall k :: k in forecasts <==> k in art.data
    requires var steps := ForecastSteps(ForecastIndex(art.data), user).value;
             var index := ForecastIndex(art.data).value;
             forall k :: k in forecasts ==>
               k in art.data && LotSucceeds(art, k, steps, index) && forecasts[k] == LotBundle(art, k, steps, index)
    ensures OccupancyForecast(art, user) == Some(forecasts)
  {
    var steps := ForecastSteps(ForecastIndex(art.data), user).value;
    var index := ForecastIndex(art.data).value;
    var expected := map k | k in art.data :: LotBundle(art, k, steps, index);
    assert forall k :: k in forecasts.Keys <==> k in expected.Keys;
    assert forecasts == expected;
  }

  /** `forcast_all_parkLots` on loaded artifacts, visiting the lots in the
      order `keys` lists the data dictionary's keys. */
  method ForecastAllParkLots(art: Artifacts, user: Timestamp, keys: seq<LotId>)
    returns (r: Option<map<LotId, Bundle>>)
    requires ListsKeys(keys, art.data)
    ensures r == AvailabilityForecast(art, user)
  {
    var index := ForecastIndex(art.data);
    var steps := ForecastSteps(index, user);
    var forecasts: map<LotId, Bundle> := map[];
    for n := 0 to |keys|
      invariant forall k :: k in forecasts <==> k in keys[..n]
      invariant steps.None? ==> n == 0
      invariant steps.Some? ==> forall k :: k in forecasts ==>
                  k in art.data && LotSucceeds(art, k, steps.value, index.value)
                  && forecasts[k] == LotBundle(art, k, steps.value, index.value)
    {
      var k := keys[n];
      var train := art.data[k].train;
      if k !in art.scalers || k !in art.models || steps.None? {
        LotFailureFailsBatch(art, user, k);
        return None;
      }
      var extended := ForecastSingleLot(steps.value, train, index.value, art.scalers[k], art.models[k]);
      if extended.None? {
        LotFailureFailsBatch(art, user, k);
        return None;
      }
      forecasts := forecasts[k := Bundle(OccupancyColumn(train), OccupancyColumn(art.data[k].test),
                                         Tail(OccupancyColumn(extended.value), steps.value))];
    }
    assert keys[..|keys|] == keys;
    if steps.Some? {
      AllLotsSucceed(art, user, forecasts);
    } else {
      assert forall k :: k !in art.data;
      assert art.data.Keys == {};
      assert art.data == map[];
      assert forall k :: k !in forecasts;
      assert forecasts.Keys == {};
      assert forecasts == map[];
    }
    var availability := OccupancyToAvailability(forecasts, keys);
    return Some(availability);
  }

  /** Every lot of a successful batch got through the loop body, under the
      step count resolved from the user's timestamp. */
  lemma BatchEntry(art: Artifacts, user: Timestamp, k: LotId)
    requires OccupancyForecast(art, user).Some? && k in art.data
    ensures ForecastSteps(ForecastIndex(art.data), user).Some?
    ensures var steps := ForecastSteps(ForecastIndex(art.data), user).value;
            var index := ForecastIndex(art.data).value;
            && LotSucceeds(art, k, steps, index)
            && OccupancyForecast(art, user).value[k] == LotBundle(art, k, steps, index)
  {
  }

  /** Forecast point `i` of a lot is synthesized row `i` of its extended
      series: stamped `index[i]`, its occupancy in [0, 100]. */
  lemma {:induction false} ForecastPoint(art: Artifacts, k: LotId, steps: nat, index: seq<Timestamp>, i: nat)
    requires k in art.data && steps >= 1 && LotSucceeds(art, k, steps, index)
    requires i < steps
    ensures var train := art.data[k].train;
            var ext := Extended(train, index, steps, art.scalers[k], art.models[k]);
            var p := LotBundle(art, k, steps, index).forecast[i];
            && p.time == index[i]
            && p.value == ext[|train| + i].occupancy
            && Floor <= p.value <= Full
  {
    var train := art.data[k].train;
    StampedFromIndex(train, index, steps, art.scalers[k], art.models[k], i);
    SynthesizedBounded(train, index, steps, art.scalers[k], art.models[k], |train| + i);
  }

  /** One lot's bundle: `train` and `test` are the stored occupancy columns,
      and `forecast` holds exactly `steps` points, stamped with the first
      `steps` entries of the forecast index, each the synthesized occupancy of
      the extended series and each in [0, 100]. */
  lemma LotBundleShape(art: Artifacts, k: LotId, steps: nat, index: seq<Timestamp>)
    requires k in art.data && steps >= 1 && LotSucceeds(art, k, steps, index)
    ensures var train := art.data[k].train;
            var b := LotBundle(art, k, steps, index);
            && |train| >= MaxLag && steps <= |index|
            && b.train == OccupancyColumn(train)
            && b.test == OccupancyColumn(art.data[k].test)
            && |b.forecast| == steps
            && forall i :: 0 <= i < steps ==>
                 && b.forecast[i].time == index[i]
                 && b.forecast[i].value
                    == Extended(train, index, steps, art.scalers[k], art.models[k])[|train| + i].occupancy
                 && Floor <= b.forecast[i].value <= Full
  {
    forall i | 0 <= i < steps {
      ForecastPoint(art, k, steps, index, i);
    }
  }

  /** For a non-empty data dictionary the batch produces a result exactly when
      lot 1 exists, the user's timestamp is in its test index, and every lot
      has a scaler, a regressor and at least 20 rows of history. The forecast
      index can never run out, since the step count is a position in it. */
  lemma BatchSucceedsIff(art: Artifacts, user: Timestamp)
    requires art.data != map[]
    ensures OccupancyForecast(art, user).Some? <==>
              && IndexLot in art.data
              && user in Times(art.data[IndexLot].test)
              && forall k :: k in art.data ==>
                   k in art.scalers && k in art.models && |art.data[k].train| >= MaxLag
  {
    var index := ForecastIndex(art.data);
    var steps := ForecastSteps(index, user);
    if steps.Some? {
      assert forall k :: k in art.data ==>
        (LotSucceeds(art, k, steps.value, index.value)
         <==> k in art.scalers && k in art.models && |art.data[k].train| >= MaxLag);
    }
  }

  /** The availability of a stored occupancy column: 100 - v at each row's time. */
  lemma ColumnAvailability(rows: seq<Row>)
    ensures |Complement(OccupancyColumn(rows))| == |rows|
    ensures forall i :: 0 <= i < |rows| ==>
              Complement(OccupancyColumn(rows))[i] == Point(rows[i].time, Full - rows[i].occupancy)
  {
  }

  /** In a successful batch, a lot's availability `train` and `test` are the
      complements of its stored occupancy columns. */
  lemma StoredEntry(art: Artifacts, user: Timestamp, k: LotId)
    requires AvailabilityForecast(art, user).Some? && k in art.data
    ensures var a := AvailabilityForecast(art, user).value;
            && a.Keys == art.data.Keys
            && a[k].train == Complement(OccupancyColumn(art.data[k].train))
            && a[k].test == Complement(OccupancyColumn(art.data[k].test))
  {
    var o := OccupancyForecast(art, user).value;
    assert AvailabilityForecast(art, user).value[k] == BundleAvailability(o[k]);
    BatchEntry(art, user, k);
  }

  /** Availability of the stored series: each stored occupancy v of `train`
      and `test` is reported as 100 - v at the same time. History is passed
      through, so these values may fall outside [0, 100]. */
  lemma StoredAvailability(art: Artifacts, user: Timestamp, k: LotId)
    requires AvailabilityForecast(art, user).Some? && k in art.data
    ensures var a := AvailabilityForecast(art, user).value;
            && a.Keys == art.data.Keys
            && |a[k].train| == |art.data[k].train|
            && |a[k].test| == |art.data[k].test|
            && (forall i :: 0 <= i < |a[k].train| ==>
                  a[k].train[i] == Point(art.data[k].train[i].time, Full - art.data[k].train[i].occupancy))
            && (forall i :: 0 <= i < |a[k].test| ==>
                  a[k].test[i] == Point(art.data[k].test[i].time, Full - art.data[k].test[i].occupancy))
  {
    StoredEntry(art, user, k);
    ColumnAvailability(art.data[k].train);
    ColumnAvailability(art.data[k].test);
  }

  /** Availability of the forecast: the complement, point by point, of the
      occupancy forecast, hence in [0, 100]. */
  lemma ForecastAvailability(art: Artifacts, user: Timestamp, k: LotId)
    requires AvailabilityForecast(art, user).Some? && k in art.data
    ensures var a := AvailabilityForecast(art, user).value;
            var o := OccupancyForecast(art, user).value;
            && |a[k].forecast| == |o[k].forecast|
            && forall i :: 0 <= i < |a[k].forecast| ==>
                 && a[k].forecast[i] == Point(o[k].forecast[i].time, Full - o[k].forecast[i].value)
                 && Floor <= a[k].forecast[i].value <= Full
  {
    var o := OccupancyForecast(art, user).value;
    var a := AvailabilityForecast(art, user).value;
    assert a[k].forecast == Complement(o[k].forecast);
    BatchEntry(art, user, k);
    var steps := ForecastSteps(ForecastIndex(art.data), user).value;
    var index := ForecastIndex(art.data).value;
    var f := LotBundle(art, k, steps, index).forecast;
    assert o[k].forecast == f;
    assert |f| == steps;
    forall i | 0 <= i < |f|
      ensures Floor <= f[i].value <= Full
    {
      ForecastPoint(art, k, steps, index, i);
    }
  }

  /** Under a regressor that never predicts below 100%, every forecast
      occupancy of the lot is capped at exactly 100. */
  lemma SaturatedForecastPoint(art: Artifacts, k: LotId, steps: nat, index: seq<Timestamp>, i: nat)
    requires k in art.data && steps >= 1 && LotSucceeds(art, k, steps, index)
    requires forall x :: art.models[k](x) >= Full
    requires i < steps
    ensures LotBundle(art, k, steps, index).forecast[i].value == Full
  {
    var train := art.data[k].train;
    ForecastPoint(art, k, steps, index, i);
    SynthesizedBounded(train, index, steps, art.scalers[k], art.models[k], |train| + i);
  }

  /** A regressor that never predicts below 100% fills the lot to the cap at
      every step, so the lot's forecast availability is 0 throughout. */
  lemma SaturatedModelLeavesNoAvailability(art: Artifacts, user: Timestamp, k: LotId)
    requires AvailabilityForecast(art, user).Some? && k in art.data && k in art.models
    requires forall x :: art.models[k](x) >= Full
    ensures forall i :: 0 <= i < |AvailabilityForecast(art, user).value[k].forecast| ==>
              AvailabilityForecast(art, user).value[k].forecast[i].value == 0.0
  {
    BatchEntry(art, user, k);
    ForecastAvailability(art, user, k);
    var steps := ForecastSteps(ForecastIndex(art.data), user).value;
    var index := ForecastIndex(art.data).value;
    var o := OccupancyForecast(art, user).value;
    assert o[k] == LotBundle(art, k, steps, index);
    forall i | 0 <= i < |o[k].forecast|
      ensures o[k].forecast[i].value == Full
    {
      LotBundleShape(art, k, steps, index);
      SaturatedForecastPoint(art, k, steps, index, i);
    }
  }

  /** Complementing the availability result once more gives back the occupancy
      dictionary, which is how the occupancy trend is re-derived for plotting. */
  lemma AvailabilityRecoversOccupancy(art: Artifacts, user: Timestamp)
    requires AvailabilityForecast(art, user).Some?
    ensures AvailabilityMap(AvailabilityForecast(art, user).value) == OccupancyForecast(art, user).value
  {
    AvailabilityInvolution(OccupancyForecast(art, user).value);
  }
}
