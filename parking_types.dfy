/** Entities shared by the forecasting pipeline: timestamps, feature rows,
    per-lot series and the bundles handed to the presentation layer. */
module ParkingTypes {

  /** Parking-lot identifier, the key of every per-lot dictionary. */
  type LotId = int

  /** A pandas timestamp, reduced to the calendar fields the pipeline reads.
      The day of the week is supplied with the date (0 = Monday .. 6 = Sunday);
      no calendar arithmetic is modelled. */
  datatype Timestamp = Timestamp(year: int, month: int, day: int, dayOfWeek: int, hour: int, minute: int)

  /** The feature columns of one sample, in the order the scaler and the
      regressor were fitted on. */
  datatype Features = Features(
    year: int, month: int, day: int, dayOfWeek: int, isWeekend: int, hour: int, minute: int,
    lag1: real, lag2: real, lag3: real, lag18: real, lag19: real, lag20: real)

  /** One row of a lot's data frame: its index, its features and its
      `Occupancy_Rate` column. */
  datatype Row = Row(time: Timestamp, features: Features, occupancy: real)

  /** One entry of a time-indexed series of percentages. */
  datatype Point = Point(time: Timestamp, value: real)

  /** The stored `train` and `test` frames of one lot. */
  datatype LotData = LotData(train: seq<Row>, test: seq<Row>)

  /** What is produced per lot: the two stored series and the forecast. */
  datatype Bundle = Bundle(train: seq<Point>, test: seq<Point>, forecast: seq<Point>)

  /** A fitted feature scaler (`transform`) and a fitted regressor (`predict`),
      both opaque. */
  type Scaler = Features -> seq<real>
  type Model = seq<real> -> real

  /** The three dictionaries loaded from the artifacts. */
  datatype Artifacts = Artifacts(
    data: map<LotId, LotData>,
    scalers: map<LotId, Scaler>,
    models: map<LotId, Model>)

  /** `keys` is `list(d.keys())` for the dictionary `d`: every key, and only keys. */
  predicate ListsKeys<V>(keys: seq<LotId>, d: map<LotId, V>) {
    (forall k :: k in keys ==> k in d) && (forall k :: k in d ==> k in keys)
  }

  /** 100%: the full scale of both occupancy and availability. */
  const Full: real := 100.0

  /** The lot whose test index is the shared forecast index. */
  const IndexLot: LotId := 1

  /** The `Occupancy_Rate` column of a frame, indexed by time. */
  function OccupancyColumn(rows: seq<Row>): (c: seq<Point>)
    ensures |c| == |rows|
    ensures forall i :: 0 <= i < |rows| ==> c[i] == Point(rows[i].time, rows[i].occupancy)
  {
    seq(|rows|, i requires 0 <= i < |rows| => Point(rows[i].time, rows[i].occupancy))
  }

  /** The index of a frame. */
  function Times(rows: seq<Row>): (ts: seq<Timestamp>)
    ensures |ts| == |rows|
    ensures forall i :: 0 <= i < |rows| ==> ts[i] == rows[i].time
  {
    seq(|rows|, i requires 0 <= i < |rows| => rows[i].time)
  }
}
