/** The geometry lookup (Geometry_Scraper.py): locations are sent in batches of 500 as
    circles, the segments intersecting them are looked up, and each segment's coordinates are
    attached to its row of the table the service returns. */
module Geometry {
  import opened Wrappers
  import opened Batching

  const BatchSize: nat := 500

  /** A point as given by the caller, carried through unchanged. */
  datatype Location = Location(lat: real, lng: real)

  /** One `{"type": "circle", ...}` entry of the `include` list. */
  datatype Circle = Circle(radius: int, lat: real, lng: real, leafletID: nat)

  /** The body of an `intersecting_geometry` request: the circles of `include` and the uuid;
      every other field is a constant. */
  datatype SegmentsQuery = SegmentsQuery(circles: seq<Circle>, uuid: string)

  /** One record of `tmcs`: its `segID`, if it has one, its other columns, and the
      `coordinates` cell (absent or NaN when None). */
  datatype Row = Row(segID: Option<string>, fields: map<string, string>, coordinates: Option<string>)

  /** One GeoJSON feature: its `id` and, for each element of `geometry.coordinates`, the
      text `str()` gives for it. */
  datatype Feature = Feature(id: string, rings: seq<string>)

  /** The `xd_coordinates` answer: `tmcs` and `geojson.features`. */
  datatype GeometryData = GeometryData(tmcs: seq<Row>, features: seq<Feature>)

  /** The two endpoints; None is an HTTP error or a body without the key it needs. */
  datatype Remote = Remote(intersecting: SegmentsQuery -> Option<seq<string>>,
                           coordinates: seq<string> -> Option<GeometryData>)

  datatype Error =
    | HttpError                // raise_for_status, or a missing key in the answer
    | IndexError               // `coordinates[0]` of a feature without coordinates
    | KeyError(key: string)    // `df['segID']` on a table without that column
    | NothingToConcatenate     // `pd.concat([])`

  /** The `include` list of `get_segments`: one circle per location, in order. */
  function Circles(locations: seq<Location>, bufferSize: int): (cs: seq<Circle>)
    ensures |cs| == |locations|
    ensures forall i :: 0 <= i < |cs| ==> cs[i].leafletID == i && cs[i].radius == bufferSize
  {
    seq(|locations|, i requires 0 <= i < |locations| => Circle(bufferSize, locations[i].lat, locations[i].lng, i))
  }

  /** The centres of a list of circles. */
  function Centres(cs: seq<Circle>): seq<Location> {
    seq(|cs|, i requires 0 <= i < |cs| => Location(cs[i].lat, cs[i].lng))
  }

  /** `get_segments`, with the uuid the request is sent with: one request holding a circle per
      location; an HTTP failure is its only error. */
  function GetSegments(remote: Remote, locations: seq<Location>, bufferSize: int, uuid: string): (r: Result<seq<string>, Error>)
    ensures r.Err? ==> r == Err(HttpError)
    ensures r.Ok? ==> remote.intersecting(SegmentsQuery(Circles(locations, bufferSize), uuid)) == Some(r.value)
  {
    match remote.intersecting(SegmentsQuery(Circles(locations, bufferSize), uuid))
    case None => Err(HttpError)
    case Some(tmcList) => Ok(tmcList)
  }

  /** `get_geometry`: one request for the whole list; an HTTP failure is its only error. */
  function GetGeometry(remote: Remote, tmcList: seq<string>): (r: Result<GeometryData, Error>)
    ensures r.Err? ==> r == Err(HttpError)
    ensures r.Ok? ==> remote.coordinates(tmcList) == Some(r.value)
  {
    match remote.coordinates(tmcList)
    case None => Err(HttpError)
    case Some(data) => Ok(data)
  }

  /** Whether the table has a `segID` column: some record has that key. */
  predicate HasSegIds(rows: seq<Row>) {
    exists k :: 0 <= k < |rows| && rows[k].segID.Some?
  }

  /** `df.index[df['segID'] == seg_id].tolist()`: every row whose `segID` is `id`, ascending. */
  function Matches(rows: seq<Row>, id: string): (idx: seq<nat>)
    ensures forall j :: 0 <= j < |idx| ==> idx[j] < |rows| && rows[idx[j]].segID == Some(id)
    ensures forall k :: 0 <= k < |rows| && rows[k].segID == Some(id) ==> k in idx
    ensures forall a, b :: 0 <= a < b < |idx| ==> idx[a] < idx[b]
    decreases |rows|
  {
    if rows == [] then []
    else
      var rest := Matches(rows[..|rows| - 1], id);
      if rows[|rows| - 1].segID == Some(id) then rest + [|rows| - 1] else rest
  }

  /** One pass of the feature loop: the first row with the feature's id gets its coordinates. */
  function Attach(rows: seq<Row>, f: Feature): seq<Row>
    requires f.rings != []
  {
    var idx := Matches(rows, f.id);
    if idx == [] then rows else rows[idx[0] := rows[idx[0]].(coordinates := Some(f.rings[0]))]
  }

  /** The feature loop of `extract_data_to_dataframe`, over the table `rows`. */
  function ApplyFeatures(rows: seq<Row>, features: seq<Feature>): (r: Result<seq<Row>, Error>)
    ensures r.Ok? ==> |r.value| == |rows|
    ensures r.Err? ==> r == Err(IndexError) || r == Err(KeyError("segID"))
    decreases |features|
  {
    if features == [] then Ok(rows)
    else if features[0].rings == [] then Err(IndexError)
    else if !HasSegIds(rows) then Err(KeyError("segID"))
    else ApplyFeatures(Attach(rows, features[0]), features[1..])
  }

  /** `extract_data_to_dataframe`: the table comes back row for row, unchanged when there are
      no features. */
  function Extract(data: GeometryData): (r: Result<seq<Row>, Error>)
    ensures r.Ok? ==> |r.value| == |data.tmcs|
    ensures data.features == [] ==> r == Ok(data.tmcs)
    ensures r.Err? ==> r == Err(IndexError) || r == Err(KeyError("segID"))
  {
    ApplyFeatures(data.tmcs, data.features)
  }

  /** `locations[i:i+500]`. */
  function BatchAt(locations: seq<Location>, i: nat): seq<Location>
    requires i <= |locations|
  {
    locations[i .. if i + BatchSize <= |locations| then i + BatchSize else |locations|]
  }

  /** The body of `process_locations`' loop for one batch, with its request's uuid. */
  function ProcessBatch(remote: Remote, batch: seq<Location>, bufferSize: int, uuid: string): Result<seq<Row>, Error> {
    match GetSegments(remote, batch, bufferSize, uuid)
    case Err(e) => Err(e)
    case Ok(tmcList) =>
      match GetGeometry(remote, tmcList)
      case Err(e) => Err(e)
      case Ok(data) => Extract(data)
  }

  /** The loop of `process_locations` from index `i`, whose batch is the `k`-th: the batch
      tables in order, or the first error. `uuids(k)` is the uuid of the `k`-th batch. */
  function ProcessFrom(remote: Remote, locations: seq<Location>, bufferSize: int, uuids: nat -> string, i: nat, k: nat)
    : Result<seq<seq<Row>>, Error>
  {
    RunBatches(BatchRunner(remote, bufferSize, uuids), locations, i, k)
  }

  /** The work done for the `k`-th batch. */
  function BatchRunner(remote: Remote, bufferSize: int, uuids: nat -> string): (seq<Location>, nat) -> Result<seq<Row>, Error> {
    (batch: seq<Location>, k: nat) => ProcessBatch(remote, batch, bufferSize, uuids(k))
  }

  /** A batch loop from index `i`, whose batch is the `k`-th, running `run` on each batch. */
  function RunBatches(run: (seq<Location>, nat) -> Result<seq<Row>, Error>, locations: seq<Location>, i: nat, k: nat)
    : Result<seq<seq<Row>>, Error>
    decreases |locations| - i
  {
    if i >= |locations| then Ok([])
    else
      match run(BatchAt(locations, i), k)
      case Err(e) => Err(e)
      case Ok(table) =>
        match RunBatches(run, locations, i + BatchSize, k + 1)
        case Err(e) => Err(e)
        case Ok(tables) => Ok([table] + tables)
  }

  /** `process_locations`: the batch tables concatenated in batch order; `pd.concat`'s error
      arises exactly when there are no locations. */
  function ProcessLocations(remote: Remote, locations: seq<Location>, bufferSize: int, uuids: nat -> string)
    : (r: Result<seq<Row>, Error>)
    ensures r == Err(NothingToConcatenate) <==> locations == []
  {
    NoConcatErrorFromBatches(remote, locations, bufferSize, uuids, 0, 0);
    match ProcessFrom(remote, locations, bufferSize, uuids, 0, 0)
    case Err(e) => Err(e)
    case Ok(tables) => if tables == [] then Err(NothingToConcatenate) else Ok(Flatten(tables))
  }

  // ---------------------------------------------------------------- methods

  /** `extract_data_to_dataframe`: the table is updated cell by cell, in place. */
  method ExtractDataToDataFrame(data: GeometryData) returns (res: Result<seq<Row>, Error>)
    ensures res == Extract(data)
  {
    var df := new Row[|data.tmcs|](k requires 0 <= k < |data.tmcs| => data.tmcs[k]);
    assert df[..] == data.tmcs;
    for n := 0 to |data.features|
      invariant ApplyFeatures(df[..], data.features[n..]) == ApplyFeatures(data.tmcs, data.features)
    {
      assert data.features[n..][1..] == data.features[n + 1..];
      var feature := data.features[n];
      if feature.rings == [] {
        return Err(IndexError);
      }
      if !HasSegIds(df[..]) {
        return Err(KeyError("segID"));
      }
      var idx := Matches(df[..], feature.id);
      if idx != [] {
        df[idx[0]] := df[idx[0]].(coordinates := Some(feature.rings[0]));
      }
    }
    res := Ok(df[..]);
  }

  /** `process_locations`, each batch's request sent with `uuids(k)`. */
  method ProcessAllLocations(remote: Remote, locations: seq<Location>, bufferSize: int, uuids: nat -> string)
    returns (res: Result<seq<Row>, Error>)
    ensures res == ProcessLocations(remote, locations, bufferSize, uuids)
  {
    ghost var whole := ProcessFrom(remote, locations, bufferSize, uuids, 0, 0);
    var allDataframes: seq<seq<Row>> := [];
    var i := 0;
    var k := 0;
    assert whole.Ok? ==> [] + whole.value == whole.value;
    while i < |locations|
      invariant whole == Prefixed(allDataframes, ProcessFrom(remote, locations, bufferSize, uuids, i, k))
      decreases |locations| - i
    {
      var batch := locations[i .. if i + BatchSize <= |locations| then i + BatchSize else |locations|];
      ghost var b := ProcessBatch(remote, batch, bufferSize, uuids(k));
      ProcessFromPrefixed(remote, locations, bufferSize, uuids, allDataframes, i, k);
      var segments := GetSegments(remote, batch, bufferSize, uuids(k));
      if segments.Err? {
        return Err(segments.error);
      }
      var geometry := GetGeometry(remote, segments.value);
      if geometry.Err? {
        return Err(geometry.error);
      }
      var batchDf := ExtractDataToDataFrame(geometry.value);
      assert batchDf == b;
      if batchDf.Err? {
        return Err(batchDf.error);
      }
      allDataframes := allDataframes + [batchDf.value];
      i := i + BatchSize;
      k := k + 1;
    }
    assert allDataframes + [] == allDataframes;
    if allDataframes == [] {
      return Err(NothingToConcatenate);
    }
    res := Ok(Flatten(allDataframes));
  }

  /** One pass of the batch loop: the batch at `i`, then the rest. */
  lemma ProcessFromStep(remote: Remote, locations: seq<Location>, bufferSize: int, uuids: nat -> string, i: nat, k: nat)
    requires i < |locations|
    ensures ProcessFrom(remote, locations, bufferSize, uuids, i, k)
      == match ProcessBatch(remote, BatchAt(locations, i), bufferSize, uuids(k))
         case Err(e) => Err(e)
         case Ok(table) => Prefixed([table], ProcessFrom(remote, locations, bufferSize, uuids, i + BatchSize, k + 1))
  {
    RunnerAt(remote, bufferSize, uuids, BatchAt(locations, i), k);
  }

  /** One pass of the batch loop, seen from the tables collected so far. */
  lemma ProcessFromPrefixed(remote: Remote, locations: seq<Location>, bufferSize: int, uuids: nat -> string,
                            tables: seq<seq<Row>>, i: nat, k: nat)
    requires i < |locations|
    ensures var b := ProcessBatch(remote, BatchAt(locations, i), bufferSize, uuids(k));
      Prefixed(tables, ProcessFrom(remote, locations, bufferSize, uuids, i, k))
        == if b.Err? then Err(b.error)
           else Prefixed(tables + [b.value], ProcessFrom(remote, locations, bufferSize, uuids, i + BatchSize, k + 1))
  {
    ProcessFromStep(remote, locations, bufferSize, uuids, i, k);
    var b := ProcessBatch(remote, BatchAt(locations, i), bufferSize, uuids(k));
    var rest := ProcessFrom(remote, locations, bufferSize, uuids, i + BatchSize, k + 1);
    if b.Ok? && rest.Ok? {
      assert tables + ([b.value] + rest.value) == (tables + [b.value]) + rest.value;
    }
  }

  /** `tables` followed by the tables of `r`, or `r`'s error. */
  function Prefixed(tables: seq<seq<Row>>, r: Result<seq<seq<Row>>, Error>): Result<seq<seq<Row>>, Error> {
    if r.Ok? then Ok(tables + r.value) else r
  }

  // ---------------------------------------------------------------- properties

  /** The circles sent are centred on the locations, in order. */
  lemma CirclesCentredOnLocations(locations: seq<Location>, bufferSize: int)
    ensures Centres(Circles(locations, bufferSize)) == locations
  {
  }

  /** The first index `Matches` reports is the first row whose `segID` is `id`. */
  lemma FirstMatch(rows: seq<Row>, id: string)
    requires Matches(rows, id) != []
    ensures forall k :: 0 <= k < Matches(rows, id)[0] ==> rows[k].segID != Some(id)
  {
    var idx := Matches(rows, id);
  }

  /** Tables with the same `segID` column give the same matches. */
  lemma {:induction false} MatchesBySegIds(rows: seq<Row>, rows': seq<Row>, id: string)
    requires |rows| == |rows'| && forall k :: 0 <= k < |rows| ==> rows[k].segID == rows'[k].segID
    ensures Matches(rows, id) == Matches(rows', id)
    decreases |rows|
  {
    if rows != [] {
      MatchesBySegIds(rows[..|rows| - 1], rows'[..|rows'| - 1], id);
    }
  }

  /** One feature changes at most the `coordinates` of the first row carrying its id; a feature
      whose id no row carries changes nothing. */
  lemma AttachChangesFirstMatchOnly(rows: seq<Row>, f: Feature)
    requires f.rings != []
    ensures var r := Attach(rows, f);
      |r| == |rows|
      && (forall k :: 0 <= k < |rows| ==> r[k].segID == rows[k].segID && r[k].fields == rows[k].fields)
      && (forall k :: 0 <= k < |rows| && r[k] != rows[k] ==>
            rows[k].segID == Some(f.id) && r[k].coordinates == Some(f.rings[0])
            && forall j :: 0 <= j < k ==> rows[j].segID != Some(f.id))
      && ((exists k :: 0 <= k < |rows| && rows[k].segID == Some(f.id)) ==>
            r[Matches(rows, f.id)[0]].coordinates == Some(f.rings[0]))
      && ((forall k :: 0 <= k < |rows| ==> rows[k].segID != Some(f.id)) ==> r == rows)
  {
    var idx := Matches(rows, f.id);
    if idx != [] {
      FirstMatch(rows, f.id);
    }
  }

  /** The coordinates the feature loop leaves on row `k`: those of the last feature whose first
      matching row is `k`, if any. */
  function LastFor(rows: seq<Row>, features: seq<Feature>, k: nat): Option<string>
    requires forall j :: 0 <= j < |features| ==> features[j].rings != []
    decreases |features|
  {
    if features == [] then None
    else
      var later := LastFor(rows, features[1..], k);
      if later.Some? then later
      else
        var idx := Matches(rows, features[0].id);
        if idx != [] && idx[0] == k then Some(features[0].rings[0]) else None
  }

  lemma {:induction false} LastForBySegIds(rows: seq<Row>, rows': seq<Row>, features: seq<Feature>, k: nat)
    requires forall j :: 0 <= j < |features| ==> features[j].rings != []
    requires |rows| == |rows'| && forall i :: 0 <= i < |rows| ==> rows[i].segID == rows'[i].segID
    ensures LastFor(rows, features, k) == LastFor(rows', features, k)
    decreases |features|
  {
    if features != [] {
      LastForBySegIds(rows, rows', features[1..], k);
      MatchesBySegIds(rows, rows', features[0].id);
    }
  }

  /** The feature loop succeeds exactly when every feature has coordinates and, if there is
      any feature, the table has a `segID` column. */
  lemma {:induction false} ApplyFeaturesOk(rows: seq<Row>, features: seq<Feature>)
    ensures ApplyFeatures(rows, features).Ok? <==>
      (forall j :: 0 <= j < |features| ==> features[j].rings != []) && (features == [] || HasSegIds(rows))
    decreases |features|
  {
    if features != [] && features[0].rings != [] && HasSegIds(rows) {
      AttachKeepsSegIds(rows, features[0]);
      ApplyFeaturesOk(Attach(rows, features[0]), features[1..]);
      RingsTail(features);
    }
  }

  lemma AttachKeepsSegIds(rows: seq<Row>, f: Feature)
    requires f.rings != [] && HasSegIds(rows)
    ensures HasSegIds(Attach(rows, f))
  {
    AttachChangesFirstMatchOnly(rows, f);
    var k0 :| 0 <= k0 < |rows| && rows[k0].segID.Some?;
    assert Attach(rows, f)[k0].segID.Some?;
  }

  lemma RingsTail(features: seq<Feature>)
    requires features != []
    ensures (forall j :: 0 <= j < |features| ==> features[j].rings != [])
        <==> features[0].rings != [] && forall j :: 0 <= j < |features[1..]| ==> features[1..][j].rings != []
  {
    assert forall j :: 1 <= j < |features| ==> features[1..][j - 1] == features[j];
  }

  /** The feature loop never adds, removes or reorders rows, and each row ends with the
      coordinates of the last feature that matched it first, or keeps its own. */
  lemma {:induction false} ApplyFeaturesRows(rows: seq<Row>, features: seq<Feature>)
    requires ApplyFeatures(rows, features).Ok?
    ensures forall j :: 0 <= j < |features| ==> features[j].rings != []
    ensures var r := ApplyFeatures(rows, features).value;
      |r| == |rows|
      && forall k :: 0 <= k < |rows| ==>
           r[k].segID == rows[k].segID && r[k].fields == rows[k].fields
           && r[k].coordinates == (if LastFor(rows, features, k).Some? then LastFor(rows, features, k) else rows[k].coordinates)
    decreases |features|
  {
    ApplyFeaturesOk(rows, features);
    if features != [] {
      var rows' := Attach(rows, features[0]);
      AttachChangesFirstMatchOnly(rows, features[0]);
      ApplyFeaturesRows(rows', features[1..]);
      forall k | 0 <= k < |rows|
        ensures LastFor(rows', features[1..], k) == LastFor(rows, features[1..], k)
      {
        LastForBySegIds(rows', rows, features[1..], k);
      }
    }
  }

  /** Among features sharing an id, the last one's coordinates stay on the row. */
  lemma {:induction false} LastFeatureWins(rows: seq<Row>, features: seq<Feature>, j: nat)
    requires ApplyFeatures(rows, features).Ok?
    requires j < |features| && Matches(rows, features[j].id) != []
    requires forall i :: j < i < |features| ==> features[i].id != features[j].id
    ensures var r := ApplyFeatures(rows, features).value;
      |r| == |rows| && features[j].rings != []
      && r[Matches(rows, features[j].id)[0]].coordinates == Some(features[j].rings[0])
  {
    ApplyFeaturesRows(rows, features);
    LastForAt(rows, features, j);
  }

  lemma {:induction false} LastForAt(rows: seq<Row>, features: seq<Feature>, j: nat)
    requires forall i :: 0 <= i < |features| ==> features[i].rings != []
    requires j < |features| && Matches(rows, features[j].id) != []
    requires forall i :: j < i < |features| ==> features[i].id != features[j].id
    ensures LastFor(rows, features, Matches(rows, features[j].id)[0]) == Some(features[j].rings[0])
    decreases |features|
  {
    var k := Matches(rows, features[j].id)[0];
    if j == 0 {
      NoLaterClaim(rows, features[1..], features[0].id);
    } else {
      assert features[1..][j - 1] == features[j];
      LastForAt(rows, features[1..], j - 1);
    }
  }

  /** Features whose id is not `id` never claim the first row carrying `id`. */
  lemma {:induction false} NoLaterClaim(rows: seq<Row>, features: seq<Feature>, id: string)
    requires forall i :: 0 <= i < |features| ==> features[i].rings != []
    requires Matches(rows, id) != []
    requires forall i :: 0 <= i < |features| ==> features[i].id != id
    ensures LastFor(rows, features, Matches(rows, id)[0]) == None
    decreases |features|
  {
    if features != [] {
      NoLaterClaim(rows, features[1..], id);
    }
  }

  /** The batch loop runs the batches of 500 in order, the `j`-th with `uuids(j)`; it
      succeeds exactly when every batch does, with one table per batch. */
  lemma BatchesInOrder(remote: Remote, locations: seq<Location>, bufferSize: int, uuids: nat -> string)
    ensures var cs := Chunks(locations, BatchSize);
      var r := ProcessFrom(remote, locations, bufferSize, uuids, 0, 0);
      (r.Ok? <==> forall j :: 0 <= j < |cs| ==> ProcessBatch(remote, cs[j], bufferSize, uuids(j)).Ok?)
      && (r.Ok? ==> |r.value| == |cs|
                    && forall j :: 0 <= j < |cs| ==> ProcessBatch(remote, cs[j], bufferSize, uuids(j)) == Ok(r.value[j]))
  {
    var run := BatchRunner(remote, bufferSize, uuids);
    var cs := Chunks(locations, BatchSize);
    var r := RunBatches(run, locations, 0, 0);
    assert ProcessFrom(remote, locations, bufferSize, uuids, 0, 0) == r;
    RunsInOrder(run, locations, 0, 0);
    forall j | 0 <= j < |cs|
      ensures run(cs[j], j) == ProcessBatch(remote, cs[j], bufferSize, uuids(j))
    {
      RunnerAt(remote, bufferSize, uuids, cs[j], j);
    }
    if r.Ok? {
      forall j | 0 <= j < |cs|
        ensures ProcessBatch(remote, cs[j], bufferSize, uuids(j)) == Ok(r.value[j])
      {
        assert run(cs[j], j) == Ok(r.value[j - 0]);
      }
    }
  }

  /** The runner used by `ProcessFrom` processes batch `k` with the `k`-th uuid. */
  lemma RunnerAt(remote: Remote, bufferSize: int, uuids: nat -> string, batch: seq<Location>, k: nat)
    ensures BatchRunner(remote, bufferSize, uuids)(batch, k) == ProcessBatch(remote, batch, bufferSize, uuids(k))
  {
  }

  lemma {:induction false} RunsInOrder(run: (seq<Location>, nat) -> Result<seq<Row>, Error>, locations: seq<Location>, i: nat, k: nat)
    requires i == BatchSize * k && k <= |Chunks(locations, BatchSize)|
    ensures var cs := Chunks(locations, BatchSize);
      var r := RunBatches(run, locations, i, k);
      (r.Ok? <==> forall j :: k <= j < |cs| ==> run(cs[j], j).Ok?)
      && (r.Ok? ==> |r.value| == |cs| - k && forall j :: k <= j < |cs| ==> run(cs[j], j) == Ok(r.value[j - k]))
    decreases |locations| - i
  {
    var cs := Chunks(locations, BatchSize);
    ChunkIndex(locations, BatchSize, k);
    if k < |cs| {
      ChunkAt(locations, BatchSize, k);
      assert BatchAt(locations, i) == cs[k];
      RunsInOrder(run, locations, i + BatchSize, k + 1);
    }
  }

  /** `pd.concat` fails exactly when there are no locations; otherwise the result is the
      batch tables, one per batch of 500, concatenated in batch order. */
  lemma ProcessLocationsResult(remote: Remote, locations: seq<Location>, bufferSize: int, uuids: nat -> string)
    ensures ProcessLocations(remote, locations, bufferSize, uuids) == Err(NothingToConcatenate) <==> locations == []
    ensures var cs := Chunks(locations, BatchSize);
      ProcessLocations(remote, locations, bufferSize, uuids).Ok? ==>
        exists tables: seq<seq<Row>> ::
          |tables| == |cs| && ProcessLocations(remote, locations, bufferSize, uuids) == Ok(Flatten(tables))
          && forall j :: 0 <= j < |cs| ==> ProcessBatch(remote, cs[j], bufferSize, uuids(j)) == Ok(tables[j])
  {
    BatchesInOrder(remote, locations, bufferSize, uuids);
    ChunkIndex(locations, BatchSize, 0);
    var r := ProcessFrom(remote, locations, bufferSize, uuids, 0, 0);
    if locations != [] && r.Ok? {
      assert r.value != [];
    }
    if locations != [] && r.Err? {
      NoConcatErrorFromBatches(remote, locations, bufferSize, uuids, 0, 0);
    }
  }

  /** A batch never fails with `pd.concat`'s error. */
  lemma {:induction false} NoConcatErrorFromBatches(remote: Remote, locations: seq<Location>, bufferSize: int,
                                                   uuids: nat -> string, i: nat, k: nat)
    ensures ProcessFrom(remote, locations, bufferSize, uuids, i, k) != Err(NothingToConcatenate)
    decreases |locations| - i
  {
    if i < |locations| {
      var b := ProcessBatch(remote, BatchAt(locations, i), bufferSize, uuids(k));
      if b.Err? {
        var seg := GetSegments(remote, BatchAt(locations, i), bufferSize, uuids(k));
        if seg.Ok? && GetGeometry(remote, seg.value).Ok? {
          ApplyFeaturesErrors(GetGeometry(remote, seg.value).value.tmcs, GetGeometry(remote, seg.value).value.features);
        }
      } else {
        NoConcatErrorFromBatches(remote, locations, bufferSize, uuids, i + BatchSize, k + 1);
      }
    }
  }

  lemma {:induction false} ApplyFeaturesErrors(rows: seq<Row>, features: seq<Feature>)
    ensures ApplyFeatures(rows, features).Err? ==>
      ApplyFeatures(rows, features).error in {IndexError, KeyError("segID")}
    decreases |features|
  {
    if features != [] && features[0].rings != [] && HasSegIds(rows) {
      ApplyFeaturesErrors(Attach(rows, features[0]), features[1..]);
    }
  }

  /** In every batch, circle `m` is location `500 * j + m` with `leafletID` `m`: the ids
      restart at 0 in each batch. */
  lemma LeafletIdsRestart(locations: seq<Location>, bufferSize: int, j: nat, m: nat)
    requires j < |Chunks(locations, BatchSize)| && m < |Chunks(locations, BatchSize)[j]|
    ensures BatchSize * j + m < |locations|
    ensures Circles(Chunks(locations, BatchSize)[j], bufferSize)[m]
         == Circle(bufferSize, locations[BatchSize * j + m].lat, locations[BatchSize * j + m].lng, m)
  {
    ChunkAt(locations, BatchSize, j);
  }
}
