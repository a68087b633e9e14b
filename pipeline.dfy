/**
 * verify_photos (verification.py lines 78-227): one record per input path,
 * cluster labels mapped back onto the geolocated records, the scoring loop,
 * and the map path.
 *
 * The scoring loop is written once and run under two readings: the code as
 * written, whose skip test at line 147 is true of every record and whose
 * body (if it ran) would restart each score at 1.0 (lines 149-150); and a
 * corrected reading that scores every record without a verdict, starting
 * from the score and reasons the setup left.
 */
module Pipeline {
  import opened Records
  import opened Extraction
  import opened Scoring
  import opened ScoringProperties

  /** Where the map is saved when there is at least one location. */
  const MapPath := "static/map.html"

  /** The reading of the scoring loop that runs. */
  datatype Reading = AsWritten | Corrected

  /**
   * The skip test of line 147. As written it asks whether the dict has a
   * "status" key; the corrected test asks whether a verdict is already set.
   */
  predicate Skips(reading: Reading, r: PhotoRecord) {
    match reading
    case AsWritten => StatusKey in Keys(r)
    case Corrected => r.status.Some?
  }

  /** Lines 149-150: the score the body starts from (reset to 1.0 as written). */
  function StartScore(reading: Reading, r: PhotoRecord): real {
    match reading
    case AsWritten => 1.0
    case Corrected => r.score
  }

  /** Lines 149-150: the reasons the body starts from (reset to none as written). */
  function StartReasons(reading: Reading, r: PhotoRecord): seq<Reason> {
    match reading
    case AsWritten => []
    case Corrected => r.reason
  }

  /** The record the scoring body leaves at position `i` when it runs on it. */
  function Scored(rs: seq<PhotoRecord>, i: nat, image: Option<ImageInfo>, reading: Reading): PhotoRecord
    requires i < |rs|
  {
    var ps := Penalties(Evidences(rs), i, image);
    Finalized(rs[i], Discounted(StartScore(reading, rs[i]) * DetectorFactor, ps),
              StartReasons(reading, rs[i]) + Reasons(ps))
  }

  // ----- Setup (lines 87-133) -----

  /** compute_depth's answer: the estimate, or 0.0 when estimation failed. */
  function DepthOf(obs: Observation): real {
    if obs.depth.Some? then obs.depth.value else 0.0
  }

  /** The record of a photo whose setup raised (lines 125-133). */
  function ErrorRecord(file: string, detail: string): PhotoRecord {
    PhotoRecord(file, Some(Error), 0.0, [ProcessingError(detail)], NoMetadata, 0.0, -1)
  }

  /** The setup appends this photo's location (line 100): it got that far and has both coordinates. */
  predicate CollectsLocation(p: Photo) {
    !p.obs.fault.FaultBeforeLocation? && Geolocated(p.obs.metadata)
  }

  function LocationOf(m: Metadata): Location
    requires Geolocated(m)
  {
    (m.lat.value, m.lon.value)
  }

  /** The location list the setup loop builds, in photo order. */
  function CollectedLocations(photos: seq<Photo>): seq<Location> {
    if photos == [] then []
    else
      var p := photos[|photos| - 1];
      CollectedLocations(photos[..|photos| - 1])
      + (if CollectsLocation(p) then [LocationOf(p.obs.metadata)] else [])
  }

  /**
   * `r` is the record the setup builds for `p`: an error record when the
   * setup raised; otherwise no verdict, the observed metadata and depth,
   * cluster -1, and score 0.5 with "Missing geolocation" exactly when a
   * coordinate is missing, else 1.0 with no reasons.
   */
  predicate SetUpFrom(p: Photo, r: PhotoRecord) {
    r.file == Basename(p.path)
    && (!p.obs.fault.NoFault? ==> r == ErrorRecord(Basename(p.path), p.obs.fault.detail))
    && (p.obs.fault.NoFault? ==>
          r.status == None && r.metadata == p.obs.metadata && r.depth == DepthOf(p.obs) && r.cluster == -1
          && (Geolocated(p.obs.metadata) ==> r.score == 1.0 && r.reason == [])
          && (!Geolocated(p.obs.metadata) ==> r.score == 0.5 && r.reason == [MissingGeolocation]))
  }

  /**
   * Lines 88-133, the body for one photo: the record the setup builds and
   * the location it appends, if any.
   */
  method SetUpOne(p: Photo) returns (record: PhotoRecord, appended: seq<Location>)
    ensures SetUpFrom(p, record)
    ensures appended == if CollectsLocation(p) then [LocationOf(p.obs.metadata)] else []
  {
    appended := [];
    var obs := p.obs;
    if obs.fault.FaultBeforeLocation? {
      record := ErrorRecord(Basename(p.path), obs.fault.detail);
      return;
    }
    var reasons: seq<Reason> := [];
    var score := 1.0;
    var metadata := obs.metadata;
    var depth := DepthOf(obs);
    if metadata.lat.Some? && metadata.lon.Some? {
      appended := [(metadata.lat.value, metadata.lon.value)];
    } else {
      reasons := reasons + [MissingGeolocation];
      score := score * 0.5;
    }
    if obs.fault.FaultAfterLocation? {
      record := ErrorRecord(Basename(p.path), obs.fault.detail);
    } else {
      record := PhotoRecord(Basename(p.path), None, score, reasons, metadata, depth, -1);
    }
  }

  /** Lines 87-133: one record per photo, in order, and the locations collected on the way. */
  method SetUp(photos: seq<Photo>) returns (results: seq<PhotoRecord>, locations: seq<Location>)
    ensures |results| == |photos|
    ensures forall j :: 0 <= j < |photos| ==> SetUpFrom(photos[j], results[j])
    ensures locations == CollectedLocations(photos)
  {
    results, locations := [], [];
    for j := 0 to |photos|
      invariant |results| == j
      invariant forall k :: 0 <= k < j ==> SetUpFrom(photos[k], results[k])
      invariant locations == CollectedLocations(photos[..j])
    {
      CollectedLocationsStep(photos, j);
      var record, appended := SetUpOne(photos[j]);
      ghost var before := results;
      results := results + [record];
      assert forall k :: 0 <= k < j ==> results[k] == before[k];
      locations := locations + appended;
    }
    assert photos[..|photos|] == photos;
  }

  lemma CollectedLocationsStep(photos: seq<Photo>, j: nat)
    requires j < |photos|
    ensures CollectedLocations(photos[..j + 1]) == CollectedLocations(photos[..j])
      + (if CollectsLocation(photos[j]) then [LocationOf(photos[j].obs.metadata)] else [])
  {
    assert photos[..j + 1][..j] == photos[..j];
  }

  // ----- Cluster mapping (lines 136-143) -----

  /** How many records before position `j` have both coordinates: the value of loc_index on reaching `j`. */
  function GeoRank(rs: seq<PhotoRecord>, j: nat): nat
    requires j <= |rs|
  {
    |Indices(rs[..j], GeolocatedRecord)|
  }

  /** The label the mapping writes onto record `j`, if it writes one. */
  function Label(rs: seq<PhotoRecord>, j: nat, labels: seq<int>): Option<int>
    requires j < |rs|
  {
    if GeolocatedRecord(rs[j]) && GeoRank(rs, j) < |labels| then Some(labels[GeoRank(rs, j)]) else None
  }

  lemma GeoRankStep(rs: seq<PhotoRecord>, j: nat)
    requires j < |rs|
    ensures GeoRank(rs, j + 1) == GeoRank(rs, j) + (if GeolocatedRecord(rs[j]) then 1 else 0)
  {
    assert rs[..j + 1] == rs[..j] + [rs[j]];
    IndicesSnoc(rs[..j], rs[j], GeolocatedRecord);
  }

  /** The labels depend only on which records are geolocated. */
  lemma LabelFrame(a: seq<PhotoRecord>, b: seq<PhotoRecord>, j: nat, labels: seq<int>)
    requires |a| == |b| && j < |a|
    requires forall k :: 0 <= k < |a| ==> a[k].metadata == b[k].metadata
    ensures Label(a, j, labels) == Label(b, j, labels)
  {
    assert Indices(a[..j], GeolocatedRecord) == Indices(b[..j], GeolocatedRecord);
  }

  /** A record with the label, if one is given, written over its cluster. */
  function Relabelled(r: PhotoRecord, given: Option<int>): PhotoRecord {
    if given.Some? then r.(cluster := given.value) else r
  }

  /**
   * Lines 136-143: when there are locations, the k-th record with both
   * coordinates receives label k if there is one; every other record keeps
   * its cluster.
   */
  method MapClusters(results: seq<PhotoRecord>, locations: seq<Location>, dbscan: seq<Location> -> seq<int>)
    returns (mapped: seq<PhotoRecord>)
    ensures |mapped| == |results|
    ensures locations == [] ==> mapped == results
    ensures forall j :: 0 <= j < |results| ==>
      mapped[j] == Relabelled(results[j], Label(results, j, ClusterGeolocations(locations, dbscan)))
  {
    mapped := results;
    if locations != [] {
      var clusters := ClusterGeolocations(locations, dbscan);
      var locIndex := 0;
      for j := 0 to |mapped|
        invariant |mapped| == |results|
        invariant locIndex == GeoRank(results, j)
        invariant forall k :: 0 <= k < j ==>
          mapped[k] == Relabelled(results[k], Label(results, k, clusters))
        invariant forall k :: j <= k < |results| ==> mapped[k] == results[k]
      {
        GeoRankStep(results, j);
        if mapped[j].metadata.lat.Some? && mapped[j].metadata.lon.Some? {
          if locIndex < |clusters| {
            mapped := mapped[j := mapped[j].(cluster := clusters[locIndex])];
          }
          locIndex := locIndex + 1;
        }
        assert mapped[j] == Relabelled(results[j], Label(results, j, clusters));
      }
    }
  }

  // ----- The scoring loop (lines 146-210) -----

  lemma EvidencesUpdate(rs: seq<PhotoRecord>, i: nat, r: PhotoRecord)
    requires i < |rs| && EvidenceOf(r) == EvidenceOf(rs[i])
    ensures Evidences(rs[i := r]) == Evidences(rs)
  {
    assert forall k :: 0 <= k < |rs| ==> Evidences(rs[i := r])[k] == Evidences(rs)[k];
  }

  /** Lines 149-206, the body for one record that is not skipped. */
  method ScoreOne(rs: seq<PhotoRecord>, i: nat, image: Option<ImageInfo>, reading: Reading)
    returns (finished: PhotoRecord)
    requires i < |rs|
    ensures finished == Scored(rs, i, image, reading)
  {
    var score, reason := AccumulatePenalties(rs, i, image, StartScore(reading, rs[i]), StartReasons(reading, rs[i]));
    finished := Finalized(rs[i], score, reason);
  }

  /** Scoring reads only the evidence of the batch and the record itself. */
  lemma ScoredFrame(a: seq<PhotoRecord>, b: seq<PhotoRecord>, i: nat, image: Option<ImageInfo>, reading: Reading)
    requires i < |a| && |a| == |b| && Evidences(a) == Evidences(b) && a[i] == b[i]
    ensures Scored(a, i, image, reading) == Scored(b, i, image, reading)
  {
    var ps := Penalties(Evidences(a), i, image);
    assert Penalties(Evidences(b), i, image) == ps;
    assert Scored(b, i, image, reading)
      == Finalized(a[i], Discounted(StartScore(reading, a[i]) * DetectorFactor, ps), StartReasons(reading, a[i]) + Reasons(ps));
  }

  /** What the scoring loop leaves at position `j`: the record itself when skipped, else the scored record. */
  function Outcome(results: seq<PhotoRecord>, photos: seq<Photo>, j: nat, reading: Reading): PhotoRecord
    requires j < |results| && |results| == |photos|
  {
    if Skips(reading, results[j]) then results[j] else Scored(results, j, photos[j].obs.image, reading)
  }

  /** The first `n` records of the batch after the scoring loop. */
  function Outcomes(results: seq<PhotoRecord>, photos: seq<Photo>, reading: Reading, n: nat): (os: seq<PhotoRecord>)
    requires n <= |results| && |results| == |photos|
    ensures |os| == n
  {
    if n == 0 then [] else Outcomes(results, photos, reading, n - 1) + [Outcome(results, photos, n - 1, reading)]
  }

  /** Position `j` of the scored batch is the outcome for record `j`. */
  lemma {:induction false} OutcomesAt(results: seq<PhotoRecord>, photos: seq<Photo>, reading: Reading, n: nat, j: nat)
    requires j < n && n <= |results| && |results| == |photos|
    ensures Outcomes(results, photos, reading, n)[j] == Outcome(results, photos, j, reading)
  {
    if j < n - 1 {
      OutcomesAt(results, photos, reading, n - 1, j);
    }
  }

  /** Settling position `i` of a half-processed sequence. */
  lemma SettleNext<T>(done: seq<T>, rest: seq<T>, x: T)
    requires |done| < |rest|
    ensures (done + rest[|done|..])[|done| := x] == done + [x] + rest[|done| + 1..]
  {
    var before, after := (done + rest[|done|..])[|done| := x], done + [x] + rest[|done| + 1..];
    assert forall k :: 0 <= k < |rest| ==> before[k] == after[k];
  }

  /**
   * One turn of the scoring loop keeps its invariant: the records before
   * `i + 1` are settled, the rest untouched, and the evidence unchanged.
   */
  lemma ScoreStep(results: seq<PhotoRecord>, photos: seq<Photo>, reading: Reading, i: nat,
                  scored: seq<PhotoRecord>, next: seq<PhotoRecord>)
    requires i < |results| && |results| == |photos|
    requires scored == Outcomes(results, photos, reading, i) + results[i..]
    requires Evidences(scored) == Evidences(results)
    requires next == if Skips(reading, scored[i]) then scored
                     else scored[i := Scored(scored, i, photos[i].obs.image, reading)]
    ensures next == Outcomes(results, photos, reading, i + 1) + results[i + 1..]
    ensures Evidences(next) == Evidences(results)
  {
    var done := Outcomes(results, photos, reading, i);
    var o := Outcome(results, photos, i, reading);
    assert scored[i] == results[i];
    SettleNext(done, results, o);
    if Skips(reading, scored[i]) {
      assert scored[i := o] == scored;
    } else {
      ScoredFrame(scored, results, i, photos[i].obs.image, reading);
      EvidencesUpdate(scored, i, o);
    }
  }

  /** One turn of the scoring loop: skip record `i`, or score it in place. */
  method SettleOne(results: seq<PhotoRecord>, photos: seq<Photo>, reading: Reading, i: nat,
                   scored: seq<PhotoRecord>)
    returns (next: seq<PhotoRecord>)
    requires i < |results| && |results| == |photos|
    requires scored == Outcomes(results, photos, reading, i) + results[i..]
    requires Evidences(scored) == Evidences(results)
    ensures next == Outcomes(results, photos, reading, i + 1) + results[i + 1..]
    ensures Evidences(next) == Evidences(results)
  {
    var result := scored[i];
    if Skips(reading, result) {
      ScoreStep(results, photos, reading, i, scored, scored);
      return scored;
    }
    var finished := ScoreOne(scored, i, photos[i].obs.image, reading);
    next := scored[i := finished];
    ScoreStep(results, photos, reading, i, scored, next);
  }

  /**
   * Lines 146-210: every record the skip test passes over is left as it is;
   * every other one is scored against the batch and given its verdict. The
   * fields the checks read never change.
   */
  method ScorePhotos(results: seq<PhotoRecord>, photos: seq<Photo>, reading: Reading)
    returns (scored: seq<PhotoRecord>)
    requires |photos| == |results|
    ensures scored == Outcomes(results, photos, reading, |results|)
    ensures Evidences(scored) == Evidences(results)
  {
    scored := results;
    for i := 0 to |scored|
      invariant scored == Outcomes(results, photos, reading, i) + results[i..]
      invariant Evidences(scored) == Evidences(results)
    {
      scored := SettleOne(results, photos, reading, i, scored);
    }
    assert results[|results|..] == [];
  }

  // ----- The whole call -----

  /** Lines 212-225: a map is saved, and its path returned, exactly when a location was collected. */
  function MapUrl(locations: seq<Location>): (url: Option<string>)
    ensures url.Some? <==> locations != []
    ensures url.Some? ==> url.value == MapPath
  {
    if locations != [] then Some(MapPath) else None
  }

  /** The score the setup leaves on a photo that did not fail. */
  function SetUpScore(p: Photo): real {
    if Geolocated(p.obs.metadata) then 1.0 else 0.5
  }

  /** The reasons the setup leaves on a photo that did not fail. */
  function SetUpReasons(p: Photo): seq<Reason> {
    if Geolocated(p.obs.metadata) then [] else [MissingGeolocation]
  }

  /**
   * verify_photos as written. One record per path, in order, named by the
   * path's basename; a failed setup gives an error record; the k-th
   * geolocated record carries the k-th label. Because every record has a
   * "status" key the scoring loop scores nothing, so every other record
   * leaves with no verdict and the setup's score and reasons.
   */
  method VerifyPhotos(photos: seq<Photo>, dbscan: seq<Location> -> seq<int>)
    returns (results: seq<PhotoRecord>, mapUrl: Option<string>)
    ensures |results| == |photos|
    ensures forall j :: 0 <= j < |photos| ==> results[j].file == Basename(photos[j].path)
    ensures forall j :: 0 <= j < |photos| && !photos[j].obs.fault.NoFault? ==>
      results[j] == ErrorRecord(Basename(photos[j].path), photos[j].obs.fault.detail)
    ensures forall j :: 0 <= j < |photos| && photos[j].obs.fault.NoFault? ==>
      results[j].status == None
      && results[j].metadata == photos[j].obs.metadata
      && results[j].depth == DepthOf(photos[j].obs)
      && results[j].score == SetUpScore(photos[j])
      && results[j].reason == SetUpReasons(photos[j])
    ensures forall j :: 0 <= j < |photos| ==>
      var given := Label(results, j, ClusterGeolocations(CollectedLocations(photos), dbscan));
      results[j].cluster == if given.Some? then given.value else -1
    ensures CollectedLocations(photos) == [] ==> forall j :: 0 <= j < |photos| ==> results[j].cluster == -1
    ensures mapUrl == MapUrl(CollectedLocations(photos))
  {
    var records, locations := SetUp(photos);
    var clustered := MapClusters(records, locations, dbscan);
    results := ScorePhotos(clustered, photos, AsWritten);
    mapUrl := MapUrl(locations);

    var labels := ClusterGeolocations(locations, dbscan);
    AsWrittenScoresNothing(clustered, photos, |clustered|);
    assert results == clustered;
    AsWrittenAll(photos, records, results, labels);
  }

  /** Every position of the call as written: the setup record with its label mapped onto it. */
  lemma AsWrittenAll(photos: seq<Photo>, records: seq<PhotoRecord>, results: seq<PhotoRecord>, labels: seq<int>)
    requires |photos| == |records| && |records| == |results|
    requires forall j :: 0 <= j < |photos| ==> SetUpFrom(photos[j], records[j])
    requires forall j :: 0 <= j < |records| ==>
      results[j] == Relabelled(records[j], Label(records, j, labels))
    ensures forall j :: 0 <= j < |photos| ==> results[j].file == Basename(photos[j].path)
    ensures forall j :: 0 <= j < |photos| && !photos[j].obs.fault.NoFault? ==>
      results[j] == ErrorRecord(Basename(photos[j].path), photos[j].obs.fault.detail)
    ensures forall j :: 0 <= j < |photos| && photos[j].obs.fault.NoFault? ==>
      results[j].status == None
      && results[j].metadata == photos[j].obs.metadata
      && results[j].depth == DepthOf(photos[j].obs)
      && results[j].score == SetUpScore(photos[j])
      && results[j].reason == SetUpReasons(photos[j])
    ensures forall j :: 0 <= j < |photos| ==>
      var given := Label(results, j, labels);
      results[j].cluster == if given.Some? then given.value else -1
  {
    forall j | 0 <= j < |photos|
      ensures var given := Label(results, j, labels);
        results[j].cluster == if given.Some? then given.value else -1
    {
      LabelFrame(results, records, j, labels);
    }
  }

  /**
   * What the corrected call leaves at position `j` of the batch `rs` for a
   * photo `p` that did not fail: its own metadata and depth, the setup score
   * discounted by the detectors and by every penalty the checks assign it
   * within the batch, the setup reasons followed by the checks' reasons
   * ("Passed" when there are none), and the verdict of its score.
   */
  predicate CorrectedRecord(p: Photo, rs: seq<PhotoRecord>, j: nat)
    requires j < |rs|
  {
    var r, ps := rs[j], Penalties(Evidences(rs), j, p.obs.image);
    r.metadata == p.obs.metadata
    && r.depth == DepthOf(p.obs)
    && r.status == Some(Verdict(r.score))
    && r.score == Discounted(SetUpScore(p) * DetectorFactor, ps)
    && r.reason == (if SetUpReasons(p) + Reasons(ps) == [] then [Passed] else SetUpReasons(p) + Reasons(ps))
  }

  /**
   * verify_photos with the skip test and the reset corrected: every record
   * that did not fail gets the verdict of its score, its score is the setup
   * score discounted by the detectors and by every check that fires, and
   * its reasons keep "Missing geolocation" ahead of the checks' reasons, so
   * a photo without a location is never rated Real.
   */
  method VerifyPhotosCorrected(photos: seq<Photo>, dbscan: seq<Location> -> seq<int>)
    returns (results: seq<PhotoRecord>, mapUrl: Option<string>)
    ensures |results| == |photos|
    ensures forall j :: 0 <= j < |photos| ==> results[j].file == Basename(photos[j].path)
    ensures forall j :: 0 <= j < |photos| && !photos[j].obs.fault.NoFault? ==>
      results[j] == ErrorRecord(Basename(photos[j].path), photos[j].obs.fault.detail)
    ensures forall j :: 0 <= j < |photos| && photos[j].obs.fault.NoFault? ==>
      CorrectedRecord(photos[j], results, j)
    ensures forall j :: 0 <= j < |photos| && photos[j].obs.fault.NoFault? && !Geolocated(photos[j].obs.metadata) ==>
      results[j].reason != [] && results[j].reason[0] == MissingGeolocation && results[j].status != Some(Real)
    ensures forall j :: 0 <= j < |photos| ==>
      var given := Label(results, j, ClusterGeolocations(CollectedLocations(photos), dbscan));
      results[j].cluster == if given.Some? then given.value else -1
    ensures mapUrl == MapUrl(CollectedLocations(photos))
  {
    var records, locations := SetUp(photos);
    var clustered := MapClusters(records, locations, dbscan);
    results := ScorePhotos(clustered, photos, Corrected);
    mapUrl := MapUrl(locations);

    var labels := ClusterGeolocations(locations, dbscan);
    forall j | 0 <= j < |photos|
      ensures results[j] == Outcome(clustered, photos, j, Corrected)
    {
      OutcomesAt(clustered, photos, Corrected, |clustered|, j);
    }
    CorrectedAll(photos, records, clustered, results, labels);
  }

  /** Every position of the corrected call, from the setup records and the labels mapped onto them. */
  lemma CorrectedAll(photos: seq<Photo>, records: seq<PhotoRecord>, clustered: seq<PhotoRecord>,
                     results: seq<PhotoRecord>, labels: seq<int>)
    requires |photos| == |records| && |records| == |clustered| && |clustered| == |results|
    requires forall j :: 0 <= j < |photos| ==> SetUpFrom(photos[j], records[j])
    requires forall j :: 0 <= j < |records| ==>
      clustered[j] == Relabelled(records[j], Label(records, j, labels))
    requires forall j :: 0 <= j < |results| ==> results[j] == Outcome(clustered, photos, j, Corrected)
    requires Evidences(results) == Evidences(clustered)
    ensures forall j :: 0 <= j < |photos| ==> results[j].file == Basename(photos[j].path)
    ensures forall j :: 0 <= j < |photos| && !photos[j].obs.fault.NoFault? ==>
      results[j] == ErrorRecord(Basename(photos[j].path), photos[j].obs.fault.detail)
    ensures forall j :: 0 <= j < |photos| && photos[j].obs.fault.NoFault? ==>
      CorrectedRecord(photos[j], results, j)
    ensures forall j :: 0 <= j < |photos| && photos[j].obs.fault.NoFault? && !Geolocated(photos[j].obs.metadata) ==>
      results[j].reason != [] && results[j].reason[0] == MissingGeolocation && results[j].status != Some(Real)
    ensures forall j :: 0 <= j < |photos| ==>
      var given := Label(results, j, labels);
      results[j].cluster == if given.Some? then given.value else -1
  {
    forall j | 0 <= j < |photos|
      ensures results[j].file == Basename(photos[j].path)
      ensures !photos[j].obs.fault.NoFault? ==>
        results[j] == ErrorRecord(Basename(photos[j].path), photos[j].obs.fault.detail)
      ensures photos[j].obs.fault.NoFault? ==>
        CorrectedRecord(photos[j], results, j)
      ensures photos[j].obs.fault.NoFault? && !Geolocated(photos[j].obs.metadata) ==>
        results[j].reason != [] && results[j].reason[0] == MissingGeolocation && results[j].status != Some(Real)
      ensures var given := Label(results, j, labels);
        results[j].cluster == if given.Some? then given.value else -1
    {
      CorrectedAt(photos, records, clustered, results, labels, j);
      LabelFrame(results, records, j, labels);
    }
  }

  /** One position of the corrected call, from the setup record and the label mapped onto it. */
  lemma CorrectedAt(photos: seq<Photo>, records: seq<PhotoRecord>, clustered: seq<PhotoRecord>,
                    results: seq<PhotoRecord>, labels: seq<int>, j: nat)
    requires j < |photos| && |photos| == |records| && |records| == |clustered|
    requires SetUpFrom(photos[j], records[j])
    requires clustered[j] == Relabelled(records[j], Label(records, j, labels))
    requires |results| == |clustered| && results[j] == Outcome(clustered, photos, j, Corrected)
    requires Evidences(results) == Evidences(clustered)
    ensures results[j].file == Basename(photos[j].path)
    ensures results[j].metadata == records[j].metadata && results[j].cluster == clustered[j].cluster
    ensures !photos[j].obs.fault.NoFault? ==>
      results[j] == ErrorRecord(Basename(photos[j].path), photos[j].obs.fault.detail)
    ensures photos[j].obs.fault.NoFault? ==>
      CorrectedRecord(photos[j], results, j)
    ensures photos[j].obs.fault.NoFault? && !Geolocated(photos[j].obs.metadata) ==>
      results[j].reason != [] && results[j].reason[0] == MissingGeolocation && results[j].status != Some(Real)
  {
    var image := photos[j].obs.image;
    if photos[j].obs.fault.NoFault? {
      var ps := Penalties(Evidences(results), j, image);
      assert results[j] == Scored(clustered, j, image, Corrected);
      if !Geolocated(photos[j].obs.metadata) {
        PenaltiesDiscount(Evidences(results), j, image);
        DiscountedBounds(0.5 * DetectorFactor, ps);
      }
    } else {
      assert results[j] == clustered[j];
    }
  }

  // ----- Facts about the call -----

  /** Every record has a "status" key, so the test at line 147 skips every record. */
  lemma AsWrittenSkipsEveryRecord(r: PhotoRecord)
    ensures Skips(AsWritten, r)
  {
  }

  /** As written, the scoring loop hands back the batch it was given. */
  lemma {:induction false} AsWrittenScoresNothing(results: seq<PhotoRecord>, photos: seq<Photo>, n: nat)
    requires n <= |results| && |results| == |photos|
    ensures Outcomes(results, photos, AsWritten, n) == results[..n]
  {
    if n > 0 {
      AsWrittenScoresNothing(results, photos, n - 1);
      AsWrittenSkipsEveryRecord(results[n - 1]);
      assert results[..n] == results[..n - 1] + [results[n - 1]];
    }
  }

  /**
   * The reset at lines 149-150 in isolation: a lone photo without a location,
   * sharp and unedited, leaves the setup with score 0.5 and "Missing
   * geolocation". No check fires on it. The body as written starts again
   * from 1.0 and no reasons and rates it Real with "Passed"; started from
   * the setup's score and reasons it is rated Review and keeps its reason.
   */
  lemma ResetDropsMissingGeolocation(path: string)
    ensures var p := Photo(path, Observation(NoFault, NoMetadata, None, Some(ImageInfo(1000, 1000, false))));
      var r := PhotoRecord(Basename(path), None, 0.5, [MissingGeolocation], NoMetadata, 0.0, -1);
      SetUpFrom(p, r)
      && Scored([r], 0, p.obs.image, AsWritten).status == Some(Real)
      && Scored([r], 0, p.obs.image, AsWritten).reason == [Passed]
      && Scored([r], 0, p.obs.image, Corrected).status == Some(Review)
      && Scored([r], 0, p.obs.image, Corrected).reason == [MissingGeolocation]
  {
    var r := PhotoRecord(Basename(path), None, 0.5, [MissingGeolocation], NoMetadata, 0.0, -1);
    var image := Some(ImageInfo(1000, 1000, false));
    assert Evidences([r]) == [EvidenceOf(r)];
    LonePenalties(EvidenceOf(r), image);
    assert ImagePenalties(image) == [];
  }

  /** A batch of one: no cross-record check fires, so only the image checks can. */
  lemma LonePenalties(e: Evidence, image: Option<ImageInfo>)
    ensures Penalties([e], 0, image) == ImagePenalties(image)
  {
    ClusterGroupAll([e], e.cluster);
    assert [e][..0] == [];
    assert DepthPenalties(e, [e]) == [] && TemporalPenalties(e, [e]) == [];
    assert DeviceCount([e], e.metadata.device) == 1;
  }

  /** A location is collected exactly when some photo gets past line 99 with both coordinates. */
  lemma {:induction false} NoLocationsIffNoneCollected(photos: seq<Photo>)
    ensures CollectedLocations(photos) == [] <==> forall j :: 0 <= j < |photos| ==> !CollectsLocation(photos[j])
  {
    if photos != [] {
      var init := photos[..|photos| - 1];
      NoLocationsIffNoneCollected(init);
      assert forall j :: 0 <= j < |init| ==> init[j] == photos[j];
    }
  }
}
