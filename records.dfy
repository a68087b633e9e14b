/**
 * Value types shared by the fraud-scoring pipeline of verification.py: the
 * extracted metadata, the per-photo result record, and the per-photo
 * observations that stand in for everything the pipeline reads from outside
 * (EXIF, the depth model, the image decoder).
 */
module Records {

  datatype Option<+T> = None | Some(value: T)

  /** The verdicts a record can carry; a record that has not been scored carries none. */
  datatype Status = Real | Review | Fake | Error

  /**
   * The metadata dict built by extract_exif_metadata: each field present or
   * absent independently. Timestamps are whole seconds on one clock.
   */
  datatype Metadata = Metadata(lat: Option<real>, lon: Option<real>, timestamp: Option<int>, device: Option<string>)

  /** The metadata of a photo whose setup failed: every field absent. */
  const NoMetadata := Metadata(None, None, None, None)

  /** Both coordinates are present ("is not None" on lat and on lon). */
  predicate Geolocated(m: Metadata) {
    m.lat.Some? && m.lon.Some?
  }

  /**
   * The entries of a record's reason list. The source stores them as
   * strings; `Text` gives each one's exact string.
   */
  datatype Reason =
    | MissingGeolocation
    | ExcessivePhotos
    | SimilarDepthInCluster
    | PhotosTakenTooQuickly
    | SameDevice
    | LowResolution
    | EditedWithSoftware
    | ImageUnreadable
    | Passed
    | ProcessingError(detail: string)

  function Text(r: Reason): string {
    match r
    case MissingGeolocation => "Missing geolocation"
    case ExcessivePhotos => "Excessive photos in 10m cluster"
    case SimilarDepthInCluster => "Similar depth in cluster"
    case PhotosTakenTooQuickly => "Photos taken too quickly"
    case SameDevice => "Multiple submissions from same device"
    case LowResolution => "Low resolution image"
    case EditedWithSoftware => "Image edited with software"
    case ImageUnreadable => "Error analyzing image"
    case Passed => "Passed"
    case ProcessingError(detail) => "Processing error: " + detail
  }

  /** Distinct reasons have distinct strings, so a reason list can be read back from its strings. */
  lemma TextInjective(a: Reason, b: Reason)
    ensures Text(a) == Text(b) <==> a == b
  {
    var prefix := "Processing error: ";
    if a.ProcessingError? && b.ProcessingError? {
      assert Text(a)[|prefix|..] == a.detail && Text(b)[|prefix|..] == b.detail;
    } else if a.ProcessingError? {
      FixedTextIsNotError(b);
    } else if b.ProcessingError? {
      FixedTextIsNotError(a);
    } else if a != b {
      FixedTextsDiffer(a, b);
    }
  }

  /** Two different fixed reasons have different strings. */
  lemma FixedTextsDiffer(a: Reason, b: Reason)
    requires !a.ProcessingError? && !b.ProcessingError? && a != b
    ensures Text(a) != Text(b)
  {
    match a
    case MissingGeolocation =>
    case ExcessivePhotos =>
    case SimilarDepthInCluster =>
    case PhotosTakenTooQuickly =>
    case SameDevice =>
    case LowResolution =>
    case EditedWithSoftware =>
    case ImageUnreadable =>
    case Passed =>
  }

  /** The fixed reason strings do not begin like "Processing error: ". */
  lemma FixedTextIsNotError(r: Reason)
    requires !r.ProcessingError?
    ensures |Text(r)| >= 2 && (Text(r)[0] != 'P' || Text(r)[1] != 'r')
  {
    match r
    case MissingGeolocation =>
    case ExcessivePhotos =>
    case SimilarDepthInCluster =>
    case PhotosTakenTooQuickly =>
    case SameDevice =>
    case LowResolution =>
    case EditedWithSoftware =>
    case ImageUnreadable =>
    case Passed =>
  }

  /** A (lat, lon) pair as collected for clustering. */
  type Location = (real, real)

  /**
   * One result dict of verify_photos. `status` is None until a verdict is
   * written; `cluster` is -1 until a cluster label is mapped onto it.
   */
  datatype PhotoRecord = PhotoRecord(
    file: string,
    status: Option<Status>,
    score: real,
    reason: seq<Reason>,
    metadata: Metadata,
    depth: real,
    cluster: int)

  predicate GeolocatedRecord(r: PhotoRecord) {
    Geolocated(r.metadata)
  }

  /** The keys a result dict can have ("file", "status", "score", ...). */
  datatype Key = FileKey | StatusKey | ScoreKey | ReasonKey | MetadataKey | DepthKey | ClusterKey

  /**
   * The keys of a result dict. Both dict literals that build records spell out
   * the same seven keys, so every record has every key, "status" included.
   */
  function Keys(r: PhotoRecord): (ks: set<Key>)
    ensures StatusKey in ks && ScoreKey in ks && ReasonKey in ks && |ks| == 7
  {
    {FileKey, StatusKey, ScoreKey, ReasonKey, MetadataKey, DepthKey, ClusterKey}
  }

  // ----- Observations: what the foreign code would report for one photo -----

  /** What PIL reports for an image it could open. */
  datatype ImageInfo = ImageInfo(width: int, height: int, hasSoftware: bool)

  /**
   * Where, if anywhere, the per-photo setup block raises: before the photo's
   * location is appended to the location list, or after it (while the
   * result dict is built).
   */
  datatype SetupFault =
    | NoFault
    | FaultBeforeLocation(detail: string)
    | FaultAfterLocation(detail: string)

  /**
   * Everything the pipeline learns about one photo from code outside the
   * model: the extracted metadata, the depth estimate (None when the
   * estimator failed), the decoded image (None when it cannot be opened)
   * and whether the setup block raises.
   */
  datatype Observation = Observation(
    fault: SetupFault,
    metadata: Metadata,
    depth: Option<real>,
    image: Option<ImageInfo>)

  /** One input path together with what is observed about the file it names. */
  datatype Photo = Photo(path: string, obs: Observation)

  // ----- Counting by index sets -----

  /** The positions of `s` whose element satisfies `p`. */
  function Indices<T>(s: seq<T>, p: T -> bool): set<int> {
    set k | 0 <= k < |s| && p(s[k])
  }

  /** Appending one element adds its position exactly when it satisfies `p`. */
  lemma IndicesSnoc<T>(s: seq<T>, x: T, p: T -> bool)
    ensures |Indices(s + [x], p)| == |Indices(s, p)| + (if p(x) then 1 else 0)
  {
    var s' := s + [x];
    var extra: set<int> := if p(x) then {|s|} else {};
    assert Indices(s', p) == Indices(s, p) + extra by {
      forall k | k in Indices(s', p) ensures k in Indices(s, p) + extra {
        if k < |s| { assert s'[k] == s[k]; }
      }
      forall k | k in Indices(s, p) + extra ensures k in Indices(s', p) {
        if k < |s| { assert s'[k] == s[k]; }
      }
    }
    assert |s| !in Indices(s, p);
  }

  /** Positions are below the length, so there are at most |s| of them. */
  lemma {:induction false} IndicesBound<T>(s: seq<T>, p: T -> bool)
    ensures |Indices(s, p)| <= |s|
  {
    if s != [] {
      var init := s[..|s| - 1];
      assert s == init + [s[|s| - 1]];
      IndicesBound(init, p);
      IndicesSnoc(init, s[|s| - 1], p);
    }
  }
}
