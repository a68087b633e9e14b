# Photo fraud scoring (verification.py) in Dafny

This project models the fraud-scoring pipeline of `verification.py`, centred
on `verify_photos`. The function takes a batch of uploaded photo paths and
returns one result record per path (file, status, score, reasons, metadata,
depth, cluster), together with the path of a map when any photo had a
location.

The model follows the function's four phases.

- **Setup** (`Pipeline.SetUpOne`, `Pipeline.SetUp`). Each path gets a record,
  in order, named by the path's basename. A photo without both coordinates
  starts at 0.5 with "Missing geolocation". A photo whose setup raises becomes
  an error record. The fault can happen before or after the photo's location
  is appended, and a fault after the append leaves a location behind.
- **Cluster mapping** (`Pipeline.MapClusters`). The DBSCAN labels are an input
  function. They are written back onto the geolocated records in order by the
  `loc_index` counter.
- **Scoring** (`Scoring.AccumulatePenalties` and the check methods). The three
  placeholder detectors multiply the score by 0.9, 0.95 and 0.95. Then the
  density, depth, time, device and image checks run against the record's
  cluster group, multiplying the score and appending reasons. Each check is
  proved against a penalty-list specification (`Scoring.Penalties`).
  Properties of that specification are proved in `ScoringProperties`.
- **Verdict** (`Scoring.Verdict`, `Scoring.Finalized`) and the map path
  (`Pipeline.MapUrl`).

The scoring loop is written once (`Pipeline.ScorePhotos`) and is run under
two readings.

- **`AsWritten`** follows the source. Every record dict has a `"status"` key,
  so the skip at line 147 passes over every record, and the body, if it ran,
  would restart at 1.0 with no reasons. `Pipeline.VerifyPhotos` is the call
  as written.
- **`Corrected`** scores every record that has no verdict yet, starting from
  the score and reasons the setup left. `Pipeline.VerifyPhotosCorrected` is
  the call with that reading.

The two departures are listed under "## Findings".

Foreign code becomes an input.

- EXIF reading, the depth model and the image decoder are an `Observation`
  per photo: metadata, optional depth, optional image size and software flag,
  and where setup raises.
- DBSCAN is a function from locations to labels.

Scores are real numbers.

Three behaviours of the code shape the model:

- The scoring loop never scores a record (see "## Findings").
- At line 38, `if lat and lon` converts the coordinates only when both are
  present. When only the longitude is missing, the raw latitude tuple stays
  in place. `Metadata` therefore carries lat and lon as independent options.
  Only their presence matters for such a record, because its coordinates are
  never read.
- A `strptime` failure at line 42 reaches the bare `except` at line 44,
  which makes all four fields absent. The observation supplies the metadata
  as extraction returns it, so this case is an input like any other.

## Model

| member | source | states |
|---|---|---|
| Records.Keys | verification.py:112-133 | both record literals have the same seven keys, "status", "score" and "reason" among them |
| Records.TextInjective | verification.py:102-210 | the reason strings written by the setup, the error record, the checks and the verdict are pairwise distinct, and two processing errors have the same string only when their details are equal |
| Extraction.DmsDecodesBack | verification.py:39-40 | for whole degrees, whole minutes below 60 and seconds below 60, `deg + min/60 + sec/3600` gives back all three parts: the floor is the degrees, the floor of the fraction times 60 is the minutes, the rest is the seconds |
| Extraction.BasenameIsLastComponent | verification.py:113 | the file name is the suffix of the path after its last '/', holds no '/', and is the whole path when there is no '/' |
| Extraction.ClusterGeolocations | verification.py:71-76 | an empty location list gives no labels without calling DBSCAN; otherwise the labels are DBSCAN's |
| Scoring.ClusterGroupMembers | verification.py:160-161 | the cluster group holds exactly the records of the batch whose cluster equals the record's, -1 included |
| Scoring.DepthPenalties | verification.py:166-172 | at most one depth penalty per group member, each the ×0.7 "Similar depth in cluster" penalty |
| Scoring.TemporalPenalties | verification.py:174-180 | at most one time penalty per group member, each the ×0.6 "Photos taken too quickly" penalty |
| Scoring.ImagePenalties | verification.py:187-200 | an image that cannot be opened gets exactly one penalty, "Error analyzing image" (×0.5); an opened one gets ×0.8 "Low resolution image" exactly when its width or height is below 800, and ×0.7 "Image edited with software" exactly when it has a Software tag |
| ScoringProperties.ImagePenaltiesOrder | verification.py:190-197 | the image checks fire at most once each, and when both fire the low-resolution penalty comes before the software penalty |
| Scoring.Reasons | verification.py:159-200 | one reason per fired check, so the number of reasons equals the number of penalties |
| Scoring.DensityCheck | verification.py:161-164 | multiplies by 0.6 and appends "Excessive photos in 10m cluster" exactly as the density penalty list says |
| Scoring.DepthChecks | verification.py:166-172 | the loop over the group applies exactly the depth penalty list, in group order |
| Scoring.TemporalChecks | verification.py:174-180 | the loop over the group applies exactly the time penalty list, in group order |
| Scoring.DeviceCheck | verification.py:182-185 | multiplies by 0.7 and appends "Multiple submissions from same device" exactly as the device penalty list says |
| Scoring.ImageChecks | verification.py:187-200 | applies exactly the image penalty list |
| Scoring.ChecksCompose | verification.py:159-200 | running the five stages one after another applies their concatenated penalty list to score and reasons |
| Scoring.AccumulatePenalties | verification.py:149-200 | the body's score is the start times 0.9·0.95·0.95, then times each fired penalty; its reasons are the start reasons followed by one reason per fired penalty, in check order |
| Scoring.Verdict | verification.py:204-209 | Real exactly when the score is above 0.7, Review exactly in (0.4, 0.7], Fake exactly at or below 0.4, never Error |
| Scoring.Finalized | verification.py:203-210 | writes the score and its verdict, keeps the fields the checks read, and sets the reasons to the given list when it is non-empty and to exactly ["Passed"] when it is empty |
| ScoringProperties.PenaltiesDiscount | verification.py:159-200 | every penalty that can fire multiplies by 0.5, 0.6, 0.7 or 0.8 |
| ScoringProperties.DiscountedBounds | verification.py:159-200 | applying penalties keeps a positive score positive and never raises it; any penalty strictly lowers it |
| ScoringProperties.ScoreNeverIncreases | verification.py:159-200 | the score after the first k penalties is at most the score after the first j ≤ k, and strictly less when j < k |
| ScoringProperties.ScoreRange | verification.py:149-157 | a record scored from 1.0 ends in (0, 0.81225], and strictly below 0.81225 when any check fired |
| ScoringProperties.RepeatedPenaltyCompounds | verification.py:167-180 | a check that fires n times multiplies by its factor to the n-th power and repeats its reason n times |
| ScoringProperties.GroupSize | verification.py:161 | the group has as many members as the batch has records with that cluster id |
| ScoringProperties.DensityFires | verification.py:160-164 | the record is in its own group, and density fires exactly when more than two records of the batch share its cluster id |
| ScoringProperties.DepthPenaltiesCount | verification.py:166-172 | one depth penalty per record of the batch in the same cluster, with another file name and a depth less than 2.0 away |
| ScoringProperties.TemporalPenaltiesCount | verification.py:174-180 | one time penalty per record of the batch in the same cluster, with another file name, both timestamps present and less than 15 s apart |
| ScoringProperties.DeviceCountInBatch | verification.py:182-185 | the device count is the number of records of the batch in the same cluster with an equal device, absent matching absent, the record included |
| ScoringProperties.ThreeQuickShotsAreFake | verification.py:159-209 | for three photos of one cluster and one device taken 5 s apart, density and device fire for each, and from any start up to 1.0 each is rated Fake, whatever the depths and images |
| ScoringProperties.VerdictMonotone | verification.py:204-209 | a higher score never gets a worse verdict; 0.7 itself is Review and 0.4 itself is Fake |
| Pipeline.SetUpOne | verification.py:88-133 | the record built for one photo is its error record when setup raised, else no verdict, its metadata and depth, cluster -1, and 0.5 with "Missing geolocation" exactly when a coordinate is missing (else 1.0, no reasons); its location is appended exactly when setup got that far with both coordinates |
| Pipeline.SetUp | verification.py:86-133 | one record per photo, in order, each as built for its photo, and the locations collected in photo order |
| Pipeline.NoLocationsIffNoneCollected | verification.py:98-100 | no location is collected exactly when no photo reaches line 100 with both coordinates |
| Pipeline.MapClusters | verification.py:135-143 | with no locations nothing changes; otherwise the k-th record with both coordinates gets label k when there is one, and nothing else changes |
| Pipeline.ScoreOne | verification.py:149-210 | the body leaves the record scored against the batch and given the verdict of its score |
| Pipeline.ScorePhotos | verification.py:145-210 | every record the skip test passes over is left as it is, and every other one is scored in place; the fields the checks read do not change |
| Pipeline.AsWrittenSkipsEveryRecord | verification.py:146-148 | as written, the skip test holds for every record |
| Pipeline.AsWrittenScoresNothing | verification.py:145-210 | as written, the scoring loop returns the batch unchanged |
| Pipeline.ResetDropsMissingGeolocation | verification.py:149-150 | for a lone sharp unedited photo without a location, the body as written rates it Real with "Passed"; started from the setup's 0.5 and reason it rates it Review and keeps "Missing geolocation" |
| Pipeline.MapUrl | verification.py:212-225 | the map path is "static/map.html" exactly when a location was collected, else none |
| Pipeline.VerifyPhotos | verification.py:78-227 | one record per path in order, named by its basename; failed photos get error records; every other record leaves with no verdict and the setup's score and reasons; the k-th geolocated record carries label k, all others -1; the map path follows the collected locations |
| Pipeline.VerifyPhotosCorrected | verification.py:78-227 | as above for files, errors, clusters and the map; every photo that did not fail gets the verdict of its score; its score is the setup score times the detectors and every fired penalty, and its reasons are the setup reasons followed by the checks' reasons; a photo without a location is never rated Real |

## Left out

- EXIF reading and timestamp parsing (verification.py:29-45). These are library I/O. Only the degrees/minutes/seconds arithmetic of lines 39-40 is modelled. Metadata is an input, with timestamps as whole seconds.
- The GPS hemisphere reference. The code ignores it, so southern and western coordinates keep a positive sign. The model does likewise by taking the decimal values as given.
- Depth estimation and `init_midas` (verification.py:17-27, 47-69). These are foreign model calls. The depth is an optional input, and a failure gives 0.0.
- DBSCAN with the haversine metric (verification.py:75-76). This is a foreign library call, taken as a function parameter. Only the empty-input case is the code's own.
- `Image.open` and `img.info` (verification.py:189-197). Foreign image decoding is replaced by an optional width, height and software flag per photo.
- The folium map, its markers and `m.save` (verification.py:215-225). These are file output. Only whether the path is returned is modelled.
- Floating-point rounding. Scores are reals, so rounding next to the 0.7 and 0.4 thresholds is not captured.
- The `depths`, `timestamps` and `devices` lists (verification.py:82-84, 106-109). `depths` is never appended to. `timestamps` and `devices` are filled but never read.
- `print` logging.
- Update in place and aliasing of the result dicts. Records are values in a sequence that the loops reassign. The dicts are never shared, so this changes nothing observable.
- app.py, create_app.py, database.py, test_ocr.py and temp.py are not part of this model. They hold web routing, persistence, OCR and an unused wrapper.

## Findings

| source | as written | input that shows it | evidently intended | confidence | as-written member | corrected member |
|---|---|---|---|---|---|---|
| verification.py:147 | `"status" in result` is true for every record, because both record literals have a "status" key, so the scoring loop scores nothing | any batch; for example one sharp, unedited photo with both coordinates leaves with status None and score 1.0 | skip only records that already carry a verdict (the error records) and score the rest | high; not executed | Pipeline.AsWrittenScoresNothing | Pipeline.VerifyPhotosCorrected |
| verification.py:149-150 | the body restarts at score 1.0 with no reasons, dropping the ×0.5 and "Missing geolocation" of lines 102-103 | one sharp, unedited photo without coordinates: the body rates it Real with ["Passed"] | start from the score and reasons the setup left, so the photo is rated Review with "Missing geolocation" | high; not executed | Pipeline.ResetDropsMissingGeolocation | Pipeline.VerifyPhotosCorrected |
