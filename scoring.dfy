/**
 * The scoring body of verify_photos (verification.py lines 149-210): the
 * chain of multiplicative penalties applied to one record, read against the
 * other members of its cluster group, and the three-way verdict.
 *
 * Scores are real numbers; the source's floating-point rounding is not
 * modelled.
 */
module Scoring {
  import opened Records

  // ----- What a check reads of a record -----

  /**
   * The fields of a record that the checks read. The scoring loop writes only
   * score, status and reason, so these stay as they were for every record
   * while the loop runs.
   */
  datatype Evidence = Evidence(file: string, metadata: Metadata, depth: real, cluster: int)

  function EvidenceOf(r: PhotoRecord): Evidence {
    Evidence(r.file, r.metadata, r.depth, r.cluster)
  }

  function Evidences(rs: seq<PhotoRecord>): (es: seq<Evidence>)
    ensures |es| == |rs|
    ensures forall k :: 0 <= k < |rs| ==> es[k] == EvidenceOf(rs[k])
  {
    seq(|rs|, k requires 0 <= k < |rs| => EvidenceOf(rs[k]))
  }

  // ----- Penalties -----

  /** A triggered check: the factor it multiplies the score by, and the reason it appends. */
  datatype Penalty = Penalty(factor: real, reason: Reason)

  /** The three placeholder detectors (object, manipulation, background), applied silently. */
  const DetectorFactor: real := 0.9 * 0.95 * 0.95

  const DensityPenalty := Penalty(0.6, ExcessivePhotos)
  const DepthPenalty := Penalty(0.7, SimilarDepthInCluster)
  const TemporalPenalty := Penalty(0.6, PhotosTakenTooQuickly)
  const DevicePenalty := Penalty(0.7, SameDevice)
  const LowResolutionPenalty := Penalty(0.8, LowResolution)
  const EditedPenalty := Penalty(0.7, EditedWithSoftware)
  const UnreadableImagePenalty := Penalty(0.5, ImageUnreadable)

  /** A factor one of the checks multiplies by. */
  predicate CheckFactor(f: real) {
    f == 0.5 || f == 0.6 || f == 0.7 || f == 0.8
  }

  /** Every penalty multiplies by one of the checks' factors. */
  predicate Discounts(ps: seq<Penalty>) {
    forall k :: 0 <= k < |ps| ==> CheckFactor(ps[k].factor)
  }

  function RealAbs(x: real): real {
    if x < 0.0 then -x else x
  }

  function IntAbs(x: int): int {
    if x < 0 then -x else x
  }

  /** The records of the batch whose cluster equals `c`, in batch order. */
  function ClusterGroup(es: seq<Evidence>, c: int): (g: seq<Evidence>)
    ensures |g| <= |es|
  {
    if es == [] then []
    else ClusterGroup(es[..|es| - 1], c) + (if es[|es| - 1].cluster == c then [es[|es| - 1]] else [])
  }

  /** The group holds exactly the records of the batch in cluster `c`. */
  lemma {:induction false} ClusterGroupMembers(es: seq<Evidence>, c: int)
    ensures forall e :: e in ClusterGroup(es, c) <==> e in es && e.cluster == c
  {
    if es != [] {
      var init := es[..|es| - 1];
      ClusterGroupMembers(init, c);
      assert es == init + [es[|es| - 1]];
    }
  }

  /** A depth comparison fires: another file whose depth differs by less than 2.0. */
  predicate SimilarDepth(me: Evidence, other: Evidence) {
    other.file != me.file && RealAbs(me.depth - other.depth) < 2.0
  }

  /** A temporal comparison fires: another file, both timestamps present, less than 15 s apart. */
  predicate TakenTooQuickly(me: Evidence, other: Evidence) {
    other.file != me.file
    && other.metadata.timestamp.Some? && me.metadata.timestamp.Some?
    && IntAbs(other.metadata.timestamp.value - me.metadata.timestamp.value) < 15
  }

  /** The density check: more than two records in the group. */
  function DensityPenalties(group: seq<Evidence>): seq<Penalty> {
    if |group| > 2 then [DensityPenalty] else []
  }

  /** One depth penalty per member of `others` that fires, in order. */
  function DepthPenalties(me: Evidence, others: seq<Evidence>): (ps: seq<Penalty>)
    ensures |ps| <= |others|
    ensures forall k :: 0 <= k < |ps| ==> ps[k] == DepthPenalty
  {
    if others == [] then [] else
      DepthPenalties(me, others[..|others| - 1])
      + (if SimilarDepth(me, others[|others| - 1]) then [DepthPenalty] else [])
  }

  /** One temporal penalty per member of `others` that fires, in order. */
  function TemporalPenalties(me: Evidence, others: seq<Evidence>): (ps: seq<Penalty>)
    ensures |ps| <= |others|
    ensures forall k :: 0 <= k < |ps| ==> ps[k] == TemporalPenalty
  {
    if others == [] then [] else
      TemporalPenalties(me, others[..|others| - 1])
      + (if TakenTooQuickly(me, others[|others| - 1]) then [TemporalPenalty] else [])
  }

  /** How many members of `group` have exactly this device (absent matching absent). */
  function DeviceCount(group: seq<Evidence>, device: Option<string>): (n: nat)
    ensures n <= |group|
  {
    if group == [] then 0
    else DeviceCount(group[..|group| - 1], device) + (if group[|group| - 1].metadata.device == device then 1 else 0)
  }

  /** The device check: more than two members of the group with this record's device. */
  function DevicePenalties(me: Evidence, group: seq<Evidence>): seq<Penalty> {
    if DeviceCount(group, me.metadata.device) > 2 then [DevicePenalty] else []
  }

  /** The image checks: resolution and editing software, or a single penalty when the image cannot be opened. */
  function ImagePenalties(image: Option<ImageInfo>): (ps: seq<Penalty>)
    ensures Discounts(ps) && |ps| <= 2
    ensures UnreadableImagePenalty in ps <==> image.None?
    ensures LowResolutionPenalty in ps <==> image.Some? && (image.value.width < 800 || image.value.height < 800)
    ensures EditedPenalty in ps <==> image.Some? && image.value.hasSoftware
    ensures image.None? ==> ps == [UnreadableImagePenalty]
  {
    match image
    case None => [UnreadableImagePenalty]
    case Some(info) =>
      (if info.width < 800 || info.height < 800 then [LowResolutionPenalty] else [])
      + (if info.hasSoftware then [EditedPenalty] else [])
  }

  /**
   * The penalties that fire for record `i` of the batch, in the order the
   * checks run: density, depth (per member), time (per member), device, image.
   */
  function Penalties(es: seq<Evidence>, i: nat, image: Option<ImageInfo>): seq<Penalty>
    requires i < |es|
  {
    var me := es[i];
    var group := ClusterGroup(es, me.cluster);
    DensityPenalties(group)
    + DepthPenalties(me, group)
    + TemporalPenalties(me, group)
    + DevicePenalties(me, group)
    + ImagePenalties(image)
  }

  /** `score` after each penalty of `ps` has multiplied it, in order (a left fold). */
  function Discounted(score: real, ps: seq<Penalty>): real {
    if ps == [] then score else Discounted(score, ps[..|ps| - 1]) * ps[|ps| - 1].factor
  }

  /** The reason strings, in order. */
  function Reasons(ps: seq<Penalty>): (rs: seq<Reason>)
    ensures |rs| == |ps|
  {
    if ps == [] then [] else Reasons(ps[..|ps| - 1]) + [ps[|ps| - 1].reason]
  }

  // ----- The scoring body -----

  /**
   * Lines 149-200 for record `i`: start from `start` and `startReasons`
   * (1.0 and no reasons in the source), apply the three detectors and then
   * every check that fires, multiplying and appending as it goes.
   */
  method AccumulatePenalties(results: seq<PhotoRecord>, i: nat, image: Option<ImageInfo>,
                             start: real, startReasons: seq<Reason>)
    returns (score: real, reason: seq<Reason>)
    requires i < |results|
    ensures score == Discounted(start * DetectorFactor, Penalties(Evidences(results), i, image))
    ensures reason == startReasons + Reasons(Penalties(Evidences(results), i, image))
  {
    var es := Evidences(results);
    var me := es[i];
    score := start;
    reason := startReasons;

    // object detection, manipulation check, background check
    score := score * 0.9;
    score := score * 0.95;
    score := score * 0.95;
    ghost var initial := score;
    assert initial == start * DetectorFactor;

    var group := ClusterGroup(es, me.cluster);
    var s1, r1 := DensityCheck(group, score, reason);
    var s2, r2 := DepthChecks(me, group, s1, r1);
    var s3, r3 := TemporalChecks(me, group, s2, r2);
    var s4, r4 := DeviceCheck(me, group, s3, r3);
    score, reason := ImageChecks(image, s4, r4);
    ChecksCompose(initial, startReasons,
      DensityPenalties(group), DepthPenalties(me, group), TemporalPenalties(me, group),
      DevicePenalties(me, group), ImagePenalties(image),
      s1, s2, s3, s4, score, r1, r2, r3, r4, reason);
    assert Penalties(es, i, image) == DensityPenalties(group) + DepthPenalties(me, group)
      + TemporalPenalties(me, group) + DevicePenalties(me, group) + ImagePenalties(image);
  }

  /** Lines 161-164: the density check on the cluster group. */
  method DensityCheck(group: seq<Evidence>, score: real, reason: seq<Reason>)
    returns (score': real, reason': seq<Reason>)
    ensures score' == Discounted(score, DensityPenalties(group))
    ensures reason' == reason + Reasons(DensityPenalties(group))
  {
    score', reason' := score, reason;
    if |group| > 2 {
      score' := score' * DensityPenalty.factor;
      reason' := reason' + [DensityPenalty.reason];
    }
  }

  /** Lines 167-172: one depth comparison per member of the group. */
  method DepthChecks(me: Evidence, group: seq<Evidence>, score: real, reason: seq<Reason>)
    returns (score': real, reason': seq<Reason>)
    ensures score' == Discounted(score, DepthPenalties(me, group))
    ensures reason' == reason + Reasons(DepthPenalties(me, group))
  {
    score', reason' := score, reason;
    for k := 0 to |group|
      invariant score' == Discounted(score, DepthPenalties(me, group[..k]))
      invariant reason' == reason + Reasons(DepthPenalties(me, group[..k]))
    {
      var other := group[k];
      assert group[..k + 1][..k] == group[..k];
      ghost var before := DepthPenalties(me, group[..k]);
      assert DepthPenalties(me, group[..k + 1])
        == before + (if SimilarDepth(me, other) then [DepthPenalty] else []);
      if !SimilarDepth(me, other) {
        assert before + [] == before;
      }
      if other.file != me.file {
        var depthDiff := RealAbs(me.depth - other.depth);
        if depthDiff < 2.0 {
          ApplyStep(score', score, reason', reason, before, DepthPenalty);
          score' := score' * DepthPenalty.factor;
          reason' := reason' + [DepthPenalty.reason];
        }
      }
    }
    assert group[..|group|] == group;
  }

  /** Lines 175-180: one time comparison per member of the group. */
  method TemporalChecks(me: Evidence, group: seq<Evidence>, score: real, reason: seq<Reason>)
    returns (score': real, reason': seq<Reason>)
    ensures score' == Discounted(score, TemporalPenalties(me, group))
    ensures reason' == reason + Reasons(TemporalPenalties(me, group))
  {
    score', reason' := score, reason;
    for k := 0 to |group|
      invariant score' == Discounted(score, TemporalPenalties(me, group[..k]))
      invariant reason' == reason + Reasons(TemporalPenalties(me, group[..k]))
    {
      var other := group[k];
      assert group[..k + 1][..k] == group[..k];
      ghost var before := TemporalPenalties(me, group[..k]);
      assert TemporalPenalties(me, group[..k + 1])
        == before + (if TakenTooQuickly(me, other) then [TemporalPenalty] else []);
      if !TakenTooQuickly(me, other) {
        assert before + [] == before;
      }
      if other.file != me.file && other.metadata.timestamp.Some? && me.metadata.timestamp.Some? {
        var timeDiff := IntAbs(other.metadata.timestamp.value - me.metadata.timestamp.value);
        if timeDiff < 15 {
          ApplyStep(score', score, reason', reason, before, TemporalPenalty);
          score' := score' * TemporalPenalty.factor;
          reason' := reason' + [TemporalPenalty.reason];
        }
      }
    }
    assert group[..|group|] == group;
  }

  /** Lines 183-185: the device check on the cluster group. */
  method DeviceCheck(me: Evidence, group: seq<Evidence>, score: real, reason: seq<Reason>)
    returns (score': real, reason': seq<Reason>)
    ensures score' == Discounted(score, DevicePenalties(me, group))
    ensures reason' == reason + Reasons(DevicePenalties(me, group))
  {
    score', reason' := score, reason;
    if DeviceCount(group, me.metadata.device) > 2 {
      score' := score' * DevicePenalty.factor;
      reason' := reason' + [DevicePenalty.reason];
    }
  }

  /** Lines 188-200: the image checks, or the single penalty when the image cannot be opened. */
  method ImageChecks(image: Option<ImageInfo>, score: real, reason: seq<Reason>)
    returns (score': real, reason': seq<Reason>)
    ensures score' == Discounted(score, ImagePenalties(image))
    ensures reason' == reason + Reasons(ImagePenalties(image))
  {
    score', reason' := score, reason;
    match image {
      case None =>
        ApplyStep(score', score, reason', reason, [], UnreadableImagePenalty);
        score' := score' * UnreadableImagePenalty.factor;
        reason' := reason' + [UnreadableImagePenalty.reason];
      case Some(info) =>
        ghost var applied: seq<Penalty> := [];
        assert reason' == reason + Reasons(applied);
        if info.width < 800 || info.height < 800 {
          ApplyStep(score', score, reason', reason, applied, LowResolutionPenalty);
          score' := score' * LowResolutionPenalty.factor;
          reason' := reason' + [LowResolutionPenalty.reason];
          applied := applied + [LowResolutionPenalty];
        }
        if info.hasSoftware {
          ApplyStep(score', score, reason', reason, applied, EditedPenalty);
          score' := score' * EditedPenalty.factor;
          reason' := reason' + [EditedPenalty.reason];
          applied := applied + [EditedPenalty];
        }
        assert applied == ImagePenalties(image);
    }
  }

  /** The five stages of checks, applied one after the other, apply their concatenation. */
  lemma ChecksCompose(initial: real, base: seq<Reason>,
                      a: seq<Penalty>, b: seq<Penalty>, c: seq<Penalty>, d: seq<Penalty>, e: seq<Penalty>,
                      s1: real, s2: real, s3: real, s4: real, s5: real,
                      r1: seq<Reason>, r2: seq<Reason>, r3: seq<Reason>, r4: seq<Reason>, r5: seq<Reason>)
    requires s1 == Discounted(initial, a) && r1 == base + Reasons(a)
    requires s2 == Discounted(s1, b) && r2 == r1 + Reasons(b)
    requires s3 == Discounted(s2, c) && r3 == r2 + Reasons(c)
    requires s4 == Discounted(s3, d) && r4 == r3 + Reasons(d)
    requires s5 == Discounted(s4, e) && r5 == r4 + Reasons(e)
    ensures s5 == Discounted(initial, a + b + c + d + e)
    ensures r5 == base + Reasons(a + b + c + d + e)
  {
    DiscountedAppend(initial, a, b);
    DiscountedAppend(initial, a + b, c);
    DiscountedAppend(initial, a + b + c, d);
    DiscountedAppend(initial, a + b + c + d, e);
    ReasonsChain(base, r1, r2, a, b);
    ReasonsChain(base, r2, r3, a + b, c);
    ReasonsChain(base, r3, r4, a + b + c, d);
    ReasonsChain(base, r4, r5, a + b + c + d, e);
  }

  /**
   * One more penalty: multiplying the score for `applied` by its factor, and
   * appending its reason, gives the score and reasons for `applied + [p]`.
   */
  lemma ApplyStep(score: real, initial: real, reason: seq<Reason>, base: seq<Reason>,
                  applied: seq<Penalty>, p: Penalty)
    requires score == Discounted(initial, applied)
    requires reason == base + Reasons(applied)
    ensures score * p.factor == Discounted(initial, applied + [p])
    ensures reason + [p.reason] == base + Reasons(applied + [p])
  {
    var r := applied + [p];
    assert r[..|r| - 1] == applied;
    assert (base + Reasons(applied)) + [p.reason] == base + (Reasons(applied) + [p.reason]);
  }

  /** Applying `a` and then `b` is applying `a + b`. */
  lemma {:induction false} DiscountedAppend(score: real, a: seq<Penalty>, b: seq<Penalty>)
    ensures Discounted(score, a + b) == Discounted(Discounted(score, a), b)
  {
    if b == [] {
      assert a + b == a;
    } else {
      var b' := b[..|b| - 1];
      assert (a + b)[..|a + b| - 1] == a + b';
      DiscountedAppend(score, a, b');
    }
  }

  /** Reasons appended for `a` and then for `b` are the reasons for `a + b`. */
  lemma ReasonsChain(base: seq<Reason>, afterA: seq<Reason>, afterB: seq<Reason>, a: seq<Penalty>, b: seq<Penalty>)
    requires afterA == base + Reasons(a) && afterB == afterA + Reasons(b)
    ensures afterB == base + Reasons(a + b)
  {
    ReasonsAppend(a, b);
    assert (base + Reasons(a)) + Reasons(b) == base + (Reasons(a) + Reasons(b));
  }

  /** The reasons of `a + b` are those of `a` followed by those of `b`. */
  lemma {:induction false} ReasonsAppend(a: seq<Penalty>, b: seq<Penalty>)
    ensures Reasons(a + b) == Reasons(a) + Reasons(b)
  {
    if b == [] {
      assert a + b == a;
    } else {
      var b' := b[..|b| - 1];
      assert (a + b)[..|a + b| - 1] == a + b';
      ReasonsAppend(a, b');
    }
  }

  // ----- The verdict -----

  /** The three-way threshold of lines 204-209. */
  function Verdict(score: real): (v: Status)
    ensures v != Error
    ensures v == Real <==> score > 0.7
    ensures v == Review <==> 0.4 < score <= 0.7
    ensures v == Fake <==> score <= 0.4
  {
    if score > 0.7 then Real else if score > 0.4 then Review else Fake
  }

  /** Lines 203-210: write the score, its verdict, and the reasons ("Passed" when there are none). */
  function Finalized(r: PhotoRecord, score: real, reason: seq<Reason>): (f: PhotoRecord)
    ensures EvidenceOf(f) == EvidenceOf(r)
    ensures f.score == score && f.status == Some(Verdict(score))
    ensures f.reason != []
    ensures reason != [] ==> f.reason == reason
    ensures reason == [] ==> f.reason == [Passed]
  {
    r.(score := score, status := Some(Verdict(score)), reason := if reason == [] then [Passed] else reason)
  }
}
