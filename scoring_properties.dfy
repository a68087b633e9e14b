/**
 * What the scoring body promises, stated over its specification functions:
 * every check discounts, the score only falls, the reasons count the checks
 * that fired, each cross-record check counts exactly the records of the
 * batch it should, and the verdict respects the order of scores.
 */
module ScoringProperties {
  import opened Records
  import opened Scoring

  // ----- Every check discounts; the score only falls -----

  lemma DiscountsAppend(a: seq<Penalty>, b: seq<Penalty>)
    requires Discounts(a) && Discounts(b)
    ensures Discounts(a + b)
  {
    forall k | 0 <= k < |a + b| ensures CheckFactor((a + b)[k].factor) {
      if k >= |a| { assert (a + b)[k] == b[k - |a|]; }
    }
  }

  /** Every penalty that can fire for a record multiplies by one of the checks' factors. */
  lemma PenaltiesDiscount(es: seq<Evidence>, i: nat, image: Option<ImageInfo>)
    requires i < |es|
    ensures Discounts(Penalties(es, i, image))
  {
    var me := es[i];
    var g := ClusterGroup(es, me.cluster);
    DiscountsAppend(DensityPenalties(g), DepthPenalties(me, g));
    DiscountsAppend(DensityPenalties(g) + DepthPenalties(me, g), TemporalPenalties(me, g));
    DiscountsAppend(DensityPenalties(g) + DepthPenalties(me, g) + TemporalPenalties(me, g), DevicePenalties(me, g));
    DiscountsAppend(DensityPenalties(g) + DepthPenalties(me, g) + TemporalPenalties(me, g) + DevicePenalties(me, g),
                    ImagePenalties(image));
  }

  /** Each check's factor lies strictly between 0 and 1, so it shrinks a positive score and keeps it positive. */
  lemma ShrinkPositive(x: real, f: real, y: real)
    requires x > 0.0 && CheckFactor(f) && y == x * f
    ensures 0.0 < f < 1.0
    ensures 0.0 < y < x
  {
    if f == 0.5 { assert y == x * 0.5; }
    else if f == 0.6 { assert y == x * 0.6; }
    else if f == 0.7 { assert y == x * 0.7; }
    else { assert y == x * 0.8; }
  }

  /** Discounting a positive score keeps it positive and never raises it; any penalty lowers it. */
  lemma {:induction false} DiscountedBounds(score: real, ps: seq<Penalty>)
    requires score > 0.0 && Discounts(ps)
    ensures 0.0 < Discounted(score, ps) <= score
    ensures ps != [] ==> Discounted(score, ps) < score
  {
    if ps != [] {
      var init := ps[..|ps| - 1];
      assert Discounts(init);
      DiscountedBounds(score, init);
      ShrinkPositive(Discounted(score, init), ps[|ps| - 1].factor, Discounted(score, ps));
    }
  }

  /**
   * The score never increases as the checks run: after the first k
   * penalties it is at most what it was after the first j, for j <= k, and
   * strictly less when a penalty lies between.
   */
  lemma ScoreNeverIncreases(score: real, ps: seq<Penalty>, j: nat, k: nat)
    requires score > 0.0 && Discounts(ps) && j <= k <= |ps|
    ensures Discounted(score, ps[..k]) <= Discounted(score, ps[..j])
    ensures j < k ==> Discounted(score, ps[..k]) < Discounted(score, ps[..j])
  {
    var before, between := ps[..j], ps[j..k];
    assert ps[..k] == before + between;
    DiscountedAppend(score, before, between);
    DiscountsSlice(ps, 0, j);
    DiscountsSlice(ps, j, k);
    assert ps[0..j] == before;
    DiscountedBounds(score, before);
    DiscountedBounds(Discounted(score, before), between);
  }

  /** A slice of penalties that all discount also discounts. */
  lemma DiscountsSlice(ps: seq<Penalty>, j: nat, k: nat)
    requires Discounts(ps) && j <= k <= |ps|
    ensures Discounts(ps[j..k])
  {
    forall n | 0 <= n < k - j ensures CheckFactor(ps[j..k][n].factor) {
      assert ps[j..k][n] == ps[j + n];
    }
  }

  /**
   * A record scored from 1.0 ends with a score in (0, 0.81225]: the three
   * detectors always apply, and every further check only lowers it.
   */
  lemma ScoreRange(es: seq<Evidence>, i: nat, image: Option<ImageInfo>)
    requires i < |es|
    ensures 0.0 < Discounted(1.0 * DetectorFactor, Penalties(es, i, image)) <= 0.81225
    ensures Penalties(es, i, image) != [] ==> Discounted(1.0 * DetectorFactor, Penalties(es, i, image)) < 0.81225
  {
    PenaltiesDiscount(es, i, image);
    DiscountedBounds(1.0 * DetectorFactor, Penalties(es, i, image));
  }

  function Pow(x: real, n: nat): real {
    if n == 0 then 1.0 else Pow(x, n - 1) * x
  }

  /** A check that fires n times compounds: its factor is applied n times. */
  lemma {:induction false} RepeatedPenaltyCompounds(score: real, ps: seq<Penalty>, p: Penalty)
    requires forall k :: 0 <= k < |ps| ==> ps[k] == p
    ensures Discounted(score, ps) == score * Pow(p.factor, |ps|)
    ensures Reasons(ps) == seq(|ps|, _ => p.reason)
  {
    if ps != [] {
      var init := ps[..|ps| - 1];
      RepeatedPenaltyCompounds(score, init, p);
      assert Discounted(score, ps) == score * Pow(p.factor, |init|) * p.factor;
    }
  }

  /**
   * The image checks run resolution first, then software: when both fire the
   * low-resolution penalty comes first, and each fires at most once.
   */
  lemma ImagePenaltiesOrder(image: Option<ImageInfo>)
    ensures |ImagePenalties(image)| == 2 ==> ImagePenalties(image) == [LowResolutionPenalty, EditedPenalty]
    ensures |ImagePenalties(image)| == 1 ==>
              (ImagePenalties(image) == [UnreadableImagePenalty]
               || ImagePenalties(image) == [LowResolutionPenalty] || ImagePenalties(image) == [EditedPenalty])
  {
  }

  // ----- Cluster groups and the cross-record checks -----

  function InCluster(c: int): Evidence -> bool {
    (e: Evidence) => e.cluster == c
  }

  function SimilarDepthPeer(me: Evidence): Evidence -> bool {
    (e: Evidence) => e.cluster == me.cluster && SimilarDepth(me, e)
  }

  function QuickPeer(me: Evidence): Evidence -> bool {
    (e: Evidence) => e.cluster == me.cluster && TakenTooQuickly(me, e)
  }

  function SameDevicePeer(me: Evidence): Evidence -> bool {
    (e: Evidence) => e.cluster == me.cluster && e.metadata.device == me.metadata.device
  }

  /** The cluster group has one member per record of the batch with that cluster id, and holds the record itself. */
  lemma {:induction false} GroupSize(es: seq<Evidence>, c: int)
    ensures |ClusterGroup(es, c)| == |Indices(es, InCluster(c))|
  {
    if es != [] {
      var init, last := es[..|es| - 1], es[|es| - 1];
      assert es == init + [last];
      GroupSize(init, c);
      IndicesSnoc(init, last, InCluster(c));
    }
  }

  /**
   * The density check fires exactly when more than two records of the batch
   * (the record itself included, unclustered -1 records included) share the
   * record's cluster id.
   */
  lemma DensityFires(es: seq<Evidence>, i: nat)
    requires i < |es|
    ensures es[i] in ClusterGroup(es, es[i].cluster)
    ensures DensityPenalties(ClusterGroup(es, es[i].cluster)) == [DensityPenalty]
            <==> |Indices(es, InCluster(es[i].cluster))| > 2
  {
    GroupSize(es, es[i].cluster);
    ClusterGroupMembers(es, es[i].cluster);
    assert es[i] in es;
  }

  /** One depth penalty per record of the batch in the same cluster, with another file and a depth within 2.0. */
  lemma {:induction false} DepthPenaltiesCount(me: Evidence, es: seq<Evidence>)
    ensures |DepthPenalties(me, ClusterGroup(es, me.cluster))| == |Indices(es, SimilarDepthPeer(me))|
  {
    if es != [] {
      var init, last := es[..|es| - 1], es[|es| - 1];
      assert es == init + [last];
      DepthPenaltiesCount(me, init);
      IndicesSnoc(init, last, SimilarDepthPeer(me));
      var g := ClusterGroup(init, me.cluster);
      var step := if last.cluster == me.cluster then [last] else [];
      assert ClusterGroup(es, me.cluster) == g + step;
      if last.cluster == me.cluster {
        assert (g + [last])[..|g|] == g;
        assert |DepthPenalties(me, g + [last])| == |DepthPenalties(me, g)| + (if SimilarDepthPeer(me)(last) then 1 else 0);
      } else {
        assert g + step == g;
      }
    }
  }


  /** One temporal penalty per record of the batch in the same cluster, with another file and a timestamp less than 15 s away. */
  lemma {:induction false} TemporalPenaltiesCount(me: Evidence, es: seq<Evidence>)
    ensures |TemporalPenalties(me, ClusterGroup(es, me.cluster))| == |Indices(es, QuickPeer(me))|
  {
    if es != [] {
      var init, last := es[..|es| - 1], es[|es| - 1];
      assert es == init + [last];
      TemporalPenaltiesCount(me, init);
      IndicesSnoc(init, last, QuickPeer(me));
      var g := ClusterGroup(init, me.cluster);
      var step := if last.cluster == me.cluster then [last] else [];
      assert ClusterGroup(es, me.cluster) == g + step;
      if last.cluster == me.cluster {
        assert (g + [last])[..|g|] == g;
        assert |TemporalPenalties(me, g + [last])| == |TemporalPenalties(me, g)| + (if QuickPeer(me)(last) then 1 else 0);
      } else {
        assert g + step == g;
      }
    }
  }


  /**
   * The device count is the number of records of the batch in the same
   * cluster with an equal device (absent equal to absent, the record itself
   * included).
   */
  lemma {:induction false} DeviceCountInBatch(me: Evidence, es: seq<Evidence>)
    ensures DeviceCount(ClusterGroup(es, me.cluster), me.metadata.device) == |Indices(es, SameDevicePeer(me))|
  {
    if es != [] {
      var init, last := es[..|es| - 1], es[|es| - 1];
      assert es == init + [last];
      DeviceCountInBatch(me, init);
      IndicesSnoc(init, last, SameDevicePeer(me));
      var g := ClusterGroup(init, me.cluster);
      var step := if last.cluster == me.cluster then [last] else [];
      assert ClusterGroup(es, me.cluster) == g + step;
      if last.cluster == me.cluster {
        assert (g + [last])[..|g|] == g;
      } else {
        assert g + step == g;
      }
    }
  }


  // ----- A burst of shots from one place -----

  /** When every record of the batch shares the cluster id, the group is the whole batch. */
  lemma {:induction false} ClusterGroupAll(es: seq<Evidence>, c: int)
    requires forall k :: 0 <= k < |es| ==> es[k].cluster == c
    ensures ClusterGroup(es, c) == es
  {
    if es != [] {
      var init := es[..|es| - 1];
      ClusterGroupAll(init, c);
      assert es == init + [es[|es| - 1]];
    }
  }

  /** The burst: three records of one cluster and one device, from distinct files, taken 5 s apart. */
  predicate Burst(es: seq<Evidence>, t: int) {
    |es| == 3
    && es[0].file != es[1].file && es[1].file != es[2].file && es[0].file != es[2].file
    && forall k :: 0 <= k < 3 ==>
      es[k].cluster == es[0].cluster && es[k].metadata.device == es[0].metadata.device
      && es[k].metadata.timestamp == Some(t + 5 * k)
  }

  /** In a burst each record is less than 15 s from each of the two others. */
  lemma BurstTimes(es: seq<Evidence>, i: nat, t: int)
    requires Burst(es, t) && i < 3
    ensures TemporalPenalties(es[i], es) == [TemporalPenalty, TemporalPenalty]
  {
    var me := es[i];
    assert es[..2][..1] == es[..1] && es[..1][..0] == [] && es[..3] == es;
    assert TemporalPenalties(me, es[..1]) == (if i == 0 then [] else [TemporalPenalty]);
    assert TemporalPenalties(me, es[..2]) == (if i == 2 then [TemporalPenalty, TemporalPenalty] else [TemporalPenalty]);
  }

  /** In a burst all three records share the device. */
  lemma BurstDevices(es: seq<Evidence>, i: nat, t: int)
    requires Burst(es, t) && i < 3
    ensures DeviceCount(es, es[i].metadata.device) == 3
  {
    assert es[..2][..1] == es[..1] && es[..1][..0] == [] && es[..3] == es;
    assert DeviceCount(es[..1], es[i].metadata.device) == 1;
    assert DeviceCount(es[..2], es[i].metadata.device) == 2;
  }

  /** The penalties of a burst record: density, its depth penalties, two time penalties, device, its image penalties. */
  lemma BurstPenalties(es: seq<Evidence>, i: nat, image: Option<ImageInfo>, t: int)
    requires Burst(es, t) && i < 3
    ensures Penalties(es, i, image)
      == [DensityPenalty] + DepthPenalties(es[i], es) + [TemporalPenalty, TemporalPenalty] + [DevicePenalty]
         + ImagePenalties(image)
  {
    ClusterGroupAll(es, es[i].cluster);
    BurstTimes(es, i, t);
    BurstDevices(es, i, t);
  }

  /**
   * Density, two time penalties and the device penalty take any start of at
   * most 1.0, after the detectors, below 0.4, whatever else fires.
   */
  lemma BurstScoreIsFake(start: real, b: seq<Penalty>, e: seq<Penalty>)
    requires 0.0 < start <= 1.0 && Discounts(b) && Discounts(e)
    ensures Verdict(Discounted(start * DetectorFactor,
                               [DensityPenalty] + b + [TemporalPenalty, TemporalPenalty] + [DevicePenalty] + e)) == Fake
  {
    var a, c, d := [DensityPenalty], [TemporalPenalty, TemporalPenalty], [DevicePenalty];
    var x0 := start * DetectorFactor;
    var x1 := Discounted(x0, a);
    var x2 := Discounted(x1, b);
    var x3 := Discounted(x2, c);
    var x4 := Discounted(x3, d);
    DiscountedAppend(x0, a, b);
    DiscountedAppend(x0, a + b, c);
    DiscountedAppend(x0, a + b + c, d);
    DiscountedAppend(x0, a + b + c + d, e);
    assert x1 == x0 * 0.6;
    DiscountedBounds(x1, b);
    assert c[..1] == [TemporalPenalty] && c[..1][..0] == [];
    assert Discounted(x2, c[..1]) == x2 * 0.6;
    assert x3 == x2 * 0.6 * 0.6;
    assert x4 == x3 * 0.7;
    DiscountedBounds(x4, e);
  }

  /**
   * Three photos of one cluster, from one device, taken 5 s apart: for each
   * of them the density check, two time comparisons and the device check
   * fire, so whatever the depths and images, and from any starting score up
   * to 1.0, the photo is rated Fake.
   */
  lemma ThreeQuickShotsAreFake(es: seq<Evidence>, i: nat, image: Option<ImageInfo>, t: int, start: real)
    requires Burst(es, t) && i < 3 && 0.0 < start <= 1.0
    ensures DensityPenalty in Penalties(es, i, image) && DevicePenalty in Penalties(es, i, image)
    ensures Verdict(Discounted(start * DetectorFactor, Penalties(es, i, image))) == Fake
  {
    BurstPenalties(es, i, image, t);
    var b := DepthPenalties(es[i], es);
    assert Discounts(b);
    BurstScoreIsFake(start, b, ImagePenalties(image));
    var ps := Penalties(es, i, image);
    assert ps[0] == DensityPenalty;
    assert ps[|b| + 3] == DevicePenalty;
  }

  // ----- The verdict -----

  function Rank(v: Status): int {
    match v
    case Fake => 0
    case Review => 1
    case Real => 2
    case Error => -1
  }

  /** A higher score never gets a worse verdict; 0.7 itself is Review and 0.4 itself is Fake. */
  lemma VerdictMonotone(a: real, b: real)
    requires a <= b
    ensures Rank(Verdict(a)) <= Rank(Verdict(b))
    ensures Verdict(0.7) == Review && Verdict(0.4) == Fake
  {
  }
}
