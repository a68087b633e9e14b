/**
 * The small pieces of arithmetic and string handling around the foreign
 * calls of verification.py: the degrees/minutes/seconds conversion of EXIF
 * GPS values, the basename of a path, and the clustering entry point, whose
 * only behaviour of its own is the answer for an empty location list.
 */
module Extraction {
  import opened Records

  /** Decimal degrees from a degrees/minutes/seconds triple. */
  function DmsToDecimal(degrees: real, minutes: real, seconds: real): real {
    degrees + minutes / 60.0 + seconds / 3600.0
  }

  /**
   * For a canonical triple (whole degrees, whole minutes below 60, seconds
   * below 60) the decimal value determines the triple: its floor is the
   * degrees, the floor of the fraction times 60 is the minutes, and what is
   * left is the seconds.
   */
  lemma DmsDecodesBack(d: int, m: int, s: real)
    requires 0 <= m < 60 && 0.0 <= s < 60.0
    ensures var x := DmsToDecimal(d as real, m as real, s);
      x.Floor == d
      && ((x - d as real) * 60.0).Floor == m
      && (x - d as real) * 3600.0 - (m as real) * 60.0 == s
  {
    var x := DmsToDecimal(d as real, m as real, s);
    var frac := x - d as real;
    assert frac == (m as real) / 60.0 + s / 3600.0;
    assert 0.0 <= frac < 1.0;
    assert frac * 60.0 == m as real + s / 60.0;
  }

  /** The last component of a path, as os.path.basename gives it. */
  function Basename(path: string): string {
    if path == [] || path[|path| - 1] == '/' then []
    else Basename(path[..|path| - 1]) + [path[|path| - 1]]
  }

  /**
   * The basename is everything after the last '/' of the path, or the whole
   * path when it has none: a suffix with no '/', preceded by a '/' unless it
   * is the whole path.
   */
  lemma {:induction false} BasenameIsLastComponent(path: string)
    ensures var b := Basename(path);
      |b| <= |path| && b == path[|path| - |b|..]
      && '/' !in b
      && (|b| == |path| || path[|path| - |b| - 1] == '/')
  {
    if path != [] && path[|path| - 1] != '/' {
      var init := path[..|path| - 1];
      BasenameIsLastComponent(init);
      var b0, c := Basename(init), path[|path| - 1];
      assert Basename(path) == b0 + [c];
      assert path[|init| - |b0|..] == init[|init| - |b0|..] + [c];
      assert |b0| < |init| ==> path[|init| - |b0| - 1] == init[|init| - |b0| - 1];
    }
  }

  /**
   * cluster_geolocations: an empty location list yields no labels without
   * consulting the clusterer; otherwise the labels are whatever DBSCAN
   * (supplied here as `dbscan`) assigns to the list.
   */
  function ClusterGeolocations(locations: seq<Location>, dbscan: seq<Location> -> seq<int>): (labels: seq<int>)
    ensures locations == [] ==> labels == []
    ensures locations != [] ==> labels == dbscan(locations)
  {
    if locations == [] then [] else dbscan(locations)
  }
}
