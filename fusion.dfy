/**
 * Proximity clustering of the skeletons all sensors reported, in one pass:
 * each skeleton joins every cluster whose running centre is strictly closer
 * than 0.3 length units, and opens a new cluster when there is none.
 * The running centre is updated by an averaging helper whose definition is not
 * part of this model; it is a parameter `inc(centre, sample, priorCount)`.
 */
module Fusion {
  import opened Geometry
  import opened KinectBase

  /** The skeletons found to belong to one body in this pass, in the order they were added. */
  datatype MergedSkeleton = MergedSkeleton(members: seq<KinectSkeleton>)

  /** Distances are compared squared: `|d| < 0.3` exactly when `d·d < 0.09`. */
  const MergeDistanceSquared: real := 0.09

  predicate Near(center: Point3, p: Point3) {
    SquaredDistance(center, p) < MergeDistanceSquared
  }

  predicate AnyNear(centers: seq<Point3>, p: Point3) {
    exists k :: 0 <= k < |centers| && Near(centers[k], p)
  }

  /** The state of the pass: one running centre per cluster. */
  datatype Clustering = Clustering(centers: seq<Point3>, clusters: seq<MergedSkeleton>) {
    ghost predicate Valid() {
      |centers| == |clusters|
    }
  }

  type Averager = (Point3, Point3, int) -> Point3

  /** Adding one skeleton to the clusters. */
  function Place(c: Clustering, s: KinectSkeleton, inc: Averager): (r: Clustering)
    requires c.Valid()
    ensures r.Valid()
    ensures |c.clusters| <= |r.clusters| <= |c.clusters| + 1
  {
    var p := s.position;
    var n := |c.centers|;
    var centers := seq(n, k requires 0 <= k < n =>
      if Near(c.centers[k], p) then inc(c.centers[k], p, |c.clusters[k].members|) else c.centers[k]);
    var clusters := seq(n, k requires 0 <= k < n =>
      if Near(c.centers[k], p) then MergedSkeleton(c.clusters[k].members + [s]) else c.clusters[k]);
    if AnyNear(c.centers, p) then Clustering(centers, clusters)
    else Clustering(centers + [p], clusters + [MergedSkeleton([s])])
  }

  /**
   * What one placement does: a near cluster gains the skeleton and moves its
   * centre, a far one is untouched, and a new cluster is opened exactly when
   * no centre is near.
   */
  lemma PlaceSpec(c: Clustering, s: KinectSkeleton, inc: Averager)
    requires c.Valid()
    ensures var r := Place(c, s, inc);
      && |r.clusters| == |c.clusters| + (if AnyNear(c.centers, s.position) then 0 else 1)
      && (forall k :: 0 <= k < |c.clusters| ==>
            && r.clusters[k].members == c.clusters[k].members + (if Near(c.centers[k], s.position) then [s] else [])
            && r.centers[k] == (if Near(c.centers[k], s.position)
                                then inc(c.centers[k], s.position, |c.clusters[k].members|)
                                else c.centers[k]))
      && (!AnyNear(c.centers, s.position) ==>
            r.clusters[|c.clusters|] == MergedSkeleton([s]) && r.centers[|c.centers|] == s.position)
  {
  }

  /** The clusters after adding `xs` in order, starting from none. */
  function Cluster(xs: seq<KinectSkeleton>, inc: Averager): (r: Clustering)
    ensures r.Valid()
    ensures |r.clusters| <= |xs|
  {
    if xs == [] then Clustering([], [])
    else Place(Cluster(xs[..|xs| - 1], inc), xs[|xs| - 1], inc)
  }

  /** The skeletons of all snapshots, sensor by sensor, each in its received order. */
  function Flatten(lists: seq<seq<KinectSkeleton>>): (r: seq<KinectSkeleton>)
  {
    if lists == [] then [] else Flatten(lists[..|lists| - 1]) + lists[|lists| - 1]
  }

  /** The outcome of one pass over the snapshots' skeleton lists. */
  function FindSameSkeletons(lists: seq<seq<KinectSkeleton>>, inc: Averager): Clustering {
    Cluster(Flatten(lists), inc)
  }

  /**
   * The source's inner matching loop for one skeleton: it joins every
   * cluster whose centre is near, moving that centre, and opens a cluster of
   * its own when none is.
   */
  method PlaceSkeleton(averageCenters: seq<Point3>, mergedSkeletons: seq<MergedSkeleton>, s: KinectSkeleton, inc: Averager)
    returns (centers: seq<Point3>, clusters: seq<MergedSkeleton>)
    requires |averageCenters| == |mergedSkeletons|
    ensures Clustering(centers, clusters) == Place(Clustering(averageCenters, mergedSkeletons), s, inc)
  {
    centers, clusters := averageCenters, mergedSkeletons;
    var matchFound := false;
    for k := 0 to |centers|
      invariant |centers| == |clusters| == |averageCenters|
      invariant forall m :: 0 <= m < k ==>
        && clusters[m].members == mergedSkeletons[m].members + (if Near(averageCenters[m], s.position) then [s] else [])
        && centers[m] == (if Near(averageCenters[m], s.position)
                          then inc(averageCenters[m], s.position, |mergedSkeletons[m].members|)
                          else averageCenters[m])
      invariant forall m :: k <= m < |centers| ==> centers[m] == averageCenters[m] && clusters[m] == mergedSkeletons[m]
      invariant matchFound <==> exists m :: 0 <= m < k && Near(averageCenters[m], s.position)
    {
      if SquaredDistance(centers[k], s.position) < MergeDistanceSquared {
        matchFound := true;
        centers := centers[k := inc(centers[k], s.position, |clusters[k].members|)];
        clusters := clusters[k := MergedSkeleton(clusters[k].members + [s])];
      }
    }
    if !matchFound {
      clusters := clusters + [MergedSkeleton([s])];
      centers := centers + [s.position];
    }
    PlaceSpec(Clustering(averageCenters, mergedSkeletons), s, inc);
    ghost var r := Place(Clustering(averageCenters, mergedSkeletons), s, inc);
    assert centers == r.centers;
    assert clusters == r.clusters;
  }

  /**
   * The source's loop over one snapshot's skeletons: each is placed in turn.
   * Started from the clusters of `done`, it ends with those of `done + skeletons`.
   */
  method PlaceSkeletons(averageCenters: seq<Point3>, mergedSkeletons: seq<MergedSkeleton>, skeletons: seq<KinectSkeleton>,
                        inc: Averager, ghost done: seq<KinectSkeleton>)
    returns (centers: seq<Point3>, clusters: seq<MergedSkeleton>)
    requires Clustering(averageCenters, mergedSkeletons) == Cluster(done, inc)
    ensures Clustering(centers, clusters) == Cluster(done + skeletons, inc)
  {
    centers, clusters := averageCenters, mergedSkeletons;
    assert done + skeletons[..0] == done;
    for j := 0 to |skeletons|
      invariant Clustering(centers, clusters) == Cluster(done + skeletons[..j], inc)
    {
      ClusterSnoc(done + skeletons[..j], skeletons[j], inc);
      centers, clusters := PlaceSkeleton(centers, clusters, skeletons[j], inc);
      PrefixSnoc(done, skeletons, j);
    }
    assert done + skeletons[..|skeletons|] == done + skeletons;
  }

  // ---------------------------------------------------------------- lemmas

  lemma ClusterSnoc(xs: seq<KinectSkeleton>, x: KinectSkeleton, inc: Averager)
    ensures Cluster(xs + [x], inc) == Place(Cluster(xs, inc), x, inc)
  {
    assert (xs + [x])[..|xs|] == xs;
  }

  lemma PrefixSnoc<T>(a: seq<T>, s: seq<T>, j: nat)
    requires j < |s|
    ensures a + s[..j + 1] == (a + s[..j]) + [s[j]]
  {
    assert s[..j + 1] == s[..j] + [s[j]];
  }

  lemma FlattenSnoc(lists: seq<seq<KinectSkeleton>>, i: nat)
    requires i < |lists|
    ensures Flatten(lists[..i + 1]) == Flatten(lists[..i]) + lists[i]
  {
    assert lists[..i + 1][..i] == lists[..i];
  }

  /** Every cluster has at least one member, and every member is an input skeleton. */
  lemma {:induction false} ClustersNonEmpty(xs: seq<KinectSkeleton>, inc: Averager)
    ensures forall k :: 0 <= k < |Cluster(xs, inc).clusters| ==> |Cluster(xs, inc).clusters[k].members| > 0
    ensures forall k, y :: 0 <= k < |Cluster(xs, inc).clusters| && y in Cluster(xs, inc).clusters[k].members ==> y in xs
  {
    if xs != [] {
      var init, last := xs[..|xs| - 1], xs[|xs| - 1];
      ClustersNonEmpty(init, inc);
      var c := Cluster(init, inc);
      var r := Cluster(xs, inc);
      assert r == Place(c, last, inc);
      PlaceSpec(c, last, inc);
      forall k, y | 0 <= k < |r.clusters| && y in r.clusters[k].members ensures y in xs {
        if k < |c.clusters| {
          if y != last {
            assert y in c.clusters[k].members;
            assert y in init;
            var i :| 0 <= i < |init| && init[i] == y;
            assert xs[i] == y;
          }
        }
      }
    }
  }

  /** Every input skeleton ends up in at least one cluster. */
  lemma {:induction false} EverySkeletonClustered(xs: seq<KinectSkeleton>, inc: Averager, i: nat)
    requires i < |xs|
    ensures exists k :: 0 <= k < |Cluster(xs, inc).clusters| && xs[i] in Cluster(xs, inc).clusters[k].members
  {
    var init, last := xs[..|xs| - 1], xs[|xs| - 1];
    var c := Cluster(init, inc);
    var r := Cluster(xs, inc);
    assert r == Place(c, last, inc);
    PlaceSpec(c, last, inc);
    if i < |xs| - 1 {
      EverySkeletonClustered(init, inc, i);
      var k :| 0 <= k < |c.clusters| && init[i] in c.clusters[k].members;
      assert xs[i] in r.clusters[k].members;
    } else if AnyNear(c.centers, last.position) {
      var k :| 0 <= k < |c.centers| && Near(c.centers[k], last.position);
      assert last in r.clusters[k].members;
    } else {
      assert last in r.clusters[|c.clusters|].members;
    }
  }

  /** Snapshots with no skeletons give no clusters. */
  lemma {:induction false} NoSkeletonsNoClusters(lists: seq<seq<KinectSkeleton>>, inc: Averager)
    requires forall i :: 0 <= i < |lists| ==> lists[i] == []
    ensures FindSameSkeletons(lists, inc).clusters == []
  {
    FlattenEmpty(lists);
  }

  lemma {:induction false} FlattenEmpty(lists: seq<seq<KinectSkeleton>>)
    requires forall i :: 0 <= i < |lists| ==> lists[i] == []
    ensures Flatten(lists) == []
  {
    if lists != [] {
      FlattenEmpty(lists[..|lists| - 1]);
    }
  }

  /**
   * The threshold is strict: a second skeleton exactly 0.3 from the first opens
   * its own cluster, one 0.29 away joins the first skeleton's cluster.
   */
  lemma MergeBoundary(a: KinectSkeleton, b: KinectSkeleton, inc: Averager)
    requires a.position == Origin
    ensures b.position == Point3(0.3, 0.0, 0.0) ==>
      Cluster([a, b], inc).clusters == [MergedSkeleton([a]), MergedSkeleton([b])]
    ensures b.position == Point3(0.29, 0.0, 0.0) ==>
      Cluster([a, b], inc).clusters == [MergedSkeleton([a, b])]
  {
    var c1 := Cluster([a], inc);
    assert [a, b][..1] == [a];
    assert [a][..0] == [];
    assert c1.centers == [Origin];
    assert Cluster([a, b], inc) == Place(c1, b, inc);
    PlaceSpec(c1, b, inc);
    if b.position == Point3(0.29, 0.0, 0.0) {
      assert Near(c1.centers[0], b.position);
      assert [a] + [b] == [a, b];
    }
  }
}
