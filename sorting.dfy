/**
 * The ordering policy applied to skeletons before they are sent: tracked
 * skeletons first, in insertion-sort order of a distance key (reversed for the
 * "farthest" policies), then the untracked ones in their original order.
 * Both overloads of the source (raw and merged skeletons) run the same
 * algorithm on any element with a position and a tracking state, so the
 * specification here is generic in the element type.
 */
module SkeletonSorting {
  import opened Wrappers
  import opened Geometry
  import opened KinectBase

  datatype Axis = X | Y | Z | Euclid
  datatype Direction = Closest | Farthest

  /** The sort policies: none, distance from the origin, distance from the feedback position. */
  datatype SkeletonSortMethod =
    | NoSort
    | OriginSort(axis: Axis, direction: Direction)
    | FeedbackSort(axis: Axis, direction: Direction)

  /**
   * The distance of `p` from `reference` that a policy sorts by: the absolute
   * coordinate difference on one axis, or the squared Euclidean distance (the
   * source compares lengths, which order points the same way).
   */
  function Key(p: Point3, reference: Point3, axis: Axis): (k: real)
    ensures k >= 0.0
  {
    match axis
    case X => Abs(p.x - reference.x)
    case Y => Abs(p.y - reference.y)
    case Z => Abs(p.z - reference.z)
    case Euclid => SquaredDistance(reference, p)
  }

  /** Whether a policy reorders at all: not NoSort, and not a feedback policy without a feedback position. */
  predicate Reorders(m: SkeletonSortMethod, feedback: Option<Point3>) {
    m.OriginSort? || (m.FeedbackSort? && feedback.Some?)
  }

  function ReferencePoint(m: SkeletonSortMethod, feedback: Option<Point3>): Point3
    requires Reorders(m, feedback)
  {
    if m.OriginSort? then Origin else feedback.value
  }

  function KeyOf<T>(m: SkeletonSortMethod, feedback: Option<Point3>, position: T -> Point3): T -> real
    requires Reorders(m, feedback)
  {
    var reference := ReferencePoint(m, feedback);
    (x: T) => Key(position(x), reference, m.axis)
  }

  /** `s` restricted to the elements a predicate holds of, in order. */
  function Filter<T>(s: seq<T>, p: T -> bool): (r: seq<T>)
    ensures |r| <= |s|
    ensures forall x :: x in r ==> x in s && p(x)
  {
    if s == [] then [] else (if p(s[0]) then [s[0]] else []) + Filter(s[1..], p)
  }

  function IsTrackedBy<T>(state: T -> TrackingState): T -> bool {
    (x: T) => state(x) != NotTracked
  }

  function IsUntrackedBy<T>(state: T -> TrackingState): T -> bool {
    (x: T) => state(x) == NotTracked
  }

  function Tracked<T>(s: seq<T>, state: T -> TrackingState): seq<T> {
    Filter(s, IsTrackedBy(state))
  }

  function Untracked<T>(s: seq<T>, state: T -> TrackingState): seq<T> {
    Filter(s, IsUntrackedBy(state))
  }

  function Reversed<T>(s: seq<T>): (r: seq<T>)
    ensures |r| == |s|
  {
    if s == [] then [] else Reversed(s[1..]) + [s[0]]
  }

  /**
   * One step of the insertion sort: `x` enters the sorted `s` from the back,
   * passing every element whose key is strictly greater (the shift loop's
   * strict `<`), so it lands after all elements with an equal key.
   */
  function Insert<T>(s: seq<T>, x: T, key: T -> real): (r: seq<T>)
    ensures |r| == |s| + 1
  {
    if s == [] || !(key(x) < key(s[|s| - 1])) then s + [x]
    else Insert(s[..|s| - 1], x, key) + [s[|s| - 1]]
  }

  /** The insertion sort, inserting the elements left to right. */
  function InsertionSort<T>(s: seq<T>, key: T -> real): (r: seq<T>)
    ensures |r| == |s|
  {
    if s == [] then [] else Insert(InsertionSort(s[..|s| - 1], key), s[|s| - 1], key)
  }

  /** What the sort returns for input `s` under policy `m`. */
  function SortedSkeletons<T>(s: seq<T>, m: SkeletonSortMethod, feedback: Option<Point3>,
                              position: T -> Point3, state: T -> TrackingState): seq<T>
  {
    if !Reorders(m, feedback) then s
    else
      var sorted := InsertionSort(Tracked(s, state), KeyOf(m, feedback, position));
      (if m.direction == Farthest then Reversed(sorted) else sorted) + Untracked(s, state)
  }

  /**
   * One pass of the source's shift loop: `r[i]` is lifted out and the
   * greater-keyed elements before it are shifted up one place each.
   */
  method ShiftInsert<T>(s: seq<T>, i: nat, key: T -> real) returns (r: seq<T>)
    requires i < |s|
    ensures |r| == |s|
    ensures r[..i + 1] == Insert(s[..i], s[i], key)
    ensures r[i + 1..] == s[i + 1..]
  {
    r := s;
    var insertIndex := i;
    var temp := s[i];
    while insertIndex > 0 && key(temp) < key(r[insertIndex - 1])
      invariant 0 <= insertIndex <= i && |r| == |s|
      invariant forall k :: 0 <= k < insertIndex ==> r[k] == s[k]
      invariant forall k :: insertIndex < k <= i ==> r[k] == s[k - 1]
      invariant forall k :: i < k < |r| ==> r[k] == s[k]
      invariant forall k :: insertIndex <= k < i ==> key(temp) < key(s[k])
    {
      r := r[insertIndex := r[insertIndex - 1]];
      insertIndex := insertIndex - 1;
    }
    r := r[insertIndex := temp];
    InsertAt(s[..i], temp, key, insertIndex);
    assert r[..i + 1] == s[..insertIndex] + [temp] + s[insertIndex..i];
  }

  /** The source's insertion sort: each element from the second on is shifted into place. */
  method InsertionSortInPlace<T>(s: seq<T>, key: T -> real) returns (r: seq<T>)
    ensures r == InsertionSort(s, key)
  {
    r := s;
    if s == [] {
      return;
    }
    assert s[..1][..0] == [];
    var i := 1;
    while i < |r|
      invariant 1 <= i <= |s| && |r| == |s|
      invariant r[..i] == InsertionSort(s[..i], key)
      invariant r[i..] == s[i..]
    {
      assert r[i] == s[i];
      assert s[..i + 1][..i] == s[..i];
      r := ShiftInsert(r, i, key);
      assert r[i + 1..] == s[i + 1..];
      i := i + 1;
    }
    assert r[..i] == r && s[..i] == s;
  }

  /**
   * Orders skeletons for sending: the tracked ones by insertion sort on the
   * policy's key (reversed for the "farthest" policies), then the untracked
   * ones. The source writes one copy of the shift loop per policy; they
   * differ only in the key, so the loop is written once over the key, in
   * `InsertionSortInPlace`. The feedback position, a field of the server
   * in the source, is a parameter here.
   */
  method SortSkeletons<T>(unsortedSkeletons: seq<T>, sortMethod: SkeletonSortMethod, feedbackPosition: Option<Point3>,
                          position: T -> Point3, state: T -> TrackingState) returns (sorted: seq<T>)
    ensures sorted == SortedSkeletons(unsortedSkeletons, sortMethod, feedbackPosition, position, state)
  {
    if sortMethod.NoSort? {
      return unsortedSkeletons;
    }
    var trackedSkeletons, untrackedSkeletons := [], [];
    for i := 0 to |unsortedSkeletons|
      invariant trackedSkeletons == Tracked(unsortedSkeletons[..i], state)
      invariant untrackedSkeletons == Untracked(unsortedSkeletons[..i], state)
    {
      var s := unsortedSkeletons[i];
      assert unsortedSkeletons[..i + 1] == unsortedSkeletons[..i] + [s];
      FilterSnoc(unsortedSkeletons[..i], s, IsTrackedBy(state));
      FilterSnoc(unsortedSkeletons[..i], s, IsUntrackedBy(state));
      if state(s) == NotTracked {
        untrackedSkeletons := untrackedSkeletons + [s];
      } else {
        trackedSkeletons := trackedSkeletons + [s];
      }
    }
    assert unsortedSkeletons[..|unsortedSkeletons|] == unsortedSkeletons;
    if !Reorders(sortMethod, feedbackPosition) {
      return unsortedSkeletons;
    }

    trackedSkeletons := InsertionSortInPlace(trackedSkeletons, KeyOf(sortMethod, feedbackPosition, position));
    if sortMethod.direction == Farthest {
      trackedSkeletons := Reversed(trackedSkeletons);
    }
    sorted := trackedSkeletons + untrackedSkeletons;
  }

  predicate NonDecreasing<T>(s: seq<T>, key: T -> real) {
    forall i, j :: 0 <= i < j < |s| ==> key(s[i]) <= key(s[j])
  }

  predicate NonIncreasing<T>(s: seq<T>, key: T -> real) {
    forall i, j :: 0 <= i < j < |s| ==> key(s[i]) >= key(s[j])
  }

  // ---------------------------------------------------------------- lemmas

  lemma {:induction false} FilterAppend<T>(a: seq<T>, b: seq<T>, p: T -> bool)
    ensures Filter(a + b, p) == Filter(a, p) + Filter(b, p)
  {
    if a == [] {
      assert a + b == b;
    } else {
      assert (a + b)[1..] == a[1..] + b;
      FilterAppend(a[1..], b, p);
    }
  }

  lemma FilterSnoc<T>(s: seq<T>, x: T, p: T -> bool)
    ensures Filter(s + [x], p) == Filter(s, p) + if p(x) then [x] else []
  {
    FilterAppend(s, [x], p);
    FilterSingleton(x, p);
  }

  lemma FilterSingleton<T>(x: T, p: T -> bool)
    ensures Filter([x], p) == if p(x) then [x] else []
  {
    assert [x][1..] == [];
  }

  lemma {:induction false} FilterSplitsMultiset<T>(s: seq<T>, p: T -> bool, q: T -> bool)
    requires forall x :: q(x) == !p(x)
    ensures multiset(Filter(s, p)) + multiset(Filter(s, q)) == multiset(s)
  {
    if s != [] {
      var t := s[1..];
      FilterSplitsMultiset(t, p, q);
      assert s == [s[0]] + t;
      if p(s[0]) {
        assert Filter(s, p) == [s[0]] + Filter(t, p);
        assert Filter(s, q) == Filter(t, q);
      } else {
        assert Filter(s, p) == Filter(t, p);
        assert Filter(s, q) == [s[0]] + Filter(t, q);
      }
    }
  }

  lemma {:induction false} ReversedAt<T>(s: seq<T>, k: nat)
    requires k < |s|
    ensures Reversed(s)[k] == s[|s| - 1 - k]
  {
    if k < |s| - 1 {
      ReversedAt(s[1..], k);
    }
  }

  lemma {:induction false} ReversedMultiset<T>(s: seq<T>)
    ensures multiset(Reversed(s)) == multiset(s)
  {
    if s != [] {
      ReversedMultiset(s[1..]);
      assert s == [s[0]] + s[1..];
    }
  }

  lemma {:induction false} ReversedAppend<T>(a: seq<T>, b: seq<T>)
    ensures Reversed(a + b) == Reversed(b) + Reversed(a)
  {
    if a == [] {
      assert a + b == b;
      assert Reversed(b) + Reversed(a) == Reversed(b);
    } else {
      assert (a + b)[1..] == a[1..] + b;
      ReversedAppend(a[1..], b);
    }
  }

  lemma {:induction false} FilterReversed<T>(s: seq<T>, p: T -> bool)
    ensures Filter(Reversed(s), p) == Reversed(Filter(s, p))
  {
    if s != [] {
      FilterReversed(s[1..], p);
      FilterAppend(Reversed(s[1..]), [s[0]], p);
      assert Filter([s[0]], p) == if p(s[0]) then [s[0]] else [];
      var head := if p(s[0]) then [s[0]] else [];
      ReversedAppend(head, Filter(s[1..], p));
      assert Reversed(head) == head;
    }
  }

  lemma {:induction false} InsertMultiset<T>(s: seq<T>, x: T, key: T -> real)
    ensures multiset(Insert(s, x, key)) == multiset(s) + multiset{x}
  {
    if s == [] || !(key(x) < key(s[|s| - 1])) {
    } else {
      var init := s[..|s| - 1];
      InsertMultiset(init, x, key);
      assert s == init + [s[|s| - 1]];
    }
  }

  lemma {:induction false} InsertionSortMultiset<T>(s: seq<T>, key: T -> real)
    ensures multiset(InsertionSort(s, key)) == multiset(s)
  {
    if s != [] {
      var init := s[..|s| - 1];
      InsertionSortMultiset(init, key);
      InsertMultiset(InsertionSort(init, key), s[|s| - 1], key);
      assert s == init + [s[|s| - 1]];
    }
  }

  /**
   * Where the shift loop stops: `x` goes in at `j` when the element before `j`
   * (if any) does not have a greater key and every element from `j` on does.
   */
  lemma {:induction false} InsertAt<T>(s: seq<T>, x: T, key: T -> real, j: nat)
    requires j <= |s|
    requires j == 0 || !(key(x) < key(s[j - 1]))
    requires forall k :: j <= k < |s| ==> key(x) < key(s[k])
    ensures Insert(s, x, key) == s[..j] + [x] + s[j..]
    decreases |s|
  {
    if j == |s| {
      assert s[..j] == s && s[j..] == [];
    } else {
      var init, last := s[..|s| - 1], s[|s| - 1];
      assert key(x) < key(last);
      InsertAt(init, x, key, j);
      assert init[..j] == s[..j];
      assert init[j..] + [last] == s[j..];
    }
  }

  /** Inserting into a sorted sequence keeps it sorted; `x` is not below the element before it. */
  lemma {:induction false} InsertSorted<T>(s: seq<T>, x: T, key: T -> real)
    requires NonDecreasing(s, key)
    ensures NonDecreasing(Insert(s, x, key), key)
    ensures forall y :: y in Insert(s, x, key) ==> y in s || y == x
  {
    if s == [] || !(key(x) < key(s[|s| - 1])) {
    } else {
      var init, last := s[..|s| - 1], s[|s| - 1];
      InsertSorted(init, x, key);
      var r := Insert(init, x, key);
      InsertMultiset(init, x, key);
      forall y | y in r ensures key(y) <= key(last) {
        assert y in multiset(r);
        if y != x {
          assert y in init;
          var i :| 0 <= i < |init| && init[i] == y;
          assert s[i] == y;
        }
      }
      assert Insert(s, x, key) == r + [last];
    }
  }

  lemma {:induction false} InsertionSortSorted<T>(s: seq<T>, key: T -> real)
    ensures NonDecreasing(InsertionSort(s, key), key)
  {
    if s != [] {
      InsertionSortSorted(s[..|s| - 1], key);
      InsertSorted(InsertionSort(s[..|s| - 1], key), s[|s| - 1], key);
    }
  }

  /** The elements whose key equals `v`, in order. */
  function WithKey<T>(s: seq<T>, key: T -> real, v: real): seq<T> {
    Filter(s, KeyIs(key, v))
  }

  function KeyIs<T>(key: T -> real, v: real): T -> bool {
    (x: T) => key(x) == v
  }

  /** `x` lands after every element of equal key, so equal-key order is kept. */
  lemma {:induction false} InsertStable<T>(s: seq<T>, x: T, key: T -> real, v: real)
    ensures WithKey(Insert(s, x, key), key, v) == WithKey(s, key, v) + (if key(x) == v then [x] else [])
  {
    var p := KeyIs(key, v);
    if s == [] || !(key(x) < key(s[|s| - 1])) {
      FilterAppend(s, [x], p);
      FilterSingleton(x, p);
    } else {
      var init, last := s[..|s| - 1], s[|s| - 1];
      InsertStable(init, x, key, v);
      FilterAppend(Insert(init, x, key), [last], p);
      FilterAppend(init, [last], p);
      FilterSingleton(last, p);
      assert s == init + [last];
      assert key(x) == v ==> !p(last);
    }
  }

  /** The insertion sort is stable: elements of equal key keep their input order. */
  lemma {:induction false} InsertionSortStable<T>(s: seq<T>, key: T -> real, v: real)
    ensures WithKey(InsertionSort(s, key), key, v) == WithKey(s, key, v)
  {
    if s != [] {
      var init, last := s[..|s| - 1], s[|s| - 1];
      InsertionSortStable(init, key, v);
      InsertStable(InsertionSort(init, key), last, key, v);
      FilterAppend(init, [last], KeyIs(key, v));
      assert s == init + [last];
    }
  }

  lemma NonDecreasingReversed<T>(s: seq<T>, key: T -> real)
    requires NonDecreasing(s, key)
    ensures NonIncreasing(Reversed(s), key)
  {
    forall i, j | 0 <= i < j < |s| ensures key(Reversed(s)[i]) >= key(Reversed(s)[j]) {
      ReversedAt(s, i);
      ReversedAt(s, j);
    }
  }

  // ------------------------------------------- properties of the whole policy

  /** NoSort, or a feedback policy with no feedback position, returns the input itself. */
  lemma SortedSkeletonsUnchanged<T>(s: seq<T>, m: SkeletonSortMethod, feedback: Option<Point3>,
                                    position: T -> Point3, state: T -> TrackingState)
    requires m.NoSort? || (m.FeedbackSort? && feedback.None?)
    ensures SortedSkeletons(s, m, feedback, position, state) == s
  {
  }

  /** No skeleton is lost or duplicated: the output is a permutation of the input. */
  lemma SortedSkeletonsPermutation<T>(s: seq<T>, m: SkeletonSortMethod, feedback: Option<Point3>,
                                      position: T -> Point3, state: T -> TrackingState)
    ensures |SortedSkeletons(s, m, feedback, position, state)| == |s|
    ensures multiset(SortedSkeletons(s, m, feedback, position, state)) == multiset(s)
  {
    if Reorders(m, feedback) {
      var tracked := Tracked(s, state);
      var sorted := InsertionSort(tracked, KeyOf(m, feedback, position));
      InsertionSortMultiset(tracked, KeyOf(m, feedback, position));
      ReversedMultiset(sorted);
      FilterSplitsMultiset(s, IsTrackedBy(state), IsUntrackedBy(state));
      var front := if m.direction == Farthest then Reversed(sorted) else sorted;
      assert multiset(front) == multiset(tracked);
      assert SortedSkeletons(s, m, feedback, position, state) == front + Untracked(s, state);
      assert |multiset(front + Untracked(s, state))| == |multiset(s)|;
    }
  }

  /**
   * When the policy reorders: the tracked skeletons come first, the untracked
   * ones follow in their original relative order.
   */
  lemma SortedSkeletonsTrackedFirst<T>(s: seq<T>, m: SkeletonSortMethod, feedback: Option<Point3>,
                                       position: T -> Point3, state: T -> TrackingState)
    requires Reorders(m, feedback)
    ensures var r, n := SortedSkeletons(s, m, feedback, position, state), |Tracked(s, state)|;
      && n <= |r|
      && (forall i :: 0 <= i < n ==> state(r[i]) != NotTracked)
      && r[n..] == Untracked(s, state)
  {
    var tracked := Tracked(s, state);
    var key := KeyOf(m, feedback, position);
    var sorted := InsertionSort(tracked, key);
    InsertionSortMultiset(tracked, key);
    ReversedMultiset(sorted);
    var front := if m.direction == Farthest then Reversed(sorted) else sorted;
    assert multiset(front) == multiset(tracked);
    forall i | 0 <= i < |front| ensures state(front[i]) != NotTracked {
      assert front[i] in multiset(tracked);
      assert front[i] in tracked;
      assert IsTrackedBy(state)(front[i]);
    }
    assert SortedSkeletons(s, m, feedback, position, state) == front + Untracked(s, state);
  }

  /**
   * The tracked part is ordered by the policy's key: non-decreasing for the
   * "closest" policies, non-increasing for the "farthest" ones.
   */
  lemma SortedSkeletonsOrdered<T>(s: seq<T>, m: SkeletonSortMethod, feedback: Option<Point3>,
                                  position: T -> Point3, state: T -> TrackingState)
    requires Reorders(m, feedback)
    ensures var r, n := SortedSkeletons(s, m, feedback, position, state), |Tracked(s, state)|;
      && n <= |r|
      && (m.direction == Closest ==> NonDecreasing(r[..n], KeyOf(m, feedback, position)))
      && (m.direction == Farthest ==> NonIncreasing(r[..n], KeyOf(m, feedback, position)))
  {
    var tracked := Tracked(s, state);
    var key := KeyOf(m, feedback, position);
    var sorted := InsertionSort(tracked, key);
    InsertionSortSorted(tracked, key);
    var r := SortedSkeletons(s, m, feedback, position, state);
    if m.direction == Farthest {
      NonDecreasingReversed(sorted, key);
      assert r[..|tracked|] == Reversed(sorted);
    } else {
      assert r[..|tracked|] == sorted;
    }
  }

  /**
   * Ties keep their input order under the "closest" policies (the shift test is
   * a strict `<`); the "farthest" policies reverse that order, ties included.
   */
  lemma SortedSkeletonsStable<T>(s: seq<T>, m: SkeletonSortMethod, feedback: Option<Point3>,
                                 position: T -> Point3, state: T -> TrackingState, v: real)
    requires Reorders(m, feedback)
    ensures var r, n := SortedSkeletons(s, m, feedback, position, state), |Tracked(s, state)|;
      var key := KeyOf(m, feedback, position);
      && n <= |r|
      && (m.direction == Closest ==> WithKey(r[..n], key, v) == WithKey(Tracked(s, state), key, v))
      && (m.direction == Farthest ==> WithKey(r[..n], key, v) == Reversed(WithKey(Tracked(s, state), key, v)))
  {
    var tracked := Tracked(s, state);
    var key := KeyOf(m, feedback, position);
    var sorted := InsertionSort(tracked, key);
    InsertionSortStable(tracked, key, v);
    var r := SortedSkeletons(s, m, feedback, position, state);
    if m.direction == Farthest {
      assert r[..|tracked|] == Reversed(sorted);
      FilterReversed(sorted, KeyIs(key, v));
    } else {
      assert r[..|tracked|] == sorted;
    }
  }
}
