/**
 * The sequential effect of replacing one sensor's snapshot in the merge
 * buffer. The buffer is a queue; the update takes each entry out in turn and
 * puts it back unless it belongs to the sensor, re-reading the queue length
 * before every step, and then appends the new snapshot.
 */
module Snapshots {
  import opened KinectBase

  /**
   * The queue after the removal loop, started at step `i` on queue `q`: while
   * `i` is below the current length, the head is taken out and put back at the
   * tail unless its sensor is `id`.
   */
  function Drain(q: seq<KinectSkeletonsData>, i: nat, id: string): seq<KinectSkeletonsData>
    decreases |q| - i
  {
    if i < |q| then
      var head := q[0];
      Drain(if head.uniqueID != id then q[1..] + [head] else q[1..], i + 1, id)
    else q
  }

  /** At most one entry per sensor. */
  predicate UniqueIds(q: seq<KinectSkeletonsData>) {
    forall i, j :: 0 <= i < j < |q| ==> q[i].uniqueID != q[j].uniqueID
  }

  /** Position `p` holds the only entry of sensor `id`. */
  predicate OnlyAt(q: seq<KinectSkeletonsData>, id: string, p: nat) {
    p < |q| && q[p].uniqueID == id && forall k :: 0 <= k < |q| && k != p ==> q[k].uniqueID != id
  }

  predicate HasId(q: seq<KinectSkeletonsData>, id: string) {
    exists k :: 0 <= k < |q| && q[k].uniqueID == id
  }

  // ---------------------------------------------------------------- lemmas

  lemma RotateKeepsUnique(q: seq<KinectSkeletonsData>)
    requires |q| > 0 && UniqueIds(q)
    ensures UniqueIds(q[1..] + [q[0]])
  {
    var r := q[1..] + [q[0]];
    forall i, j | 0 <= i < j < |r| ensures r[i].uniqueID != r[j].uniqueID {
      if j == |r| - 1 {
        assert r[i] == q[i + 1] && r[j] == q[0];
      } else {
        assert r[i] == q[i + 1] && r[j] == q[j + 1];
      }
    }
  }

  /** Without an entry of sensor `id` the loop only rotates the queue. */
  lemma {:induction false} DrainWithoutId(q: seq<KinectSkeletonsData>, i: nat, id: string)
    requires !HasId(q, id)
    ensures multiset(Drain(q, i, id)) == multiset(q)
    ensures !HasId(Drain(q, i, id), id)
    decreases |q| - i
  {
    if i < |q| {
      var q' := q[1..] + [q[0]];
      assert q == [q[0]] + q[1..];
      assert !HasId(q', id) by {
        forall k | 0 <= k < |q'| ensures q'[k].uniqueID != id {
          if k == |q'| - 1 { assert q'[k] == q[0]; } else { assert q'[k] == q[k + 1]; }
        }
      }
      DrainWithoutId(q', i + 1, id);
    }
  }

  /**
   * With exactly one entry of sensor `id`, at position `p` that the loop still
   * reaches, the loop removes that entry and keeps all the others.
   */
  lemma {:induction false} DrainRemovesEntry(q: seq<KinectSkeletonsData>, i: nat, id: string, p: nat)
    requires OnlyAt(q, id, p) && p + i < |q|
    ensures multiset(Drain(q, i, id)) == multiset(q) - multiset{q[p]}
    ensures !HasId(Drain(q, i, id), id)
    decreases |q| - i
  {
    if p == 0 {
      DrainRemovesHead(q, i, id);
    } else {
      var q' := q[1..] + [q[0]];
      RotateOnlyAt(q, id, p);
      DrainRemovesEntry(q', i + 1, id, p - 1);
      assert Drain(q, i, id) == Drain(q', i + 1, id);
    }
  }

  /** Putting a head of another sensor back at the tail moves the sensor's entry one place forward. */
  lemma RotateOnlyAt(q: seq<KinectSkeletonsData>, id: string, p: nat)
    requires OnlyAt(q, id, p) && p > 0
    ensures var q' := q[1..] + [q[0]];
      OnlyAt(q', id, p - 1) && q'[p - 1] == q[p] && multiset(q') == multiset(q)
  {
    var q' := q[1..] + [q[0]];
    assert q == [q[0]] + q[1..];
    forall k | 0 <= k < |q'| && k != p - 1 ensures q'[k].uniqueID != id {
      if k == |q'| - 1 { assert q'[k] == q[0]; } else { assert q'[k] == q[k + 1]; }
    }
  }

  /** The case where the loop's next step takes out the sensor's entry. */
  lemma DrainRemovesHead(q: seq<KinectSkeletonsData>, i: nat, id: string)
    requires OnlyAt(q, id, 0) && i < |q|
    ensures multiset(Drain(q, i, id)) == multiset(q) - multiset{q[0]}
    ensures !HasId(Drain(q, i, id), id)
  {
    var rest := q[1..];
    DropHead(q, id);
    DrainWithoutId(rest, i + 1, id);
    assert Drain(q, i, id) == Drain(rest, i + 1, id);
  }

  lemma DropHead(q: seq<KinectSkeletonsData>, id: string)
    requires OnlyAt(q, id, 0)
    ensures !HasId(q[1..], id) && multiset(q) - multiset{q[0]} == multiset(q[1..])
  {
    var rest := q[1..];
    forall k | 0 <= k < |rest| ensures rest[k].uniqueID != id {
      assert rest[k] == q[k + 1];
    }
    assert q == [q[0]] + rest;
  }

  /** The loop never creates two entries of one sensor. */
  lemma {:induction false} DrainKeepsUnique(q: seq<KinectSkeletonsData>, i: nat, id: string)
    requires UniqueIds(q)
    ensures UniqueIds(Drain(q, i, id))
    decreases |q| - i
  {
    if i < |q| {
      if q[0].uniqueID != id {
        RotateKeepsUnique(q);
        DrainKeepsUnique(q[1..] + [q[0]], i + 1, id);
      } else {
        DrainKeepsUnique(q[1..], i + 1, id);
      }
    }
  }

  /**
   * The whole replacement: if the buffer held at most one entry per sensor,
   * afterwards it holds exactly one entry of this sensor, the new one at the
   * tail, and every entry of another sensor as often as before.
   */
  lemma ReplaceSnapshot(q: seq<KinectSkeletonsData>, entry: KinectSkeletonsData)
    requires UniqueIds(q)
    ensures var r := Drain(q, 0, entry.uniqueID) + [entry];
      && UniqueIds(r)
      && r[|r| - 1] == entry
      && (forall k :: 0 <= k < |r| - 1 ==> r[k].uniqueID != entry.uniqueID)
      && (forall x: KinectSkeletonsData :: x.uniqueID != entry.uniqueID ==> multiset(r[..|r| - 1])[x] == multiset(q)[x])
  {
    var id := entry.uniqueID;
    var d := Drain(q, 0, id);
    var r := d + [entry];
    if HasId(q, id) {
      var p :| 0 <= p < |q| && q[p].uniqueID == id;
      DrainRemovesEntry(q, 0, id, p);
    } else {
      DrainWithoutId(q, 0, id);
    }
    DrainKeepsUnique(q, 0, id);
    assert r[..|r| - 1] == d;
    forall i, j | 0 <= i < j < |r| ensures r[i].uniqueID != r[j].uniqueID {
      if j == |r| - 1 {
        assert r[i] == d[i];
      }
    }
  }
}
