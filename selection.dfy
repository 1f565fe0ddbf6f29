/**
 * The `WHERE` and `ON` conditions of the read queries: the rows of a table
 * that satisfy a condition, in table order.
 */
module Selection {

  import opened Schema

  /** `submission_id = id`, on each of the three tables that have the column. */
  function HasId(id: string): SubmissionRow -> bool {
    (s: SubmissionRow) => s.submissionId == id
  }

  function ClusterOf(id: string): ClusterRow -> bool {
    (c: ClusterRow) => c.submissionId == id
  }

  function PolygonOf(id: string): PolygonRow -> bool {
    (gp: PolygonRow) => gp.submissionId == id
  }

  /** `clusters.id = id`. */
  function HasDbId(id: nat): ClusterRow -> bool {
    (c: ClusterRow) => c.dbId == id
  }

  /** The elements of `s` for which `keep` holds, in their order in `s`. */
  function Filter<T(!new)>(s: seq<T>, keep: T -> bool): (r: seq<T>)
    ensures |r| <= |s|
    ensures forall x :: x in r <==> x in s && keep(x)
  {
    if s == [] then []
    else
      var rest := Filter(s[1..], keep);
      assert forall x :: x in s <==> x == s[0] || x in s[1..];
      if keep(s[0]) then [s[0]] + rest else rest
  }

  lemma {:induction false} FilterConcat<T(!new)>(a: seq<T>, b: seq<T>, keep: T -> bool)
    ensures Filter(a + b, keep) == Filter(a, keep) + Filter(b, keep)
  {
    if a == [] {
      assert a + b == b;
    } else {
      assert (a + b)[1..] == a[1..] + b;
      FilterConcat(a[1..], b, keep);
    }
  }

  /** `keep` holds for every element: nothing is removed. */
  lemma {:induction false} FilterAll<T(!new)>(s: seq<T>, keep: T -> bool)
    requires forall i :: 0 <= i < |s| ==> keep(s[i])
    ensures Filter(s, keep) == s
  {
    if s != [] {
      FilterAll(s[1..], keep);
    }
  }

  /** `keep` holds for no element: nothing is selected. */
  lemma FilterNone<T(!new)>(s: seq<T>, keep: T -> bool)
    requires forall i :: 0 <= i < |s| ==> !keep(s[i])
    ensures Filter(s, keep) == []
  {
  }

  /** Selecting from old rows none of which qualifies, followed by new rows all of which do, gives the new rows. */
  lemma FilterFresh<T(!new)>(before: seq<T>, added: seq<T>, keep: T -> bool)
    requires Filter(before, keep) == []
    requires forall i :: 0 <= i < |added| ==> keep(added[i])
    ensures Filter(before + added, keep) == added
  {
    FilterConcat(before, added, keep);
    FilterAll(added, keep);
  }

  /** Exactly one element qualifies: the selection is that element. */
  lemma {:induction false} FilterSingle<T(!new)>(s: seq<T>, keep: T -> bool, k: nat)
    requires k < |s| && keep(s[k])
    requires forall i :: 0 <= i < |s| && i != k ==> !keep(s[i])
    ensures Filter(s, keep) == [s[k]]
  {
    if k == 0 {
      FilterNone(s[1..], keep);
    } else {
      FilterSingle(s[1..], keep, k - 1);
    }
  }
}
