/** What several of the models need to know about sets and sequences. */
module Collections {

  lemma HasId(ids: set<int>)
    requires ids != {}
    ensures exists id :: id in ids
  {
    if forall id :: id !in ids {}
  }

  lemma HasKey(keys: set<string>)
    requires keys != {}
    ensures exists key :: key in keys
  {
    if forall key :: key !in keys {}
  }

  lemma SubsetSize<T>(a: set<T>, b: set<T>)
    requires a <= b
    ensures |a| <= |b| && (a != b ==> |a| < |b|)
  {
    if a != b {
      assert b == a + (b - a) && b - a != {};
    }
  }

  ghost predicate Sorted(h: seq<int>) { forall i, j :: 0 <= i < j < |h| ==> h[i] <= h[j] }
}
