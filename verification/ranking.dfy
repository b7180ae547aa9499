/**
 * `ORDER BY weight DESC`: a stable insertion sort on weight. Rows of equal weight
 * keep their table order.
 */
module Ranking {
  import opened Schema

  predicate NonIncreasing(s: seq<Pig>) {
    forall i, j | 0 <= i < j < |s| :: s[i].weight >= s[j].weight
  }

  /** Puts `p` in front of the first row that is not heavier than it. */
  function InsertByWeight(p: Pig, t: seq<Pig>): (r: seq<Pig>)
    ensures multiset(r) == multiset(t) + multiset{p}
    ensures |r| == |t| + 1
  {
    if t == [] || t[0].weight <= p.weight then [p] + t
    else
      assert t == [t[0]] + t[1..];
      [t[0]] + InsertByWeight(p, t[1..])
  }

  /** Inserting into a heaviest-first list keeps it heaviest-first. */
  lemma {:induction false} InsertKeepsOrder(p: Pig, t: seq<Pig>)
    requires NonIncreasing(t)
    ensures NonIncreasing(InsertByWeight(p, t))
    decreases |t|
  {
    if t != [] && t[0].weight > p.weight {
      var rest := InsertByWeight(p, t[1..]);
      InsertKeepsOrder(p, t[1..]);
      forall j | 0 <= j < |rest| ensures rest[j].weight <= t[0].weight {
        assert rest[j] in multiset(rest);
        if rest[j] != p {
          assert rest[j] in multiset(t[1..]);
          var k :| 0 <= k < |t[1..]| && t[1..][k] == rest[j];
          assert t[k + 1] == rest[j];
        }
      }
    }
  }

  /** The rows heaviest first: a permutation of `s` with non-increasing weights. */
  function SortByWeight(s: seq<Pig>): (r: seq<Pig>)
    ensures NonIncreasing(r)
    ensures multiset(r) == multiset(s)
    ensures |r| == |s|
  {
    if s == [] then []
    else
      assert s == [s[0]] + s[1..];
      InsertKeepsOrder(s[0], SortByWeight(s[1..]));
      InsertByWeight(s[0], SortByWeight(s[1..]))
  }
}
