/** Split selection: the first 80% of the shuffled image ids are the train ids.
    The shuffle itself is a parameter, any permutation of the image ids. */
module Partition {
  import opened Seqs

  /** `int(n * 0.8)`, the number of train ids for `n` images. */
  function TrainCount(n: nat): (k: nat)
    ensures k <= n
    ensures 5 * k <= 4 * n < 5 * k + 5
  {
    n * 4 / 5
  }

  /** `train_ids = image_ids[:int(len(image_ids) * 0.8)]` after the shuffle. */
  function TrainIds(shuffled: seq<int>): (t: seq<int>)
    ensures t <= shuffled
    ensures 5 * |t| <= 4 * |shuffled| < 5 * |t| + 5
  {
    shuffled[..TrainCount(|shuffled|)]
  }

  /** The shuffled ids left after the train prefix; the converter never
      materialises this list, it sends everything not in the train ids to val. */
  function ValIds(shuffled: seq<int>): (t: seq<int>)
    ensures TrainIds(shuffled) + t == shuffled
  {
    shuffled[TrainCount(|shuffled|)..]
  }

  /** For any permutation of the image ids, the train and val ids split the
      image ids: together they hold every id exactly as often as the image
      list does, the train part is a sub-multiset of it, and when the image
      ids are unique the two parts are disjoint sets covering all ids. */
  lemma SplitIsBipartition(ids: seq<int>, shuffled: seq<int>)
    requires multiset(shuffled) == multiset(ids)
    ensures multiset(TrainIds(shuffled)) + multiset(ValIds(shuffled)) == multiset(ids)
    ensures multiset(TrainIds(shuffled)) <= multiset(ids)
    ensures |TrainIds(shuffled)| == TrainCount(|ids|)
    ensures |ValIds(shuffled)| == |ids| - TrainCount(|ids|)
    ensures forall x :: x in ids <==> x in TrainIds(shuffled) || x in ValIds(shuffled)
    ensures Distinct(ids) ==> forall x :: !(x in TrainIds(shuffled) && x in ValIds(shuffled))
  {
    var t, u := TrainIds(shuffled), ValIds(shuffled);
    assert multiset(t) + multiset(u) == multiset(shuffled) by {
      assert t + u == shuffled;
    }
    assert |ids| == |multiset(ids)| == |multiset(shuffled)| == |shuffled|;
    forall x
      ensures x in ids <==> x in t || x in u
    {
      assert x in ids <==> x in multiset(ids);
      assert x in t + u <==> x in t || x in u;
    }
    if Distinct(ids) {
      forall x
        ensures !(x in t && x in u)
      {
        DistinctCount(ids, x);
      }
    }
  }
}
