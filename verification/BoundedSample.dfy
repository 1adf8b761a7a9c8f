/** The sample of evidence kept when there is too much of it: the first and the last values. */
module BoundedSample {
  import opened Common

  /** A slice `values[-n:]` in Python: for `n == 0` it is the whole list. */
  function LastOf<T>(values: seq<T>, n: nat): seq<T>
    requires n <= |values|
  {
    if n == 0 then values else values[|values| - n..]
  }

  function BoundedEvidence<T>(values: seq<T>, limit: int): seq<T> {
    if limit <= 0 then []
    else if |values| <= limit then values
    else
      var head := (limit + 1) / 2;
      values[..head] + LastOf(values, limit - head)
  }

  /** The places in `values` of what a sample kept: the first so many and the last so many. */
  function Kept(n: nat, limit: nat): seq<nat>
    requires limit != 1
  {
    if n <= limit then seq(n, i requires 0 <= i => i)
    else seq(limit, i requires 0 <= i => if i < (limit + 1) / 2 then i else n - limit + i)
  }

  /** For every limit but 1 the sample takes increasing places, the first and the last ones. */
  lemma SampleIsOrdered<T>(values: seq<T>, limit: int)
    requires limit != 1
    ensures var places := Kept(|values|, if limit > 0 then limit else 0);
            && Increasing(places)
            && |BoundedEvidence(values, limit)| == |places|
            && (forall i :: 0 <= i < |places| ==>
                  (places[i] < |values| && BoundedEvidence(values, limit)[i] == values[places[i]]))
  {
  }

  /** The sample keeps to its limit for every list exactly when the limit is not 1. */
  lemma BoundedExactly<T>(values: seq<T>, limit: int)
    ensures |BoundedEvidence(values, limit)| <= (if limit > 0 then limit else 0)
       <==> !(limit == 1 && |values| > 1)
    ensures limit == 1 && |values| > 1 ==> BoundedEvidence(values, limit) == [values[0]] + values
  {
  }
}
