/**
  Overlay merging.  `DeepMerge` is the specification, `MergeOverlay` the loop of the source that computes it.
 */
module Merge {
  datatype Json =
    | Null
    | Bool(b: bool)
    | Number(n: real)
    | Text(s: string)
    | List(items: seq<Json>)
    | Object(fields: map<string, Json>)

  type Fields = map<string, Json>

  /** The value that the merged object has at `key`. */
  function MergedValue(base: Fields, overlay: Fields, key: string): Json
    requires key in base || key in overlay
    decreases Object(overlay), 0
  {
    if key !in overlay then base[key]
    else if key in base && base[key].Object? && overlay[key].Object? then
      Object(DeepMerge(base[key].fields, overlay[key].fields))
    else overlay[key]
  }

  function DeepMerge(base: Fields, overlay: Fields): Fields
    decreases Object(overlay), 1
  {
    map key | key in base.Keys + overlay.Keys :: MergedValue(base, overlay, key)
  }

  /** The keys are visited in any order. */
  method MergeOverlay(base: Fields, overlay: Fields) returns (merged: Fields)
    ensures merged == DeepMerge(base, overlay)
    decreases Object(overlay)
  {
    merged := base;
    var left := overlay.Keys;
    while left != {}
      invariant left <= overlay.Keys
      invariant merged.Keys == base.Keys + (overlay.Keys - left)
      invariant forall key :: key in merged ==>
        merged[key] == if key in left then base[key] else MergedValue(base, overlay, key)
    {
      var key :| key in left;
      var value := overlay[key];
      if key in merged && merged[key].Object? && value.Object? {
        var inner := MergeOverlay(merged[key].fields, value.fields);
        merged := merged[key := Object(inner)];
      } else {
        merged := merged[key := value];
      }
      left := left - {key};
    }
  }

  // ---------------------------------------------------------------- laws

  lemma EmptyIsNeutral(fields: Fields)
    ensures DeepMerge(fields, map[]) == fields == DeepMerge(map[], fields)
  {}

  /**
    `top` covers `bottom`: it has every key of it, at every depth at which both hold objects.  Keys of
    `bottom` under which `top` has something other than an object are covered whatever they hold.
   */
  ghost predicate Covers(top: Fields, bottom: Fields)
    decreases Object(top)
  {
    forall key :: key in bottom ==>
      key in top && (bottom[key].Object? && top[key].Object? ==> Covers(top[key].fields, bottom[key].fields))
  }

  /** Merging onto a covered base leaves no trace of the base. */
  lemma {:induction false} MergeIsOverlay(base: Fields, overlay: Fields)
    ensures DeepMerge(base, overlay) == overlay <==> Covers(overlay, base)
    decreases Object(overlay)
  {
    forall key | key in base && key in overlay && base[key].Object? && overlay[key].Object?
      ensures DeepMerge(base[key].fields, overlay[key].fields) == overlay[key].fields
         <==> Covers(overlay[key].fields, base[key].fields)
    {
      MergeIsOverlay(base[key].fields, overlay[key].fields);
    }
    var merged := DeepMerge(base, overlay);
    if merged == overlay {
      forall key | key in base
        ensures key in overlay
        ensures base[key].Object? && overlay[key].Object? ==> Covers(overlay[key].fields, base[key].fields)
      {
        assert key in merged;
        if base[key].Object? && overlay[key].Object? {
          assert merged[key] == MergedValue(base, overlay, key);
        }
      }
    }
  }

  lemma MergeIdempotent(fields: Fields)
    ensures DeepMerge(fields, fields) == fields
  {
    CoversItself(fields);
    MergeIsOverlay(fields, fields);
  }

  lemma {:induction false} CoversItself(fields: Fields)
    ensures Covers(fields, fields)
    decreases Object(fields)
  {
    forall key | key in fields && fields[key].Object?
      ensures Covers(fields[key].fields, fields[key].fields)
    {
      CoversItself(fields[key].fields);
    }
  }

  /**
    When three overlays may be grouped either way.  The one obstacle is a `middle` that replaces an object
    of `base` by something else under a key that `last` reopens as an object: grouped to the left, what
    `base` held is gone; grouped to the right it shows through, unless `last` covers it.
   */
  ghost predicate Groupable(base: Fields, middle: Fields, last: Fields)
    decreases Object(last)
  {
    forall key :: Reopened(base, middle, last, key) ==>
      if middle[key].Object? then Groupable(base[key].fields, middle[key].fields, last[key].fields)
      else Covers(last[key].fields, base[key].fields)
  }

  predicate Reopened(base: Fields, middle: Fields, last: Fields, key: string) {
    && key in base && base[key].Object?
    && key in middle
    && key in last && last[key].Object?
  }

  ghost predicate GroupsAt(base: Fields, middle: Fields, last: Fields, key: string)
    requires key in base || key in middle || key in last
  {
    MergedValue(DeepMerge(base, middle), last, key) == MergedValue(base, DeepMerge(middle, last), key)
  }

  /** The exact condition for associativity. */
  lemma {:induction false} MergeAssociatesExactly(base: Fields, middle: Fields, last: Fields)
    ensures DeepMerge(DeepMerge(base, middle), last) == DeepMerge(base, DeepMerge(middle, last))
       <==> Groupable(base, middle, last)
    decreases Object(last)
  {
    GroupingIsKeywise(base, middle, last);
    forall key | key in base || key in middle || key in last
      ensures GroupsAt(base, middle, last, key) <==>
        (Reopened(base, middle, last, key) ==>
          if middle[key].Object? then Groupable(base[key].fields, middle[key].fields, last[key].fields)
          else Covers(last[key].fields, base[key].fields))
    {
      GroupsAtKey(base, middle, last, key);
      if Reopened(base, middle, last, key) {
        if middle[key].Object? {
          MergeAssociatesExactly(base[key].fields, middle[key].fields, last[key].fields);
        } else {
          MergeIsOverlay(base[key].fields, last[key].fields);
        }
      }
    }
  }

  lemma SameFields(a: Fields, b: Fields)
    requires a.Keys == b.Keys && forall key :: key in a ==> a[key] == b[key]
    ensures a == b
  {}

  lemma GroupingIsKeywise(base: Fields, middle: Fields, last: Fields)
    ensures DeepMerge(DeepMerge(base, middle), last) == DeepMerge(base, DeepMerge(middle, last))
       <==> forall key :: key in base || key in middle || key in last ==> GroupsAt(base, middle, last, key)
  {
    var left, right := DeepMerge(DeepMerge(base, middle), last), DeepMerge(base, DeepMerge(middle, last));
    assert left.Keys == right.Keys == base.Keys + middle.Keys + last.Keys;
    forall key | key in base || key in middle || key in last
      ensures GroupsAt(base, middle, last, key) <==> left[key] == right[key]
    {
      assert key in left.Keys && key in right.Keys;
    }
    if forall key :: key in base || key in middle || key in last ==> GroupsAt(base, middle, last, key) {
      SameFields(left, right);
    }
  }

  /** Key by key, grouping matters only where an object of `base` is reopened. */
  lemma GroupsAtKey(base: Fields, middle: Fields, last: Fields, key: string)
    requires key in base || key in middle || key in last
    ensures GroupsAt(base, middle, last, key) <==>
      (Reopened(base, middle, last, key) ==>
        if middle[key].Object? then
          DeepMerge(DeepMerge(base[key].fields, middle[key].fields), last[key].fields)
            == DeepMerge(base[key].fields, DeepMerge(middle[key].fields, last[key].fields))
        else DeepMerge(base[key].fields, last[key].fields) == last[key].fields)
  {
    var inner, outer := DeepMerge(base, middle), DeepMerge(middle, last);
    if key in inner { assert inner[key] == MergedValue(base, middle, key); }
    if key in outer { assert outer[key] == MergedValue(middle, last, key); }
  }

  lemma MergeDoesNotAssociate()
    ensures var base := map["a" := Object(map["x" := Null])];
            var middle := map["a" := Null];
            var last := map["a" := Object(map[])];
            DeepMerge(DeepMerge(base, middle), last) != DeepMerge(base, DeepMerge(middle, last))
  {
    var base := map["a" := Object(map["x" := Null])];
    var middle := map["a" := Null];
    var last: Fields := map["a" := Object(map[])];
    MergeAssociatesExactly(base, middle, last);
    assert "x" in base["a"].fields && "x" !in last["a"].fields;
    assert !Covers(last["a"].fields, base["a"].fields);
  }
}
