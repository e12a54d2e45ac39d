/**
 * The filter panel of the Projects section: the filter settings, the
 * predicate every shown listing passes, the stable filter over the combined
 * list, the feature tags offered as checkboxes, and the checkbox and "Clear"
 * edits of the settings.
 */
module FilterEngine {
  import opened Text
  import opened Seqs
  import opened Listings

  /**
   * The filter settings. An empty `status` or `location`, an absent price
   * bound and an empty `features` list each mean "no constraint"; the price
   * bounds are the values of the two number inputs.
   */
  datatype FilterSpec = FilterSpec(
    status: string,
    location: string,
    minPrice: Option<int>,
    maxPrice: Option<int>,
    features: seq<string>)

  /** The settings the panel starts with and returns to on "Clear". */
  const ClearedFilters: FilterSpec := FilterSpec("", "", None, None, [])

  /** One listing passes when every constraint that is set holds of it. */
  predicate Matches(spec: FilterSpec, p: Listing) {
    && (spec.status == "" || p.status == Some(spec.status))
    && (spec.location == "" || Includes(Lower(p.location), Lower(spec.location)))
    && (spec.minPrice.None? || PriceOf(p) >= spec.minPrice.value)
    && (spec.maxPrice.None? || PriceOf(p) <= spec.maxPrice.value)
    && (|spec.features| == 0 || forall f :: f in spec.features ==> f in FeaturesOf(p))
  }

  function MatchesFn(spec: FilterSpec): Listing -> bool {
    p => Matches(spec, p)
  }

  /**
   * `filteredProjects`: the listings that pass, in their original order.
   * Each kept listing meets every constraint that is set, all at once.
   */
  function Filter(spec: FilterSpec, ps: seq<Listing>): (r: seq<Listing>)
    ensures |r| <= |ps|
    ensures forall i :: 0 <= i < |r| ==>
      && (spec.status != "" ==> r[i].status == Some(spec.status))
      && (spec.location != "" ==> Includes(Lower(r[i].location), Lower(spec.location)))
      && (spec.minPrice.Some? ==> spec.minPrice.value <= PriceOf(r[i]))
      && (spec.maxPrice.Some? ==> PriceOf(r[i]) <= spec.maxPrice.value)
      && (forall f :: f in spec.features ==> f in FeaturesOf(r[i]))
  {
    Keep(ps, MatchesFn(spec))
  }

  /** The result is the input with some listings deleted and none reordered. */
  lemma FilterIsSubsequence(spec: FilterSpec, ps: seq<Listing>)
    ensures IsSubsequence(Filter(spec, ps), ps)
  {
    KeepIsSubsequence(ps, MatchesFn(spec));
  }

  /** A listing is shown exactly when it is in the list and passes. */
  lemma FilterMembers(spec: FilterSpec, ps: seq<Listing>)
    ensures forall p :: p in Filter(spec, ps) <==> p in ps && Matches(spec, p)
  {
    KeepMembers(ps, MatchesFn(spec));
  }

  /** A passing listing is shown as many times as it occurs; a failing one never. */
  lemma FilterCount(spec: FilterSpec, ps: seq<Listing>, p: Listing)
    ensures multiset(Filter(spec, ps))[p] == if Matches(spec, p) then multiset(ps)[p] else 0
  {
    KeepCount(ps, MatchesFn(spec), p);
  }

  /** Filtering the built-ins followed by the user listings filters each part in place. */
  lemma FilterAppend(spec: FilterSpec, builtIns: seq<Listing>, userEstates: seq<Listing>)
    ensures Filter(spec, builtIns + userEstates) == Filter(spec, builtIns) + Filter(spec, userEstates)
  {
    KeepAppend(builtIns, userEstates, MatchesFn(spec));
  }

  /** The cleared settings show every listing. */
  lemma FilterCleared(ps: seq<Listing>)
    ensures Filter(ClearedFilters, ps) == ps
  {
    KeepAll(ps, MatchesFn(ClearedFilters));
  }

  lemma FilterIdempotent(spec: FilterSpec, ps: seq<Listing>)
    ensures Filter(spec, Filter(spec, ps)) == Filter(spec, ps)
  {
    KeepIdempotent(ps, MatchesFn(spec));
  }

  /** The price bounds are inclusive and never swapped: a minimum above the maximum shows nothing. */
  lemma FilterEmptyWhenMinAboveMax(spec: FilterSpec, ps: seq<Listing>)
    requires spec.minPrice.Some? && spec.maxPrice.Some?
    requires spec.minPrice.value > spec.maxPrice.value
    ensures Filter(spec, ps) == []
  {
    KeepNone(ps, MatchesFn(spec));
  }

  /**
   * The status filter compares the stored status: a listing without one is
   * badged "Completed" but is not kept by the "Completed" filter.
   */
  lemma StatusFilterIgnoresBadgeFallback(spec: FilterSpec, p: Listing)
    requires spec.status == "Completed" && p.status.None?
    ensures DisplayStatus(p) == "Completed"
    ensures Filter(spec, [p]) == []
  {
    KeepNone([p], MatchesFn(spec));
  }

  /** The location filter does not depend on the case of what is typed. */
  lemma LocationFilterIgnoresCase(spec: FilterSpec, ps: seq<Listing>)
    ensures Filter(spec.(location := Lower(spec.location)), ps) == Filter(spec, ps)
  {
    LowerIdempotent(spec.location);
    var spec' := spec.(location := Lower(spec.location));
    assert spec'.location == "" <==> spec.location == "";
    KeepCongruent(ps, MatchesFn(spec'), MatchesFn(spec));
  }

  /** `allProjects.flatMap((p) => p.features || [])`. */
  function AllFeatureTags(ps: seq<Listing>): seq<string> {
    if ps == [] then [] else FeaturesOf(ps[0]) + AllFeatureTags(ps[1..])
  }

  lemma {:induction false} AllFeatureTagsAppend(a: seq<Listing>, b: seq<Listing>)
    ensures AllFeatureTags(a + b) == AllFeatureTags(a) + AllFeatureTags(b)
  {
    if a == [] {
      assert a + b == b;
    } else {
      assert (a + b)[0] == a[0] && (a + b)[1..] == a[1..] + b;
      AllFeatureTagsAppend(a[1..], b);
    }
  }

  lemma {:induction false} AllFeatureTagsMembers(ps: seq<Listing>)
    ensures forall f :: f in AllFeatureTags(ps) <==> exists p :: p in ps && f in FeaturesOf(p)
  {
    if ps != [] {
      AllFeatureTagsMembers(ps[1..]);
      assert ps == [ps[0]] + ps[1..];
    }
  }

  /** `availableFeatures`: every tag of every listing, each once, in first-seen order. */
  function AvailableFeatures(ps: seq<Listing>): (r: seq<string>)
    ensures NoDuplicates(r)
  {
    Dedup(AllFeatureTags(ps))
  }

  /** A tag is offered exactly when some listing carries it. */
  lemma AvailableFeaturesMembers(ps: seq<Listing>)
    ensures forall f :: f in AvailableFeatures(ps) <==> exists p :: p in ps && f in FeaturesOf(p)
  {
    AllFeatureTagsMembers(ps);
    var tags := AllFeatureTags(ps);
    forall f ensures f in AvailableFeatures(ps) <==> f in tags {
      if f in tags {
        var i :| 0 <= i < |tags| && tags[i] == f;
      }
    }
  }

  /** Tags are offered in the order in which they first appear in the combined list. */
  lemma AvailableFeaturesOrder(ps: seq<Listing>)
    ensures var tags, r := AllFeatureTags(ps), AvailableFeatures(ps);
      forall i, j :: 0 <= i < j < |r| ==> FirstIndex(tags, r[i]) < FirstIndex(tags, r[j])
  {
    DedupFirstOccurrenceOrder(AllFeatureTags(ps));
    assert AvailableFeatures(ps) == Dedup(AllFeatureTags(ps));
  }

  /** A listing without features, wherever it sits, changes nothing in the offered tags. */
  lemma AvailableFeaturesIgnoresFeatureless(before: seq<Listing>, p: Listing, after: seq<Listing>)
    requires FeaturesOf(p) == []
    ensures AvailableFeatures(before + [p] + after) == AvailableFeatures(before + after)
  {
    AllFeatureTagsAppend(before + [p], after);
    AllFeatureTagsAppend(before, [p]);
    AllFeatureTagsAppend(before, after);
    assert AllFeatureTags([p]) == [];
    assert AllFeatureTags(before) + [] == AllFeatureTags(before);
  }

  function OtherThan(f: string): string -> bool {
    g => g != f
  }

  /** A feature checkbox: unticking removes the tag, ticking appends it. */
  function ToggleFeature(selected: seq<string>, f: string): seq<string> {
    if f in selected then Keep(selected, OtherThan(f)) else selected + [f]
  }

  /** The clicked tag flips; every other tag keeps its state. */
  lemma ToggleFeatureFlips(selected: seq<string>, f: string)
    ensures f in ToggleFeature(selected, f) <==> f !in selected
    ensures forall g :: g != f ==> (g in ToggleFeature(selected, f) <==> g in selected)
  {
    KeepMembers(selected, OtherThan(f));
  }

  /** Ticking a tag and unticking it again restores the selection. */
  lemma ToggleFeatureTwice(selected: seq<string>, f: string)
    requires f !in selected
    ensures ToggleFeature(ToggleFeature(selected, f), f) == selected
  {
    KeepAppend(selected, [f], OtherThan(f));
    KeepAll(selected, OtherThan(f));
    KeepNone([f], OtherThan(f));
  }
}
