/**
 * The user listings of the Projects section: the "Add Your Estate" form, the
 * listing a complete form turns into, and removal of user listings by id.
 */
module ListingStore {
  import opened Text
  import opened Seqs
  import opened Listings

  datatype FormTimeline = FormTimeline(duration: string, area: string, completionDate: string, teamSize: string)

  /**
   * The form (`newEstate`). `price` is the number input, absent while it is
   * empty; `photo` names the chosen file, absent until one is chosen.
   */
  datatype EstateForm = EstateForm(
    title: string,
    price: Option<nat>,
    location: string,
    status: string,
    description: string,
    features: seq<string>,
    timeline: FormTimeline,
    photo: Option<string>)

  /** The form as it is first shown and as it is reset after a submission. */
  const InitialForm: EstateForm :=
    EstateForm("", None, "", "Listed", "", [""], FormTimeline("", "", "", ""), None)

  /** Title, price, location, description and photo must all be filled in. */
  predicate FormComplete(f: EstateForm) {
    f.title != "" && f.price.Some? && f.location != "" && f.description != "" && f.photo.Some?
  }

  /** The fresh form cannot be submitted, and it offers one empty feature field. */
  lemma InitialFormIncomplete()
    ensures !FormComplete(InitialForm)
    ensures InitialForm.features == [""] && NonBlankFeatures(InitialForm.features) == []
  {
    EmptyFeatureFieldDropped([]);
  }

  function NotBlank(): string -> bool {
    (f: string) => Trim(f) != ""
  }

  lemma TrimEmptyIffBlankAll()
    ensures forall s :: Trim(s) == [] <==> IsBlank(s)
  {
    forall s ensures Trim(s) == [] <==> IsBlank(s) {
      TrimEmptyIffBlank(s);
    }
  }

  /** `features.filter((f) => f.trim() !== "")`: no kept tag is white space only. */
  function NonBlankFeatures(fs: seq<string>): (r: seq<string>)
    ensures forall i :: 0 <= i < |r| ==> !IsBlank(r[i])
  {
    TrimEmptyIffBlankAll();
    Keep(fs, NotBlank())
  }

  /**
   * Blank tags are dropped, every other tag is kept as often as it was
   * typed, and the order is unchanged.
   */
  lemma NonBlankFeaturesKeepsOrder(fs: seq<string>)
    ensures IsSubsequence(NonBlankFeatures(fs), fs)
    ensures forall f :: f in NonBlankFeatures(fs) <==> f in fs && !IsBlank(f)
    ensures forall f :: multiset(NonBlankFeatures(fs))[f] == if IsBlank(f) then 0 else multiset(fs)[f]
  {
    TrimEmptyIffBlankAll();
    KeepIsSubsequence(fs, NotBlank());
    KeepMembers(fs, NotBlank());
    forall f ensures multiset(NonBlankFeatures(fs))[f] == if IsBlank(f) then 0 else multiset(fs)[f] {
      KeepCount(fs, NotBlank(), f);
    }
  }

  /** An empty field added with "+ Add Feature" never reaches the listing. */
  lemma EmptyFeatureFieldDropped(fs: seq<string>)
    ensures NonBlankFeatures(fs + [""]) == NonBlankFeatures(fs)
  {
    KeepAppend(fs, [""], NotBlank());
    assert Trim("") == "";
  }

  /**
   * The listing a complete form becomes. `id` is the submission time and
   * `photoUrl` the object URL made for the photo; `loc` is the number format
   * of the browser. The shown price is the form price with digit grouping and
   * no commission: stripping its non-digits gives the form price back.
   */
  function EstateFromForm(f: EstateForm, id: int, photoUrl: string, loc: NumberLocale): (e: Listing)
    requires f.price.Some? && ValidLocale(loc)
    ensures e.isUserListed && e.id == Some(id)
    ensures e.basePrice == f.price && PriceOf(e) == f.price.value
    ensures e.status == Some(f.status)
    ensures e.features.Some? && forall i :: 0 <= i < |FeaturesOf(e)| ==> !IsBlank(FeaturesOf(e)[i])
    ensures e.features == Some(NonBlankFeatures(f.features))
    ensures e.price == DisplayPrice(loc, f.price.value)
    ensures e.title == f.title && e.location == f.location && e.description == f.description
    ensures e.image == photoUrl
    ensures e.timeline == Timeline(f.timeline.duration, f.timeline.area,
      CompletionDate(f.timeline.completionDate), f.timeline.teamSize)
  {
    var base := f.price.value;
    DisplayPriceRoundTrip(loc, base);
    Listing(
      Some(id), f.title, DisplayPrice(loc, base), Some(base), f.location, photoUrl,
      Some(f.status), f.description, Some(NonBlankFeatures(f.features)),
      Timeline(f.timeline.duration, f.timeline.area, CompletionDate(f.timeline.completionDate), f.timeline.teamSize),
      true)
  }

  /** The 15% figure computed on submission is not what is shown or filtered on. */
  lemma NoCommissionInShownPrice(f: EstateForm, id: int, photoUrl: string, loc: NumberLocale)
    requires f.price.Some? && f.price.value > 0 && ValidLocale(loc)
    ensures var base := f.price.value;
      PriceOf(EstateFromForm(f, id, photoUrl, loc)) as real != base as real + base as real * 0.15
  {
  }

  function IdOtherThan(id: int): Listing -> bool {
    (e: Listing) => e.id != Some(id)
  }

  /** `prev.filter((e) => e.id !== id)`: no listing with that id is left. */
  function RemoveId(es: seq<Listing>, id: int): (r: seq<Listing>)
    ensures forall i :: 0 <= i < |r| ==> r[i].id != Some(id)
  {
    Keep(es, IdOtherThan(id))
  }

  /** Every listing with another id stays, as often as before and in the same order. */
  lemma RemoveIdKeepsOthers(es: seq<Listing>, id: int)
    ensures IsSubsequence(RemoveId(es, id), es)
    ensures forall e: Listing :: e.id != Some(id) ==> multiset(RemoveId(es, id))[e] == multiset(es)[e]
  {
    KeepIsSubsequence(es, IdOtherThan(id));
    forall e: Listing | e.id != Some(id) ensures multiset(RemoveId(es, id))[e] == multiset(es)[e] {
      KeepCount(es, IdOtherThan(id), e);
    }
  }

  /** Deleting an id nobody has changes nothing. */
  lemma RemoveAbsentId(es: seq<Listing>, id: int)
    requires forall i :: 0 <= i < |es| ==> es[i].id != Some(id)
    ensures RemoveId(es, id) == es
  {
    KeepAll(es, IdOtherThan(id));
  }

  /** Deleting a listing just added under a fresh id gives the earlier list back. */
  lemma DeleteUndoesAdd(es: seq<Listing>, e: Listing, id: int)
    requires e.id == Some(id)
    requires forall i :: 0 <= i < |es| ==> es[i].id != Some(id)
    ensures RemoveId(es + [e], id) == es
  {
    KeepAppend(es, [e], IdOtherThan(id));
    KeepAll(es, IdOtherThan(id));
    KeepNone([e], IdOtherThan(id));
  }
}
