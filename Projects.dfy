/**
 * The Projects section as a stateful object: its fields are the component's
 * state (the user listings, the filter settings, the add form, the slider
 * index and mode, the open detail view) and its methods are the event
 * handlers that update them. Everything shown is derived from the fields by
 * the functions of the other modules.
 */
module ProjectsComponent {
  import opened Text
  import opened Seqs
  import opened Listings
  import opened FilterEngine
  import opened Carousel
  import opened ListingStore

  class Projects {
    /** The built-in catalogue; nothing ever changes it. */
    const catalogue: seq<Listing>
    var userEstates: seq<Listing>
    var filters: FilterSpec
    var newEstate: EstateForm
    var currentIndex: nat
    var cardsToShow: nat
    var isViewAll: bool
    var selectedProject: Option<Listing>

    /** The state right after mounting in a window `width` pixels wide. */
    constructor (catalogue: seq<Listing>, width: int)
      ensures this.catalogue == catalogue && userEstates == []
      ensures filters == ClearedFilters && newEstate == InitialForm
      ensures currentIndex == 0 && cardsToShow == CardsForWidth(width, |catalogue|)
      ensures !isViewAll && selectedProject.None?
    {
      this.catalogue := catalogue;
      userEstates := [];
      filters := ClearedFilters;
      newEstate := InitialForm;
      currentIndex := 0;
      cardsToShow := CardsForWidth(width, |catalogue|);
      isViewAll := false;
      selectedProject := None;
    }

    /** `allProjects`: the catalogue, then the user listings in the order they were added. */
    function AllProjects(): (r: seq<Listing>)
      reads this
      ensures |r| == |catalogue| + |userEstates|
      ensures r[..|catalogue|] == catalogue && r[|catalogue|..] == userEstates
    {
      catalogue + userEstates
    }

    /** What the slider and the grid show: the combined list, every entry matching the filters. */
    function FilteredProjects(): (r: seq<Listing>)
      reads this
      ensures |r| <= |AllProjects()|
      ensures forall i :: 0 <= i < |r| ==> Matches(filters, r[i])
    {
      Filter(filters, AllProjects())
    }

    /** The feature checkboxes of the filter panel, one per distinct tag. */
    function OfferedFeatures(): (r: seq<string>)
      reads this
      ensures NoDuplicates(r)
    {
      AvailableFeatures(AllProjects())
    }

    /** The autoplay timer runs only in slider mode, one card wide, with no detail view open. */
    predicate AutoplayOn()
      reads this
    {
      !isViewAll && cardsToShow == 1 && selectedProject.None?
    }

    method NextSlide()
      modifies this`currentIndex
      ensures currentIndex == NextIndex(old(currentIndex), |FilteredProjects()|)
    {
      currentIndex := NextIndex(currentIndex, |FilteredProjects()|);
    }

    method PrevSlide()
      modifies this`currentIndex
      ensures currentIndex == PrevIndex(old(currentIndex), |FilteredProjects()|)
    {
      currentIndex := PrevIndex(currentIndex, |FilteredProjects()|);
    }

    /** One firing of the autoplay timer, which exists only while `AutoplayOn()`. */
    method AutoplayTick() returns (fired: bool)
      modifies this`currentIndex
      ensures fired == AutoplayOn()
      ensures currentIndex == if fired then NextIndex(old(currentIndex), |FilteredProjects()|) else old(currentIndex)
    {
      fired := AutoplayOn();
      if fired {
        NextSlide();
      }
    }

    /** A dot under the slider: jump straight to its index. */
    method GoToSlide(index: nat)
      modifies this`currentIndex
      ensures currentIndex == index
    {
      currentIndex := index;
    }

    /** `handleViewAll`: grid mode, as many cards as the catalogue has, back to the first. */
    method ViewAll()
      modifies this`isViewAll, this`cardsToShow, this`currentIndex
      ensures isViewAll && cardsToShow == |catalogue| && currentIndex == 0
      ensures !AutoplayOn()
    {
      isViewAll := true;
      cardsToShow := |catalogue|;
      currentIndex := 0;
    }

    /** "Back to Slider" only leaves grid mode; the index and the card count stay. */
    method BackToSlider()
      modifies this`isViewAll
      ensures !isViewAll
    {
      isViewAll := false;
    }

    /** The resize listener applies the viewport rule, in either mode. */
    method Resize(width: int)
      modifies this`cardsToShow
      ensures cardsToShow == CardsForWidth(width, |catalogue|)
    {
      cardsToShow := CardsForWidth(width, |catalogue|);
    }

    method OpenProjectDetails(p: Listing)
      modifies this`selectedProject
      ensures selectedProject == Some(p) && !AutoplayOn()
    {
      selectedProject := Some(p);
    }

    method CloseProjectDetails()
      modifies this`selectedProject
      ensures selectedProject.None?
    {
      selectedProject := None;
    }

    /** The status, location and price inputs of the filter panel. */
    method SetFilters(status: string, location: string, minPrice: Option<int>, maxPrice: Option<int>)
      modifies this`filters
      ensures filters == FilterSpec(status, location, minPrice, maxPrice, old(filters.features))
    {
      filters := FilterSpec(status, location, minPrice, maxPrice, filters.features);
    }

    /** A feature checkbox of the filter panel. */
    method ToggleFeatureFilter(f: string)
      modifies this`filters
      ensures filters == old(filters).(features := ToggleFeature(old(filters.features), f))
    {
      filters := filters.(features := ToggleFeature(filters.features, f));
    }

    /** "Clear": back to the settings that show every listing. */
    method ClearFilters()
      modifies this`filters
      ensures filters == ClearedFilters && FilteredProjects() == AllProjects()
    {
      filters := ClearedFilters;
      FilterCleared(AllProjects());
    }

    /** "+ Add Feature": one more, empty, feature field in the form. */
    method AddFeatureField()
      modifies this`newEstate
      ensures newEstate == old(newEstate).(features := old(newEstate.features) + [""])
    {
      newEstate := newEstate.(features := newEstate.features + [""]);
    }

    /** Typing into feature field `i` of the form. */
    method EditFeatureField(i: nat, value: string)
      requires i < |newEstate.features|
      modifies this`newEstate
      ensures newEstate == old(newEstate).(features := old(newEstate.features)[i := value])
    {
      newEstate := newEstate.(features := newEstate.features[i := value]);
    }

    /**
     * `handleAddEstate`. An incomplete form changes nothing. A complete one
     * appends exactly one listing, built from the form, after the other user
     * listings, and resets the form. `id` stands for the submission time and
     * `photoUrl` for the object URL of the photo.
     */
    method AddEstate(id: int, photoUrl: string, loc: NumberLocale) returns (added: bool)
      requires ValidLocale(loc)
      modifies this`userEstates, this`newEstate
      ensures added == FormComplete(old(newEstate))
      ensures !added ==> userEstates == old(userEstates) && newEstate == old(newEstate)
      ensures added ==> userEstates == old(userEstates) + [EstateFromForm(old(newEstate), id, photoUrl, loc)]
      ensures added ==> newEstate == InitialForm
    {
      added := FormComplete(newEstate);
      if !added {
        return;
      }
      var estate := EstateFromForm(newEstate, id, photoUrl, loc);
      userEstates := userEstates + [estate];
      newEstate := InitialForm;
    }

    /**
     * `handleDeleteEstate`: removes every user listing with that id. The
     * catalogue is a separate constant, so built-in listings are never removed.
     */
    method DeleteEstate(id: int)
      modifies this`userEstates
      ensures userEstates == RemoveId(old(userEstates), id)
      ensures AllProjects() == catalogue + RemoveId(old(userEstates), id)
    {
      userEstates := RemoveId(userEstates, id);
    }
  }
}
