# Projects section of a real-estate site, modelled in Dafny

This project models the Projects section of a real-estate landing page, a React
component. The section shows a catalogue of six built-in listings plus any
listings the visitor adds through an "Add Your Estate" form. Visitors can
filter the combined list by status, location, a price range and feature tags.
They browse it in a slider that rotates on its own, or switch to a grid showing
every card at once. A detail view shows a listing together with a down-payment
and monthly-instalment quote.

The model is split into these modules:

- `Text`: the string handling the section relies on. It covers stripping
  non-digits and reading the rest as a number, digit grouping for display
  (en-US 3/3 and en-IN 3/2), ASCII lower-casing, substring search and JavaScript
  `trim`.
- `Seqs`: the order-preserving filter behind every `Array.filter` in the
  section, and first-occurrence de-duplication (`Array.from(new Set(...))`).
- `Listings`: the listing record, the way its price string is read as a number,
  the price text a new listing gets, and the built-in catalogue.
- `FilterEngine`: the filter settings and the predicate each shown listing
  passes. It also holds the filtered list, the feature tags offered as
  checkboxes, and the checkbox and "Clear" edits.
- `Carousel`: slider index arithmetic (next, previous, autoplay) and the
  viewport rule for how many cards are shown.
- `ListingStore`: the add form, when it counts as complete, the listing it
  becomes, and removal of user listings by id.
- `Financing`: the payment quote over real numbers (30% down, 8% a year,
  monthly instalments).
- `ProjectsComponent`: the class `Projects`. Its fields are the component's
  state and its methods are the event handlers. Every method states its new
  state, in terms of the functions above where one applies.

The submission time (`Date.now()`), the photo's object URL and the browser's
number format are parameters of `AddEstate`. The window width is a parameter of
the constructor and of `Resize`.

## Model

| member | source | states |
|---|---|---|
| Text.StripNonDigits | src/components/Projects.jsx:51 | `replace(/[^0-9]/g, "")` leaves only digits and never lengthens the text |
| Text.StripConcat | src/components/Projects.jsx:51 | stripping a concatenation strips each part, so the rupee sign and the separators of a price drop out independently |
| Text.StripDigitsIsIdentity | src/components/Projects.jsx:51 | a text of digits only comes through the strip unchanged |
| Text.StripNoDigits | src/components/Projects.jsx:51 | a text without digits strips to the empty text, which reads as 0 |
| Text.DigitChar | src/components/Projects.jsx:153 | each digit value has a digit character that reads back as that value |
| Text.Digits | src/components/Projects.jsx:153 | the decimal text of a number is non-empty and all digits |
| Text.ParseDigitsOfDigits | src/components/Projects.jsx:51 | reading the decimal text of `n` gives `n` back |
| Text.DigitsNoLeadingZero | src/components/Projects.jsx:153 | the decimal text starts with '0' exactly when the number is 0 |
| Text.StripGroupDigits | src/components/Projects.jsx:153 | inserting group separators adds no digit and removes none |
| Text.FormatGroupedRoundTrip | src/components/Projects.jsx:51 | stripping a grouped number (`toLocaleString`) and reading it back gives the number, for every valid grouping |
| Text.Lower | src/components/Projects.jsx:58-59 | `toLowerCase` keeps the length, leaves no upper-case letter, turns each upper-case letter into its lower-case partner and keeps every other character |
| Text.LowerIdempotent | src/components/Projects.jsx:58-59 | lower-casing twice is lower-casing once |
| Text.ParseDigits | src/components/Projects.jsx:51 | `Number` of a digit string; its partner `ParseDigitsOfDigits` reads every printed number back |
| Text.GroupDigits | src/components/Projects.jsx:153 | the digit grouping of `toLocaleString`; `StripGroupDigits` shows it inserts separators only |
| Text.FormatGrouped | src/components/Projects.jsx:153 | `n.toLocaleString()` as grouped decimal digits; `FormatGroupedRoundTrip` reads it back as `n` |
| Text.Includes | src/components/Projects.jsx:59 | `includes`; `IncludesAt` and `IncludesWitness` show it holds exactly when the text occurs at some position |
| Text.Trim | src/components/Projects.jsx:158 | JavaScript `trim`; `TrimEmptyIffBlank` shows it leaves nothing exactly for all-white-space text |
| Text.IncludesAt | src/components/Projects.jsx:59 | `includes` holds when the text occurs at some position |
| Text.IncludesWitness | src/components/Projects.jsx:59 | when `includes` holds, there is a position where the text occurs |
| Text.TrimStartEmpty | src/components/Projects.jsx:158 | trimming the start leaves nothing exactly when the text is all white space |
| Text.TrimEmptyIffBlank | src/components/Projects.jsx:158 | `f.trim() !== ""` holds exactly when `f` is not all JavaScript white space |
| Seqs.Keep | src/components/Projects.jsx:50 | `Array.filter` keeps only elements that pass and never grows the list |
| Seqs.KeepIsSubsequence | src/components/Projects.jsx:50 | the filtered list is the input with elements deleted and none reordered |
| Seqs.KeepMembers | src/components/Projects.jsx:50 | an element is kept exactly when it is in the input and passes |
| Seqs.KeepCount | src/components/Projects.jsx:190 | a passing element keeps every one of its occurrences and a failing one keeps none |
| Seqs.KeepAppend | src/components/Projects.jsx:44 | filtering a concatenation filters each part in place |
| Seqs.KeepAll | src/components/Projects.jsx:50 | when every element passes, the filter changes nothing |
| Seqs.KeepNone | src/components/Projects.jsx:50 | when no element passes, the result is empty |
| Seqs.KeepCongruent | src/components/Projects.jsx:50 | two tests that agree on the list keep the same elements |
| Seqs.KeepIdempotent | src/components/Projects.jsx:50 | filtering twice with the same test is filtering once |
| Seqs.Dedup | src/components/Projects.jsx:46-48 | `Array.from(new Set(xs))` holds exactly the elements of `xs`, each once |
| Seqs.FirstIndex | src/components/Projects.jsx:46-48 | the first position of an element holds it and no earlier position does |
| Seqs.FirstIndexInPrefix | src/components/Projects.jsx:46-48 | appending after an element does not move its first position |
| Seqs.FirstIndexOfNew | src/components/Projects.jsx:46-48 | a newly appended element is first seen at the end |
| Seqs.DedupOrderAt | src/components/Projects.jsx:46-48 | de-duplicated elements come in the order of their first occurrence |
| Seqs.DedupFirstOccurrenceOrder | src/components/Projects.jsx:46-48 | the whole de-duplicated list is in first-occurrence order |
| Listings.DisplayPriceRoundTrip | src/components/Projects.jsx:51 | the price text `₹` + grouped digits, put through the price filter's digit strip, reads back as the amount it was made from |
| Listings.PriceOf | src/components/Projects.jsx:51 | the number the price filter reads from a listing; `DisplayPriceRoundTrip` and `CataloguePriceValues` pin it down for new and built-in listings |
| Listings.DisplayPrice | src/components/Projects.jsx:153 | the price text of a new listing starts with the rupee sign |
| Listings.FeaturesOf | src/components/Projects.jsx:47 | `p.features || []`, the tags of a listing with none missing; used by `AllFeatureTagsMembers` and `Filter` |
| Listings.DisplayStatus | src/components/Projects.jsx:682 | the badge is never empty, and shows the stored status whenever that is non-empty |
| Listings.ProjectsData | src/assets/assets.js:36-217 | the six built-in listings in catalogue order, with their texts, tags and timelines |
| Listings.GroupSevenDigitsEnIN | src/components/Projects.jsx:153 | a seven-digit amount in Indian grouping reads `dd,dd,ddd` |
| Listings.SevenDigitPrice | src/components/Projects.jsx:153 | the rupee price text of a seven-digit amount, from its digit groups |
| Listings.DigitsStep | src/components/Projects.jsx:153 | printing `10 * m + d` prints `m` followed by the digit `d` |
| Listings.SevenDigits | src/components/Projects.jsx:153 | any seven-digit amount prints as its seven digits, most significant first |
| Listings.SevenDigitPriceText | src/components/Projects.jsx:153 | any seven-digit amount is shown as `₹ab,cd,efg` with Indian digit grouping |
| Listings.CataloguePriceTextsGrouped | src/assets/assets.js:39-189 | each of the six price texts is its amount printed with Indian digit grouping |
| Listings.CataloguePricesAreGrouped | src/assets/assets.js:36-217 | every catalogue listing's price is its amount in rupees with Indian digit grouping |
| Listings.CataloguePriceValues | src/components/Projects.jsx:51 | the price filter reads every catalogue listing as its amount |
| FilterEngine.Matches | src/components/Projects.jsx:52-72 | the filter test of one listing: every set constraint holds; `FilterMembers` shows a listing is shown exactly when it passes |
| FilterEngine.ClearedFilters | src/components/Projects.jsx:15-21 | the settings the panel starts with and returns to on "Clear"; `FilterCleared` shows they keep every listing |
| FilterEngine.Filter | src/components/Projects.jsx:50-73 | each kept listing meets every constraint that is set: exact status, case-insensitive location substring, inclusive price bounds and all ticked features |
| FilterEngine.FilterIsSubsequence | src/components/Projects.jsx:50-73 | the filtered list keeps the order of the combined list |
| FilterEngine.FilterMembers | src/components/Projects.jsx:50-73 | a listing is shown exactly when it is in the list and matches |
| FilterEngine.FilterCount | src/components/Projects.jsx:50-73 | a matching listing is shown as often as it occurs and a non-matching one never |
| FilterEngine.FilterAppend | src/components/Projects.jsx:44 | filtering built-ins followed by user listings filters each group in place |
| FilterEngine.FilterCleared | src/components/Projects.jsx:566-573 | the cleared settings show every listing |
| FilterEngine.FilterIdempotent | src/components/Projects.jsx:50-73 | re-filtering a filtered list changes nothing |
| FilterEngine.FilterEmptyWhenMinAboveMax | src/components/Projects.jsx:63-64 | the bounds are inclusive and never swapped, so a minimum above the maximum shows nothing |
| FilterEngine.StatusFilterIgnoresBadgeFallback | src/components/Projects.jsx:53 | a listing without a status is badged "Completed" but is not kept by the "Completed" filter |
| FilterEngine.LocationFilterIgnoresCase | src/components/Projects.jsx:55-61 | the typed location's case never changes the result |
| FilterEngine.AllFeatureTagsAppend | src/components/Projects.jsx:47 | `flatMap` over a concatenation concatenates the tags of each part |
| FilterEngine.AllFeatureTagsMembers | src/components/Projects.jsx:47 | a tag appears exactly when some listing carries it |
| FilterEngine.AllFeatureTags | src/components/Projects.jsx:47 | `flatMap` of the listings' tags; `AllFeatureTagsMembers` and `AllFeatureTagsAppend` characterise it |
| FilterEngine.AvailableFeatures | src/components/Projects.jsx:46-48 | the offered tags have no duplicates |
| FilterEngine.AvailableFeaturesMembers | src/components/Projects.jsx:46-48 | a tag is offered exactly when some listing in the combined list carries it |
| FilterEngine.AvailableFeaturesOrder | src/components/Projects.jsx:46-48 | tags are offered in the order they are first seen |
| FilterEngine.AvailableFeaturesIgnoresFeatureless | src/components/Projects.jsx:47 | a listing without features changes nothing in the offered tags |
| FilterEngine.ToggleFeature | src/components/Projects.jsx:549-554 | the checkbox edit; `ToggleFeatureFlips` and `ToggleFeatureTwice` state what it does |
| FilterEngine.ToggleFeatureFlips | src/components/Projects.jsx:549-554 | the clicked tag flips between ticked and unticked and every other tag keeps its state |
| FilterEngine.ToggleFeatureTwice | src/components/Projects.jsx:549-554 | ticking and then unticking a tag restores the selection |
| Carousel.CardsForWidth | src/components/Projects.jsx:78-82 | the viewport rule: the whole catalogue from 1024 pixels up, otherwise one card |
| Carousel.WiderNeverFewerCards | src/components/Projects.jsx:78-82 | with a non-empty catalogue, a wider window never shows fewer cards, below the breakpoint the view is one card wide, and from it up the whole catalogue is shown |
| Carousel.NextIndex | src/components/Projects.jsx:119-123 | the next index is in range whenever there is a listing, and 0 otherwise |
| Carousel.PrevIndex | src/components/Projects.jsx:111-117 | the previous index is in range whenever there is a listing, and 0 otherwise |
| Carousel.ModUnique | src/components/Projects.jsx:111-123 | the remainder is the one value in range that differs from the dividend by a multiple of the divisor |
| Carousel.NextPrevInverse | src/components/Projects.jsx:111-123 | from an index in range, next then previous (and previous then next) returns to it |
| Carousel.ModSucc | src/components/Projects.jsx:119-123 | stepping a reduced index equals reducing the stepped index |
| Carousel.NextTimesIsRotation | src/components/Projects.jsx:95-99 | `k` autoplay ticks from any index land on `(i + k) mod n` |
| Carousel.FullRotation | src/components/Projects.jsx:95-99 | `n` ticks bring an in-range index back to itself |
| ListingStore.InitialForm | src/components/Projects.jsx:25-39 | the form as first shown and after each submission: status "Listed", one empty feature field, everything else empty |
| ListingStore.FormComplete | src/components/Projects.jsx:135-141 | title, price, location, description and photo must all be filled in |
| ListingStore.InitialFormIncomplete | src/components/Projects.jsx:25-39 | the fresh form cannot be submitted, and its one empty feature field would yield no tag |
| ListingStore.TrimEmptyIffBlankAll | src/components/Projects.jsx:158 | for every text, trimming to nothing means all white space |
| ListingStore.NonBlankFeatures | src/components/Projects.jsx:158 | no feature of a new listing is blank |
| ListingStore.NonBlankFeaturesKeepsOrder | src/components/Projects.jsx:158 | every non-blank field is kept as often as it was typed and in order, and no blank one is kept |
| ListingStore.EmptyFeatureFieldDropped | src/components/Projects.jsx:382-387 | an empty field added with "+ Add Feature" never reaches the listing |
| ListingStore.EstateFromForm | src/components/Projects.jsx:150-166 | a new listing is user-listed and has the given id, and its base price is the form price. Its shown price is the form price in rupees with digit grouping, and reads back as the form price with no commission. Its title, location, description, status and timeline are the form's, and its image is the photo URL. Its features are exactly the form's non-blank feature fields, in order, so none is blank |
| ListingStore.NoCommissionInShownPrice | src/components/Projects.jsx:147-153 | the 15% figure computed on submission is not the shown or filtered price |
| ListingStore.RemoveId | src/components/Projects.jsx:189-191 | no listing with the deleted id remains |
| ListingStore.RemoveIdKeepsOthers | src/components/Projects.jsx:189-191 | every listing with another id stays, as often as before and in order |
| ListingStore.RemoveAbsentId | src/components/Projects.jsx:189-191 | deleting an id nobody has changes nothing |
| ListingStore.DeleteUndoesAdd | src/components/Projects.jsx:189-191 | deleting a listing just added under a fresh id restores the earlier list |
| Financing.PowAtLeastLinear | src/components/Projects.jsx:1209-1213 | compound growth at a non-negative rate is at least linear |
| Financing.PowMonotone | src/components/Projects.jsx:1209-1213 | compound growth never shrinks from one month to the next |
| Financing.PowGain | src/components/Projects.jsx:1209-1213 | what compounding adds over `k` months is at most `k` months' interest on the final amount |
| Financing.Instalment | src/components/Projects.jsx:1209-1213 | the equal monthly instalment; `InstalmentCoversLoan` bounds it from below |
| Financing.InstalmentCoversLoan | src/components/Projects.jsx:1209-1213 | the instalment at least pays each month's interest, and over the term at least the loan |
| Financing.QuoteFor | src/components/Projects.jsx:1200-1213 | the down payment (30%) and the loan (70%) make up the price, the term is 12 months per year, and the instalments repay at least the loan |
| ProjectsComponent.Projects.constructor | src/components/Projects.jsx:6-39 | the initial state: no user listings, cleared filters, the initial form, index 0, slider mode, no detail view, and cards per the viewport rule at mount |
| ProjectsComponent.Projects.AllProjects | src/components/Projects.jsx:44 | the combined list: the catalogue first, then the user listings in the order they were added |
| ProjectsComponent.Projects.FilteredProjects | src/components/Projects.jsx:50-73 | what is shown: no longer than the combined list, and every entry passes the current filters |
| ProjectsComponent.Projects.OfferedFeatures | src/components/Projects.jsx:46-48 | the feature checkboxes, one per distinct tag of the combined list |
| ProjectsComponent.Projects.AutoplayOn | src/components/Projects.jsx:93 | the autoplay timer runs only in slider mode, one card wide, with no detail view open |
| ProjectsComponent.Projects.NextSlide | src/components/Projects.jsx:119-123 | the index becomes `NextIndex` of the old one over the filtered count; nothing else changes |
| ProjectsComponent.Projects.PrevSlide | src/components/Projects.jsx:111-117 | the index becomes `PrevIndex` of the old one over the filtered count; nothing else changes |
| ProjectsComponent.Projects.AutoplayTick | src/components/Projects.jsx:93-99 | a tick advances the index only in slider mode, one card wide, with no detail view open; otherwise nothing changes |
| ProjectsComponent.Projects.GoToSlide | src/components/Projects.jsx:757 | a dot sets the index to its own position |
| ProjectsComponent.Projects.ViewAll | src/components/Projects.jsx:106-110 | grid mode with as many cards as the catalogue has, index 0, and autoplay off |
| ProjectsComponent.Projects.BackToSlider | src/components/Projects.jsx:773 | leaves grid mode; the index and the card count stay |
| ProjectsComponent.Projects.Resize | src/components/Projects.jsx:78-82 | the card count follows the viewport rule, in either mode |
| ProjectsComponent.Projects.OpenProjectDetails | src/components/Projects.jsx:125-128 | the listing is selected and autoplay stops |
| ProjectsComponent.Projects.CloseProjectDetails | src/components/Projects.jsx:130-133 | no listing is selected |
| ProjectsComponent.Projects.SetFilters | src/components/Projects.jsx:490-531 | the status, location and price settings are replaced and the ticked features stay |
| ProjectsComponent.Projects.ToggleFeatureFilter | src/components/Projects.jsx:549-554 | the ticked features become `ToggleFeature` of the old ones with the clicked tag |
| ProjectsComponent.Projects.ClearFilters | src/components/Projects.jsx:566-573 | the settings are cleared and the filtered list is the whole combined list |
| ProjectsComponent.Projects.AddFeatureField | src/components/Projects.jsx:382-387 | the form gets one more empty feature field at the end |
| ProjectsComponent.Projects.EditFeatureField | src/components/Projects.jsx:372-376 | feature field `i` of the form takes the typed value and every other field stays |
| ProjectsComponent.Projects.AddEstate | src/components/Projects.jsx:134-188 | an incomplete form changes nothing. A complete one appends exactly the listing built from the form after the other user listings, then resets the form |
| ProjectsComponent.Projects.DeleteEstate | src/components/Projects.jsx:189-191 | the user listings lose every listing with that id, and the combined list is still the unchanged catalogue followed by them |

## Left out

- Rendering, animation, the modal open and close flags (`showFilter`, `showAddEstate`, `showPayment`) and the page-scroll lock set on opening a detail view are presentation only.
- The autoplay timer and the resize listener are modelled by the handlers they call (`AutoplayTick`, `Resize`), not as timers. The 4-second period is not modelled.
- The `alert` on an incomplete form is left out. `AddEstate` returns `false` and changes nothing.
- The form's plain text inputs (title, price, location, status, description, timeline, photo) are left out as handlers. They assign one field of `newEstate`, which a caller can do directly.
- `Date.now()`, `URL.createObjectURL` and the browser locale are parameters.
- `Text.Lower`: lower-cases ASCII letters only; full Unicode case mapping is not modelled.
- `ListingStore.EstateFromForm`: `toLocaleString` is modelled as digit grouping with a parametric group size and separator. Locales with other digits or decimal parts are not covered, and neither is a form price with a fraction or a minus sign. The form price is a whole number (`nat`).
- `Listings.PriceOf`: reads the stripped digits as an unbounded integer. JavaScript `Number` precision above 2^53 is not modelled. A non-numeric price bound (NaN, which never excludes a listing) is not representable.
- `Financing.QuoteFor`: computed over exact reals. Floating-point rounding, the `Math.round` of the shown instalment and its formatting are left out. The tenure is any positive number of years, not only the three buttons (10, 20, 30).
- `Financing.InstalmentCoversLoan`: proves only lower bounds on the instalment, not the exact annuity identity.
- `ProjectsComponent.Projects.SetFilters`: takes the numeric value of each price input, with `None` for an empty input. The string-to-number conversion of the inputs is not modelled.
- The `specifications` record of each built-in listing (type, floors, units, parking) is left out of `Listing`. It is only shown in the detail view and no operation reads it.
- `Header.jsx`, and everything in `assets.js` other than `projectsData` (the images, `testimonialsData`), are not part of this model.

In these places the component's labels, or the natural reading of its names, differ from what its code does; the model follows the code:

- The status filter compares the stored status. The "Completed" fallback is applied only to the badge (`StatusFilterIgnoresBadgeFallback`).
- A new listing's card says "Includes 15% platform commission" (Projects.jsx lines 714-718), but its shown price is the form price, grouped. The 15% `finalPrice` of line 148 is computed and never used (`NoCommissionInShownPrice`).
- "View All" sets the card count to the size of the built-in catalogue, not of the filtered list. "Back to Slider" only clears the grid flag.
- The index is not re-clamped when the filtered list shrinks. The next arrow or tick brings it back in range (`NextIndex` reduces any index).
- The resize rule also applies in grid mode.
