/**
 * The listing record shown by the Projects section, the way its price is read
 * as a number, and the six built-in listings of the catalogue.
 */
module Listings {
  import opened Text

  datatype Option<T> = None | Some(value: T)

  /** The one date-like entry of a timeline; which one is present picks its label. */
  datatype Milestone = Completed(year: string) | CompletionDate(date: string) | StartDate(date: string)

  datatype Timeline = Timeline(duration: string, area: string, milestone: Milestone, teamSize: string)

  /**
   * A listing. Built-in listings have no `id` and no `basePrice`; listings
   * added through the form carry both, and `isUserListed` is true for them.
   * `status` and `features` are optional fields of the record.
   */
  datatype Listing = Listing(
    id: Option<int>,
    title: string,
    price: string,
    basePrice: Option<nat>,
    location: string,
    image: string,
    status: Option<string>,
    description: string,
    features: Option<seq<string>>,
    timeline: Timeline,
    isUserListed: bool)

  /** `Number(String(project.price || "").replace(/[^0-9]/g, ""))`. */
  function PriceOf(p: Listing): nat {
    ParseDigits(StripNonDigits(p.price))
  }

  /** `₹${n.toLocaleString()}`: the rupee sign and the grouped digits of `n`. */
  function DisplayPrice(loc: NumberLocale, n: nat): (r: string)
    requires ValidLocale(loc)
    ensures |r| >= 1 && r[0] == '₹'
  {
    "₹" + FormatGrouped(loc, n)
  }

  /** Digit-stripping a displayed price gives back the amount it was made from. */
  lemma DisplayPriceRoundTrip(loc: NumberLocale, n: nat)
    requires ValidLocale(loc)
    ensures AllDigits(StripNonDigits(DisplayPrice(loc, n)))
    ensures ParseDigits(StripNonDigits(DisplayPrice(loc, n))) == n
  {
    StripConcat("₹", FormatGrouped(loc, n));
    assert StripNonDigits("₹") == [];
    assert StripNonDigits(DisplayPrice(loc, n)) == StripNonDigits(FormatGrouped(loc, n));
    FormatGroupedRoundTrip(loc, n);
  }

  /** `project.features || []`. */
  function FeaturesOf(p: Listing): seq<string> {
    if p.features.Some? then p.features.value else []
  }

  /** The badge text, `project.status || "Completed"`; used for display only. */
  function DisplayStatus(p: Listing): (r: string)
    ensures r != ""
    ensures p.status.Some? && p.status.value != "" ==> r == p.status.value
  {
    if p.status.Some? && p.status.value != "" then p.status.value else "Completed"
  }

  function BuiltIn(title: string, price: string, location: string, image: string, status: string,
                   description: string, features: seq<string>, timeline: Timeline): Listing
  {
    Listing(None, title, price, None, location, image, Some(status), description, Some(features), timeline, false)
  }

  /** The catalogue the section starts with (`projectsData`), in catalogue order. */
  const ProjectsData: seq<Listing> :=
    [SkylineHaven, VistaVerde, SerenitySuites, CentralSquare, OceanfrontOasis, MountainRetreat]

  const SkylineHaven: Listing :=
    BuiltIn("Skyline Haven", "₹12,50,000", "Mumbai, India", "project_img_1", "Completed",
      "Skyline Haven is a luxurious residential complex offering breathtaking views of the California coastline. This project features state-of-the-art amenities including a rooftop infinity pool, smart home automation, and sustainable energy solutions.",
      ["Modern Architecture", "Sustainable Materials", "Smart Home Integration", "Landscaped Gardens",
       "Energy Efficient", "Premium Finishes", "Rooftop Infinity Pool", "24/7 Security"],
      Timeline("12 Months", "5,000 Sq. Ft.", Completed("2023"), "50+ Members"))

  const VistaVerde: Listing :=
    BuiltIn("Vista Verde", "₹13,20,000", "Delhi, India", "project_img_2", "In Progress",
      "Vista Verde is an eco-friendly residential project in the heart of San Francisco, designed with sustainability at its core. Featuring green roofs, rainwater harvesting, and solar panel integration.",
      ["Eco-Friendly Design", "Green Roof System", "Rainwater Harvesting", "Solar Panel Integration",
       "Natural Ventilation", "Recycled Materials", "Community Garden", "EV Charging Stations"],
      Timeline("14 Months", "4,200 Sq. Ft.", CompletionDate("Q4 2024"), "40+ Members"))

  const SerenitySuites: Listing :=
    BuiltIn("Serenity Suites", "₹11,50,000", "Bhubaneswar, India", "project_img_3", "Completed",
      "A premium commercial and residential mixed-use development in downtown Chicago. Features luxury apartments, retail spaces, and corporate offices with cutting-edge amenities.",
      ["Mixed-Use Development", "Luxury Apartments", "Retail Spaces", "Corporate Offices",
       "Fitness Center", "Conference Facilities", "Underground Parking", "High-Speed Connectivity"],
      Timeline("18 Months", "8,500 Sq. Ft.", Completed("2022"), "75+ Members"))

  const CentralSquare: Listing :=
    BuiltIn("Central Square", "₹14,50,000", "Chennai, India", "project_img_4", "Planned",
      "Central Square is a revolutionary urban development project that combines living, working, and leisure spaces in a single integrated community.",
      ["Integrated Community", "Co-Working Spaces", "Shopping Complex", "Entertainment Zone",
       "Sports Facilities", "Healthcare Center", "Educational Spaces", "Public Transport Hub"],
      Timeline("24 Months", "12,000 Sq. Ft.", StartDate("Q1 2024"), "100+ Members"))

  const OceanfrontOasis: Listing :=
    BuiltIn("Oceanfront Oasis", "₹12,90,000", "Bangalore, India", "project_img_5", "Completed",
      "Luxury beachfront condominiums with direct ocean access, private beach, and world-class amenities for the ultimate coastal living experience.",
      ["Beachfront Location", "Private Beach Access", "Ocean View Apartments", "Marina Facilities",
       "Spa & Wellness Center", "Fine Dining Restaurant", "Yacht Club Membership", "Concierge Service"],
      Timeline("20 Months", "6,800 Sq. Ft.", Completed("2023"), "60+ Members"))

  const MountainRetreat: Listing :=
    BuiltIn("Mountain Retreat", "₹11,95,000", "Pune, India", "project_img_6", "In Progress",
      "Sustainable mountain retreat designed for nature lovers, featuring eco-friendly construction, panoramic mountain views, and adventure facilities.",
      ["Mountain Views", "Eco-Friendly Construction", "Adventure Facilities", "Fireplace Lounges",
       "Hot Springs", "Hiking Trails", "Wildlife Observation", "Sustainable Energy"],
      Timeline("16 Months", "3,500 Sq. Ft.", CompletionDate("Q3 2024"), "35+ Members"))

  /** The amounts behind the catalogue's price texts, in catalogue order. */
  const CataloguePrices: seq<nat> := [1250000, 1320000, 1150000, 1450000, 1290000, 1195000]

  /** A seven-digit amount in Indian grouping reads `dd,dd,ddd`. */
  lemma GroupSevenDigitsEnIN(a: string, b: string, c: string)
    requires |a| == 2 && |b| == 2 && |c| == 3
    ensures GroupDigits(a + b + c, 3, 2, ',') == a + [','] + b + [','] + c
  {
    var ds := a + b + c;
    assert ds[..4] == a + b && ds[4..] == c;
    assert (a + b)[..2] == a && (a + b)[2..] == b;
    assert GroupDigits(a, 2, 2, ',') == a;
  }

  /** The en-IN price text of a seven-digit amount, from its digit groups. */
  lemma SevenDigitPrice(n: nat, a: string, b: string, c: string)
    requires |a| == 2 && |b| == 2 && |c| == 3 && Digits(n) == a + b + c
    ensures DisplayPrice(EnIN, n) == "₹" + a + [','] + b + [','] + c
  {
    GroupSevenDigitsEnIN(a, b, c);
  }

  /** Printing `10 * m + d` prints `m`, then the digit `d`. */
  lemma DigitsStep(m: nat, d: nat)
    requires m >= 1 && d < 10
    ensures Digits(10 * m + d) == Digits(m) + [DigitChar(d)]
  {
    assert (10 * m + d) / 10 == m && (10 * m + d) % 10 == d;
  }

  /** The amount whose decimal digits are `a` to `g`, most significant first. */
  function Horner7(a: nat, b: nat, c: nat, d: nat, e: nat, f: nat, g: nat): nat
  {
    10 * (10 * (10 * (10 * (10 * (10 * a + b) + c) + d) + e) + f) + g
  }

  /** Printing a seven-digit amount prints its seven digits, most significant first. */
  lemma SevenDigits(a: nat, b: nat, c: nat, d: nat, e: nat, f: nat, g: nat)
    requires 1 <= a < 10 && b < 10 && c < 10 && d < 10 && e < 10 && f < 10 && g < 10
    ensures Digits(Horner7(a, b, c, d, e, f, g))
      == [DigitChar(a), DigitChar(b), DigitChar(c), DigitChar(d), DigitChar(e), DigitChar(f), DigitChar(g)]
  {
    var da, db, dc, dd := DigitChar(a), DigitChar(b), DigitChar(c), DigitChar(d);
    var de, df, dg := DigitChar(e), DigitChar(f), DigitChar(g);
    var m2 := 10 * a + b;
    DigitsStep(a, b);
    assert Digits(m2) == [da, db];
    var m3 := 10 * m2 + c;
    DigitsStep(m2, c);
    assert Digits(m3) == [da, db, dc];
    var m4 := 10 * m3 + d;
    DigitsStep(m3, d);
    assert Digits(m4) == [da, db, dc, dd];
    var m5 := 10 * m4 + e;
    DigitsStep(m4, e);
    assert Digits(m5) == [da, db, dc, dd, de];
    var m6 := 10 * m5 + f;
    DigitsStep(m5, f);
    assert Digits(m6) == [da, db, dc, dd, de, df];
    DigitsStep(m6, g);
  }

  /** The en-IN price text of a seven-digit amount: `₹ab,cd,efg`. */
  lemma SevenDigitPriceText(a: nat, b: nat, c: nat, d: nat, e: nat, f: nat, g: nat)
    requires 1 <= a < 10 && b < 10 && c < 10 && d < 10 && e < 10 && f < 10 && g < 10
    ensures DisplayPrice(EnIN, Horner7(a, b, c, d, e, f, g))
      == ['₹', DigitChar(a), DigitChar(b), ',', DigitChar(c), DigitChar(d), ',', DigitChar(e), DigitChar(f), DigitChar(g)]
  {
    SevenDigits(a, b, c, d, e, f, g);
    var hi, mid, lo := [DigitChar(a), DigitChar(b)], [DigitChar(c), DigitChar(d)], [DigitChar(e), DigitChar(f), DigitChar(g)];
    assert hi + mid + lo == [DigitChar(a), DigitChar(b), DigitChar(c), DigitChar(d), DigitChar(e), DigitChar(f), DigitChar(g)];
    SevenDigitPrice(Horner7(a, b, c, d, e, f, g), hi, mid, lo);
  }

  /** The price texts of the catalogue, in catalogue order. */
  const CataloguePriceTexts: seq<string> := ["₹12,50,000", "₹13,20,000", "₹11,50,000", "₹14,50,000", "₹12,90,000", "₹11,95,000"]

  /** Each catalogue price text is its amount printed with Indian digit grouping. */
  lemma CataloguePriceTextsGrouped()
    ensures |CataloguePriceTexts| == |CataloguePrices|
    ensures forall i :: 0 <= i < |CataloguePrices| ==> CataloguePriceTexts[i] == DisplayPrice(EnIN, CataloguePrices[i])
  {
    forall i | 0 <= i < |CataloguePrices| ensures CataloguePriceTexts[i] == DisplayPrice(EnIN, CataloguePrices[i]) {
      if i == 0 {
        SevenDigitPriceText(1, 2, 5, 0, 0, 0, 0);
      } else if i == 1 {
        SevenDigitPriceText(1, 3, 2, 0, 0, 0, 0);
      } else if i == 2 {
        SevenDigitPriceText(1, 1, 5, 0, 0, 0, 0);
      } else if i == 3 {
        SevenDigitPriceText(1, 4, 5, 0, 0, 0, 0);
      } else if i == 4 {
        SevenDigitPriceText(1, 2, 9, 0, 0, 0, 0);
      } else if i == 5 {
        SevenDigitPriceText(1, 1, 9, 5, 0, 0, 0);
      }
    }
  }

  /** Every catalogue price is its amount in rupees, printed with Indian digit grouping. */
  lemma CataloguePricesAreGrouped()
    ensures |CataloguePrices| == |ProjectsData|
    ensures forall i :: 0 <= i < |ProjectsData| ==> ProjectsData[i].price == DisplayPrice(EnIN, CataloguePrices[i])
  {
    assert forall i :: 0 <= i < |ProjectsData| ==> ProjectsData[i].price == CataloguePriceTexts[i];
    CataloguePriceTextsGrouped();
  }

  /** The price filter reads each catalogue listing as its amount. */
  lemma CataloguePriceValues()
    ensures forall i :: 0 <= i < |ProjectsData| ==> PriceOf(ProjectsData[i]) == CataloguePrices[i]
  {
    CataloguePricesAreGrouped();
    forall i | 0 <= i < |ProjectsData| ensures PriceOf(ProjectsData[i]) == CataloguePrices[i] {
      DisplayPriceRoundTrip(EnIN, CataloguePrices[i]);
    }
  }
}
