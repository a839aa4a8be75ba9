/** The search page of the web client: its form state, the required-field
    guard on submit, the reset, and the five placeholder activities it shows
    after a simulated search. */
module App {
  import opened Wrappers
  import opened JsStrings
  import opened JsValues

  /** The form's fields. Text inputs always hold strings; `maxDistance` is
      the number 10 until the slider hands back its value. */
  datatype FormData = FormData(city: string, kidAges: string, dateTime: string,
                               maxDistance: Json, preferences: string)

  /** The form as the page first shows it, and as clearing leaves it. */
  const InitialForm := FormData("", "", "", JNum(10), "")

  /** The text on a card: one of eight fixed descriptions, two of which
      name the city or the children's ages. */
  datatype Description =
    | TransitDescription(city: string)
    | GreekFestivalDescription
    | ScienceDescription(kidAges: string)
    | CartoonDescription
    | OutdoorDescription
    | DanceDescription
    | BudgetDescription
    | PremiumDescription

  /** One placeholder activity card. */
  datatype DummyActivity = DummyActivity(id: nat, title: string, emoji: string, description: Description,
                                         location: string, distance: string)

  /** `s || fallback` on a string: the fallback replaces the empty string. */
  function Or(s: string, fallback: string): (r: string)
    ensures s != "" ==> r == s
    ensures s == "" ==> r == fallback
    ensures r != "" <==> s != "" || fallback != ""
  {
    if s == "" then fallback else s
  }

  /** The time each card shows when no date and time were given. */
  const DefaultTimes: seq<string> :=
    ["Sunday 10am-4pm", "Sunday 11am-8pm", "Sunday 10am-5pm", "Sunday 11am-2pm", "Sunday 1pm-4pm"]

  /** The fixed distance of each card. */
  const Distances: seq<string> := ["0.5 miles", "1.2 miles", "2 miles", "3 miles", "2.5 miles"]

  /** `searchData.preferences?.includes(word)`. */
  predicate Mentions(search: FormData, word: string)
  {
    Includes(search.preferences, word)
  }

  /** The first part of each card's title. */
  function Headline(card: nat, search: FormData): string
    requires card < 5
  {
    if card == 0 then Or(search.city, "Local") + " Heritage Weekend"
    else if card == 1 then
      (if Mentions(search, "food") || Mentions(search, "cultural") then "International Food Festival"
       else "Greek Food Festival")
    else if card == 2 then
      (if Mentions(search, "educational") || Mentions(search, "indoor") then "Interactive Science Museum"
       else "Sunday Funnies Exhibit")
    else if card == 3 then
      (if Mentions(search, "outdoor") then "Park Adventure Day" else "Lindy in the Park Dance Party")
    else
      (if Mentions(search, "budget") || Mentions(search, "free") then "Free Community Festival"
       else "Premium Family Experience")
  }

  /** A card title: its headline, a dash, and the requested time or the
      card's default time. */
  function Title(card: nat, search: FormData): string
    requires card < 5
  {
    Headline(card, search) + " - " + Or(search.dateTime, DefaultTimes[card])
  }

  // ---------------------------------------------------------------------
  // The five cards
  // ---------------------------------------------------------------------

  function HeritageCard(search: FormData): DummyActivity
  {
    DummyActivity(1, Title(0, search), "\U{1F68B}", TransitDescription(Or(search.city, "city")),
                  Or(search.city, "Local") + " Railway Museum", Distances[0])
  }

  function FestivalCard(search: FormData): DummyActivity
  {
    DummyActivity(2, Title(1, search), "\U{1F1EC}\U{1F1F7}", GreekFestivalDescription, "Mission District",
                  Distances[1])
  }

  function MuseumCard(search: FormData): DummyActivity
  {
    var educational := Mentions(search, "educational");
    DummyActivity(3, Title(2, search),
                  if educational then "\U{1F52C}" else "\U{1F3A8}",
                  if educational then ScienceDescription(Or(search.kidAges, "6-12")) else CartoonDescription,
                  if educational then "Exploratorium" else "Cartoon Art Museum",
                  Distances[2])
  }

  function ParkCard(search: FormData): DummyActivity
  {
    var outdoor := Mentions(search, "outdoor");
    DummyActivity(4, Title(3, search),
                  if outdoor then "\U{1F332}" else "\U{1F57A}",
                  if outdoor then OutdoorDescription else DanceDescription,
                  "Golden Gate Park", Distances[3])
  }

  function CommunityCard(search: FormData): DummyActivity
  {
    var budget := Mentions(search, "budget");
    DummyActivity(5, Title(4, search),
                  if budget then "\U{1F3AA}" else "\U{1F3AD}",
                  if budget then BudgetDescription else PremiumDescription,
                  if budget then "Community Center" else "Premium Cultural Center",
                  Distances[4])
  }

  /** `generateDummyResults(searchData)`: the five cards, in order. */
  function GenerateDummyResults(search: FormData): (r: seq<DummyActivity>)
    ensures |r| == 5
  {
    [HeritageCard(search), FestivalCard(search), MuseumCard(search), ParkCard(search), CommunityCard(search)]
  }

  // ---------------------------------------------------------------------
  // Card texts
  // ---------------------------------------------------------------------

  const TransitBefore := "A special event where families can ride vintage transit vehicles that are rarely seen on "
  const TransitAfter := " streets, including vintage buses and the Blackpool Boat Tram. All rides on these special streetcars are FREE all weekend."
  const ScienceBefore := "Interactive hands-on science experiments designed for kids ages "
  const ScienceAfter := ". Learn about chemistry, physics, and biology through fun activities like making slime, building simple circuits, and exploring the microscopic world."

  /** The words of each description, as the card shows them. */
  function DescriptionText(d: Description): string
  {
    match d
    case TransitDescription(city) => TransitBefore + city + TransitAfter
    case GreekFestivalDescription =>
      "The annual festival features delicious traditional food like Spanakopita and Moussaka, plus desserts and wine. Visitors can enjoy classic music, watch award-winning folk dance groups perform, and browse unique gifts from local vendors."
    case ScienceDescription(kidAges) => ScienceBefore + kidAges + ScienceAfter
    case CartoonDescription =>
      "The Cartoon Art Museum's 40th anniversary showcase features classic comic strips from the dawn of the comics medium to the present day, including works from legendary cartoonists like Charles M. Schulz (Peanuts) and contemporary classics."
    case OutdoorDescription =>
      "A weekly outdoor adventure event featuring hiking trails, nature walks, and family-friendly activities in the great outdoors. Perfect for families looking to explore nature together."
    case DanceDescription =>
      "A weekly free swing dance event near the de Young Museum when the streets of Golden Gate Park are closed to traffic. Get ready to swing in Golden Gate Park every sunny Sunday at this family-friendly dance gathering."
    case BudgetDescription =>
      "A completely free community festival with live music, food trucks, face painting, and activities for kids of all ages. Local vendors showcase their crafts and the whole community comes together for a fun day."
    case PremiumDescription =>
      "A premium family experience featuring guided tours, interactive workshops, and exclusive access to special exhibits. Includes refreshments and take-home activities for the kids."
  }

  // ---------------------------------------------------------------------
  // Properties of the cards
  // ---------------------------------------------------------------------

  predicate EndsWith(s: string, suffix: string)
  {
    |suffix| <= |s| && s[|s| - |suffix|..] == suffix
  }

  /** A title starts with its headline. */
  lemma TitleStartsWithHeadline(card: nat, search: FormData)
    requires card < 5
    ensures StartsWith(Title(card, search), Headline(card, search))
  {
    var h := Headline(card, search);
    assert (h + (" - " + Or(search.dateTime, DefaultTimes[card])))[..|h|] == h;
  }

  /** A title ends with the requested time, or with the card's own default
      time when none was given. */
  lemma TitleEndsWithTime(card: nat, search: FormData)
    requires card < 5
    ensures EndsWith(Title(card, search),
                     " - " + (if search.dateTime == "" then DefaultTimes[card] else search.dateTime))
  {
    var h := Headline(card, search);
    var time := " - " + Or(search.dateTime, DefaultTimes[card]);
    assert (h + time)[|h + time| - |time|..] == time;
  }

  /** A string whose first character differs from the prefix's does not
      start with it. */
  lemma NotStartsWith(s: string, prefix: string)
    requires s != [] && prefix != [] && s[0] != prefix[0]
    ensures !StartsWith(s, prefix)
  {
    if |prefix| <= |s| {
      assert s[..|prefix|][0] == s[0];
    }
  }

  /** Always five cards, numbered 1 to 5, at the fixed distances, each
      titled by its own headline and time. */
  lemma DummyResultsShape(search: FormData)
    ensures var r := GenerateDummyResults(search);
            |r| == 5 && forall i :: 0 <= i < |r| ==>
              r[i].id == i + 1 && r[i].distance == Distances[i] && r[i].title == Title(i, search)
  {
    var r := GenerateDummyResults(search);
    forall i | 0 <= i < 5
      ensures r[i].id == i + 1 && r[i].distance == Distances[i] && r[i].title == Title(i, search)
    {
      if i == 0 { assert r[i] == HeritageCard(search); }
      else if i == 1 { assert r[i] == FestivalCard(search); }
      else if i == 2 { assert r[i] == MuseumCard(search); }
      else if i == 3 { assert r[i] == ParkCard(search); }
      else { assert r[i] == CommunityCard(search); }
    }
  }

  /** Every title ends with the requested time, or with the card's own
      default time when none was given. */
  lemma TitlesEndWithTime(search: FormData)
    ensures var r := GenerateDummyResults(search);
            forall i :: 0 <= i < |r| ==>
              EndsWith(r[i].title, " - " + (if search.dateTime == "" then DefaultTimes[i] else search.dateTime))
  {
    DummyResultsShape(search);
    forall i | 0 <= i < 5
      ensures EndsWith(Title(i, search), " - " + (if search.dateTime == "" then DefaultTimes[i] else search.dateTime))
    {
      TitleEndsWithTime(i, search);
    }
  }

  /** An empty city shows `Local` in the heritage card's title and
      location, and `city` in its description. */
  lemma EmptyCityDefaults(search: FormData)
    requires search.city == ""
    ensures var card := GenerateDummyResults(search)[0];
            && StartsWith(card.title, "Local" + " Heritage Weekend")
            && card.location == "Local" + " Railway Museum"
            && card.description == TransitDescription("city")
  {
    TitleStartsWithHeadline(0, search);
  }

  /** The festival card is the international one exactly when the
      preferences mention food or culture. */
  lemma FestivalTitleIff(search: FormData)
    ensures StartsWith(GenerateDummyResults(search)[1].title, "International Food Festival")
            <==> Mentions(search, "food") || Mentions(search, "cultural")
  {
    TitleStartsWithHeadline(1, search);
    if !(Mentions(search, "food") || Mentions(search, "cultural")) {
      NotStartsWith(Title(1, search), "International Food Festival");
    }
  }

  /** The park card is the outdoor one, title, emoji and description,
      exactly when the preferences mention the outdoors. */
  lemma ParkCardIff(search: FormData)
    ensures var card := GenerateDummyResults(search)[3];
            && (StartsWith(card.title, "Park Adventure Day") <==> Mentions(search, "outdoor"))
            && (card.emoji == "\U{1F332}" <==> Mentions(search, "outdoor"))
            && (card.description == OutdoorDescription <==> Mentions(search, "outdoor"))
  {
    TitleStartsWithHeadline(3, search);
    if !Mentions(search, "outdoor") {
      NotStartsWith(Title(3, search), "Park Adventure Day");
    }
  }

  /** The museum card's title switches on `educational` or `indoor`, but its
      emoji, description and location on `educational` alone. */
  lemma MuseumCardSwitches(search: FormData)
    ensures var card := GenerateDummyResults(search)[2];
            && (StartsWith(card.title, "Interactive Science Museum")
                <==> Mentions(search, "educational") || Mentions(search, "indoor"))
            && (card.emoji == "\U{1F52C}" <==> Mentions(search, "educational"))
            && (card.description.ScienceDescription? <==> Mentions(search, "educational"))
            && (card.location == "Exploratorium" <==> Mentions(search, "educational"))
  {
    TitleStartsWithHeadline(2, search);
    if !(Mentions(search, "educational") || Mentions(search, "indoor")) {
      NotStartsWith(Title(2, search), "Interactive Science Museum");
    }
  }

  /** The community card's title switches on `budget` or `free`, but its
      emoji, description and location on `budget` alone. */
  lemma CommunityCardSwitches(search: FormData)
    ensures var card := GenerateDummyResults(search)[4];
            && (StartsWith(card.title, "Free Community Festival")
                <==> Mentions(search, "budget") || Mentions(search, "free"))
            && (card.emoji == "\U{1F3AA}" <==> Mentions(search, "budget"))
            && (card.description == BudgetDescription <==> Mentions(search, "budget"))
            && (card.location == "Community Center" <==> Mentions(search, "budget"))
  {
    TitleStartsWithHeadline(4, search);
    if !(Mentions(search, "budget") || Mentions(search, "free")) {
      NotStartsWith(Title(4, search), "Free Community Festival");
    }
  }

  // ---------------------------------------------------------------------
  // The page's state
  // ---------------------------------------------------------------------

  /** The required fields are city, children's ages, and date and time. */
  predicate RequiredFilled(form: FormData)
  {
    form.city != "" && form.kidAges != "" && form.dateTime != ""
  }

  const RequiredFieldsAlert := "Please fill in all required fields (City, Kid Ages, and Date & Time)"

  /** What a submit does: raise an alert, or start the simulated search,
      whose timer later delivers the results for the form as submitted. */
  datatype SubmitOutcome = Alerted(message: string) | Scheduled(snapshot: FormData)

  /** The page's state hooks. */
  class SearchPage {
    var formData: FormData
    var isLoading: bool
    var searchResults: seq<DummyActivity>
    var hasSearched: bool

    /** Loading and results only follow a search. */
    predicate Valid()
      reads this
    {
      (isLoading ==> hasSearched) && (searchResults != [] ==> hasSearched)
    }

    constructor()
      ensures formData == InitialForm && !isLoading && searchResults == [] && !hasSearched
      ensures Valid()
    {
      formData := InitialForm;
      isLoading := false;
      searchResults := [];
      hasSearched := false;
    }

    /** `handleSubmit`: the search button is disabled while loading. With a
        required field empty, only the alert; otherwise loading starts, the
        page counts as searched, and the timer is scheduled with the form. */
    method HandleSubmit() returns (outcome: SubmitOutcome)
      requires Valid() && !isLoading
      modifies this
      ensures Valid()
      ensures formData == old(formData) && searchResults == old(searchResults)
      ensures !RequiredFilled(formData) ==>
                outcome == Alerted(RequiredFieldsAlert) && !isLoading && hasSearched == old(hasSearched)
      ensures RequiredFilled(formData) ==> outcome == Scheduled(formData) && isLoading && hasSearched
    {
      if !RequiredFilled(formData) {
        outcome := Alerted(RequiredFieldsAlert);
        return;
      }
      isLoading := true;
      hasSearched := true;
      outcome := Scheduled(formData);
    }

    /** The simulated search's timer: the results for the submitted form,
        and loading ends. Nothing can clear the page while it is loading. */
    method TimerFires(snapshot: FormData)
      requires Valid() && isLoading
      modifies this
      ensures Valid()
      ensures searchResults == GenerateDummyResults(snapshot) && !isLoading
      ensures formData == old(formData) && hasSearched == old(hasSearched)
    {
      searchResults := GenerateDummyResults(snapshot);
      isLoading := false;
    }

    /** `handleClear`: the clear button is disabled while loading. The form
        is back to its first value and the page to never having searched. */
    method HandleClear()
      requires Valid() && !isLoading
      modifies this
      ensures Valid()
      ensures formData == InitialForm && searchResults == [] && !hasSearched && !isLoading
    {
      formData := InitialForm;
      searchResults := [];
      hasSearched := false;
      isLoading := false;
    }
  }

  /** A submit followed by its timer shows five cards for the form. */
  method SubmitAndWait(page: SearchPage)
    requires page.Valid() && !page.isLoading && RequiredFilled(page.formData)
    modifies page
    ensures page.Valid() && !page.isLoading && page.hasSearched
    ensures page.searchResults == GenerateDummyResults(old(page.formData))
  {
    var outcome := page.HandleSubmit();
    page.TimerFires(outcome.snapshot);
  }
}
