/**
 * The pure decisions of the dialogue: the conversation stages, the keyword
 * tests on user text and stored hints, the fixed inline keyboards, the
 * callback ids `button_callback` recognises, the stage each handler moves to,
 * and the choice of canned flight text.
 */
module Routing {
  import opened Strings

  /** The stages `INITIAL … ITINERARY`, numbered by `range(5)` (bot.py:38). */
  datatype Stage = Initial | DestinationDetails | ResortSelection | FlightOptions | Itinerary {
    function Index(): nat {
      match this
      case Initial => 0
      case DestinationDetails => 1
      case ResortSelection => 2
      case FlightOptions => 3
      case Itinerary => 4
    }
  }

  // ---------------------------------------------------------------- keywords

  /** Words that mark an opening vacation request (bot.py:184). */
  const InitialKeywords: seq<string> := ["vacation", "trip", "travel", "holiday", "beach", "plan", "looking"]

  /** `any(keyword in user_message.lower() for keyword in initial_vacation_keywords)` (bot.py:185). */
  predicate IsInitialInquiry(msg: string) {
    exists k :: 0 <= k < |InitialKeywords| && Contains(Lower(msg), InitialKeywords[k])
  }

  /** Words that mark travel details (bot.py:229). */
  const TravelDetailKeywords: seq<string> :=
    ["june", "july", "august", "adult", "child", "kid", "budget", "$", "dollar", "week"]

  /** The `any(...)` test of bot.py:230. */
  predicate HasTravelDetails(msg: string) {
    exists k :: 0 <= k < |TravelDetailKeywords| && Contains(Lower(msg), TravelDetailKeywords[k])
  }

  /** The dates conjunct: "june" in the lowered text, or "15-22" in the text as typed. */
  predicate MentionsDates(msg: string) {
    Contains(Lower(msg), "june") || Contains(msg, "15-22")
  }

  /** The party conjunct: "adult" or "child" in the lowered text. */
  predicate MentionsParty(msg: string) {
    Contains(Lower(msg), "adult") || Contains(Lower(msg), "child")
  }

  /** The budget conjunct: "$" in the text as typed, or "budget" in the lowered text. */
  predicate MentionsBudget(msg: string) {
    Contains(msg, "$") || Contains(Lower(msg), "budget")
  }

  /** The whole condition under which the three-area reply is canned (bot.py:230-233). */
  predicate IsPlannedTrip(msg: string) {
    HasTravelDetails(msg) && MentionsDates(msg) && MentionsParty(msg) && MentionsBudget(msg)
  }

  /** The question that ends each area prompt, and the first of the safety hints. */
  const SafeForFamilies: string := "safe for families"

  const FamilySafetyQuestion: string := "Is it " + SafeForFamilies + "?"

  /** Hints that show the user asked about safety (bot.py:457). */
  const SafetyQuestions: seq<string> := [FamilySafetyQuestion, SafeForFamilies, "safety"]

  /** `any(q in " ".join(previous_message) for q in safety_questions)` (bot.py:458). */
  predicate AskedAboutSafety(previous: seq<string>) {
    exists k :: 0 <= k < |SafetyQuestions| && Contains(Join(" ", previous), SafetyQuestions[k])
  }

  /**
   * A keyword in any capitalisation makes the message an opening request:
   * the test lowers the message, and lowering keeps every occurrence.
   */
  lemma InquiryIgnoresCase(msg: string, w: string, k: nat)
    requires k < |InitialKeywords| && Lower(w) == InitialKeywords[k] && Contains(msg, w)
    ensures IsInitialInquiry(msg)
  {
    LowerKeepsOccurrence(msg, w);
  }

  /** A message shorter than every keyword is never an opening request. */
  lemma ShortIsNoInquiry(msg: string)
    requires |Lower(msg)| < 4
    ensures !IsInitialInquiry(msg)
  {
    forall k | 0 <= k < |InitialKeywords|
      ensures !Contains(Lower(msg), InitialKeywords[k])
    {
      ContainsTooLong(Lower(msg), InitialKeywords[k]);
    }
  }

  /**
   * The `any(...)` test of bot.py:230 is implied by the party conjunct
   * ("adult" and "child" are both detail keywords), so the three-area reply
   * is canned exactly when the three conjuncts hold.
   */
  lemma PlannedTripIsThreeConjuncts(msg: string)
    ensures IsPlannedTrip(msg) <==> MentionsDates(msg) && MentionsParty(msg) && MentionsBudget(msg)
  {
    if MentionsParty(msg) {
      if Contains(Lower(msg), "adult") {
        assert TravelDetailKeywords[3] == "adult";
      } else {
        assert TravelDetailKeywords[4] == "child";
      }
    }
  }

  /**
   * The first safety question contains the second, so the hint test holds
   * exactly when the joined hints mention "safe for families" or "safety".
   */
  lemma SafetyTestMeans(previous: seq<string>)
    ensures AskedAboutSafety(previous) <==>
      Contains(Join(" ", previous), SafeForFamilies) || Contains(Join(" ", previous), "safety")
  {
    var j := Join(" ", previous);
    if Contains(j, SafetyQuestions[0]) {
      ContainsMiddle(j, "Is it ", SafeForFamilies, "?");
    }
    if Contains(j, SafeForFamilies) {
      assert SafetyQuestions[1] == SafeForFamilies;
    }
    if Contains(j, "safety") {
      assert SafetyQuestions[2] == "safety";
    }
  }

  // ------------------------------------------------------------ destinations

  /** The three Bali areas the bot knows. */
  datatype Area = Ubud | Seminyak | Uluwatu {
    /** The callback id, which is also what `selected_destination` stores. */
    function Id(): string {
      match this
      case Ubud => "ubud"
      case Seminyak => "seminyak"
      case Uluwatu => "uluwatu"
    }
    /** The display name used in prompts. */
    function Name(): string {
      match this
      case Ubud => "Ubud"
      case Seminyak => "Seminyak"
      case Uluwatu => "Uluwatu"
    }
    /** The id of the area guide's suggestion button (bot.py:432, 438, 444). */
    function SuggestId(): string {
      match this
      case Ubud => "suggest_ubud_resorts"
      case Seminyak => "suggest_seminyak_resorts"
      case Uluwatu => "suggest_uluwatu_resorts"
    }
    /** The id of the area guide's activities button (bot.py:433, 439, 445). */
    function ActivitiesId(): string {
      match this
      case Ubud => "ubud_activities"
      case Seminyak => "seminyak_activities"
      case Uluwatu => "uluwatu_activities"
    }
  }

  /** The prompt sent, and the hint stored, when an area is picked (bot.py:383-384, 397-398, 411-412). */
  function SafetyPrompt(a: Area): string {
    "Tell me more about " + a.Name() + ". " + FamilySafetyQuestion
  }

  /** The prompt sent, and stored, when resorts are suggested (bot.py:512). */
  function SuggestPrompt(a: Area): string {
    "Yes, please suggest some resorts in " + a.Name() + ". We'd prefer family-friendly options."
  }

  /** The hint stored on picking an area satisfies the later safety test. */
  lemma SafetyPromptIsSafetyHint(previous: seq<string>, a: Area)
    ensures AskedAboutSafety(previous + [SafetyPrompt(a)])
  {
    var q := FamilySafetyQuestion;
    var p := "Tell me more about " + a.Name() + ". ";
    ContainsSelf(q);
    ContainsConcat(p, q, q);
    assert SafetyPrompt(a) == p + q;
    JoinAppend(" ", previous, SafetyPrompt(a), q);
    assert SafetyQuestions[0] == q;
  }

  /** The question stored on picking an area mentions "safe for families". */
  lemma SafetyPromptMentionsSafety(a: Area)
    ensures Contains(SafetyPrompt(a), SafeForFamilies)
  {
    var p := "Tell me more about " + a.Name() + ". " + "Is it ";
    assert SafetyPrompt(a) == p + SafeForFamilies + "?";
    ContainsSelf(SafetyPrompt(a));
    ContainsMiddle(SafetyPrompt(a), p, SafeForFamilies, "?");
  }

  /** Once the hints satisfy the safety test, more hints keep it satisfied. */
  lemma SafetyHintKept(previous: seq<string>, x: string)
    requires AskedAboutSafety(previous)
    ensures AskedAboutSafety(previous + [x])
  {
    var k :| 0 <= k < |SafetyQuestions| && Contains(Join(" ", previous), SafetyQuestions[k]);
    JoinAppend(" ", previous, x, SafetyQuestions[k]);
  }

  /** The nine resorts that have their own callback (bot.py:530). */
  datatype Resort = MayaUbud | AlilaUbud | Kamandalu | WBali | Oberoi | Courtyard | SixSenses | Anantara | Bulgari {
    function Id(): string {
      match this
      case MayaUbud => "maya_ubud"
      case AlilaUbud => "alila_ubud"
      case Kamandalu => "kamandalu"
      case WBali => "w_bali"
      case Oberoi => "oberoi"
      case Courtyard => "courtyard"
      case SixSenses => "six_senses"
      case Anantara => "anantara"
      case Bulgari => "bulgari"
    }
    /** The area whose flight text the resort selects (bot.py:623, 642). */
    function Area(): Area {
      match this
      case MayaUbud | AlilaUbud | Kamandalu => Ubud
      case WBali | Oberoi | Courtyard => Seminyak
      case SixSenses | Anantara | Bulgari => Uluwatu
    }
    /** The three resorts whose details are canned; the others ask the model (bot.py:537-599). */
    predicate HasCannedDetails() {
      this == MayaUbud || this == WBali || this == SixSenses
    }
    /** The prompt for the resort's details (bot.py:538, 554, 570, 588-598). */
    function Prompt(): string {
      var tail := ". What amenities do they offer for families";
      match this
      case MayaUbud => "Tell me more about Maya Ubud Resort" + tail + "?"
      case WBali => "Tell me more about W Bali - Seminyak" + tail + "?"
      case SixSenses => "Tell me more about Six Senses Uluwatu" + tail + "?"
      case AlilaUbud => "Tell me more about Alila Ubud" + tail + " with a child?"
      case Kamandalu => "Tell me more about Kamandalu Ubud" + tail + " with a child?"
      case Oberoi => "Tell me more about The Oberoi Beach Resort in Seminyak" + tail + " with a child?"
      case Courtyard => "Tell me more about Courtyard by Marriott in Seminyak" + tail + " with a child?"
      case Anantara => "Tell me more about Anantara Uluwatu" + tail + " with a child?"
      case Bulgari => "Tell me more about Bulgari Resort Bali in Uluwatu" + tail + " with a child?"
    }
  }

  /**
   * Which area's canned flight text `view_flights` shows (bot.py:623, 642,
   * 661): Ubud if the destination or the resort says so, else Seminyak if
   * either says so, else Uluwatu, also when nothing was selected.
   */
  function FlightArea(destination: string, resort: string): Area {
    if Contains(destination, "ubud") || Contains(resort, "maya_ubud") || Contains(resort, "alila_ubud")
       || Contains(resort, "kamandalu") then Ubud
    else if Contains(destination, "seminyak") || Contains(resort, "w_bali") || Contains(resort, "oberoi")
       || Contains(resort, "courtyard") then Seminyak
    else Uluwatu
  }

  /** Nothing selected: the flight text falls to Uluwatu. */
  lemma FlightAreaDefault()
    ensures FlightArea("", "") == Uluwatu
  {
    NothingInEmpty();
  }

  /** The empty selection holds none of the flight test's key words. */
  lemma NothingInEmpty()
    ensures !Contains("", "ubud") && !Contains("", "seminyak")
    ensures !Contains("", "maya_ubud") && !Contains("", "alila_ubud") && !Contains("", "kamandalu")
    ensures !Contains("", "w_bali") && !Contains("", "oberoi") && !Contains("", "courtyard")
  {
    ContainsTooLong("", "ubud");
    ContainsTooLong("", "seminyak");
    ContainsTooLong("", "maya_ubud");
    ContainsTooLong("", "alila_ubud");
    ContainsTooLong("", "kamandalu");
    ContainsTooLong("", "w_bali");
    ContainsTooLong("", "oberoi");
    ContainsTooLong("", "courtyard");
  }

  /** A picked area with no resort gets its own flights. */
  lemma FlightAreaOfArea(a: Area)
    ensures FlightArea(a.Id(), "") == a
  {
    NothingInEmpty();
    match a
    case Ubud =>
      ContainsSelf("ubud");
    case Seminyak =>
      ContainsNeedsChar("seminyak", "ubud", 0);
      ContainsSelf("seminyak");
    case Uluwatu =>
      ContainsNeedsChar("uluwatu", "ubud", 1);
      ContainsTooLong("uluwatu", "seminyak");
  }

  /** An Ubud resort, alone or with Ubud picked, gets Ubud's flights. */
  lemma FlightAreaOfUbudResort(r: Resort)
    requires r.Area() == Ubud
    ensures FlightArea("", r.Id()) == Ubud && FlightArea(Ubud.Id(), r.Id()) == Ubud
  {
    NothingInEmpty();
    ContainsSelf("ubud");
    match r
    case MayaUbud => ContainsSelf("maya_ubud");
    case AlilaUbud => ContainsSelf("alila_ubud");
    case Kamandalu => ContainsSelf("kamandalu");
  }

  /** A Seminyak resort, alone or with Seminyak picked, gets Seminyak's flights. */
  lemma FlightAreaOfSeminyakResort(r: Resort)
    requires r.Area() == Seminyak
    ensures FlightArea("", r.Id()) == Seminyak && FlightArea(Seminyak.Id(), r.Id()) == Seminyak
  {
    NothingInEmpty();
    ContainsNeedsChar("seminyak", "ubud", 0);
    match r
    case WBali =>
      ContainsTooLong("w_bali", "maya_ubud");
      ContainsTooLong("w_bali", "alila_ubud");
      ContainsTooLong("w_bali", "kamandalu");
      ContainsSelf("w_bali");
    case Oberoi =>
      ContainsTooLong("oberoi", "maya_ubud");
      ContainsTooLong("oberoi", "alila_ubud");
      ContainsTooLong("oberoi", "kamandalu");
      ContainsSelf("oberoi");
    case Courtyard =>
      ContainsNeedsChar("courtyard", "maya_ubud", 0);
      ContainsTooLong("courtyard", "alila_ubud");
      ContainsNeedsChar("courtyard", "kamandalu", 0);
      ContainsSelf("courtyard");
  }

  /** No Uluwatu resort id holds an Ubud resort's key word. */
  lemma UluwatuIdsMissUbud(r: Resort)
    requires r.Area() == Uluwatu
    ensures !Contains(r.Id(), "maya_ubud") && !Contains(r.Id(), "alila_ubud") && !Contains(r.Id(), "kamandalu")
  {
    match r
    case SixSenses =>
      ContainsNeedsChar("six_senses", "maya_ubud", 0);
      ContainsNeedsChar("six_senses", "alila_ubud", 0);
      ContainsNeedsChar("six_senses", "kamandalu", 0);
    case Anantara =>
      ContainsTooLong("anantara", "maya_ubud");
      ContainsTooLong("anantara", "alila_ubud");
      ContainsTooLong("anantara", "kamandalu");
    case Bulgari =>
      ContainsTooLong("bulgari", "maya_ubud");
      ContainsTooLong("bulgari", "alila_ubud");
      ContainsTooLong("bulgari", "kamandalu");
  }

  /** No Uluwatu resort id holds a Seminyak resort's key word. */
  lemma UluwatuIdsMissSeminyak(r: Resort)
    requires r.Area() == Uluwatu
    ensures !Contains(r.Id(), "w_bali") && !Contains(r.Id(), "oberoi") && !Contains(r.Id(), "courtyard")
  {
    match r
    case SixSenses =>
      ContainsNeedsChar("six_senses", "w_bali", 0);
      ContainsNeedsChar("six_senses", "oberoi", 0);
      ContainsNeedsChar("six_senses", "courtyard", 0);
    case Anantara =>
      ContainsNeedsChar("anantara", "w_bali", 0);
      ContainsNeedsChar("anantara", "oberoi", 0);
      ContainsTooLong("anantara", "courtyard");
    case Bulgari =>
      ContainsNeedsChar("bulgari", "w_bali", 0);
      ContainsNeedsChar("bulgari", "oberoi", 0);
      ContainsTooLong("bulgari", "courtyard");
  }

  /** An Uluwatu resort, alone or with Uluwatu picked, gets Uluwatu's flights. */
  lemma FlightAreaOfUluwatuResort(r: Resort)
    requires r.Area() == Uluwatu
    ensures FlightArea("", r.Id()) == Uluwatu && FlightArea(Uluwatu.Id(), r.Id()) == Uluwatu
  {
    NothingInEmpty();
    ContainsNeedsChar("uluwatu", "ubud", 1);
    ContainsTooLong("uluwatu", "seminyak");
    UluwatuIdsMissUbud(r);
    UluwatuIdsMissSeminyak(r);
  }

  /** A picked Ubud wins over any resort: its test comes first. */
  lemma FlightAreaUbudFirst(resort: string)
    ensures FlightArea(Ubud.Id(), resort) == Ubud
  {
    ContainsSelf("ubud");
  }

  // --------------------------------------------------------------- keyboards

  /** An inline button: its caption and its callback id. */
  datatype Button = Button(caption: string, data: string)

  /** Rows of buttons. */
  type Keyboard = seq<seq<Button>>

  /** The callback ids a keyboard can send. */
  function Ids(kb: Keyboard): set<string> {
    set i, j | 0 <= i < |kb| && 0 <= j < |kb[i]| :: kb[i][j].data
  }

  /** After the opening reply (bot.py:213-217). */
  const IntakeKeyboard: Keyboard := [
    [Button("Tell me about Bali destinations", "destinations")],
    [Button("Help with budget planning", "budget")],
    [Button("I have specific questions", "questions")]]

  /** After the travel-details reply (bot.py:253-262). */
  const AreaKeyboard: Keyboard := [
    [Button("Ubud", "ubud"), Button("Seminyak/Kuta", "seminyak")],
    [Button("Uluwatu", "uluwatu"), Button("Other options", "other_destinations")]]

  /** The menu used for any destination other than the two below (bot.py:297-300). */
  const GeneralResortKeyboard: Keyboard := [
    [Button("Show me all options", "all_resorts")],
    [Button("I need more information", "more_info")]]

  /** After a resort-stage reply, keyed by the selected destination (bot.py:285-300). */
  function ResortKeyboard(destination: string): Keyboard {
    if Contains(destination, "punta_cana") then
      [[Button("Bavaro Princess", "bavaro_princess")],
       [Button("Tropical Princess", "tropical_princess")],
       [Button("Caribe Club Princess", "caribe_club")]]
    else if Contains(destination, "florida") then
      [[Button("Pink Shell Beach Resort", "pink_shell")],
       [Button("Sirata Beach Resort", "sirata_beach")]]
    else GeneralResortKeyboard
  }

  /** After a flight-stage reply (bot.py:321-324). */
  const FlightKeyboard: Keyboard := [
    [Button("View flight options", "view_flights")],
    [Button("Explore activities instead", "activities")]]

  /** After an itinerary-stage reply (bot.py:345-350). */
  const ActivityKeyboard: Keyboard := [
    [Button("Family activities", "family_activities")],
    [Button("Dining options", "dining")],
    [Button("Transportation", "transportation")],
    [Button("Ready to book", "book")]]

  /** After an area's guide (bot.py:431-448). */
  function AreaGuideKeyboard(a: Area): Keyboard {
    [[Button("Yes, suggest resorts", a.SuggestId())],
     [Button("Tell me about activities", a.ActivitiesId())],
     [Button("Other destinations", "other_destinations")]]
  }

  /** After the resort shortlist; `destination.lower()` is the area id (bot.py:519-524). */
  function ShortlistKeyboard(a: Area): Keyboard {
    [[Button("More details on option 1", "details_1_" + a.Id())],
     [Button("More details on option 2", "details_2_" + a.Id())],
     [Button("More details on option 3", "details_3_" + a.Id())],
     [Button("Explore other destinations", "other_destinations")]]
  }

  /** After a resort's details (bot.py:606-609). */
  const ResortChosenKeyboard: Keyboard := [
    [Button("View flight options", "view_flights")],
    [Button("Explore activities", "activities")]]

  /** After a follow-up answer (bot.py:735-738). */
  const FollowUpKeyboard: Keyboard := [
    [Button("I have more questions", "more_questions")],
    [Button("Ready to book", "ready_to_book")]]

  /**
   * For every destination the session can hold (none, or an area id), the
   * resort-stage menu is the general one: the `punta_cana` and `florida`
   * menus cannot be shown.
   */
  lemma ResortKeyboardIsGeneral(destination: string)
    requires destination == "" || destination in {"ubud", "seminyak", "uluwatu"}
    ensures ResortKeyboard(destination) == GeneralResortKeyboard
    ensures Ids(ResortKeyboard(destination)) == {"all_resorts", "more_info"}
  {
    ContainsTooLong(destination, "punta_cana");
    if destination in {"seminyak", "uluwatu"} {
      ContainsNeedsChar(destination, "florida", 0);
    } else {
      ContainsTooLong(destination, "florida");
    }
    GeneralResortIds();
  }

  /** The general resort menu offers `all_resorts` and `more_info`. */
  lemma GeneralResortIds()
    ensures Ids(GeneralResortKeyboard) == {"all_resorts", "more_info"}
  {
    var kb: Keyboard := GeneralResortKeyboard;
    assert kb[0][0].data == "all_resorts" && kb[1][0].data == "more_info";
  }

  // ---------------------------------------------------------------- callbacks

  /** The three topic buttons of the opening reply, with their prompt and stored hint (bot.py:370-378). */
  datatype Topic = Destinations | Budget | Questions {
    function Id(): string {
      match this
      case Destinations => "destinations"
      case Budget => "budget"
      case Questions => "questions"
    }
    function Prompt(): string {
      match this
      case Destinations => "Can you tell me more about the Bali destinations you mentioned?"
      case Budget => "I need help planning my budget for this trip."
      case Questions => "I have some specific questions about travel requirements."
    }
    function Hint(): string {
      match this
      case Destinations => "Tell me more about Bali destinations"
      case Budget => "I need help planning my budget"
      case Questions => "I have questions about travel requirements"
    }
  }

  /** The follow-up buttons that lead to the itinerary stage (bot.py:614-728). */
  datatype FollowUp = ViewFlights | Activities | FamilyActivities | Dining | Transportation | Book {
    function Id(): string {
      match this
      case ViewFlights => "view_flights"
      case Activities => "activities"
      case FamilyActivities => "family_activities"
      case Dining => "dining"
      case Transportation => "transportation"
      case Book => "book"
    }
    function Prompt(): string {
      match this
      case ViewFlights => "What are the flight options to this destination?"
      case Activities => "What activities are available at this resort or nearby?"
      case FamilyActivities => "What family-friendly activities are available nearby?"
      case Dining => "What dining options are available at the resort and nearby?"
      case Transportation => "What transportation options are available at the destination?"
      case Book => "I'm ready to book. What information do you need from me?"
    }
  }

  /** What `button_callback` does with a callback id: the branch of its `if`/`elif` chain. */
  datatype Action =
    | AskTopic(topic: Topic)
    | PickArea(area: Area)
    | SuggestResorts(area: Area)
    | PickResort(resort: Resort)
    | AskFollowUp(followUp: FollowUp)
    | AskGeneric

  /** The prompt of the final `else` branch (bot.py:744). */
  const GenericPrompt: string := "I need more information about my travel options."

  /** The branch a callback id takes (bot.py:370, 373, 376, 379, 452, 530, 614, 743). */
  function Classify(data: string): Action {
    if data == "destinations" then AskTopic(Destinations)
    else if data == "budget" then AskTopic(Budget)
    else if data == "questions" then AskTopic(Questions)
    else if data == "ubud" then PickArea(Ubud)
    else if data == "seminyak" then PickArea(Seminyak)
    else if data == "uluwatu" then PickArea(Uluwatu)
    else if data == "suggest_ubud_resorts" then SuggestResorts(Ubud)
    else if data == "suggest_seminyak_resorts" then SuggestResorts(Seminyak)
    else if data == "suggest_uluwatu_resorts" then SuggestResorts(Uluwatu)
    else if data == "maya_ubud" then PickResort(MayaUbud)
    else if data == "alila_ubud" then PickResort(AlilaUbud)
    else if data == "kamandalu" then PickResort(Kamandalu)
    else if data == "w_bali" then PickResort(WBali)
    else if data == "oberoi" then PickResort(Oberoi)
    else if data == "courtyard" then PickResort(Courtyard)
    else if data == "six_senses" then PickResort(SixSenses)
    else if data == "anantara" then PickResort(Anantara)
    else if data == "bulgari" then PickResort(Bulgari)
    else if data == "view_flights" then AskFollowUp(ViewFlights)
    else if data == "activities" then AskFollowUp(Activities)
    else if data == "family_activities" then AskFollowUp(FamilyActivities)
    else if data == "dining" then AskFollowUp(Dining)
    else if data == "transportation" then AskFollowUp(Transportation)
    else if data == "book" then AskFollowUp(Book)
    else AskGeneric
  }

  /** The callback id of each recognised branch. */
  function ActionId(act: Action): string
    requires act != AskGeneric
  {
    match act
    case AskTopic(t) => t.Id()
    case PickArea(a) => a.Id()
    case SuggestResorts(a) => a.SuggestId()
    case PickResort(r) => r.Id()
    case AskFollowUp(f) => f.Id()
  }

  /** The topic and area buttons take their own branch. */
  lemma ClassifyTopicsAndAreas(t: Topic, a: Area)
    ensures Classify(t.Id()) == AskTopic(t) && ActionId(AskTopic(t)) == t.Id()
    ensures Classify(a.Id()) == PickArea(a) && ActionId(PickArea(a)) == a.Id()
  {
  }

  /** The suggestion buttons take their own branch. */
  lemma ClassifySuggestions(a: Area)
    ensures Classify(a.SuggestId()) == SuggestResorts(a) && ActionId(SuggestResorts(a)) == a.SuggestId()
  {
  }

  /** The Ubud resort buttons take their own branch. */
  lemma ClassifyUbudResorts(r: Resort)
    requires r.Area() == Ubud
    ensures Classify(r.Id()) == PickResort(r) && ActionId(PickResort(r)) == r.Id()
  {
  }

  /** The Seminyak resort buttons take their own branch. */
  lemma ClassifySeminyakResorts(r: Resort)
    requires r.Area() == Seminyak
    ensures Classify(r.Id()) == PickResort(r) && ActionId(PickResort(r)) == r.Id()
  {
  }

  /** The Uluwatu resort buttons take their own branch. */
  lemma ClassifyUluwatuResorts(r: Resort)
    requires r.Area() == Uluwatu
    ensures Classify(r.Id()) == PickResort(r) && ActionId(PickResort(r)) == r.Id()
  {
  }

  /** The follow-up buttons of the flight menus take their own branch. */
  lemma ClassifyFlightMenuButtons(f: FollowUp)
    requires f == ViewFlights || f == Activities
    ensures Classify(f.Id()) == AskFollowUp(f) && ActionId(AskFollowUp(f)) == f.Id()
  {
  }

  /** The family-activity and dining buttons take their own branch. */
  lemma ClassifyActivityMenuButtons(f: FollowUp)
    requires f == FamilyActivities || f == Dining
    ensures Classify(f.Id()) == AskFollowUp(f) && ActionId(AskFollowUp(f)) == f.Id()
  {
  }

  /** The transport and booking buttons take their own branch. */
  lemma ClassifyClosingButtons(f: FollowUp)
    requires f == Transportation || f == Book
    ensures Classify(f.Id()) == AskFollowUp(f) && ActionId(AskFollowUp(f)) == f.Id()
  {
  }

  /** Every resort button takes the resort branch. */
  lemma ClassifyResorts(r: Resort)
    ensures Classify(r.Id()) == PickResort(r)
  {
    match r.Area()
    case Ubud => ClassifyUbudResorts(r);
    case Seminyak => ClassifySeminyakResorts(r);
    case Uluwatu => ClassifyUluwatuResorts(r);
  }

  /** Every follow-up button takes the follow-up branch. */
  lemma ClassifyFollowUps(f: FollowUp)
    ensures Classify(f.Id()) == AskFollowUp(f)
  {
    if f == ViewFlights || f == Activities {
      ClassifyFlightMenuButtons(f);
    } else if f == FamilyActivities || f == Dining {
      ClassifyActivityMenuButtons(f);
    } else {
      ClassifyClosingButtons(f);
    }
  }

  /** The stage table at the end of `button_callback` (bot.py:758-765). */
  function TrailingStage(data: string): Stage {
    if data in ["destinations", "budget", "questions"] then DestinationDetails
    else if data in ["all_resorts", "more_info"] then ResortSelection
    else if data in ["view_flights", "activities"] then FlightOptions
    else Itinerary
  }

  /**
   * The stage `button_callback` returns: the branches that return early say
   * so at bot.py:452, 528, 612 and 741; the rest reach the trailing table.
   */
  function CallbackStage(data: string): Stage {
    ActionStage(Classify(data), data)
  }

  /** The stage of each branch; `data` only matters to the trailing table. */
  function ActionStage(act: Action, data: string): Stage {
    match act
    case PickArea(_) => ResortSelection
    case SuggestResorts(_) => ResortSelection
    case PickResort(_) => FlightOptions
    case AskFollowUp(_) => Itinerary
    case _ => TrailingStage(data)
  }

  /**
   * `view_flights` and `activities` return early at bot.py:741, so the
   * FLIGHT_OPTIONS arm of the trailing table (bot.py:762-763) is never
   * reached: a callback reaches FLIGHT_OPTIONS exactly by picking a resort.
   */
  lemma CallbackFlightOptionsOnlyByResort(data: string)
    ensures CallbackStage(data) == FlightOptions <==> Classify(data).PickResort?
    ensures (Classify(data).AskTopic? || Classify(data).AskGeneric?) ==> TrailingStage(data) != FlightOptions
  {
  }

  /** The topic buttons return to DESTINATION_DETAILS. */
  lemma TopicStage(t: Topic)
    ensures CallbackStage(t.Id()) == DestinationDetails
  {
  }

  /** The general resort menu's buttons stay in RESORT_SELECTION. */
  lemma GeneralResortMenuStage(data: string)
    requires data in Ids(GeneralResortKeyboard)
    ensures CallbackStage(data) == ResortSelection
  {
    GeneralResortIds();
  }

  /** Every button no branch recognises, other than the general resort menu's, lands in ITINERARY. */
  lemma GenericStage(data: string)
    requires Classify(data) == AskGeneric && data != "all_resorts" && data != "more_info"
    ensures CallbackStage(data) == Itinerary
  {
  }

  /** The stage each text handler returns (bot.py:221, 266, 304, 328, 354). */
  function TextStage(s: Stage): Stage {
    match s
    case Initial => DestinationDetails
    case DestinationDetails => ResortSelection
    case ResortSelection => FlightOptions
    case FlightOptions => Itinerary
    case Itinerary => Itinerary
  }

  /** Text moves one stage forward, and stays at ITINERARY once there. */
  lemma TextStageAdvances(s: Stage)
    ensures TextStage(s).Index() == if s.Index() < 4 then s.Index() + 1 else 4
  {
  }

  /** Typing `n` messages from stage `s` lands `n` stages on, capped at ITINERARY. */
  function TextStages(s: Stage, n: nat): Stage
    decreases n
  {
    if n == 0 then s else TextStages(TextStage(s), n - 1)
  }

  /** From INITIAL, four messages of any content reach ITINERARY and more keep it there. */
  lemma {:induction false} TextStagesIndex(s: Stage, n: nat)
    ensures TextStages(s, n).Index() == if s.Index() + n < 4 then s.Index() + n else 4
    decreases n
  {
    if n > 0 {
      TextStageAdvances(s);
      TextStagesIndex(TextStage(s), n - 1);
    }
  }
}
