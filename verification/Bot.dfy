/**
 * The dialogue of the travel bot: the per-user session (`context.user_data`
 * and the conversation memory behind `conversation`), the five text
 * handlers, `button_callback`, `start`, `help`, `cancel`, the plain-text
 * degrade of `error_handler`, and the `ConversationHandler` that routes each
 * update (bot.py:141-354, 357-765, 768-789, 797-826).
 *
 * Each handler is specified by a function from the session's data before
 * the update to its data after it and the handler's outcome; the `Session`
 * class carries out the same steps by updating its fields in place.
 */
module Bot {
  import opened Wrappers
  import opened Strings
  import opened Routing
  import Sanitizer
  import Strip
  import Markup

  // ------------------------------------------------------------ session data

  /** One exchange kept by the conversation memory: the prompt and the model's answer. */
  datatype Exchange = Exchange(input: string, output: string)

  /**
   * What the session holds: the conversation stage, the memory of the
   * language-model chain (`None` until `start` sets one up), and the
   * `user_data` keys `last_response`, `preferences["query"]`,
   * `selected_destination`, `selected_resort` and `previous_message`.
   */
  datatype UserData = UserData(
    stage: Option<Stage>,
    transcript: Option<seq<Exchange>>,
    lastResponse: Option<string>,
    query: Option<string>,
    selectedDestination: Option<string>,
    selectedResort: Option<string>,
    previousMessage: seq<string>)

  /** A session before any update: no conversation, no keys. */
  const Fresh: UserData := UserData(None, None, None, None, None, None, [])

  /** The only values `selected_destination` is ever given (bot.py:379-380). */
  const AreaIds: set<string> := {"ubud", "seminyak", "uluwatu"}

  /**
   * A conversation in progress has its memory set up, and the selected
   * destination, if any, is one of the three area ids.
   */
  predicate Valid(d: UserData) {
    (d.stage.Some? ==> d.transcript.Some?) &&
    (d.selectedDestination.Some? ==> d.selectedDestination.value in AreaIds)
  }

  // ----------------------------------------------------------------- replies

  /** The fixed replies; their prose is stood in for by `CannedText`. */
  datatype CannedReply =
    | Greeting(firstName: string)  // bot.py:144-148
    | HelpText                     // bot.py:157-161
    | CancelText                   // bot.py:165-169
    | IntakeQuestions              // bot.py:189-193
    | AreaOverview                 // bot.py:234-238
    | AreaGuide(area: Area)        // bot.py:387-422
    | Shortlist(area: Area)        // bot.py:464-508
    | ResortDetails(resort: Resort) // bot.py:539-584
    | Flights(area: Area)          // bot.py:624-676
    | MayaActivities               // bot.py:689-707

  /** Stand-in text of each fixed reply; only the greeting's use of the user's name is kept. */
  function CannedText(c: CannedReply): string {
    match c
    case Greeting(n) => "Hello <b>" + n + "</b>! [greeting]"
    case HelpText => "[help]"
    case CancelText => "[session cancelled]"
    case IntakeQuestions => "[intake questions]"
    case AreaOverview => "[three Bali areas]"
    case AreaGuide(a) => "<b>" + a.Name() + ", Bali</b> [area guide]"
    case Shortlist(a) => "<b>[three resorts in " + a.Name() + "]</b>"
    case ResortDetails(r) => "<b>[details of " + r.Id() + "]</b>"
    case Flights(a) => "[flights for " + a.Name() + "]"
    case MayaActivities => "<b>[activities near Maya Ubud]</b>"
  }

  /** Where a reply's text comes from: a fixed reply, or the model's answer. */
  datatype Origin = Canned(canned: CannedReply) | Generated

  /**
   * How a reply reaches the user: a new message under an inline keyboard
   * (empty for none), or an edit of the message whose button was pressed.
   */
  datatype Delivery = NewMessage(keyboard: Keyboard) | EditedMessage

  datatype Reply = Reply(text: string, delivery: Delivery, origin: Origin)

  /** Why a handler raised instead of replying. */
  datatype Failure =
    | ModelFailed     // `conversation.predict` raised
    | NoConversation  // `predict` called on a missing conversation
    | PromptUnbound   // bot.py:747 reads `prompt`, which no branch assigned

  /** What a handler ends with: a reply and the next stage, or an exception. */
  datatype Outcome = Replied(reply: Reply, next: Stage) | Raised(failure: Failure)

  /** A handler's effect: the session's data afterwards, and its outcome. */
  datatype Step = Step(data: UserData, outcome: Outcome)

  // ------------------------------------------------------------- the oracle

  /** What `conversation.predict` yields: the model's answer, or an exception. */
  datatype Prediction = Answered(output: string) | Failed(failure: Failure)

  /**
   * `conversation.predict(input=prompt)` where `answer` is what the model
   * returns this time (`None`: the call raises).
   */
  function Predicted(t: Option<seq<Exchange>>, answer: Option<string>): (p: Prediction)
    ensures p.Answered? <==> t.Some? && answer.Some?
    ensures p.Answered? ==> p.output == answer.value
  {
    if t.None? then Failed(NoConversation)
    else if answer.None? then Failed(ModelFailed)
    else Answered(answer.value)
  }

  /** The memory after a call: an answered prompt is appended with its answer. */
  function Remember(t: Option<seq<Exchange>>, prompt: string, p: Prediction): (r: Option<seq<Exchange>>)
    ensures r.Some? <==> t.Some?
    ensures p.Answered? && t.Some? ==>
      |r.value| == |t.value| + 1 && r.value[..|t.value|] == t.value && r.value[|t.value|] == Exchange(prompt, p.output)
    ensures !p.Answered? ==> r == t
  {
    if p.Answered? && t.Some? then Some(t.value + [Exchange(prompt, p.output)]) else t
  }

  // ------------------------------------------------------- handler bodies

  /**
   * The shape every model-consulting branch shares: ask the model, then
   * reply with the fixed text if there is one (the answer only feeds the
   * memory) or with the answer, converted to Telegram HTML when `convert`;
   * record the reply as `last_response`.
   */
  function Answering(d: UserData, prompt: string, answer: Option<string>, canned: Option<CannedReply>,
                     convert: bool, delivery: Delivery, next: Stage): Step
  {
    var p := Predicted(d.transcript, answer);
    var d1 := d.(transcript := Remember(d.transcript, prompt, p));
    if p.Failed? then Step(d1, Raised(p.failure))
    else
      var raw := if canned.Some? then CannedText(canned.value) else p.output;
      var text := if convert then Sanitizer.Converted(raw) else raw;
      var origin := if canned.Some? then Canned(canned.value) else Generated;
      Step(d1.(lastResponse := Some(text)), Replied(Reply(text, delivery, origin), next))
  }

  /** A branch that replies with fixed text and does not consult the model. */
  function Presenting(d: UserData, c: CannedReply, kb: Keyboard, next: Stage): Step {
    Step(d.(lastResponse := Some(CannedText(c))), Replied(Reply(CannedText(c), NewMessage(kb), Canned(c)), next))
  }

  /** `handle_initial_query` (bot.py:174-221). */
  function OnInitialQuery(d: UserData, msg: string, answer: Option<string>): Step {
    var d0 := if d.transcript.None? then d.(transcript := Some([])) else d;
    var canned := if IsInitialInquiry(msg) then Some(IntakeQuestions) else None;
    var st := Answering(d0, msg, answer, canned, true, NewMessage(IntakeKeyboard), DestinationDetails);
    if st.outcome.Replied? then st.(data := st.data.(query := Some(msg))) else st
  }

  /** `handle_destination_details` (bot.py:223-266). */
  function OnDestinationDetails(d: UserData, msg: string, answer: Option<string>): Step {
    var canned := if IsPlannedTrip(msg) then Some(AreaOverview) else None;
    Answering(d, msg, answer, canned, true, NewMessage(AreaKeyboard), ResortSelection)
  }

  /** `handle_resort_selection` (bot.py:268-304). */
  function OnResortSelection(d: UserData, msg: string, answer: Option<string>): Step {
    Answering(d, msg, answer, None, true, NewMessage(ResortKeyboard(d.selectedDestination.GetOr(""))), FlightOptions)
  }

  /** `handle_flight_options` (bot.py:306-328). */
  function OnFlightOptions(d: UserData, msg: string, answer: Option<string>): Step {
    Answering(d, msg, answer, None, true, NewMessage(FlightKeyboard), Itinerary)
  }

  /** `handle_itinerary` (bot.py:330-354). */
  function OnItinerary(d: UserData, msg: string, answer: Option<string>): Step {
    Answering(d, msg, answer, None, true, NewMessage(ActivityKeyboard), Itinerary)
  }

  /** The text handler of each stage (bot.py:801-820). */
  function OnText(d: UserData, s: Stage, msg: string, answer: Option<string>): Step {
    match s
    case Initial => OnInitialQuery(d, msg, answer)
    case DestinationDetails => OnDestinationDetails(d, msg, answer)
    case ResortSelection => OnResortSelection(d, msg, answer)
    case FlightOptions => OnFlightOptions(d, msg, answer)
    case Itinerary => OnItinerary(d, msg, answer)
  }

  /** The shared tail of `button_callback` (bot.py:746-765): ask, edit the pressed message, pick the stage. */
  function OnPrompt(d: UserData, prompt: string, data: string, answer: Option<string>): Step {
    Answering(d, prompt, answer, None, true, EditedMessage, TrailingStage(data))
  }

  /** A topic button (bot.py:370-378): store its hint, then ask its prompt. */
  function OnTopic(d: UserData, t: Topic, data: string, answer: Option<string>): Step {
    OnPrompt(d.(previousMessage := d.previousMessage + [t.Hint()]), t.Prompt(), data, answer)
  }

  /** An area button (bot.py:379-452): select it, store the safety question, ask it, show the guide. */
  function OnArea(d: UserData, a: Area, answer: Option<string>): Step {
    var d1 := d.(selectedDestination := Some(a.Id()), previousMessage := d.previousMessage + [SafetyPrompt(a)]);
    Answering(d1, SafetyPrompt(a), answer, Some(AreaGuide(a)), false, NewMessage(AreaGuideKeyboard(a)), ResortSelection)
  }

  /**
   * A suggestion button (bot.py:455-528): the shortlist if an earlier hint
   * asked about safety; otherwise no branch assigns `prompt` and the read at
   * bot.py:747 raises.
   */
  function OnSuggest(d: UserData, a: Area, answer: Option<string>): Step {
    if AskedAboutSafety(d.previousMessage) then
      var d1 := d.(previousMessage := d.previousMessage + [SuggestPrompt(a)]);
      Answering(d1, SuggestPrompt(a), answer, Some(Shortlist(a)), false, NewMessage(ShortlistKeyboard(a)), ResortSelection)
    else Step(d, Raised(PromptUnbound))
  }

  /** A resort button (bot.py:530-612): select it, then fixed details or the model's. */
  function OnResort(d: UserData, r: Resort, answer: Option<string>): Step {
    var d1 := d.(selectedResort := Some(r.Id()));
    if r.HasCannedDetails() then Presenting(d1, ResortDetails(r), ResortChosenKeyboard, FlightOptions)
    else Answering(d1, r.Prompt(), answer, None, true, NewMessage(ResortChosenKeyboard), FlightOptions)
  }

  /** A follow-up button (bot.py:614-741). */
  function OnFollowUp(d: UserData, f: FollowUp, answer: Option<string>): Step {
    var destination := d.selectedDestination.GetOr("");
    var resort := d.selectedResort.GetOr("");
    if f == ViewFlights then Presenting(d, Flights(FlightArea(destination, resort)), FollowUpKeyboard, Itinerary)
    else if f == Activities && Contains(resort, "maya_ubud") then Presenting(d, MayaActivities, FollowUpKeyboard, Itinerary)
    else Answering(d, f.Prompt(), answer, None, true, NewMessage(FollowUpKeyboard), Itinerary)
  }

  /** `button_callback` (bot.py:357-765): recognise the button, then take its branch. */
  function OnCallback(d: UserData, data: string, answer: Option<string>): Step {
    OnAction(d, Classify(data), data, answer)
  }

  /** The branch of `button_callback` for a recognised button. */
  function OnAction(d: UserData, act: Action, data: string, answer: Option<string>): Step {
    match act
    case AskTopic(t) => OnTopic(d, t, data, answer)
    case PickArea(a) => OnArea(d, a, answer)
    case SuggestResorts(a) => OnSuggest(d, a, answer)
    case PickResort(r) => OnResort(d, r, answer)
    case AskFollowUp(f) => OnFollowUp(d, f, answer)
    case AskGeneric => OnPrompt(d, GenericPrompt, data, answer)
  }

  // ---------------------------------------------------------------- routing

  /** An incoming update: a command, a plain text message, or a button press. */
  datatype Update = Command(name: string) | Text(msg: string) | Callback(data: string)

  /** The handler an update reaches. */
  datatype Handler = StartHandler | HelpHandler | CancelHandler | TextHandler(stage: Stage) | CallbackHandler | Unhandled

  /**
   * The `ConversationHandler` (bot.py:797-823) with the framework's
   * defaults, then the `/help` handler (bot.py:826): `/start` enters only
   * when no conversation is running (re-entry is off), `/cancel` is a
   * fallback and so only acts inside one, text goes to the stage's text
   * handler, a button press to `button_callback` in every stage but INITIAL,
   * and `/help` is handled whatever the stage.
   */
  function HandlerFor(stage: Option<Stage>, u: Update): (h: Handler)
    ensures h == StartHandler <==> u == Command("start") && stage.None?
    ensures h == CancelHandler <==> u == Command("cancel") && stage.Some?
    ensures h == HelpHandler <==> u == Command("help")
    ensures h.TextHandler? <==> u.Text? && stage.Some?
    ensures h.TextHandler? ==> h.stage == stage.value
    ensures h == CallbackHandler <==> u.Callback? && stage.Some? && stage.value != Initial
  {
    match u
    case Command(name) =>
      if name == "start" && stage.None? then StartHandler
      else if name == "cancel" && stage.Some? then CancelHandler
      else if name == "help" then HelpHandler
      else Unhandled
    case Text(_) => if stage.Some? then TextHandler(stage.value) else Unhandled
    case Callback(_) => if stage.Some? && stage.value != Initial then CallbackHandler else Unhandled
  }

  /** The opening of the plain-text degrade (bot.py:778-779, 784-785). */
  const Apology: string := "I apologize, but there was an issue with formatting my response. Here's the plain text version:\n\n"

  /**
   * What `error_handler` sends when Telegram rejects a reply's HTML: the
   * apology, then the stored last response (or a default) with every
   * `<…>` removed; it is sent without a parse mode.
   */
  function PlainTextFallback(last: Option<string>): (r: string)
    ensures |Apology| <= |r| && r[..|Apology|] == Apology
    ensures Strip.TagFree(r[|Apology|..])
    ensures r[|Apology|..] == Strip.StripTags(last.GetOr("Error retrieving response."))
  {
    var body := Strip.StripTags(last.GetOr("Error retrieving response."));
    Strip.StripTagsLeavesNoTag(last.GetOr("Error retrieving response."));
    assert (Apology + body)[|Apology|..] == body;
    Apology + body
  }

  /**
   * What reaches the user: nothing (no handler, or a handler raised for a
   * reason other than the markup, which `error_handler` only logs), the
   * reply, or the plain-text degrade when Telegram rejects the reply's HTML.
   */
  datatype Delivered = Ignored | Dropped(failure: Failure) | Sent(reply: Reply) | FellBack(text: string)

  /** An update's effect: the session's data afterwards, and what the user received. */
  datatype Turnout = Turnout(data: UserData, delivered: Delivered)

  /**
   * A handler's reply is sent last; if Telegram refuses its HTML the send
   * raises, the stage stays as it was, and `error_handler` sends the degrade
   * of the `last_response` the handler has just stored.
   */
  function Settle(st: Step, parses: bool): Turnout {
    match st.outcome
    case Raised(f) => Turnout(st.data, Dropped(f))
    case Replied(reply, next) =>
      if parses then Turnout(st.data.(stage := Some(next)), Sent(reply))
      else Turnout(st.data, FellBack(PlainTextFallback(st.data.lastResponse)))
  }

  /**
   * One update: `firstName` is the sender's first name, `answer` what the
   * model returns if asked, and `parses` whether Telegram accepts the reply's
   * HTML. `start` replies before it sets up the conversation, so a refused
   * greeting changes nothing.
   */
  function OnUpdate(d: UserData, u: Update, firstName: string, answer: Option<string>, parses: bool): Turnout {
    match HandlerFor(d.stage, u)
    case Unhandled => Turnout(d, Ignored)
    case StartHandler =>
      if parses then
        Turnout(d.(stage := Some(Initial), transcript := Some([])),
                Sent(Reply(CannedText(Greeting(firstName)), NewMessage([]), Canned(Greeting(firstName)))))
      else Turnout(d, FellBack(PlainTextFallback(d.lastResponse)))
    case HelpHandler =>
      if parses then Turnout(d, Sent(Reply(CannedText(HelpText), NewMessage([]), Canned(HelpText))))
      else Turnout(d, FellBack(PlainTextFallback(d.lastResponse)))
    case CancelHandler =>
      if parses then Turnout(d.(stage := None), Sent(Reply(CannedText(CancelText), NewMessage([]), Canned(CancelText))))
      else Turnout(d, FellBack(PlainTextFallback(d.lastResponse)))
    case TextHandler(s) => Settle(OnText(d, s, u.msg, answer), parses)
    case CallbackHandler => Settle(OnCallback(d, u.data, answer), parses)
  }

  /** One update of a run, with everything the world decides about it. */
  datatype Event = Event(update: Update, firstName: string, answer: Option<string>, parses: bool)

  /** The session's data after a run of updates. */
  function Run(d: UserData, events: seq<Event>): UserData
    decreases |events|
  {
    if events == [] then d
    else
      var e := events[0];
      Run(OnUpdate(d, e.update, e.firstName, e.answer, e.parses).data, events[1..])
  }

  // -------------------------------------------------------------- properties

  /** The last element of a non-empty sequence. */
  function Last<T>(xs: seq<T>): T
    requires xs != []
  {
    xs[|xs| - 1]
  }

  /**
   * Text moves the conversation one stage on, whatever it says (bot.py:221,
   * 266, 304, 328, 354): in a valid session each text handler replies
   * exactly when the model answers, records the exchange, stores the reply
   * as `last_response`, and leaves the stage, hints and selections alone.
   */
  lemma TextStep(d: UserData, s: Stage, msg: string, answer: Option<string>)
    requires Valid(d) && d.stage == Some(s)
    ensures var st := OnText(d, s, msg, answer);
      (st.outcome.Replied? <==> answer.Some?) &&
      (st.outcome.Replied? ==>
        st.outcome.next == TextStage(s) && st.data.lastResponse == Some(st.outcome.reply.text) &&
        st.data.transcript == Some(d.transcript.value + [Exchange(msg, answer.value)])) &&
      (st.outcome.Raised? ==>
        st.outcome.failure == ModelFailed && st.data.transcript == d.transcript && st.data.lastResponse == d.lastResponse) &&
      st.data.stage == d.stage && st.data.previousMessage == d.previousMessage &&
      st.data.selectedDestination == d.selectedDestination && st.data.selectedResort == d.selectedResort
  {
  }

  /** Whatever the session, a text handler leaves the stage, hints and both selections alone. */
  lemma TextKeepsSelections(d: UserData, s: Stage, msg: string, answer: Option<string>)
    ensures var st := OnText(d, s, msg, answer);
      st.data.stage == d.stage && st.data.previousMessage == d.previousMessage &&
      st.data.selectedDestination == d.selectedDestination &&
      st.data.selectedResort == d.selectedResort &&
      (st.data.transcript.None? ==> d.transcript.None?)
  {
  }

  /**
   * The opening reply is the fixed questionnaire exactly when the lowered
   * message holds one of the seven words (bot.py:184-199); the model is asked
   * either way, so its answer enters the memory even when it is not shown,
   * and the message is kept as the query.
   */
  lemma IntakeCannedIff(d: UserData, msg: string, answer: Option<string>)
    ensures var st := OnInitialQuery(d, msg, answer);
      answer.Some? ==>
        st.outcome.Replied? && st.outcome.next == DestinationDetails &&
        (st.outcome.reply.origin == Canned(IntakeQuestions) <==> IsInitialInquiry(msg)) &&
        (st.outcome.reply.origin == Generated <==> !IsInitialInquiry(msg)) &&
        st.outcome.reply.delivery == NewMessage(IntakeKeyboard) &&
        st.data.transcript.Some? && st.data.transcript.value != [] &&
        Last(st.data.transcript.value) == Exchange(msg, answer.value) &&
        st.data.query == Some(msg)
  {
  }

  /**
   * The three-area reply is fixed exactly when the message names the dates,
   * the party and the budget (bot.py:229-244): the `any(...)` test in front of
   * the three conjuncts adds nothing.
   */
  lemma OverviewCannedIff(d: UserData, msg: string, answer: Option<string>)
    ensures var st := OnDestinationDetails(d, msg, answer);
      st.outcome.Replied? ==>
        st.outcome.next == ResortSelection && st.outcome.reply.delivery == NewMessage(AreaKeyboard) &&
        (st.outcome.reply.origin == Canned(AreaOverview) <==>
          MentionsDates(msg) && MentionsParty(msg) && MentionsBudget(msg))
  {
    PlannedTripIsThreeConjuncts(msg);
  }

  /**
   * In a valid session the resort-stage menu is always the general one:
   * the selected destination is an area id or absent (bot.py:283-300).
   */
  lemma ResortMenuIsGeneral(d: UserData, msg: string, answer: Option<string>)
    requires Valid(d)
    ensures var st := OnResortSelection(d, msg, answer);
      st.outcome.Replied? ==>
        st.outcome.reply.delivery == NewMessage(GeneralResortKeyboard) &&
        Ids(st.outcome.reply.delivery.keyboard) == {"all_resorts", "more_info"}
  {
    ResortKeyboardIsGeneral(d.selectedDestination.GetOr(""));
  }

  /**
   * An area button (bot.py:379-452) selects exactly that area, stores exactly
   * one hint, which mentions "safe for families", asks the model that
   * question, and shows the fixed guide whatever the model says.
   */
  lemma AreaStep(d: UserData, a: Area, answer: Option<string>)
    ensures var st := OnArea(d, a, answer);
      st.data.selectedDestination == Some(a.Id()) &&
      st.data.previousMessage == d.previousMessage + [SafetyPrompt(a)] &&
      Contains(SafetyPrompt(a), SafeForFamilies) && AskedAboutSafety(st.data.previousMessage) &&
      st.data.transcript == Remember(d.transcript, SafetyPrompt(a), Predicted(d.transcript, answer)) &&
      (st.outcome.Replied? <==> Predicted(d.transcript, answer).Answered?) &&
      (st.outcome.Replied? ==>
        st.outcome == Replied(Reply(CannedText(AreaGuide(a)), NewMessage(AreaGuideKeyboard(a)), Canned(AreaGuide(a))),
                              ResortSelection))
  {
    SafetyPromptMentionsSafety(a);
    SafetyPromptIsSafetyHint(d.previousMessage, a);
  }

  /**
   * A suggestion button (bot.py:455-528, 747) shows the fixed shortlist
   * exactly when an earlier hint asked about safety, storing one more hint;
   * otherwise it raises on the unassigned `prompt` and changes nothing.
   */
  lemma SuggestStep(d: UserData, a: Area, answer: Option<string>)
    ensures var st := OnSuggest(d, a, answer);
      (st.outcome == Raised(PromptUnbound) <==> !AskedAboutSafety(d.previousMessage)) &&
      (!AskedAboutSafety(d.previousMessage) ==> st.data == d) &&
      (AskedAboutSafety(d.previousMessage) ==>
        st.data.previousMessage == d.previousMessage + [SuggestPrompt(a)] &&
        AskedAboutSafety(st.data.previousMessage) &&
        (st.outcome.Replied? <==> Predicted(d.transcript, answer).Answered?) &&
        (st.outcome.Replied? ==>
          st.outcome == Replied(Reply(CannedText(Shortlist(a)), NewMessage(ShortlistKeyboard(a)), Canned(Shortlist(a))),
                                ResortSelection)))
  {
    if AskedAboutSafety(d.previousMessage) {
      SafetyHintKept(d.previousMessage, SuggestPrompt(a));
    }
  }

  /**
   * A resort button (bot.py:530-612) selects that resort; three resorts get
   * fixed details without the model, the others the model's answer.
   */
  lemma ResortStep(d: UserData, r: Resort, answer: Option<string>)
    ensures var st := OnResort(d, r, answer);
      st.data.selectedResort == Some(r.Id()) && st.data.selectedDestination == d.selectedDestination &&
      st.data.previousMessage == d.previousMessage &&
      (r.HasCannedDetails() ==>
        st.outcome == Replied(Reply(CannedText(ResortDetails(r)), NewMessage(ResortChosenKeyboard), Canned(ResortDetails(r))),
                              FlightOptions) &&
        st.data.transcript == d.transcript) &&
      (!r.HasCannedDetails() ==>
        (st.outcome.Replied? <==> Predicted(d.transcript, answer).Answered?) &&
        (st.outcome.Replied? ==>
          st.outcome.next == FlightOptions && st.outcome.reply.origin == Generated &&
          st.outcome.reply.text == Sanitizer.Converted(answer.value)))
  {
  }

  /**
   * A follow-up button (bot.py:614-741) ends in ITINERARY under the
   * follow-up menu; `view_flights` shows the fixed flights of the area
   * `FlightArea` picks, without the model.
   */
  lemma FollowUpStep(d: UserData, f: FollowUp, answer: Option<string>)
    ensures var st := OnFollowUp(d, f, answer);
      st.data.previousMessage == d.previousMessage && st.data.selectedDestination == d.selectedDestination &&
      st.data.selectedResort == d.selectedResort &&
      (st.outcome.Replied? ==> st.outcome.next == Itinerary && st.outcome.reply.delivery == NewMessage(FollowUpKeyboard)) &&
      (f == ViewFlights ==>
        var c := Flights(FlightArea(d.selectedDestination.GetOr(""), d.selectedResort.GetOr("")));
        st.outcome == Replied(Reply(CannedText(c), NewMessage(FollowUpKeyboard), Canned(c)), Itinerary) &&
        st.data.transcript == d.transcript)
  {
    FollowUpKeeps(d, f, answer);
    if f == ViewFlights {
      var c := Flights(FlightArea(d.selectedDestination.GetOr(""), d.selectedResort.GetOr("")));
      assert OnFollowUp(d, f, answer) == Presenting(d, c, FollowUpKeyboard, Itinerary);
    }
  }

  /** The buttons of the area and suggestion menus take their own branch. */
  lemma AreaButtons(d: UserData, a: Area, answer: Option<string>)
    ensures OnCallback(d, a.Id(), answer) == OnArea(d, a, answer)
    ensures OnCallback(d, a.SuggestId(), answer) == OnSuggest(d, a, answer)
  {
    ClassifyTopicsAndAreas(Destinations, a);
    ClassifySuggestions(a);
  }

  /** A resort's button takes the resort branch. */
  lemma ResortButtons(d: UserData, r: Resort, answer: Option<string>)
    ensures OnCallback(d, r.Id(), answer) == OnResort(d, r, answer)
  {
    ClassifyResorts(r);
  }

  /** A follow-up button takes the follow-up branch. */
  lemma FollowUpButtons(d: UserData, f: FollowUp, answer: Option<string>)
    ensures OnCallback(d, f.Id(), answer) == OnFollowUp(d, f, answer)
  {
    ClassifyFollowUps(f);
  }

  /**
   * Every branch leads to `ActionStage`: the early returns of bot.py:452,
   * 528, 612 and 741, else the trailing table; so a button press leads to
   * `CallbackStage`.
   */
  lemma CallbackStageAgrees(d: UserData, data: string, answer: Option<string>)
    ensures var st := OnCallback(d, data, answer);
      (st.outcome.Replied? ==> st.outcome.next == CallbackStage(data)) && st.data.stage == d.stage
  {
    ActionStageAgrees(d, Classify(data), data, answer);
  }

  /**
   * Every branch of `button_callback` appends at most one hint and nothing
   * else to the hints, changes the selected destination only when it picks
   * an area, to that area's id, and so keeps the session valid.
   */
  lemma ActionKeepsInvariants(d: UserData, act: Action, data: string, answer: Option<string>)
    ensures var st := OnAction(d, act, data, answer);
      d.previousMessage <= st.data.previousMessage &&
      |st.data.previousMessage| <= |d.previousMessage| + 1 &&
      (st.data.selectedDestination != d.selectedDestination ==> act.PickArea?) &&
      (st.data.transcript.Some? <==> d.transcript.Some?) &&
      (Valid(d) ==> Valid(st.data))
  {
    match act
    case AskTopic(t) =>
      var d1 := d.(previousMessage := d.previousMessage + [t.Hint()]);
      AnsweringKeeps(d1, t.Prompt(), answer, None, true, EditedMessage, TrailingStage(data));
    case PickArea(a) =>
      var d1 := d.(selectedDestination := Some(a.Id()), previousMessage := d.previousMessage + [SafetyPrompt(a)]);
      AnsweringKeeps(d1, SafetyPrompt(a), answer, Some(AreaGuide(a)), false, NewMessage(AreaGuideKeyboard(a)), ResortSelection);
      assert a.Id() in AreaIds;
    case SuggestResorts(a) =>
      var d1 := d.(previousMessage := d.previousMessage + [SuggestPrompt(a)]);
      AnsweringKeeps(d1, SuggestPrompt(a), answer, Some(Shortlist(a)), false, NewMessage(ShortlistKeyboard(a)), ResortSelection);
    case PickResort(r) =>
      AnsweringKeeps(d.(selectedResort := Some(r.Id())), r.Prompt(), answer, None, true, NewMessage(ResortChosenKeyboard), FlightOptions);
    case AskFollowUp(f) =>
      FollowUpKeeps(d, f, answer);
    case AskGeneric =>
      AnsweringKeeps(d, GenericPrompt, answer, None, true, EditedMessage, TrailingStage(data));
  }

  /**
   * Every branch keeps the stage and replies with the stage `ActionStage`
   * names: the early returns of bot.py:452, 528, 612 and 741, else the
   * trailing table.
   */
  lemma ActionStageAgrees(d: UserData, act: Action, data: string, answer: Option<string>)
    ensures var st := OnAction(d, act, data, answer);
      st.data.stage == d.stage && (st.outcome.Replied? ==> st.outcome.next == ActionStage(act, data))
  {
    match act
    case AskTopic(t) =>
      var d1 := d.(previousMessage := d.previousMessage + [t.Hint()]);
      AnsweringKeeps(d1, t.Prompt(), answer, None, true, EditedMessage, TrailingStage(data));
    case PickArea(a) =>
      var d1 := d.(selectedDestination := Some(a.Id()), previousMessage := d.previousMessage + [SafetyPrompt(a)]);
      AnsweringKeeps(d1, SafetyPrompt(a), answer, Some(AreaGuide(a)), false, NewMessage(AreaGuideKeyboard(a)), ResortSelection);
    case SuggestResorts(a) =>
      var d1 := d.(previousMessage := d.previousMessage + [SuggestPrompt(a)]);
      AnsweringKeeps(d1, SuggestPrompt(a), answer, Some(Shortlist(a)), false, NewMessage(ShortlistKeyboard(a)), ResortSelection);
    case PickResort(r) =>
      AnsweringKeeps(d.(selectedResort := Some(r.Id())), r.Prompt(), answer, None, true, NewMessage(ResortChosenKeyboard), FlightOptions);
    case AskFollowUp(f) =>
      FollowUpKeeps(d, f, answer);
    case AskGeneric =>
      AnsweringKeeps(d, GenericPrompt, answer, None, true, EditedMessage, TrailingStage(data));
  }

  /** A reply through `Answering` changes only the memory and `last_response`, and goes where it was told. */
  lemma AnsweringKeeps(d: UserData, prompt: string, answer: Option<string>, canned: Option<CannedReply>,
                       convert: bool, delivery: Delivery, next: Stage)
    ensures var st := Answering(d, prompt, answer, canned, convert, delivery, next);
      st.data == d.(transcript := st.data.transcript, lastResponse := st.data.lastResponse) &&
      (st.data.transcript.Some? <==> d.transcript.Some?) &&
      (st.outcome.Replied? ==> st.outcome.next == next && st.outcome.reply.delivery == delivery)
  {
  }

  /** A follow-up button changes only the memory and `last_response`, and ends in ITINERARY. */
  lemma FollowUpKeeps(d: UserData, f: FollowUp, answer: Option<string>)
    ensures var st := OnFollowUp(d, f, answer);
      st.data == d.(transcript := st.data.transcript, lastResponse := st.data.lastResponse) &&
      (st.data.transcript.Some? <==> d.transcript.Some?) &&
      (st.outcome.Replied? ==> st.outcome.next == Itinerary && st.outcome.reply.delivery == NewMessage(FollowUpKeyboard))
  {
    var c := Flights(FlightArea(d.selectedDestination.GetOr(""), d.selectedResort.GetOr("")));
    var st := OnFollowUp(d, f, answer);
    assert st == Presenting(d, c, FollowUpKeyboard, Itinerary) || st == Presenting(d, MayaActivities, FollowUpKeyboard, Itinerary) ||
           st == Answering(d, f.Prompt(), answer, None, true, NewMessage(FollowUpKeyboard), Itinerary);
    AnsweringKeeps(d, f.Prompt(), answer, None, true, NewMessage(FollowUpKeyboard), Itinerary);
  }

  /** Every update keeps the session valid, and the hints only grow (bot.py:366-412, 513). */
  lemma UpdateKeepsInvariants(d: UserData, u: Update, firstName: string, answer: Option<string>, parses: bool)
    requires Valid(d)
    ensures var t := OnUpdate(d, u, firstName, answer, parses);
      Valid(t.data) && d.previousMessage <= t.data.previousMessage
  {
    match HandlerFor(d.stage, u)
    case TextHandler(s) => TextStep(d, s, u.msg, answer);
    case CallbackHandler => ActionKeepsInvariants(d, Classify(u.data), u.data, answer);
    case _ =>
  }

  /**
   * `/start` only sets up a new conversation: the stored response, query,
   * selections and hints survive it; inside a conversation it is ignored
   * (bot.py:141-153, 798).
   */
  lemma RestartKeepsUserData(d: UserData, firstName: string, answer: Option<string>, parses: bool)
    ensures var t := OnUpdate(d, Command("start"), firstName, answer, parses);
      (d.stage.Some? ==> t == Turnout(d, Ignored)) &&
      (d.stage.None? && parses ==> t.data == d.(stage := Some(Initial), transcript := Some([]))) &&
      (d.stage.None? && !parses ==> t.data == d)
  {
  }

  /**
   * `/cancel` ends the conversation and clears nothing else; outside a
   * conversation it is ignored (bot.py:164-171, 820).
   */
  lemma CancelKeepsUserData(d: UserData, firstName: string, answer: Option<string>, parses: bool)
    ensures var t := OnUpdate(d, Command("cancel"), firstName, answer, parses);
      (d.stage.None? ==> t == Turnout(d, Ignored)) &&
      (d.stage.Some? ==> t.data == if parses then d.(stage := None) else d)
  {
  }

  /** A refused reply leaves the handler's data as it was and sends the degrade instead. */
  lemma SettleRefused(st: Step)
    ensures var t := Settle(st, false);
      t.data == st.data && !t.delivered.Sent? &&
      (t.delivered.FellBack? ==> t.delivered.text == PlainTextFallback(st.data.lastResponse))
  {
  }

  /**
   * When Telegram refuses a reply's HTML the stage does not move and the
   * user gets the apology and a tag-free copy of the response the handler
   * had just stored (bot.py:770-787).
   */
  lemma RefusedReplyFallsBack(d: UserData, u: Update, firstName: string, answer: Option<string>)
    ensures var t := OnUpdate(d, u, firstName, answer, false);
      t.data.stage == d.stage && !t.delivered.Sent? &&
      (t.delivered.FellBack? ==>
        t.delivered.text == PlainTextFallback(t.data.lastResponse) &&
        Strip.TagFree(t.delivered.text[|Apology|..]))
  {
    match HandlerFor(d.stage, u)
    case TextHandler(s) =>
      TextKeepsSelections(d, s, u.msg, answer);
      SettleRefused(OnText(d, s, u.msg, answer));
    case CallbackHandler =>
      ActionStageAgrees(d, Classify(u.data), u.data, answer);
      SettleRefused(OnCallback(d, u.data, answer));
    case _ =>
  }

  /** A text handler's reply that is the model's answer has passed through `convert_to_html`. */
  lemma TextGenerated(d: UserData, s: Stage, msg: string, answer: Option<string>)
    ensures var st := OnText(d, s, msg, answer);
      st.outcome.Replied? && st.outcome.reply.origin == Generated ==>
        answer.Some? && st.outcome.reply.text == Sanitizer.Converted(answer.value)
  {
  }

  /** A button's reply that is the model's answer has passed through `convert_to_html`. */
  lemma ActionGenerated(d: UserData, act: Action, data: string, answer: Option<string>)
    ensures var st := OnAction(d, act, data, answer);
      st.outcome.Replied? && st.outcome.reply.origin == Generated ==>
        answer.Some? && st.outcome.reply.text == Sanitizer.Converted(answer.value)
  {
    match act
    case AskTopic(t) =>
      var d1 := d.(previousMessage := d.previousMessage + [t.Hint()]);
      AnsweringOrigin(d1, t.Prompt(), answer, None, true, EditedMessage, TrailingStage(data));
    case PickArea(a) =>
      var d1 := d.(selectedDestination := Some(a.Id()), previousMessage := d.previousMessage + [SafetyPrompt(a)]);
      AnsweringOrigin(d1, SafetyPrompt(a), answer, Some(AreaGuide(a)), false, NewMessage(AreaGuideKeyboard(a)), ResortSelection);
    case SuggestResorts(a) =>
      var d1 := d.(previousMessage := d.previousMessage + [SuggestPrompt(a)]);
      AnsweringOrigin(d1, SuggestPrompt(a), answer, Some(Shortlist(a)), false, NewMessage(ShortlistKeyboard(a)), ResortSelection);
    case PickResort(r) =>
      AnsweringOrigin(d.(selectedResort := Some(r.Id())), r.Prompt(), answer, None, true, NewMessage(ResortChosenKeyboard), FlightOptions);
    case AskFollowUp(f) =>
      FollowUpGenerated(d, f, answer);
    case AskGeneric =>
      AnsweringOrigin(d, GenericPrompt, answer, None, true, EditedMessage, TrailingStage(data));
  }

  /** `Answering` shows the model's answer exactly when there is no fixed text, converted when asked to. */
  lemma AnsweringOrigin(d: UserData, prompt: string, answer: Option<string>, canned: Option<CannedReply>,
                        convert: bool, delivery: Delivery, next: Stage)
    ensures var st := Answering(d, prompt, answer, canned, convert, delivery, next);
      st.outcome.Replied? ==>
        answer.Some? &&
        (st.outcome.reply.origin == Generated <==> canned.None?) &&
        (canned.None? && convert ==> st.outcome.reply.text == Sanitizer.Converted(answer.value))
  {
  }

  /** A follow-up reply that is the model's answer has passed through `convert_to_html`. */
  lemma FollowUpGenerated(d: UserData, f: FollowUp, answer: Option<string>)
    ensures var st := OnFollowUp(d, f, answer);
      st.outcome.Replied? && st.outcome.reply.origin == Generated ==>
        answer.Some? && st.outcome.reply.text == Sanitizer.Converted(answer.value)
  {
    var c := Flights(FlightArea(d.selectedDestination.GetOr(""), d.selectedResort.GetOr("")));
    var st := OnFollowUp(d, f, answer);
    assert st == Presenting(d, c, FollowUpKeyboard, Itinerary) || st == Presenting(d, MayaActivities, FollowUpKeyboard, Itinerary) ||
           st == Answering(d, f.Prompt(), answer, None, true, NewMessage(FollowUpKeyboard), Itinerary);
  }

  /**
   * A reply holding the model's answer that reaches the user has passed
   * through `convert_to_html`: no kind of tag has more openers than closers,
   * and no `<pre>` is left.
   */
  lemma SentAnswersBalanced(d: UserData, u: Update, firstName: string, answer: Option<string>, parses: bool)
    ensures var t := OnUpdate(d, u, firstName, answer, parses);
      t.delivered.Sent? && t.delivered.reply.origin == Generated ==>
        answer.Some? && t.delivered.reply.text == Sanitizer.Converted(answer.value) &&
        (forall k: Markup.TagKind :: Count(k.Open(), t.delivered.reply.text) <= Count(k.Close(), t.delivered.reply.text)) &&
        Count("<pre>", t.delivered.reply.text) == 0
  {
    var t := OnUpdate(d, u, firstName, answer, parses);
    if t.delivered.Sent? && t.delivered.reply.origin == Generated {
      GeneratedIsConverted(d, u, firstName, answer, parses);
      Sanitizer.ConvertedBalanced(answer.value);
      Sanitizer.ConvertedNoPre(answer.value);
    }
  }

  /** Only the text handlers and `button_callback` send the model's answer, and always converted. */
  lemma GeneratedIsConverted(d: UserData, u: Update, firstName: string, answer: Option<string>, parses: bool)
    ensures var t := OnUpdate(d, u, firstName, answer, parses);
      t.delivered.Sent? && t.delivered.reply.origin == Generated ==>
        answer.Some? && t.delivered.reply.text == Sanitizer.Converted(answer.value)
  {
    match HandlerFor(d.stage, u)
    case TextHandler(s) => TextGenerated(d, s, u.msg, answer);
    case CallbackHandler => ActionGenerated(d, Classify(u.data), u.data, answer);
    case _ =>
  }

  /** A new user's session is valid. */
  lemma FreshIsValid()
    ensures Valid(Fresh) && Fresh.stage.None? && Fresh.previousMessage == []
  {
  }

  /** Along any run of updates the session stays valid and the hints only grow. */
  lemma {:induction false} RunKeepsInvariants(d: UserData, events: seq<Event>)
    requires Valid(d)
    ensures Valid(Run(d, events)) && d.previousMessage <= Run(d, events).previousMessage
    decreases |events|
  {
    if events != [] {
      var e := events[0];
      UpdateKeepsInvariants(d, e.update, e.firstName, e.answer, e.parses);
      RunKeepsInvariants(OnUpdate(d, e.update, e.firstName, e.answer, e.parses).data, events[1..]);
    }
  }

  /**
   * Whatever happened before, a message in RESORT_SELECTION is answered
   * under the general menu: the `punta_cana` and `florida` menus are never
   * shown (bot.py:285-295).
   */
  lemma ResortMenuAfterAnyRun(events: seq<Event>, msg: string, answer: Option<string>)
    ensures var d := Run(Fresh, events);
      var st := OnText(d, ResortSelection, msg, answer);
      st.outcome.Replied? ==> st.outcome.reply.delivery == NewMessage(GeneralResortKeyboard)
  {
    FreshIsValid();
    RunKeepsInvariants(Fresh, events);
    ResortMenuIsGeneral(Run(Fresh, events), msg, answer);
  }

  // ------------------------------------------------------------- the session

  /** `context.user_data` with the conversation state, updated in place by the handlers. */
  class Session {
    var stage: Option<Stage>
    var transcript: Option<seq<Exchange>>
    var lastResponse: Option<string>
    var query: Option<string>
    var selectedDestination: Option<string>
    var selectedResort: Option<string>
    var previousMessage: seq<string>

    /** The fields as one value. */
    function Data(): UserData
      reads this
    {
      UserData(stage, transcript, lastResponse, query, selectedDestination, selectedResort, previousMessage)
    }

    /** A new user's session. */
    constructor ()
      ensures Data() == Fresh
    {
      stage := None;
      transcript := None;
      lastResponse := None;
      query := None;
      selectedDestination := None;
      selectedResort := None;
      previousMessage := [];
    }

    /** `conversation.predict(input=prompt)`, with the model's answer supplied. */
    method Predict(prompt: string, answer: Option<string>) returns (p: Prediction)
      modifies this
      ensures p == Predicted(old(transcript), answer)
      ensures Data() == old(Data()).(transcript := Remember(old(transcript), prompt, p))
    {
      if transcript.None? {
        p := Failed(NoConversation);
      } else if answer.None? {
        p := Failed(ModelFailed);
      } else {
        p := Answered(answer.value);
        transcript := Some(transcript.value + [Exchange(prompt, answer.value)]);
      }
    }

    /** Ask the model, then reply with fixed text or the answer; see `Answering`. */
    method Respond(prompt: string, answer: Option<string>, canned: Option<CannedReply>,
                   convert: bool, delivery: Delivery, next: Stage) returns (o: Outcome)
      modifies this
      ensures Step(Data(), o) == Answering(old(Data()), prompt, answer, canned, convert, delivery, next)
    {
      var p := Predict(prompt, answer);
      if p.Failed? {
        o := Raised(p.failure);
        return;
      }
      var text := if canned.Some? then CannedText(canned.value) else p.output;
      if convert {
        text := Sanitizer.ConvertToHtml(text);
      }
      lastResponse := Some(text);
      o := Replied(Reply(text, delivery, if canned.Some? then Canned(canned.value) else Generated), next);
    }

    /** Reply with fixed text, without the model. */
    method Present(c: CannedReply, kb: Keyboard, next: Stage) returns (o: Outcome)
      modifies this
      ensures Step(Data(), o) == Presenting(old(Data()), c, kb, next)
    {
      lastResponse := Some(CannedText(c));
      o := Replied(Reply(CannedText(c), NewMessage(kb), Canned(c)), next);
    }

    /** `handle_initial_query` (bot.py:174-221). */
    method HandleInitialQuery(msg: string, answer: Option<string>) returns (o: Outcome)
      modifies this
      ensures Step(Data(), o) == OnInitialQuery(old(Data()), msg, answer)
    {
      if transcript.None? {
        transcript := Some([]);
      }
      var canned := if IsInitialInquiry(msg) then Some(IntakeQuestions) else None;
      o := Respond(msg, answer, canned, true, NewMessage(IntakeKeyboard), DestinationDetails);
      if o.Replied? {
        query := Some(msg);
      }
    }

    /** `handle_destination_details` (bot.py:223-266). */
    method HandleDestinationDetails(msg: string, answer: Option<string>) returns (o: Outcome)
      modifies this
      ensures Step(Data(), o) == OnDestinationDetails(old(Data()), msg, answer)
    {
      var canned := if IsPlannedTrip(msg) then Some(AreaOverview) else None;
      o := Respond(msg, answer, canned, true, NewMessage(AreaKeyboard), ResortSelection);
    }

    /** `handle_resort_selection` (bot.py:268-304). */
    method HandleResortSelection(msg: string, answer: Option<string>) returns (o: Outcome)
      modifies this
      ensures Step(Data(), o) == OnResortSelection(old(Data()), msg, answer)
    {
      var kb := ResortKeyboard(selectedDestination.GetOr(""));
      o := Respond(msg, answer, None, true, NewMessage(kb), FlightOptions);
    }

    /** `handle_flight_options` (bot.py:306-328). */
    method HandleFlightOptions(msg: string, answer: Option<string>) returns (o: Outcome)
      modifies this
      ensures Step(Data(), o) == OnFlightOptions(old(Data()), msg, answer)
    {
      o := Respond(msg, answer, None, true, NewMessage(FlightKeyboard), Itinerary);
    }

    /** `handle_itinerary` (bot.py:330-354). */
    method HandleItinerary(msg: string, answer: Option<string>) returns (o: Outcome)
      modifies this
      ensures Step(Data(), o) == OnItinerary(old(Data()), msg, answer)
    {
      o := Respond(msg, answer, None, true, NewMessage(ActivityKeyboard), Itinerary);
    }

    /** The text handler of the current stage (bot.py:801-820). */
    method HandleText(s: Stage, msg: string, answer: Option<string>) returns (o: Outcome)
      modifies this
      ensures Step(Data(), o) == OnText(old(Data()), s, msg, answer)
    {
      match s {
        case Initial => o := HandleInitialQuery(msg, answer);
        case DestinationDetails => o := HandleDestinationDetails(msg, answer);
        case ResortSelection => o := HandleResortSelection(msg, answer);
        case FlightOptions => o := HandleFlightOptions(msg, answer);
        case Itinerary => o := HandleItinerary(msg, answer);
      }
    }

    /** The shared tail of `button_callback` (bot.py:746-765). */
    method AskAbout(prompt: string, data: string, answer: Option<string>) returns (o: Outcome)
      modifies this
      ensures Step(Data(), o) == OnPrompt(old(Data()), prompt, data, answer)
    {
      o := Respond(prompt, answer, None, true, EditedMessage, TrailingStage(data));
    }

    /** A topic button (bot.py:370-378). */
    method ChooseTopic(t: Topic, data: string, answer: Option<string>) returns (o: Outcome)
      modifies this
      ensures Step(Data(), o) == OnTopic(old(Data()), t, data, answer)
    {
      previousMessage := previousMessage + [t.Hint()];
      o := AskAbout(t.Prompt(), data, answer);
    }

    /** An area button (bot.py:379-452). */
    method ChooseArea(a: Area, answer: Option<string>) returns (o: Outcome)
      modifies this
      ensures Step(Data(), o) == OnArea(old(Data()), a, answer)
    {
      selectedDestination := Some(a.Id());
      previousMessage := previousMessage + [SafetyPrompt(a)];
      o := Respond(SafetyPrompt(a), answer, Some(AreaGuide(a)), false, NewMessage(AreaGuideKeyboard(a)), ResortSelection);
    }

    /** A suggestion button (bot.py:455-528, 747). */
    method ShowShortlist(a: Area, answer: Option<string>) returns (o: Outcome)
      modifies this
      ensures Step(Data(), o) == OnSuggest(old(Data()), a, answer)
    {
      if !AskedAboutSafety(previousMessage) {
        o := Raised(PromptUnbound);
        return;
      }
      previousMessage := previousMessage + [SuggestPrompt(a)];
      o := Respond(SuggestPrompt(a), answer, Some(Shortlist(a)), false, NewMessage(ShortlistKeyboard(a)), ResortSelection);
    }

    /** A resort button (bot.py:530-612). */
    method ChooseResort(r: Resort, answer: Option<string>) returns (o: Outcome)
      modifies this
      ensures Step(Data(), o) == OnResort(old(Data()), r, answer)
    {
      selectedResort := Some(r.Id());
      if r.HasCannedDetails() {
        o := Present(ResortDetails(r), ResortChosenKeyboard, FlightOptions);
      } else {
        o := Respond(r.Prompt(), answer, None, true, NewMessage(ResortChosenKeyboard), FlightOptions);
      }
    }

    /** A follow-up button (bot.py:614-741). */
    method AnswerFollowUp(f: FollowUp, answer: Option<string>) returns (o: Outcome)
      modifies this
      ensures Step(Data(), o) == OnFollowUp(old(Data()), f, answer)
    {
      var destination := selectedDestination.GetOr("");
      var resort := selectedResort.GetOr("");
      if f == ViewFlights {
        o := Present(Flights(FlightArea(destination, resort)), FollowUpKeyboard, Itinerary);
      } else if f == Activities && Contains(resort, "maya_ubud") {
        o := Present(MayaActivities, FollowUpKeyboard, Itinerary);
      } else {
        o := Respond(f.Prompt(), answer, None, true, NewMessage(FollowUpKeyboard), Itinerary);
      }
    }

    /** `button_callback` (bot.py:357-765). */
    method ButtonCallback(data: string, answer: Option<string>) returns (o: Outcome)
      modifies this
      ensures Step(Data(), o) == OnCallback(old(Data()), data, answer)
    {
      o := TakeAction(Classify(data), data, answer);
    }

    /** The branch of `button_callback` for a recognised button. */
    method TakeAction(act: Action, data: string, answer: Option<string>) returns (o: Outcome)
      modifies this
      ensures Step(Data(), o) == OnAction(old(Data()), act, data, answer)
    {
      match act {
        case AskTopic(t) => o := ChooseTopic(t, data, answer);
        case PickArea(a) => o := ChooseArea(a, answer);
        case SuggestResorts(a) => o := ShowShortlist(a, answer);
        case PickResort(r) => o := ChooseResort(r, answer);
        case AskFollowUp(f) => o := AnswerFollowUp(f, answer);
        case AskGeneric => o := AskAbout(GenericPrompt, data, answer);
      }
    }

    /** Send a handler's reply, or the plain-text degrade if Telegram refuses it; see `Settle`. */
    method Deliver(o: Outcome, parses: bool) returns (r: Delivered)
      modifies this
      ensures Turnout(Data(), r) == Settle(Step(old(Data()), o), parses)
    {
      match o
      case Raised(f) => r := Dropped(f);
      case Replied(reply, next) =>
        if parses {
          stage := Some(next);
          r := Sent(reply);
        } else {
          r := FellBack(PlainTextFallback(lastResponse));
        }
    }

    /** One update through the `ConversationHandler` and the `/help` handler (bot.py:797-826). */
    method Route(u: Update, firstName: string, answer: Option<string>, parses: bool) returns (r: Delivered)
      modifies this
      ensures Turnout(Data(), r) == OnUpdate(old(Data()), u, firstName, answer, parses)
    {
      match HandlerFor(stage, u)
      case Unhandled => r := Ignored;
      case StartHandler =>
        if parses {
          r := Sent(Reply(CannedText(Greeting(firstName)), NewMessage([]), Canned(Greeting(firstName))));
          transcript := Some([]);
          stage := Some(Initial);
        } else {
          r := FellBack(PlainTextFallback(lastResponse));
        }
      case HelpHandler =>
        if parses {
          r := Sent(Reply(CannedText(HelpText), NewMessage([]), Canned(HelpText)));
        } else {
          r := FellBack(PlainTextFallback(lastResponse));
        }
      case CancelHandler =>
        if parses {
          r := Sent(Reply(CannedText(CancelText), NewMessage([]), Canned(CancelText)));
          stage := None;
        } else {
          r := FellBack(PlainTextFallback(lastResponse));
        }
      case TextHandler(s) =>
        var o := HandleText(s, u.msg, answer);
        r := Deliver(o, parses);
      case CallbackHandler =>
        var o := ButtonCallback(u.data, answer);
        r := Deliver(o, parses);
    }
  }
}
