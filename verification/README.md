# Bali travel bot: a Dafny model

`bot.py` is a Telegram bot that plans a family holiday in Bali. It
combines a language model with fixed replies. This project models its
deterministic core in Dafny and proves properties of that model:

- **Markup sanitizer.** `convert_to_html` turns the assistant's
  markdown-ish answer into the small HTML subset Telegram accepts.
  - Unsupported block tags become bold.
  - `**…**`, `*…*`, triple-backtick and single-backtick spans become
    `<b>`, `<i>` and `<code>`.
  - Dash bullets become `• `.
  - A whitelist pass deletes every other tag.
  - A fix-up loop appends missing closing tags.

  `error_handler`'s plain-text degrade deletes every `<…>`. Each
  regular-expression substitution is a scanner that walks the text the
  way `re.sub` does (modules `Markup`, `Bullets`, `Strip`). The pipeline
  is the method `Sanitizer.ConvertToHtml`. It is specified by the
  function `Sanitizer.Converted`.
- **Routing.** Module `Routing` holds the pure decisions:
  - the five conversation stages;
  - the keyword tests on the user's text and on the stored hints;
  - the fixed inline keyboards;
  - which branch of `button_callback` a callback id takes;
  - the stage each handler returns;
  - the choice of canned flight text.
- **Dialogue.** Module `Bot` models each handler as a function. It maps
  the session's data before an update to the data after it and the
  handler's outcome: a reply with the next stage, or an exception. The
  handlers are:
  - the five text handlers;
  - each branch of `button_callback`;
  - `start`, `help` and `cancel`;
  - the `ConversationHandler`'s dispatch;
  - `error_handler`'s degrade.

  The class `Bot.Session` holds `context.user_data` and the conversation
  memory as fields. Its methods update those fields in place. Each method
  is proved to do exactly what its function says.

The language model is an oracle. Each update carries `answer`, which is
what `conversation.predict` would return this time (`None` means the call
raises). Each update also carries `parses`, which says whether Telegram
accepts the reply's HTML. The user's first name is a parameter of
`/start`.

## Model

| member | source | states |
|---|---|---|
| Markup.RewriteLeavesNoMatch | bot.py:47-51 | after one substitution its pattern no longer matches anywhere, and a pattern that was absent stays absent |
| Markup.UnsupportedTagsGone | bot.py:44-51 | after the loop, no opening form (any attributes, any case) and no closing form of h1-h6, div, span or p is left |
| Markup.RewriteKeepsHead | bot.py:49-51 | a substitution keeps the text up to and including the first `<` |
| Markup.NoMatchKept | bot.py:49-51 | where a pattern matches nowhere, its substitution leaves the text unchanged |
| Markup.NoUnsupportedKept | bot.py:47-51 | a text in which none of the eighteen patterns matches goes through the loop unchanged |
| Markup.BoldTagsOnlyNoMatch | bot.py:44-51 | where every `<` is last or followed by `<`, `b` or `/b`, none of the patterns matches |
| Markup.PreIsParagraph | bot.py:49 | `<pre>` is an opening form of `p` for `<p[^>]*>` |
| Markup.NoParagraphNoPre | bot.py:49 | where `<p[^>]*>` matches nowhere, no `<pre>` occurs |
| Markup.SpanEnd | bot.py:54-63 | where the lazy group `(.*?)` stops: the closing delimiter follows there, within the line unless DOTALL |
| Markup.SpanEndFound | bot.py:54-63 | the index found holds the delimiter, has no newline before it unless DOTALL, and no earlier index holds the delimiter |
| Markup.SpanEndNotFound | bot.py:54-63 | when no end is found, no reachable index holds the delimiter |
| Markup.SpanSplits | bot.py:54-63 | a span found at the front is delimiter, shortest content, delimiter, rest |
| Markup.SpansKeepHead | bot.py:54-63 | a span pass keeps the text before the first delimiter character |
| Markup.SpanPassCounts | bot.py:54-63 | each span pass adds one opening and one closing tag of its kind per span, and keeps the count of every other tag |
| Markup.SpanPassKeepsBalance | bot.py:54-63 | each span pass keeps every kind's opening-minus-closing difference |
| Markup.KindCounts | bot.py:72 | one kind's tag occurs in another kind's tag only when the kinds are equal |
| Bullets.SpaceRun | bot.py:66 | the greedy `\s*`: all whitespace up to the first non-whitespace |
| Bullets.ContentEnd | bot.py:66 | the lazy `(.*?)$` under MULTILINE stops at the first newline or at the end |
| Bullets.BulletsKeepHead | bot.py:66 | off a line start the pass copies everything through the first newline |
| Bullets.BulletsKeepCounts | bot.py:66 | the bullet pass keeps the count of every whitespace-free tag |
| Bullets.BulletLine | bot.py:66 | a one-line item `- x`, with x not starting with whitespace, becomes `• x` |
| Bullets.NoDashKept | bot.py:66 | a text without `-` holds no bullet and is left unchanged |
| Strip.TagEnd | bot.py:69 | a match `<[^>]*>` runs to the first `>` after the `<` |
| Strip.StripLeavesOnlyAllowed | bot.py:69 | after the whitelist pass, every `<` with a `>` after it starts one of the ten allowed tags |
| Strip.OnlyAllowedKept | bot.py:69 | a text holding only allowed tags is left unchanged |
| Strip.StripDisallowedIdempotent | bot.py:69 | the whitelist pass is idempotent |
| Strip.StripCountAtMost | bot.py:69 | the whitelist pass never adds an occurrence of a tag |
| Strip.StripKeepsHead | bot.py:69 | both tag passes keep the text before the first `<` |
| Strip.StripTagsLeavesNoTag | bot.py:780 | after the degrade, no `<` comes before any `>` |
| Strip.TagFreeMeans | bot.py:780 | the recursive tag-free test means no `<` before any `>` |
| Strip.TagFreeKept | bot.py:780 | a tag-free text is left unchanged by the degrade |
| Strip.StripTagsIdempotent | bot.py:780 | the degrade applied twice equals applied once |
| Strip.NoCloserKept | bot.py:69 | a text without `>` is left alone by both tag passes |
| Sanitizer.BalanceTags | bot.py:72-79 | the fix-up loop appends only closing tags, keeps every opening count, and raises each closing count to the larger of the two counts |
| Sanitizer.AllClosersCounts | bot.py:72-79 | the closers appended by the fix-up give each kind exactly its missing closing tags |
| Sanitizer.ClosersCounts | bot.py:72-79 | after `n` iterations, the kinds handled so far have their missing closers and the opening counts are unchanged |
| Sanitizer.ConvertToHtml | bot.py:41-80 | the pipeline's result equals `Converted`; for b, i, code and pre, opening count ≤ closing count; no `<pre>` |
| Sanitizer.ConvertedBalanced | bot.py:41-80 | for every tag kind, opening count ≤ closing count in the output |
| Sanitizer.ConvertedKeepsPrefix | bot.py:72-79 | the text before the fix-up is a prefix of the output, with the same opening counts |
| Sanitizer.ConvertedNoPre | bot.py:44-80 | the output never holds an opening `<pre>` |
| Sanitizer.CleanedNoPre | bot.py:44-69 | no `<pre>` survives the unsupported-tag loop, and no later pass makes one |
| Sanitizer.SpannedKeepsPre | bot.py:54-63 | the span passes make no `<pre>` |
| Sanitizer.CleanedOnlyAllowed | bot.py:47-69 | before the fix-up, every `<` with a `>` after it starts an allowed tag |
| Sanitizer.CleanedPlain | bot.py:44-66 | a text without `*`, backtick, `-` or any of the eighteen patterns reaches the whitelist pass unchanged |
| Sanitizer.NoClosersNeeded | bot.py:72-79 | where no kind has more opening than closing tags, the fix-up appends nothing |
| Sanitizer.ConvertedFixedPoint | bot.py:41-80 | already-clean text is returned unchanged: no `*`, backtick, `-` or unsupported tag, only allowed tags, and closes ≥ opens per kind |
| Sanitizer.ConvertedUnclosedBold | bot.py:41-80 | `<b>x<` becomes `<b>x<</b>` for every x free of `<`, `>`, `*`, backtick and `-` |
| Sanitizer.ConvertedStrayCloser | bot.py:41-80 | `<b>x<</b>` becomes `<b>x</b>` for the same x |
| Sanitizer.ConvertedNotIdempotent | bot.py:41-80 | applying convert_to_html twice to `<b>x<` differs from applying it once |
| Sanitizer.ConvertedNotOnlyAllowed | bot.py:69-79 | the output for `<b>x<` holds a `<…>` that is not an allowed tag |
| Routing.InquiryIgnoresCase | bot.py:184-185 | a keyword in any capitalisation makes the message an opening request |
| Routing.ShortIsNoInquiry | bot.py:184-185 | a message shorter than every keyword is no opening request |
| Routing.PlannedTripIsThreeConjuncts | bot.py:229-230 | the canned three-area test holds iff all three conjuncts hold; the `any(...)` is redundant |
| Routing.SafetyTestMeans | bot.py:457-458 | the safety test holds iff the joined hints contain "safe for families" or "safety" |
| Routing.SafetyPromptIsSafetyHint | bot.py:384-412 | the hint stored on picking an area satisfies the later safety test |
| Routing.SafetyPromptMentionsSafety | bot.py:385-412 | the hint stored on picking an area contains "safe for families" |
| Routing.SafetyHintKept | bot.py:458 | once the safety test holds, more hints keep it holding |
| Routing.FlightAreaDefault | bot.py:619-661 | with nothing selected, the flight text is Uluwatu's |
| Routing.FlightAreaOfArea | bot.py:623-661 | a picked area with no resort gets its own flights |
| Routing.FlightAreaOfUbudResort | bot.py:623 | an Ubud resort, with no area picked or with Ubud picked, gets Ubud's flights |
| Routing.FlightAreaOfSeminyakResort | bot.py:642 | a Seminyak resort, with no area picked or with Seminyak picked, gets Seminyak's flights (a picked Ubud wins, see `FlightAreaUbudFirst`) |
| Routing.FlightAreaOfUluwatuResort | bot.py:661 | an Uluwatu resort, with no area picked or with Uluwatu picked, gets Uluwatu's flights (a picked Ubud or Seminyak wins) |
| Routing.FlightAreaUbudFirst | bot.py:623 | a picked Ubud wins whatever the resort |
| Routing.ResortKeyboardIsGeneral | bot.py:283-300 | for no destination or an area id, the resort-stage menu is the general one, `{all_resorts, more_info}` |
| Routing.GeneralResortIds | bot.py:297-300 | the general resort menu offers `all_resorts` and `more_info` |
| Routing.ClassifyTopicsAndAreas | bot.py:370-379 | a topic or area id takes its own branch, and the branch's id is that id |
| Routing.ClassifySuggestions | bot.py:455 | a suggestion id takes the suggestion branch |
| Routing.ClassifyResorts | bot.py:531 | every resort id takes the resort branch |
| Routing.ClassifyFollowUps | bot.py:614 | every follow-up id takes the follow-up branch |
| Routing.CallbackFlightOptionsOnlyByResort | bot.py:612-763 | a callback returns FLIGHT_OPTIONS iff it picks a resort; lines 762-763 are never reached |
| Routing.TopicStage | bot.py:758-759 | topic buttons return DESTINATION_DETAILS |
| Routing.GeneralResortMenuStage | bot.py:760-761 | `all_resorts` and `more_info` return RESORT_SELECTION |
| Routing.GenericStage | bot.py:743-765 | every other unrecognised id returns ITINERARY |
| Routing.TextStageAdvances | bot.py:221-354 | text moves one stage forward and stays at ITINERARY |
| Routing.TextStagesIndex | bot.py:221-354 | `n` messages from any stage move `n` stages on, capped at ITINERARY |
| Bot.Predicted | bot.py:196-747 | `predict` answers iff a conversation exists and the model answers |
| Bot.Remember | bot.py:196-747 | an answered call appends exactly the prompt and its answer to the memory; a failed one appends nothing |
| Bot.HandlerFor | bot.py:797-826 | `/start` only when idle, `/cancel` only in a conversation, `/help` always, text to the stage's handler, callbacks in every stage but INITIAL |
| Bot.PlainTextFallback | bot.py:776-787 | the degrade is the apology followed by the stored response, or the default, with every tag removed |
| Bot.TextStep | bot.py:174-354 | a text handler replies iff the model answers, records the exchange, stores the reply, moves one stage on, and keeps hints and selections |
| Bot.TextKeepsSelections | bot.py:174-354 | a text handler never changes the stage, hints, destination or resort |
| Bot.IntakeCannedIff | bot.py:184-221 | the intake reply is canned iff a keyword occurs; the model is asked either way; the message is kept as the query |
| Bot.OverviewCannedIff | bot.py:229-266 | the three-area reply is canned iff dates, party and budget are all mentioned |
| Bot.ResortMenuIsGeneral | bot.py:283-300 | in a valid session the resort-stage reply carries the general menu |
| Bot.AreaStep | bot.py:379-452 | an area button selects that area, appends one hint containing "safe for families", asks it, and shows the canned guide whatever the model says |
| Bot.SuggestStep | bot.py:455-528 | a suggestion shows the canned shortlist and stores one more hint iff a safety hint exists, else raises and changes nothing |
| Bot.ResortStep | bot.py:530-612 | a resort button selects it; three resorts get canned details without the model, the others the converted answer |
| Bot.FollowUpStep | bot.py:614-741 | a follow-up ends in ITINERARY; `view_flights` shows the canned flights of `FlightArea` without the model |
| Bot.AreaButtons | bot.py:379-528 | area and suggestion ids reach their branches |
| Bot.ResortButtons | bot.py:531 | resort ids reach the resort branch |
| Bot.FollowUpButtons | bot.py:614 | follow-up ids reach the follow-up branch |
| Bot.CallbackStageAgrees | bot.py:452-765 | a callback's reply goes to `CallbackStage` and the stage is otherwise kept |
| Bot.ActionStageAgrees | bot.py:452-765 | every branch keeps the stage and replies with the branch's stage |
| Bot.ActionKeepsInvariants | bot.py:366-528 | every branch appends at most one hint, changes the destination only by picking an area, keeps the memory, and keeps the session valid |
| Bot.UpdateKeepsInvariants | bot.py:366-513 | every update keeps the session valid and only appends hints |
| Bot.RunKeepsInvariants | bot.py:366-513 | along any run of updates the session stays valid and the hints only grow |
| Bot.ResortMenuAfterAnyRun | bot.py:285-295 | after any run, the resort-stage menu is the general one, so the `punta_cana` and `florida` menus are never shown |
| Bot.RestartKeepsUserData | bot.py:141-153 | `/start` only installs a new conversation and keeps every other key; in a conversation it is ignored |
| Bot.CancelKeepsUserData | bot.py:164-171 | `/cancel` only ends the conversation; outside one it is ignored |
| Bot.RefusedReplyFallsBack | bot.py:768-787 | when Telegram refuses the HTML, the stage stays and the user gets the apology with a tag-free copy of the stored response |
| Bot.SentAnswersBalanced | bot.py:41-80 | a sent reply holding the model's answer is that answer converted, with no kind having more openings than closings, and no `<pre>` |
| Bot.GeneratedIsConverted | bot.py:201-750 | every sent reply holding the model's answer is that answer after `convert_to_html` |
| Bot.TextGenerated | bot.py:201-347 | a text handler's model answer is converted |
| Bot.ActionGenerated | bot.py:600-750 | a button's model answer is converted |
| Bot.FreshIsValid | bot.py:366-367 | a new user's session is valid, idle and without hints |
| Bot.Session.constructor | bot.py:366-367 | a new session is empty |
| Bot.Session.Predict | bot.py:196-747 | the call's result is `Predicted`, and only the memory changes, by `Remember` |
| Bot.Session.Respond | bot.py:196-253 | asking, replying and storing `last_response` follow `Answering` |
| Bot.Session.Present | bot.py:604-733 | a canned reply stores `last_response` |
| Bot.Session.HandleInitialQuery | bot.py:174-221 | the new state and outcome are `OnInitialQuery` of the old state |
| Bot.Session.HandleDestinationDetails | bot.py:223-266 | the new state and outcome are `OnDestinationDetails` of the old state |
| Bot.Session.HandleResortSelection | bot.py:268-304 | the new state and outcome are `OnResortSelection` of the old state |
| Bot.Session.HandleFlightOptions | bot.py:306-328 | the new state and outcome are `OnFlightOptions` of the old state |
| Bot.Session.HandleItinerary | bot.py:330-354 | the new state and outcome are `OnItinerary` of the old state |
| Bot.Session.HandleText | bot.py:800-818 | the stage's text handler, as `OnText` |
| Bot.Session.AskAbout | bot.py:746-765 | the shared tail of `button_callback`, as `OnPrompt` |
| Bot.Session.ChooseTopic | bot.py:370-378 | a topic button, as `OnTopic` |
| Bot.Session.ChooseArea | bot.py:379-452 | an area button, as `OnArea` |
| Bot.Session.ShowShortlist | bot.py:455-528 | a suggestion button, as `OnSuggest` |
| Bot.Session.ChooseResort | bot.py:530-612 | a resort button, as `OnResort` |
| Bot.Session.AnswerFollowUp | bot.py:614-741 | a follow-up button, as `OnFollowUp` |
| Bot.Session.ButtonCallback | bot.py:357-765 | `button_callback`, as `OnCallback` |
| Bot.Session.TakeAction | bot.py:369-765 | the branch for a recognised button, as `OnAction` |
| Bot.Session.Deliver | bot.py:768-787 | sending the reply moves the stage, or the degrade is sent and the stage stays, as `Settle` |
| Bot.Session.Route | bot.py:797-826 | one update through the dispatch, as `OnUpdate` |

## Where the code and its description differ

The model follows the code in each of these cases.

- **Balance.** The fix-up only adds closing tags for a surplus of
  openings. So the output has closes ≥ opens for each of b, i, code and
  pre, not equality: a stray `</b>` in the input is kept.
  `Sanitizer.ConvertedBalanced` states the ≤ that the code gives.
- **Idempotence.** The passes as a whole are not idempotent
  (`Sanitizer.ConvertedNotIdempotent`). `<b>x<` becomes `<b>x<</b>`. On
  a second application the whitelist pass removes the `<</b>`, and the
  fix-up then appends a fresh `</b>`, giving `<b>x</b>`. What does hold:
  - the whitelist pass and the degrade are each idempotent;
  - text holding only allowed tags is a fixed point of the whitelist
    pass;
  - already-clean text is a fixed point of the whole of
    `convert_to_html` (`Sanitizer.ConvertedFixedPoint`).
- **Allowed tags only.** The whitelist pass leaves only allowed tags,
  but the fix-up runs after it and can make a new `<…>` out of a stray
  `<`. So the output of `convert_to_html` can hold a `<…>` that is not
  one of the ten allowed tags: the `<</b>` above
  (`Sanitizer.ConvertedNotOnlyAllowed`). `Sanitizer.CleanedOnlyAllowed`
  states the property for the text before the fix-up.
- **Session changes before a failure.** A branch that selects an area
  or stores a hint does so before it calls the model. When that call
  raises, the change stays.
- **A suggestion without a safety hint** raises at bot.py:747, where
  `prompt` is read but no branch assigned it. It does not fall back to
  the model.
- **Dead and unreachable code:**
  - The FLIGHT_OPTIONS arm at bot.py:762-763 is dead code
    (`Routing.CallbackFlightOptionsOnlyByResort`).
  - The `punta_cana` and `florida` menus can never be shown
    (`Bot.ResortMenuAfterAnyRun`).
  - The `any(...)` test at bot.py:230 adds nothing
    (`Routing.PlannedTripIsThreeConjuncts`).
  - The `if not conversation` branch at bot.py:179-181 never fires after
    `/start`. The model keeps it.
- **Resort ids.** No keyboard in the code offers a resort id. The
  shortlist buttons send `details_N_area`, and that id reaches the
  generic branch. The resort branch is modelled as written anyway.

## Left out

- Telegram transport is not modelled: `reply_text`, `edit_message_text`
  and `query.answer`. What remains is each reply's text, its keyboard,
  and whether it is a new message or an edit.
- The "You selected: …" edits at bot.py:381, 534 and 730 are left out.
  They title-case the id and carry no state.
- The language-model setup and prompt template (bot.py:83-138) are left
  out. `predict` is an oracle answer per update.
- Async execution, per-user isolation, logging and `main`'s polling loop
  are left out. Updates are processed one at a time for one user.
- The test for "Can't parse entities" in `error_handler` (bot.py:773) is
  the boolean `parses`.
- The literal prose of the fixed replies is left out. Each is a
  placeholder keyed by `Bot.CannedReply`. Only the greeting keeps the
  user's first name, which can make Telegram refuse the HTML.
- `str.lower()` and IGNORECASE are modelled only for the characters that
  can change the outcome of the keyword and tag tests. Other Unicode case
  mappings are left out.
- `preferences` holds only `query`. It is a whole new dict, so
  `Bot.UserData.query` models it.
